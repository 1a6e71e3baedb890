/**
 * The older `Conn` of eanalytics_api_py/conn.py: its constructor, and its
 * `download_datamining`, which slices the dates like the conn/ package
 * but checks its arguments in another order, creates the output
 * directory before it looks at the view id, accepts only a view id that
 * is already a string, reads the product index with `(\d)+$`, and
 * converts the JSON reply into CSV through a temporary file.
 *
 * The session it builds is the package's `Connection.Conn` value, with
 * `printLog` false: conn.py configures a logger instead.
 */
module LegacyConn {
  import opened Wrappers
  import opened Text
  import opened PyValue
  import opened Remote
  import opened Slicing
  import LegacyJsonRequest
  import OsHelper
  import JobPoll
  import HeaderNames
  import Connection
  import Datamining

  // ---------------------------------------------------------------
  // The constructor
  // ---------------------------------------------------------------

  const LogLevels: seq<string> := ["DEBUG", "INFO", "WARNING", "ERROR", "CRITICAL"]

  /** Lines 57-63: `log_level` must be a string, and upper-cased one of the five levels. */
  function LogLevel(v: Py): (r: Result<string>)
    ensures !v.PStr? ==> r.Fail? && r.error.kind == TypeError
    ensures v.PStr? ==> (r.Ok? <==> Upper(v.s) in LogLevels)
    ensures v.PStr? && r.Fail? ==> r.error.kind == ValueError
    ensures r.Ok? ==> r.value == Upper(v.s) && r.value in LogLevels
  {
    if !v.PStr? then Raise(TypeError, "log_level should be a string type")
    else if Upper(v.s) !in LogLevels then Raise(ValueError, "Accepted log_level values= DEBUG, INFO, WARNING, ERROR, CRITICAL")
    else Ok(Upper(v.s))
  }

  /** Any spelling of a level is accepted as that level, and an accepted level is accepted again as itself. */
  lemma LogLevelIgnoresCase(v: string)
    requires LogLevel(PStr(v)).Ok?
    ensures LogLevel(PStr(LogLevel(PStr(v)).value)) == LogLevel(PStr(v))
    ensures LogLevel(PStr(Lower(v))) == LogLevel(PStr(v))
  {
    UpperIdempotent(v);
    UpperOfLower(v);
  }

  /** Lines 65-81: the argument checks and the URLs, before the credentials are tried. */
  function Configure(logLevel: Py, gridpool: Py, datacenter: Py, apiKey: Py): (r: Result<Connection.Conn>)
    ensures r.Ok? <==> LogLevel(logLevel).Ok? && gridpool.PStr? && datacenter.PStr? && apiKey.PStr?
    ensures r.Fail? && LogLevel(logLevel).Ok? ==> r.error.kind == TypeError
    ensures r.Ok? ==> r.value.baseUrl == "https://" + gridpool.s + ".api.eulerian." + datacenter.s
    ensures r.Ok? ==> r.value.apiV2 == r.value.baseUrl + "/ea/v2"
    ensures r.Ok? ==> r.value.headers == PDict(map["Authorization" := PStr("Bearer " + apiKey.s)])
    ensures r.Ok? ==> r.value.gridpool == gridpool.s && r.value.datacenter == datacenter.s && r.value.apiKey == apiKey.s
  {
    var _ :- LogLevel(logLevel);
    if !gridpool.PStr? then Raise(TypeError, "gridpool_name should be a string type")
    else if !datacenter.PStr? then Raise(TypeError, "datacenter should be a string type")
    else if !apiKey.PStr? then Raise(TypeError, "api_key should be a string type")
    else
      var baseUrl := "https://" + gridpool.s + ".api.eulerian." + datacenter.s;
      Ok(Connection.Conn(datacenter.s, gridpool.s, baseUrl, baseUrl + "/ea/v2", apiKey.s,
                         PDict(map["Authorization" := PStr("Bearer " + apiKey.s)]), false))
  }

  /** Empty names pass here, where the conn/ package refuses them. */
  lemma EmptyNamesAccepted(apiKey: string)
    ensures Configure(PStr("INFO"), PStr(""), PStr(""), PStr(apiKey)).Ok?
    ensures Connection.Configure(PStr(""), PStr(""), PStr(apiKey), PBool(false)).Fail?
  {
    assert Upper("O") == "O";
    assert Upper("FO") == "FO";
    assert Upper("NFO") == "NFO";
    assert Upper("INFO") == "INFO";
  }

  /** The URL `__check_credentials` asks. */
  function AuthTreeUrl(c: Connection.Conn): string
  {
    c.apiV2 + "/er/account/authtree.json"
  }

  /** `__init__` (lines 50-84): every call checks the credentials; there is no cache. */
  function Open(logLevel: Py, gridpool: Py, datacenter: Py, apiKey: Py, replies: seq<Reply>): (o: Outcome<Connection.Conn>)
    ensures Configure(logLevel, gridpool, datacenter, apiKey).Fail? ==> o.trace == [] && o.rest == replies
    ensures Configure(logLevel, gridpool, datacenter, apiKey).Ok? ==>
      o.trace == [Send(Request("get", AuthTreeUrl(Configure(logLevel, gridpool, datacenter, apiKey).value), PNone, PNone))]
    ensures o.result.Ok? ==> o.result == Configure(logLevel, gridpool, datacenter, apiKey)
    ensures o.result.Ok? ==> replies != [] && o.rest == replies[1..]
  {
    match Configure(logLevel, gridpool, datacenter, apiKey)
    case Fail(e) => Outcome(Fail(e), [], replies)
    case Ok(c) =>
      var check := LegacyJsonRequest.Call(PStr("get"), PStr(AuthTreeUrl(c)), c.headers, PNone, PNone, replies);
      Outcome(if check.result.Ok? then Ok(c) else Fail(check.result.error), check.trace, check.rest)
  }

  /** `get_view_id_name_map` (lines 841-874): the package's view map, through `__request_to_json`. */
  function GetViewIdNameMap(c: Connection.Conn, websiteName: Py, replies: seq<Reply>): (o: Outcome<map<Py, Py>>)
    ensures !websiteName.PStr? ==> o.result.Fail? && o.result.error.kind == TypeError && o.trace == []
    ensures o.result.Ok? ==> replies != [] && replies[0].Json? && o.result == Connection.ViewMap(replies[0].body)
  {
    if !websiteName.PStr? then Outcome(Raise(TypeError, "website_name should be a string"), [], replies)
    else
      var url := c.apiV2 + "/ea/" + websiteName.s + "/db/view/get_all_name.json";
      var call := LegacyJsonRequest.Call(PStr("get"), PStr(url), c.headers, PNone, PNone, replies);
      match call.result
      case Fail(e) => Outcome(Fail(e), call.trace, call.rest)
      case Ok(j) => Outcome(Connection.ViewMap(j), call.trace, call.rest)
  }

  // ---------------------------------------------------------------
  // download_datamining: the checks
  // ---------------------------------------------------------------

  /** Lines 534-570: the checks, in the order conn.py makes them. */
  function Validate(websiteName: Py, dmType: Py, payload: Py, nDays: Py, directory: Py,
                    parse: string -> Option<int>): (r: Result<Datamining.Job>)
    ensures !websiteName.PStr? ==> r.Fail? && r.error.kind == TypeError
    ensures websiteName.PStr? && !(dmType.PStr? && dmType.s in Datamining.AllowedTypes) ==>
      r.Fail? && r.error.kind == ValueError
    ensures Truthy(directory) && !directory.PStr? ==> r.Fail?
    ensures r.Ok? ==> Datamining.WellTyped(websiteName, dmType, payload, nDays) && IntOf(nDays) <= MaxDeltaDays
    ensures Datamining.WellTyped(websiteName, dmType, payload, nDays) && dmType.s in Datamining.AllowedTypes
            && (!Truthy(directory) || directory.PStr?)
            && Truthy(Datamining.Member(payload.entries, "date-from")) && Truthy(Datamining.Member(payload.entries, "date-to"))
            && IntOf(nDays) > MaxDeltaDays
            ==> r.Fail? && r.error.kind == OverflowError
  {
    if !websiteName.PStr? then Raise(TypeError, "website_name should be a str type")
    else if !(dmType.PStr? && dmType.s in Datamining.AllowedTypes) then Raise(ValueError, "datamining_type not allowed")
    else if !IsInt(nDays) || IntOf(nDays) < 0 then Raise(TypeError, "n_days_slice should be a positive integer")
    else if !payload.PDict? || payload.entries == map[] then Raise(TypeError, "payload should be a non-empty dict")
    else if Truthy(directory) && !directory.PStr? then Raise(TypeError, "output_directory should be a str type")
    else if !Truthy(Datamining.Member(payload.entries, "date-from")) then
      Raise(ValueError, "missing parameter=date-from in payload object")
    else if !Truthy(Datamining.Member(payload.entries, "date-to")) then
      Raise(ValueError, "missing parameter=date-from in payload object")
    else if IntOf(nDays) > MaxDeltaDays then
      Raise(OverflowError, "days=" + NatToString(IntOf(nDays)) + "; must have magnitude <= 999999999")
    else
      var first :- Datamining.ParseDate(payload.entries["date-from"], parse);
      var last :- Datamining.ParseDate(payload.entries["date-to"], parse);
      if first > last then Raise(ValueError, "'date-from' cannot occur later than 'date-to'")
      else Ok(Datamining.Job(websiteName.s, dmType.s, payload.entries, IntOf(nDays), first, last))
  }

  /**
   * Where the output directory is fine, both versions accept the same
   * calls with the same job; only the order of the checks differs, and
   * conn.py builds the `timedelta` here where the conn/ package does it
   * after the view id.
   */
  lemma ValidateAgrees(websiteName: Py, dmType: Py, payload: Py, nDays: Py, directory: Py,
                       parse: string -> Option<int>)
    requires !Truthy(directory) || directory.PStr?
    ensures Validate(websiteName, dmType, payload, nDays, directory, parse).Ok?
        <==> Datamining.Validate(websiteName, dmType, payload, nDays, parse).Ok?
             && Datamining.Validate(websiteName, dmType, payload, nDays, parse).value.step <= MaxDeltaDays
    ensures Validate(websiteName, dmType, payload, nDays, directory, parse).Ok? ==>
      Validate(websiteName, dmType, payload, nDays, directory, parse)
      == Datamining.Validate(websiteName, dmType, payload, nDays, parse)
  {
  }

  /** A `datamining_type` that is not a string is a ValueError here, a TypeError in the conn/ package. */
  lemma NonStringTypeIsValueError(websiteName: string, nDays: nat, payload: map<string, Py>, parse: string -> Option<int>)
    ensures Validate(PStr(websiteName), PInt(3), PDict(payload), PInt(nDays), PNone, parse).error.kind == ValueError
    ensures Datamining.Validate(PStr(websiteName), PInt(3), PDict(payload), PInt(nDays), parse).error.kind == TypeError
  {
  }

  /** Lines 576-590: only a string of one digit passes; `re.match` refuses anything but a string. */
  function ViewId(payload: map<string, Py>): (r: Result<string>)
    ensures "view-id" !in payload ==> r == Ok("0")
    ensures "view-id" in payload && !payload["view-id"].PStr? ==> r.Fail? && r.error.kind == TypeError
    ensures "view-id" in payload && payload["view-id"].PStr? ==>
      (r.Ok? <==> Datamining.OneDigit(payload["view-id"].s))
    ensures r.Ok? ==> Datamining.OneDigit(r.value)
    ensures "view-id" in payload && payload["view-id"].PStr? && r.Fail? ==>
      r.error == Error(ValueError, "Incorrect view-id")
  {
    if "view-id" !in payload then Ok("0")
    else
      var v := payload["view-id"];
      if !v.PStr? then Raise(TypeError, "expected string or bytes-like object")
      else if Datamining.OneDigit(v.s) then Ok(v.s)
      else Raise(ValueError, "Incorrect view-id")
  }

  /** Every view id this version accepts, the conn/ package accepts too, but not the other way round. */
  lemma ViewIdStricter(payload: map<string, Py>)
    ensures ViewId(payload).Ok? ==> Datamining.ViewId(payload) == ViewId(payload)
    ensures ViewId(map["view-id" := PInt(5)]).Fail? && Datamining.ViewId(map["view-id" := PInt(5)]).Ok?
  {
    Datamining.IntegerViewIds(map["view-id" := PInt(5)], 5);
  }

  /**
   * Lines 569-573: a falsy directory becomes "" (the working directory);
   * any other one is made when it does not exist.
   */
  function OutputDirectory(directory: Py, disk: Disk): (r: (string, seq<Event>, Disk))
    ensures !Truthy(directory) ==> r == ("", [], disk)
    ensures Truthy(directory) && directory.PStr? ==> r.0 == directory.s && Exists(r.2, directory.s)
    ensures r.2.files == disk.files && disk.dirs <= r.2.dirs
  {
    if !Truthy(directory) || !directory.PStr? then ("", [], disk)
    else if Exists(disk, directory.s) then (directory.s, [], disk)
    else (directory.s, [MakeDir(directory.s)], Disk(disk.files, disk.dirs + {directory.s}))
  }

  // ---------------------------------------------------------------
  // The inner `download`: one slice
  // ---------------------------------------------------------------

  /** The request of lines 426-441: download.json with its parameters. */
  function DownloadRequest(st: Datamining.Setup, jobrunId: Py): Request
  {
    Request("get", Datamining.ReportUrl(st, "download.json"),
            PDict(map["output-as-csv" := PInt(0), "jobrun-id" := jobrunId]), PNone)
  }

  /** `ijson.items(f, "data.<key>")`: the value at `data.<key>`, when there is one. */
  function DataValue(body: Py, key: string): (r: Option<Py>)
    ensures r.Some? <==> body.PDict? && "data" in body.entries && body.entries["data"].PDict?
                         && key in body.entries["data"].entries
    ensures r.Some? ==> r.value == body.entries["data"].entries[key]
  {
    if body.PDict? && "data" in body.entries && body.entries["data"].PDict?
       && key in body.entries["data"].entries
    then Some(body.entries["data"].entries[key])
    else None
  }

  /**
   * Lines 519-522: `for rows in rows_object: for row in rows`. Without
   * `data.rows` nothing is visited; otherwise the rows are what iterating
   * its value visits, and a value that cannot be iterated is a TypeError.
   */
  function RowItems(rows: Option<Py>): (r: Result<seq<Py>>)
    ensures rows.None? ==> r == Ok([])
    ensures rows.Some? && rows.value.PList? ==> r == Ok(rows.value.items)
    ensures rows.Some? && rows.value.PStr? ==> r.Ok? && |r.value| == |rows.value.s|
    ensures r.Fail? ==> rows.Some? && r.error.kind == TypeError
    ensures rows.Some? && (rows.value.PNone? || rows.value.PInt? || rows.value.PBool? || rows.value.PFloat? || rows.value.PNaN?) ==> r.Fail?
  {
    match rows
    case None => Ok([])
    case Some(v) => Items(v)
  }

  /** What `for header in headers` iterates without a header: an empty string or dict. */
  predicate NoHeaders(v: Py)
  {
    v == PStr("") || v == PDict(map[])
  }

  /**
   * Lines 469-513: the header lines. No `data.fields`: none. A list: one
   * row of renamed names. An empty string or dict: one empty row. Anything
   * else yields items that cannot be indexed by "name", or cannot be
   * iterated at all.
   */
  function HeaderLines(fields: Option<Py>): (r: Result<seq<Py>>)
    ensures fields.None? ==> r == Ok([])
    ensures r.Ok? && fields.Some? ==> (fields.value.PList? || NoHeaders(fields.value)) && |r.value| == 1
    ensures fields.Some? && NoHeaders(fields.value) ==> r == Ok([PList([])])
    ensures fields.Some? && !fields.value.PList? && !NoHeaders(fields.value) ==> r.Fail? && r.error.kind == TypeError
  {
    match fields
    case None => Ok([])
    case Some(v) =>
      if NoHeaders(v) then Ok([PList([])])
      else if !v.PList? then Raise(TypeError, "string indices must be integers")
      else
        var columns :- HeaderNames.HeaderColumns(HeaderNames.Legacy, v.items);
        Ok([Datamining.HeaderRow(columns)])
  }

  /** The temporary file the raw reply is saved to. */
  function TempPath(path: string): string
  {
    path + ".tmp"
  }

  /**
   * Lines 426-525: the raw reply is saved to `{path}.tmp`, the gzip file
   * is opened, the headers and then the rows are copied, and the
   * temporary file is removed once everything is written.
   */
  function Transcoded(req: Request, path: string, disk: Disk, replies: seq<Reply>): (r: Run<()>)
    ensures TempPath(path) in r.disk.files <==> r.result.Fail? || TempPath(path) == path
    ensures r.result.Ok? ==> path in r.disk.files
    ensures r.disk.dirs == disk.dirs
  {
    var tmp := Opened(disk, TempPath(path));
    if |replies| == 0 then Run(Raise(NoReply, "no reply"), [Send(req)], [], tmp)
    else
      var d := Opened(tmp, path);
      match Datamining.Parsed(replies[0])
      case Fail(e) => Run(Fail(e), [Send(req), WriteFile(path, [])], replies[1..], d)
      case Ok(body) =>
        match HeaderLines(DataValue(body, "fields"))
        case Fail(e) => Run(Fail(e), [Send(req), WriteFile(path, [])], replies[1..], d)
        case Ok(head) =>
          match RowItems(DataValue(body, "rows"))
          case Fail(e) => Run(Fail(e), [Send(req), WriteFile(path, head)], replies[1..], d)
          case Ok(rows) =>
            var k := Datamining.WritablePrefix(rows);
            if k == |rows| then
              Run(Ok(()), [Send(req), WriteFile(path, head + rows)], replies[1..],
                  Disk(d.files - {TempPath(path)} + {path}, d.dirs))
            else
              Run(Raise(CsvError, "iterable expected"), [Send(req), WriteFile(path, head + rows[..k])], replies[1..], d)
  }

  /** Lines 426-525 as they run: the header loop, then the row loop. */
  method Transcode(req: Request, path: string, disk: Disk, replies: seq<Reply>) returns (r: Run<()>)
    ensures r == Transcoded(req, path, disk, replies)
  {
    var tmp := Opened(disk, TempPath(path));
    if |replies| == 0 {
      return Run(Raise(NoReply, "no reply"), [Send(req)], [], tmp);
    }
    var d := Opened(tmp, path);
    var body := Datamining.Parsed(replies[0]);
    if body.Fail? {
      return Run(Fail(body.error), [Send(req), WriteFile(path, [])], replies[1..], d);
    }
    var head: seq<Py> := [];
    var fields := DataValue(body.value, "fields");
    if fields.Some? && NoHeaders(fields.value) {
      head := [PList([])];
    } else if fields.Some? {
      if !fields.value.PList? {
        return Run(Raise(TypeError, "string indices must be integers"), [Send(req), WriteFile(path, [])], replies[1..], d);
      }
      var columns := Datamining.CollectColumns(HeaderNames.Legacy, fields.value.items);
      if columns.Fail? {
        return Run(Fail(columns.error), [Send(req), WriteFile(path, [])], replies[1..], d);
      }
      head := [Datamining.HeaderRow(columns.value)];
    }
    var rows := RowItems(DataValue(body.value, "rows"));
    if rows.Fail? {
      return Run(Fail(rows.error), [Send(req), WriteFile(path, head)], replies[1..], d);
    }
    var lines, ok := Datamining.CopyRows(head, rows.value);
    if !ok {
      return Run(Raise(CsvError, "iterable expected"), [Send(req), WriteFile(path, lines)], replies[1..], d);
    }
    assert rows.value[..|rows.value|] == rows.value;
    r := Run(Ok(()), [Send(req), WriteFile(path, lines)], replies[1..], Disk(d.files - {TempPath(path)} + {path}, d.dirs));
  }

  /** Without `data.fields` no header row is written: the file holds the rows alone. */
  lemma NoFieldsNoHeaderRow(req: Request, path: string, disk: Disk, replies: seq<Reply>)
    requires replies != [] && replies[0].Json? && DataValue(replies[0].body, "fields").None?
    requires Transcoded(req, path, disk, replies).result.Ok?
    ensures RowItems(DataValue(replies[0].body, "rows")).Ok?
    ensures Transcoded(req, path, disk, replies).trace
         == [Send(req), WriteFile(path, RowItems(DataValue(replies[0].body, "rows")).value)]
  {
    var rows := RowItems(DataValue(replies[0].body, "rows"));
    if rows.Ok? {
      assert [] + rows.value == rows.value;
    }
  }

  /**
   * A `data.rows` that is null, a number or a boolean cannot be iterated:
   * the header row is written, then the conversion stops with a TypeError
   * and the temporary file stays.
   */
  lemma ScalarRowsRefused(req: Request, path: string, disk: Disk, replies: seq<Reply>)
    requires replies != [] && replies[0].Json?
    requires HeaderLines(DataValue(replies[0].body, "fields")).Ok?
    requires DataValue(replies[0].body, "rows").Some?
    requires var v := DataValue(replies[0].body, "rows").value; v.PNone? || v.PInt? || v.PBool? || v.PFloat? || v.PNaN?
    ensures var r := Transcoded(req, path, disk, replies);
      r.result.Fail? && r.result.error.kind == TypeError
      && r.trace == [Send(req), WriteFile(path, HeaderLines(DataValue(replies[0].body, "fields")).value)]
      && TempPath(path) in r.disk.files
  {
  }

  /** A string under `data.rows` is iterated character by character: one row per character. */
  lemma StringRowsAreCharacters(req: Request, path: string, disk: Disk, replies: seq<Reply>, s: string)
    requires replies != [] && replies[0].Json? && DataValue(replies[0].body, "fields").None?
    requires DataValue(replies[0].body, "rows") == Some(PStr(s))
    ensures var r := Transcoded(req, path, disk, replies);
      r.result.Ok? && |r.trace| == 2 && r.trace[1].WriteFile? && |r.trace[1].lines| == |s|
      && forall k | 0 <= k < |s| :: r.trace[1].lines[k] == PStr([s[k]])
  {
    var rows := RowItems(DataValue(replies[0].body, "rows"));
    assert rows.Ok? && |rows.value| == |s|;
    assert forall k | 0 <= k < |s| :: rows.value[k] == PStr([s[k]]) && Datamining.Writable(rows.value[k]);
    assert Datamining.WritablePrefix(rows.value) == |rows.value|;
    assert [] + rows.value == rows.value;
  }

  /**
   * With `data.fields` a list, a completed conversion writes one header
   * row of renamed names (product index read with `(\d)+$`), then the
   * rows unchanged, and leaves no temporary file behind.
   */
  lemma TranscodedFile(req: Request, path: string, disk: Disk, replies: seq<Reply>)
    requires replies != [] && replies[0].Json? && DataValue(replies[0].body, "fields").Some?
    requires DataValue(replies[0].body, "fields").value.PList?
    requires Transcoded(req, path, disk, replies).result.Ok?
    ensures var r := Transcoded(req, path, disk, replies);
      var fields := DataValue(replies[0].body, "fields").value;
      |r.trace| == 2 && r.trace[1].WriteFile? && r.trace[1].path == path
      && |r.trace[1].lines| > 0 && r.trace[1].lines[0].PList?
      && RowItems(DataValue(replies[0].body, "rows")).Ok?
      && r.trace[1].lines[1..] == RowItems(DataValue(replies[0].body, "rows")).value
      && |r.trace[1].lines[0].items| == |fields.items|
      && (forall k | 0 <= k < |fields.items| ::
            HeaderNames.RenameHeader(HeaderNames.Legacy, fields.items[k]) == Ok(r.trace[1].lines[0].items[k].s))
      && (TempPath(path) != path ==> TempPath(path) !in r.disk.files)
  {
    var fields := DataValue(replies[0].body, "fields").value;
    HeaderNames.HeaderColumnsNames(HeaderNames.Legacy, fields.items);
  }

  /** The search, the poll and the download of one slice (lines 387-525). */
  function Fetched(st: Datamining.Setup, s: Span, path: string, disk: Disk, replies: seq<Reply>): (r: Run<()>)
    ensures r.disk.dirs == disk.dirs
    ensures r.result.Ok? ==> path in r.disk.files
  {
    var search := LegacyJsonRequest.Call(PStr("get"), PStr(Datamining.ReportUrl(st, "search.json")), st.conn.headers,
                                         Datamining.SearchParams(st, s), PNone, replies);
    match search.result
    case Fail(e) => Run(Fail(e), search.trace, search.rest, disk)
    case Ok(body) =>
      match Get(body, "jobrun_id")
      case Fail(e) => Run(Fail(e), search.trace, search.rest, disk)
      case Ok(id) =>
        var poll := JobPoll.Polled(
          JobPoll.StatusRequest(JobPoll.Older, Datamining.ReportUrl(st, "status.json"), st.conn.headers,
                                Datamining.StatusParams(id)),
          JobPoll.CompletedRule, JobPoll.WaitSeconds(st.wait), search.rest);
        match poll.result
        case Fail(e) => Run(Fail(e), search.trace + poll.trace, poll.rest, disk)
        case Ok(_) =>
          var dl := Transcoded(DownloadRequest(st, id), path, disk, poll.rest);
          Run(dl.result, search.trace + poll.trace + dl.trace, dl.rest, dl.disk)
  }

  /** The inner `download` (lines 354-527): name the file, return it when it can be reused, else fetch it. */
  function SliceRun(st: Datamining.Setup, s: Span, disk: Disk, replies: seq<Reply>): (r: Run<string>)
    ensures r.result.Ok? ==> Datamining.SlicePath(st, s) == r.result && r.result.value in r.disk.files
    ensures r.disk.dirs == disk.dirs
  {
    match Datamining.SlicePath(st, s)
    case Fail(e) => Run(Fail(e), [], replies, disk)
    case Ok(path) =>
      match OsHelper.IsSkippableRequest(PStr(path), st.overrideFile, disk.files)
      case Fail(e) => Run(Fail(e), [], replies, disk)
      case Ok(skip) =>
        if skip == 1 then Run(Ok(path), [], replies, disk)
        else
          var f := Fetched(st, s, path, disk, replies);
          Run(if f.result.Ok? then Ok(path) else Fail(f.result.error), f.trace, f.rest, f.disk)
  }

  /** A slice whose file exists is reused whenever `override_file` is falsy, whatever its type. */
  lemma FalsyOverrideReuses(st: Datamining.Setup, s: Span, disk: Disk, replies: seq<Reply>)
    requires st.directory.PStr? && !Truthy(st.overrideFile)
    requires PathJoin(st.directory.s, Datamining.FileName(st, s)) in disk.files
    ensures SliceRun(st, s, disk, replies)
         == Run(Ok(PathJoin(st.directory.s, Datamining.FileName(st, s))), [], replies, disk)
  {
  }

  /** Lines 387-525 as they run. */
  method FetchSlice(st: Datamining.Setup, s: Span, path: string, disk: Disk, replies: seq<Reply>) returns (r: Run<()>)
    ensures r == Fetched(st, s, path, disk, replies)
  {
    var search := LegacyJsonRequest.Call(PStr("get"), PStr(Datamining.ReportUrl(st, "search.json")), st.conn.headers,
                                         Datamining.SearchParams(st, s), PNone, replies);
    if search.result.Fail? {
      return Run(Fail(search.result.error), search.trace, search.rest, disk);
    }
    var id := Get(search.result.value, "jobrun_id");
    if id.Fail? {
      return Run(Fail(id.error), search.trace, search.rest, disk);
    }
    var wait := JobPoll.WaitSeconds(st.wait);
    var poll := JobPoll.PollUntilReady(JobPoll.Older, JobPoll.CompletedRule, Datamining.ReportUrl(st, "status.json"),
                                       st.conn.headers, Datamining.StatusParams(id.value), wait, search.rest);
    if poll.result.Fail? {
      return Run(Fail(poll.result.error), search.trace + poll.trace, poll.rest, disk);
    }
    var dl := Transcode(DownloadRequest(st, id.value), path, disk, poll.rest);
    r := Run(dl.result, search.trace + poll.trace + dl.trace, dl.rest, dl.disk);
  }

  /** The inner `download` as it runs. */
  method DownloadSlice(st: Datamining.Setup, s: Span, disk: Disk, replies: seq<Reply>) returns (r: Run<string>)
    ensures r == SliceRun(st, s, disk, replies)
  {
    var path := Datamining.SlicePath(st, s);
    if path.Fail? {
      return Run(Fail(path.error), [], replies, disk);
    }
    var skip := OsHelper.IsSkippableRequest(PStr(path.value), st.overrideFile, disk.files);
    if skip.value == 1 {
      return Run(Ok(path.value), [], replies, disk);
    }
    var f := FetchSlice(st, s, path.value, disk, replies);
    if f.result.Fail? {
      return Run(Fail(f.result.error), f.trace, f.rest, f.disk);
    }
    r := Run(Ok(path.value), f.trace, f.rest, f.disk);
  }

  // ---------------------------------------------------------------
  // download_datamining, start to end
  // ---------------------------------------------------------------

  /** One pass of the slicing loop of lines 595-615. */
  function SliceStep(st: Datamining.Setup): Step
  {
    (s: Span, d: Disk, r: seq<Reply>) => SliceRun(st, s, d, r)
  }

  /** The setup every slice shares, once the checks have passed. */
  function SetupFor(c: Connection.Conn, job: Datamining.Job, vid: string, wait: Py, directory: string,
                    overrideFile: Py, fmt: int -> string): Datamining.Setup
  {
    Datamining.Setup(c, job.site, job.kind, job.payload["view-id" := PStr(vid)], vid, wait, PStr(directory),
                     overrideFile, fmt)
  }

  /**
   * Lines 530-590: the checks, the output directory and the view id, in
   * that order, with what was done to the disk whether or not they pass.
   */
  function Start(c: Connection.Conn, websiteName: Py, dmType: Py, payload: Py, wait: Py, directory: Py,
                 overrideFile: Py, nDays: Py, parse: string -> Option<int>, fmt: int -> string,
                 disk: Disk): (r: Run<Datamining.Plan>)
    ensures r.rest == []
    ensures r.result.Ok? ==> r.result.value.first <= r.result.value.last
    ensures r.result.Ok? ==> r.result.value.made == r.trace && r.result.value.disk == r.disk
    ensures r.result.Ok? <==> Validate(websiteName, dmType, payload, nDays, directory, parse).Ok?
                              && ViewId(Validate(websiteName, dmType, payload, nDays, directory, parse).value.payload).Ok?
    ensures Validate(websiteName, dmType, payload, nDays, directory, parse).Fail? ==> r.trace == [] && r.disk == disk
  {
    match Validate(websiteName, dmType, payload, nDays, directory, parse)
    case Fail(e) => Run(Fail(e), [], [], disk)
    case Ok(job) =>
      var (dir, made, d) := OutputDirectory(directory, disk);
      match ViewId(job.payload)
      case Fail(e) => Run(Fail(e), made, [], d)
      case Ok(vid) =>
        Run(Ok(Datamining.Plan(SetupFor(c, job, vid, wait, dir, overrideFile, fmt), job.first, job.last, job.step,
                               made, d)), made, [], d)
  }

  /** `download_datamining` (lines 308-617): the directory is made before the view id is checked. */
  function Downloaded(c: Connection.Conn, websiteName: Py, dmType: Py, payload: Py, wait: Py, directory: Py,
                      overrideFile: Py, nDays: Py, parse: string -> Option<int>, fmt: int -> string,
                      disk: Disk, replies: seq<Reply>): (r: Run<seq<string>>)
  {
    var start := Start(c, websiteName, dmType, payload, wait, directory, overrideFile, nDays, parse, fmt, disk);
    match start.result
    case Fail(e) => Run(Fail(e), start.trace, replies, start.disk)
    case Ok(plan) =>
      var run := SlicesRun(SliceStep(plan.st), Slices(plan.first, plan.last, plan.step), plan.disk, replies);
      Run(run.result, plan.made + run.trace, run.rest, run.disk)
  }

  /** `download_datamining` as it runs. */
  method DownloadDatamining(c: Connection.Conn, websiteName: Py, dmType: Py, payload: Py, wait: Py,
                            directory: Py, overrideFile: Py, nDays: Py, parse: string -> Option<int>,
                            fmt: int -> string, disk: Disk, replies: seq<Reply>) returns (r: Run<seq<string>>)
    ensures r == Downloaded(c, websiteName, dmType, payload, wait, directory, overrideFile, nDays, parse, fmt,
                            disk, replies)
  {
    var start := Start(c, websiteName, dmType, payload, wait, directory, overrideFile, nDays, parse, fmt, disk);
    if start.result.Fail? {
      return Run(Fail(start.result.error), start.trace, replies, start.disk);
    }
    var p := start.result.value;
    var run := SliceLoop(SliceStep(p.st), p.first, p.last, p.step, p.disk, replies);
    r := Run(run.result, p.made + run.trace, run.rest, run.disk);
  }

  /** A bad view id is reported only after the output directory was made. */
  lemma BadViewIdAfterMkdir(c: Connection.Conn, websiteName: Py, dmType: Py, payload: Py, wait: Py, directory: string,
                            overrideFile: Py, nDays: Py, parse: string -> Option<int>, fmt: int -> string,
                            disk: Disk, replies: seq<Reply>)
    requires directory != "" && !Exists(disk, directory)
    requires Validate(websiteName, dmType, payload, nDays, PStr(directory), parse).Ok?
    requires ViewId(Validate(websiteName, dmType, payload, nDays, PStr(directory), parse).value.payload).Fail?
    ensures var r := Downloaded(c, websiteName, dmType, payload, wait, PStr(directory), overrideFile, nDays, parse,
                                fmt, disk, replies);
      r.result.Fail? && r.trace == [MakeDir(directory)] && directory in r.disk.dirs
  {
  }

  /** With no output directory the files are named relative to the working directory. */
  lemma NoDirectoryBareNames(st: Datamining.Setup, s: Span)
    requires st.directory == PStr("")
    ensures Datamining.SlicePath(st, s) == Ok(Datamining.FileName(st, s))
  {
  }
}
