/**
 * `download_datamining` and `_stream_req` of the conn/ package
 * (eanalytics_api_py/conn/_download_datamining.py): the argument checks,
 * the view id, the slicing loop with one gzip CSV file per slice, the
 * skip rule, and for every slice not skipped the job life cycle
 * search → poll until COMPLETED → download.
 *
 * `strptime` and `strftime` with "%m/%d/%Y" are the parameters `parse`
 * and `fmt` over day numbers; the server is the reply script.
 */
module Datamining {
  import opened Wrappers
  import opened Text
  import opened PyValue
  import opened Remote
  import opened Slicing
  import JsonRequest
  import JobPoll
  import HeaderNames
  import Connection

  const AllowedTypes: seq<string> := ["order", "estimate", "isenginerequest", "actionlog", "scart"]

  /** The arguments once their checks pass, with the dates as day numbers. */
  datatype Job = Job(site: string, kind: string, payload: map<string, Py>, step: nat, first: int, last: int)

  /** `payload[key] if key in payload else None`. */
  function Member(payload: map<string, Py>, key: string): Py
  {
    if key in payload then payload[key] else PNone
  }

  /** `datetime.strptime(v, "%m/%d/%Y")`; `parse` answers None for text that is no such date. */
  function ParseDate(v: Py, parse: string -> Option<int>): (r: Result<int>)
    ensures !v.PStr? ==> r.Fail? && r.error.kind == TypeError
    ensures v.PStr? ==> (r.Ok? <==> parse(v.s).Some?)
    ensures v.PStr? && r.Ok? ==> r.value == parse(v.s).value
    ensures v.PStr? && r.Fail? ==> r.error.kind == ValueError
  {
    if !v.PStr? then Raise(TypeError, "strptime() argument 1 must be str")
    else match parse(v.s)
      case None => Raise(ValueError, "time data does not match format '%m/%d/%Y'")
      case Some(d) => Ok(d)
  }

  /** The type checks that come first: two strings, a non-empty dict and a non-negative int. */
  predicate WellTyped(websiteName: Py, dmType: Py, payload: Py, nDays: Py)
  {
    websiteName.PStr? && dmType.PStr? && payload.PDict? && payload.entries != map[]
    && IsInt(nDays) && IntOf(nDays) >= 0
  }

  /** Lines 62-93: the checks made before anything else happens. */
  function Validate(websiteName: Py, dmType: Py, payload: Py, nDays: Py,
                    parse: string -> Option<int>): (r: Result<Job>)
    ensures !WellTyped(websiteName, dmType, payload, nDays) ==> r.Fail? && r.error.kind == TypeError
    ensures WellTyped(websiteName, dmType, payload, nDays)
            && (dmType.s !in AllowedTypes
                || !Truthy(Member(payload.entries, "date-from"))
                || !Truthy(Member(payload.entries, "date-to")))
            ==> r.Fail? && r.error.kind == ValueError
    ensures r.Ok? <==>
      WellTyped(websiteName, dmType, payload, nDays) && dmType.s in AllowedTypes
      && Truthy(Member(payload.entries, "date-from")) && Truthy(Member(payload.entries, "date-to"))
      && ParseDate(payload.entries["date-from"], parse).Ok?
      && ParseDate(payload.entries["date-to"], parse).Ok?
      && ParseDate(payload.entries["date-from"], parse).value <= ParseDate(payload.entries["date-to"], parse).value
    ensures r.Ok? ==> r.value == Job(websiteName.s, dmType.s, payload.entries, IntOf(nDays),
                                     ParseDate(payload.entries["date-from"], parse).value,
                                     ParseDate(payload.entries["date-to"], parse).value)
  {
    if !websiteName.PStr? then Raise(TypeError, "website_name should be a str type")
    else if !dmType.PStr? then Raise(TypeError, "datamining_type should be a str type")
    else if !payload.PDict? || payload.entries == map[] then Raise(TypeError, "payload should be a non-empty dict")
    else if !IsInt(nDays) || IntOf(nDays) < 0 then Raise(TypeError, "n_days_slice should be a positive integer")
    else if dmType.s !in AllowedTypes then Raise(ValueError, "datamining_type not allowed")
    else if !Truthy(Member(payload.entries, "date-from")) then
      Raise(ValueError, "missing parameter=date-from in payload object")
    else if !Truthy(Member(payload.entries, "date-to")) then
      Raise(ValueError, "missing parameter=date-from in payload object")
    else
      var first :- ParseDate(payload.entries["date-from"], parse);
      var last :- ParseDate(payload.entries["date-to"], parse);
      if first > last then Raise(ValueError, "'date-from' cannot occur later than 'date-to'")
      else Ok(Job(websiteName.s, dmType.s, payload.entries, IntOf(nDays), first, last))
  }

  /** A missing `date-to` is reported with the message written for `date-from`. */
  lemma MissingDateToNamesDateFrom(websiteName: string, dmType: string, payload: map<string, Py>, nDays: nat,
                                   parse: string -> Option<int>)
    requires dmType in AllowedTypes && payload != map[]
    requires Truthy(Member(payload, "date-from")) && "date-to" !in payload
    ensures Validate(PStr(websiteName), PStr(dmType), PDict(payload), PInt(nDays), parse)
         == Fail(Error(ValueError, "missing parameter=date-from in payload object"))
  {
  }

  /** `re.match(r'^[0-9]$', s)`: one digit, which `$` also accepts before a final newline. */
  predicate OneDigit(s: string)
  {
    (|s| == 1 || (|s| == 2 && s[1] == '\n')) && IsDigit(s[0])
  }

  /** Lines 96-106: the view id the file names and the payload carry. */
  function ViewId(payload: map<string, Py>): (r: Result<string>)
    ensures "view-id" !in payload ==> r == Ok("0")
    ensures "view-id" in payload ==> (r.Ok? <==> OneDigit(Str(payload["view-id"])))
    ensures r.Ok? ==> OneDigit(r.value)
    ensures r.Fail? ==> r.error == Error(ValueError, "view-id should match ^[0-9]$")
  {
    if "view-id" !in payload then Ok("0")
    else
      var v := Str(payload["view-id"]);
      if OneDigit(v) then Ok(v) else Raise(ValueError, "view-id should match ^[0-9]$")
  }

  /** An integer view id is accepted exactly when it is a single digit. */
  lemma IntegerViewIds(payload: map<string, Py>, i: int)
    requires "view-id" in payload && payload["view-id"] == PInt(i)
    ensures ViewId(payload).Ok? <==> 0 <= i < 10
    ensures 0 <= i < 10 ==> ViewId(payload) == Ok([DigitChar(i)])
  {
    var s := IntToString(i);
    if i < 0 {
      assert s[0] == '-';
    } else if i >= 10 {
      assert |NatToString(i / 10)| >= 1;
      assert |s| >= 2 && s[|s| - 1] != '\n';
    }
  }

  /** `_create_directory`: a truthy directory must be a string, and is made when it does not exist. */
  function CreateDirectory(directory: Py, disk: Disk): (r: Result<(seq<Event>, Disk)>)
    ensures Truthy(directory) && !directory.PStr? ==> r.Fail? && r.error.kind == TypeError
    ensures r.Ok? ==> disk.files == r.value.1.files && disk.dirs <= r.value.1.dirs
    ensures r.Ok? && Truthy(directory) ==>
      directory.PStr? && (directory.s in r.value.1.dirs || Exists(disk, directory.s))
    ensures r.Ok? && r.value.0 != [] ==>
      directory.PStr? && r.value.0 == [MakeDir(directory.s)] && !Exists(disk, directory.s)
  {
    if !Truthy(directory) then Ok(([], disk))
    else if !directory.PStr? then Raise(TypeError, "output_directory should be a str type")
    else if Exists(disk, directory.s) then Ok(([], disk))
    else Ok(([MakeDir(directory.s)], Disk(disk.files, disk.dirs + {directory.s})))
  }

  // ---------------------------------------------------------------
  // _stream_req: one header row, then the rows
  // ---------------------------------------------------------------

  /** The document a reply streams to ijson; text that is not JSON stops the parser. */
  function Parsed(reply: Reply): (r: Result<Py>)
    ensures r.Ok? <==> reply.Json?
  {
    match reply
    case Json(body) => Ok(body)
    case NotJson(_) => Raise(JsonDecodeError, "ijson could not parse the reply")
  }

  /** `ijson.items(f, "data.<key>.item")`: the items of `data[key]` when it is a list, else none. */
  function DataItems(body: Py, key: string): seq<Py>
  {
    if body.PDict? && "data" in body.entries && body.entries["data"].PDict?
       && key in body.entries["data"].entries && body.entries["data"].entries[key].PList?
    then body.entries["data"].entries[key].items
    else []
  }

  /** What `csv.writer.writerow` can iterate. */
  predicate Writable(row: Py)
  {
    row.PList? || row.PStr? || row.PDict?
  }

  /** How many rows are written before the first one `writerow` refuses. */
  function WritablePrefix(rows: seq<Py>): (k: nat)
    ensures k <= |rows|
    ensures forall i | 0 <= i < k :: Writable(rows[i])
    ensures k < |rows| ==> !Writable(rows[k])
  {
    if |rows| == 0 || !Writable(rows[0]) then 0 else 1 + WritablePrefix(rows[1..])
  }

  /** The header row handed to `writerow`: the column names in order. */
  function HeaderRow(columns: seq<string>): (row: Py)
    ensures row.PList? && |row.items| == |columns|
    ensures forall k | 0 <= k < |columns| :: row.items[k] == PStr(columns[k])
  {
    PList(seq(|columns|, k requires 0 <= k < |columns| => PStr(columns[k])))
  }

  /**
   * What `_stream_req` does: the file is opened first, so it exists
   * afterwards whatever happens; its lines are recorded when it is
   * closed. The request is sent twice: once for the headers and once
   * for the rows.
   */
  function Streamed(p: HeaderNames.Pattern, req: Request, path: string, disk: Disk, replies: seq<Reply>): (r: Run<()>)
    ensures r.disk == Opened(disk, path)
    ensures |r.rest| <= |replies|
  {
    var d := Opened(disk, path);
    if |replies| == 0 then Run(Raise(NoReply, "no reply"), [Send(req), WriteFile(path, [])], [], d)
    else match Parsed(replies[0])
      case Fail(e) => Run(Fail(e), [Send(req), WriteFile(path, [])], replies[1..], d)
      case Ok(b1) =>
        match HeaderNames.HeaderColumns(p, DataItems(b1, "fields"))
        case Fail(e) => Run(Fail(e), [Send(req), WriteFile(path, [])], replies[1..], d)
        case Ok(columns) =>
          var head := [HeaderRow(columns)];
          if |replies| == 1 then Run(Raise(NoReply, "no reply"), [Send(req), Send(req), WriteFile(path, head)], [], d)
          else match Parsed(replies[1])
            case Fail(e) => Run(Fail(e), [Send(req), Send(req), WriteFile(path, head)], replies[2..], d)
            case Ok(b2) =>
              var rows := DataItems(b2, "rows");
              var k := WritablePrefix(rows);
              Run(if k == |rows| then Ok(()) else Raise(CsvError, "iterable expected"),
                  [Send(req), Send(req), WriteFile(path, head + rows[..k])], replies[2..], d)
  }

  /** The header loop of `_stream_req`: `columns.append(header["name"])` after the renames. */
  method CollectColumns(p: HeaderNames.Pattern, fields: seq<Py>) returns (r: Result<seq<string>>)
    ensures r == HeaderNames.HeaderColumns(p, fields)
  {
    var columns: seq<string> := [];
    var i := 0;
    while i < |fields|
      invariant 0 <= i <= |fields|
      invariant HeaderNames.HeaderColumns(p, fields[..i]) == Ok(columns)
    {
      HeaderNames.HeaderColumnsStep(p, fields, i);
      var name := HeaderNames.RenameHeader(p, fields[i]);
      if name.Fail? {
        HeaderNames.FirstFailureDecides(p, fields, i, |fields|);
        assert fields[..|fields|] == fields;
        return Fail(name.error);
      }
      columns := columns + [name.value];
      i := i + 1;
    }
    assert fields[..i] == fields;
    return Ok(columns);
  }

  /** The row loop of `_stream_req`: `writerow` for each row, until one cannot be iterated. */
  method CopyRows(head: seq<Py>, rows: seq<Py>) returns (lines: seq<Py>, ok: bool)
    ensures lines == head + rows[..WritablePrefix(rows)]
    ensures ok <==> WritablePrefix(rows) == |rows|
  {
    lines := head;
    var j := 0;
    while j < |rows|
      invariant 0 <= j <= WritablePrefix(rows)
      invariant lines == head + rows[..j]
    {
      if !Writable(rows[j]) {
        return lines, false;
      }
      lines := lines + [rows[j]];
      j := j + 1;
      assert rows[..j] == rows[..j - 1] + [rows[j - 1]];
    }
    return lines, true;
  }

  /** `_stream_req`. */
  method StreamReq(p: HeaderNames.Pattern, req: Request, path: string, disk: Disk, replies: seq<Reply>)
    returns (r: Run<()>)
    ensures r == Streamed(p, req, path, disk, replies)
  {
    var d := Opened(disk, path);
    if |replies| == 0 {
      return Run(Raise(NoReply, "no reply"), [Send(req), WriteFile(path, [])], [], d);
    }
    var first := Parsed(replies[0]);
    if first.Fail? {
      return Run(Fail(first.error), [Send(req), WriteFile(path, [])], replies[1..], d);
    }
    var columns := CollectColumns(p, DataItems(first.value, "fields"));
    if columns.Fail? {
      return Run(Fail(columns.error), [Send(req), WriteFile(path, [])], replies[1..], d);
    }
    var head := [HeaderRow(columns.value)];
    if |replies| == 1 {
      return Run(Raise(NoReply, "no reply"), [Send(req), Send(req), WriteFile(path, head)], [], d);
    }
    var second := Parsed(replies[1]);
    if second.Fail? {
      return Run(Fail(second.error), [Send(req), Send(req), WriteFile(path, head)], replies[2..], d);
    }
    var lines, ok := CopyRows(head, DataItems(second.value, "rows"));
    var result: Result<()> := if ok then Ok(()) else Raise(CsvError, "iterable expected");
    r := Run(result, [Send(req), Send(req), WriteFile(path, lines)], replies[2..], d);
  }

  /**
   * A completed download writes exactly one header row, whose k-th
   * column is the renamed k-th header, followed by every row unchanged.
   */
  lemma StreamedFile(req: Request, path: string, disk: Disk, replies: seq<Reply>)
    requires Streamed(HeaderNames.Current, req, path, disk, replies).result.Ok?
    ensures var r := Streamed(HeaderNames.Current, req, path, disk, replies);
      var fields := DataItems(replies[0].body, "fields");
      var rows := DataItems(replies[1].body, "rows");
      2 <= |replies| && replies[0].Json? && replies[1].Json?
      && |r.trace| == 3 && r.trace[2].WriteFile? && r.trace[2].path == path
      && |r.trace[2].lines| == 1 + |rows| && r.trace[2].lines[1..] == rows
      && |r.trace[2].lines[0].items| == |fields|
      && forall k | 0 <= k < |fields| ::
           HeaderNames.RenameHeader(HeaderNames.Current, fields[k]) == Ok(r.trace[2].lines[0].items[k].s)
  {
    var r := Streamed(HeaderNames.Current, req, path, disk, replies);
    var fields := DataItems(replies[0].body, "fields");
    var columns := HeaderNames.HeaderColumns(HeaderNames.Current, fields).value;
    var rows := DataItems(replies[1].body, "rows");
    HeaderNames.HeaderColumnsNames(HeaderNames.Current, fields);
    assert rows[..|rows|] == rows;
    assert r.trace[2].lines == [HeaderRow(columns)] + rows;
  }

  /** A row `writerow` cannot iterate stops the copy: the rows before it are in the file, and it fails. */
  lemma StreamStopsAtUnwritableRow(req: Request, path: string, disk: Disk, replies: seq<Reply>, k: nat)
    requires 2 <= |replies| && replies[0].Json? && replies[1].Json?
    requires HeaderNames.HeaderColumns(HeaderNames.Current, DataItems(replies[0].body, "fields")).Ok?
    requires k < |DataItems(replies[1].body, "rows")|
    requires forall i | 0 <= i < k :: Writable(DataItems(replies[1].body, "rows")[i])
    requires !Writable(DataItems(replies[1].body, "rows")[k])
    ensures var r := Streamed(HeaderNames.Current, req, path, disk, replies);
      r.result.Fail? && r.result.error.kind == CsvError
      && r.trace[2].lines[1..] == DataItems(replies[1].body, "rows")[..k]
  {
    var rows := DataItems(replies[1].body, "rows");
    assert WritablePrefix(rows) == k;
  }

  // ---------------------------------------------------------------
  // One slice: name, skip, search, poll, download
  // ---------------------------------------------------------------

  /** What every slice of one call shares. */
  datatype Setup = Setup(conn: Connection.Conn, site: string, kind: string, payload: map<string, Py>,
                         viewId: string, wait: Py, directory: Py, overrideFile: Py, fmt: int -> string)

  /** A date as the file name spells it: `strftime` with '/' replaced by '_'. */
  function FileDate(st: Setup, day: int): string
  {
    ReplaceChar(st.fmt(day), '/', '_')
  }

  /** `{website}_{type}_view_{view}_from_{from}_to_{to}.csv.gz`: the eight parts joined by '_'. */
  function FileName(st: Setup, s: Span): string
  {
    st.site + "_" + st.kind + "_view_" + st.viewId + "_from_" + FileDate(st, s.start) + "_to_" + FileDate(st, s.end)
      + ".csv.gz"
  }

  /** `os.path.join(output_directory, output_filename)`, which needs a string directory. */
  function SlicePath(st: Setup, s: Span): (r: Result<string>)
    ensures r.Ok? <==> st.directory.PStr?
    ensures r.Ok? ==> r.value == PathJoin(st.directory.s, FileName(st, s))
  {
    if st.directory.PStr? then Ok(PathJoin(st.directory.s, FileName(st, s)))
    else Raise(TypeError, "expected str, bytes or os.PathLike object")
  }

  function ReportUrl(st: Setup, leaf: string): string
  {
    st.conn.apiV2 + "/ea/" + st.site + "/report/" + st.kind + "/" + leaf
  }

  /** The payload the search sends: the slice's dates written over the caller's. */
  function SearchParams(st: Setup, s: Span): Py
  {
    PDict(st.payload["date-from" := PStr(st.fmt(s.start))]["date-to" := PStr(st.fmt(s.end))])
  }

  /** The request `_stream_req` opens: download.json with the query string built in. */
  function DownloadRequest(st: Setup, jobrunId: Py): Request
  {
    Request("get", ReportUrl(st, "download.json") + "?output-as-csv=0&jobrun-id=" + Str(jobrunId), PNone, PNone)
  }

  function StatusParams(jobrunId: Py): Py
  {
    PDict(map["jobrun-id" := jobrunId])
  }

  /** Lines 147-192: search, poll until COMPLETED, then stream the result into `path`. */
  function Fetched(st: Setup, s: Span, path: string, disk: Disk, replies: seq<Reply>): (r: Run<()>)
    ensures r.result.Ok? ==> r.disk == Opened(disk, path)
    ensures r.disk == disk || r.disk == Opened(disk, path)
  {
    var search := JsonRequest.Call(PStr("get"), PStr(ReportUrl(st, "search.json")), st.conn.headers,
                                   SearchParams(st, s), PNone, replies);
    match search.result
    case Fail(e) => Run(Fail(e), search.trace, search.rest, disk)
    case Ok(body) =>
      match Get(body, "jobrun_id")
      case Fail(e) => Run(Fail(e), search.trace, search.rest, disk)
      case Ok(id) =>
        var poll := JobPoll.Polled(
          JobPoll.StatusRequest(JobPoll.Package, ReportUrl(st, "status.json"), st.conn.headers, StatusParams(id)),
          JobPoll.CompletedRule, JobPoll.WaitSeconds(st.wait), search.rest);
        match poll.result
        case Fail(e) => Run(Fail(e), search.trace + poll.trace, poll.rest, disk)
        case Ok(_) =>
          var dl := Streamed(HeaderNames.Current, DownloadRequest(st, id), path, disk, poll.rest);
          Run(dl.result, search.trace + poll.trace + dl.trace, dl.rest, dl.disk)
  }

  /** The body of the slicing loop for one slice: the path is listed whether or not it was skipped. */
  function SliceRun(st: Setup, s: Span, disk: Disk, replies: seq<Reply>): (r: Run<string>)
    ensures r.result.Ok? ==> SlicePath(st, s) == r.result && r.result.value in r.disk.files
    ensures disk.files <= r.disk.files && r.disk.dirs == disk.dirs
  {
    match SlicePath(st, s)
    case Fail(e) => Run(Fail(e), [], replies, disk)
    case Ok(path) =>
      match JsonRequest.IsSkippable(PStr(path), st.overrideFile, disk.files)
      case Fail(e) => Run(Fail(e), [], replies, disk)
      case Ok(skip) =>
        if skip then Run(Ok(path), [], replies, disk)
        else
          var f := Fetched(st, s, path, disk, replies);
          Run(if f.result.Ok? then Ok(path) else Fail(f.result.error), f.trace, f.rest, f.disk)
  }

  /** Lines 147-192 as the loop runs them. */
  method FetchSlice(st: Setup, s: Span, path: string, disk: Disk, replies: seq<Reply>) returns (r: Run<()>)
    ensures r == Fetched(st, s, path, disk, replies)
  {
    var search := JsonRequest.Call(PStr("get"), PStr(ReportUrl(st, "search.json")), st.conn.headers,
                                   SearchParams(st, s), PNone, replies);
    if search.result.Fail? {
      return Run(Fail(search.result.error), search.trace, search.rest, disk);
    }
    var id := Get(search.result.value, "jobrun_id");
    if id.Fail? {
      return Run(Fail(id.error), search.trace, search.rest, disk);
    }
    var wait := JobPoll.WaitSeconds(st.wait);
    var poll := JobPoll.PollUntilReady(JobPoll.Package, JobPoll.CompletedRule, ReportUrl(st, "status.json"),
                                       st.conn.headers, StatusParams(id.value), wait, search.rest);
    if poll.result.Fail? {
      return Run(Fail(poll.result.error), search.trace + poll.trace, poll.rest, disk);
    }
    var dl := StreamReq(HeaderNames.Current, DownloadRequest(st, id.value), path, disk, poll.rest);
    r := Run(dl.result, search.trace + poll.trace + dl.trace, dl.rest, dl.disk);
  }

  // ---------------------------------------------------------------
  // The slicing loop
  // ---------------------------------------------------------------

  /** One pass of the slicing loop as a step of the shared loop. */
  function SliceStep(st: Setup): Step
  {
    (s: Span, d: Disk, r: seq<Reply>) => SliceRun(st, s, d, r)
  }

  /** What the checks leave for the loop: the shared setup, the date range, the step and the directory made. */
  datatype Plan = Plan(st: Setup, first: int, last: int, step: nat, made: seq<Event>, disk: Disk)

  /** Lines 34-116: the argument checks, the view-id and the output directory, in the order the code runs them. */
  function Start(conn: Connection.Conn, websiteName: Py, dmType: Py, payload: Py, wait: Py, directory: Py,
                 overrideFile: Py, nDays: Py, parse: string -> Option<int>, fmt: int -> string,
                 disk: Disk): (r: Result<Plan>)
    ensures r.Ok? ==> r.value.first <= r.value.last && r.value.step <= MaxDeltaDays
    ensures r.Ok? <==> Validate(websiteName, dmType, payload, nDays, parse).Ok?
                       && ViewId(Validate(websiteName, dmType, payload, nDays, parse).value.payload).Ok?
                       && Validate(websiteName, dmType, payload, nDays, parse).value.step <= MaxDeltaDays
                       && CreateDirectory(directory, disk).Ok?
    ensures Validate(websiteName, dmType, payload, nDays, parse).Ok?
            && ViewId(Validate(websiteName, dmType, payload, nDays, parse).value.payload).Ok?
            && Validate(websiteName, dmType, payload, nDays, parse).value.step > MaxDeltaDays
            ==> r.Fail? && r.error.kind == OverflowError
  {
    var job :- Validate(websiteName, dmType, payload, nDays, parse);
    var vid :- ViewId(job.payload);
    if job.step > MaxDeltaDays then Raise(OverflowError, "days=" + NatToString(job.step) + "; must have magnitude <= 999999999")
    else
      var made :- CreateDirectory(directory, disk);
      var st := Setup(conn, job.site, job.kind, job.payload["view-id" := PStr(vid)], vid, wait, directory,
                      overrideFile, fmt);
      Ok(Plan(st, job.first, job.last, job.step, made.0, made.1))
  }

  /** `download_datamining`, start to end. */
  function Downloaded(conn: Connection.Conn, websiteName: Py, dmType: Py, payload: Py, wait: Py, directory: Py,
                      overrideFile: Py, nDays: Py, parse: string -> Option<int>, fmt: int -> string,
                      disk: Disk, replies: seq<Reply>): (r: Run<seq<string>>)
  {
    match Start(conn, websiteName, dmType, payload, wait, directory, overrideFile, nDays, parse, fmt, disk)
    case Fail(e) => Run(Fail(e), [], replies, disk)
    case Ok(plan) =>
      var run := SlicesRun(SliceStep(plan.st), Slices(plan.first, plan.last, plan.step), plan.disk, replies);
      Run(run.result, plan.made + run.trace, run.rest, run.disk)
  }

  /** Lines 125-193 for one slice: name it, skip it or fetch it, and list it. */
  method DownloadSlice(st: Setup, s: Span, disk: Disk, replies: seq<Reply>) returns (r: Run<string>)
    ensures r == SliceRun(st, s, disk, replies)
  {
    var path := SlicePath(st, s);
    if path.Fail? {
      return Run(Fail(path.error), [], replies, disk);
    }
    var skip := JsonRequest.IsSkippable(PStr(path.value), st.overrideFile, disk.files);
    if skip.Fail? {
      return Run(Fail(skip.error), [], replies, disk);
    }
    if skip.value {
      return Run(Ok(path.value), [], replies, disk);
    }
    var f := FetchSlice(st, s, path.value, disk, replies);
    if f.result.Fail? {
      return Run(Fail(f.result.error), f.trace, f.rest, f.disk);
    }
    r := Run(Ok(path.value), f.trace, f.rest, f.disk);
  }

  /** `download_datamining`: the checks, then one file per slice, in order. */
  method DownloadDatamining(conn: Connection.Conn, websiteName: Py, dmType: Py, payload: Py, wait: Py,
                            directory: Py, overrideFile: Py, nDays: Py, parse: string -> Option<int>,
                            fmt: int -> string, disk: Disk, replies: seq<Reply>) returns (r: Run<seq<string>>)
    ensures r == Downloaded(conn, websiteName, dmType, payload, wait, directory, overrideFile, nDays, parse, fmt,
                            disk, replies)
  {
    var plan := Start(conn, websiteName, dmType, payload, wait, directory, overrideFile, nDays, parse, fmt, disk);
    if plan.Fail? {
      return Run(Fail(plan.error), [], replies, disk);
    }
    var p := plan.value;
    var run := SliceLoop(SliceStep(p.st), p.first, p.last, p.step, p.disk, replies);
    r := Run(run.result, p.made + run.trace, run.rest, run.disk);
  }

  // ---------------------------------------------------------------
  // What a whole call lists, skips and sends
  // ---------------------------------------------------------------

  /** A slice whose file exists while `override_file` is False is listed, and nothing is sent for it. */
  lemma SkippedSliceSendsNothing(st: Setup, s: Span, disk: Disk, replies: seq<Reply>)
    requires st.directory.PStr? && st.overrideFile == PBool(false)
    requires PathJoin(st.directory.s, FileName(st, s)) in disk.files
    ensures SliceRun(st, s, disk, replies) == Run(Ok(PathJoin(st.directory.s, FileName(st, s))), [], replies, disk)
  {
  }

  /** The loop only adds files, and makes no directory. */
  lemma {:induction false} SlicesRunKeepsFiles(st: Setup, slices: seq<Span>, disk: Disk, replies: seq<Reply>)
    ensures disk.files <= SlicesRun(SliceStep(st), slices, disk, replies).disk.files
    ensures SlicesRun(SliceStep(st), slices, disk, replies).disk.dirs == disk.dirs
    decreases |slices|
  {
    if |slices| > 0 {
      var one := SliceRun(st, slices[0], disk, replies);
      assert SliceStep(st)(slices[0], disk, replies) == one;
      SlicesRunKeepsFiles(st, slices[1..], one.disk, one.rest);
    }
  }

  /** A completed call lists one path per slice, in the slices' order, and every listed file exists afterwards. */
  lemma {:induction false} PathsFollowSlices(st: Setup, slices: seq<Span>, disk: Disk, replies: seq<Reply>)
    requires SlicesRun(SliceStep(st), slices, disk, replies).result.Ok?
    ensures var r := SlicesRun(SliceStep(st), slices, disk, replies);
      |r.result.value| == |slices|
      && forall k | 0 <= k < |slices| ::
           SlicePath(st, slices[k]) == Ok(r.result.value[k]) && r.result.value[k] in r.disk.files
    decreases |slices|
  {
    if |slices| > 0 {
      var r := SlicesRun(SliceStep(st), slices, disk, replies);
      var one := SliceRun(st, slices[0], disk, replies);
      assert SliceStep(st)(slices[0], disk, replies) == one;
      CompletedRunSplits(SliceStep(st), slices, disk, replies, one);
      PathsFollowSlices(st, slices[1..], one.disk, one.rest);
      SlicesRunKeepsFiles(st, slices[1..], one.disk, one.rest);
      ListedStep(st, slices, one, SlicesRun(SliceStep(st), slices[1..], one.disk, one.rest));
    }
  }

  /** The first slice's path, put in front of the paths of the others, follows all the slices. */
  lemma ListedStep(st: Setup, slices: seq<Span>, one: Run<string>, more: Run<seq<string>>)
    requires slices != []
    requires one.result.Ok? && SlicePath(st, slices[0]) == one.result && one.result.value in one.disk.files
    requires one.disk.files <= more.disk.files
    requires more.result.Ok? && |more.result.value| == |slices| - 1
    requires forall k | 0 <= k < |slices| - 1 ::
      SlicePath(st, slices[1..][k]) == Ok(more.result.value[k]) && more.result.value[k] in more.disk.files
    ensures var v := [one.result.value] + more.result.value;
      |v| == |slices| && forall k | 0 <= k < |slices| :: SlicePath(st, slices[k]) == Ok(v[k]) && v[k] in more.disk.files
  {
    var v := [one.result.value] + more.result.value;
    forall k | 0 <= k < |slices| ensures SlicePath(st, slices[k]) == Ok(v[k]) && v[k] in more.disk.files {
      if k > 0 {
        assert slices[k] == slices[1..][k - 1] && v[k] == more.result.value[k - 1];
      }
    }
  }

  /** When every slice's file is already there and `override_file` is False, the loop sends nothing and writes nothing. */
  lemma {:induction false} AllSkipped(st: Setup, slices: seq<Span>, disk: Disk, replies: seq<Reply>)
    requires st.directory.PStr? && st.overrideFile == PBool(false)
    requires forall k | 0 <= k < |slices| :: PathJoin(st.directory.s, FileName(st, slices[k])) in disk.files
    ensures var r := SlicesRun(SliceStep(st), slices, disk, replies);
      r.result.Ok? && r.trace == [] && r.rest == replies && r.disk == disk
    decreases |slices|
  {
    if |slices| > 0 {
      SkippedSliceSendsNothing(st, slices[0], disk, replies);
      assert SliceStep(st)(slices[0], disk, replies) == SliceRun(st, slices[0], disk, replies);
      forall k | 0 <= k < |slices[1..]|
        ensures PathJoin(st.directory.s, FileName(st, slices[1..][k])) in disk.files
      {
        assert slices[1..][k] == slices[k + 1];
      }
      AllSkipped(st, slices[1..], disk, replies);
    }
  }

  /**
   * Running the same call again on the disk a completed call left, with
   * `override_file` False, lists the same paths and sends nothing.
   */
  lemma RerunSendsNothing(conn: Connection.Conn, websiteName: Py, dmType: Py, payload: Py, wait: Py, directory: Py,
                          nDays: Py, parse: string -> Option<int>, fmt: int -> string,
                          disk: Disk, replies: seq<Reply>, again: seq<Reply>)
    requires Downloaded(conn, websiteName, dmType, payload, wait, directory, PBool(false), nDays, parse, fmt,
                        disk, replies).result.Ok?
    ensures var first := Downloaded(conn, websiteName, dmType, payload, wait, directory, PBool(false), nDays, parse,
                                    fmt, disk, replies);
      Downloaded(conn, websiteName, dmType, payload, wait, directory, PBool(false), nDays, parse, fmt,
                 first.disk, again)
      == Run(first.result, [], again, first.disk)
  {
    var first := Downloaded(conn, websiteName, dmType, payload, wait, directory, PBool(false), nDays, parse,
                            fmt, disk, replies);
    var plan := Start(conn, websiteName, dmType, payload, wait, directory, PBool(false), nDays, parse, fmt, disk).value;
    var slices := Slices(plan.first, plan.last, plan.step);
    var run := SlicesRun(SliceStep(plan.st), slices, plan.disk, replies);
    PathsFollowSlices(plan.st, slices, plan.disk, replies);
    SlicesRunKeepsFiles(plan.st, slices, plan.disk, replies);
    assert SlicePath(plan.st, slices[0]).Ok?;
    var plan2 := Start(conn, websiteName, dmType, payload, wait, directory, PBool(false), nDays, parse, fmt,
                       first.disk);
    assert plan2 == Ok(Plan(plan.st, plan.first, plan.last, plan.step, [], first.disk));
    AllSkipped(plan.st, slices, first.disk, again);
    var run2 := SlicesRun(SliceStep(plan.st), slices, first.disk, again);
    PathsFollowSlices(plan.st, slices, first.disk, again);
    assert run2.result.value == run.result.value;
  }

  /** The dates of a file name keep no '/'. */
  lemma FileDateHasNoSlash(st: Setup, day: int)
    ensures '/' !in FileDate(st, day)
  {
    var d := FileDate(st, day);
    forall i | 0 <= i < |d| ensures d[i] != '/' {
      assert d[i] == (if st.fmt(day)[i] == '/' then '_' else st.fmt(day)[i]);
    }
  }

  /**
   * The file name gives the slice back, as long as `strftime` tells days
   * apart, writes every day with the same width and never writes '_'.
   */
  lemma FileNameNamesSlice(st: Setup, s1: Span, s2: Span, width: nat)
    requires forall d1, d2 | st.fmt(d1) == st.fmt(d2) :: d1 == d2
    requires forall d :: |st.fmt(d)| == width && '_' !in st.fmt(d)
    requires FileName(st, s1) == FileName(st, s2)
    ensures s1 == s2
  {
    var name := FileName(st, s1);
    var head := st.site + "_" + st.kind + "_view_" + st.viewId + "_from_";
    var a1, b1 := FileDate(st, s1.start), FileDate(st, s1.end);
    var a2, b2 := FileDate(st, s2.start), FileDate(st, s2.end);
    assert |a1| == width && |a2| == width && |b1| == width && |b2| == width;
    assert name == head + a1 + "_to_" + b1 + ".csv.gz";
    assert name == head + a2 + "_to_" + b2 + ".csv.gz";
    SameFields(head, a1, b1, a2, b2, ".csv.gz");
    ReplaceCharInjective(st.fmt(s1.start), st.fmt(s2.start), '/', '_');
    ReplaceCharInjective(st.fmt(s1.end), st.fmt(s2.end), '/', '_');
  }

  /** Two names laid out alike, with fields of the same widths, have the same fields. */
  lemma SameFields(head: string, a1: string, b1: string, a2: string, b2: string, tail: string)
    requires |a1| == |a2| && |b1| == |b2|
    requires head + a1 + "_to_" + b1 + tail == head + a2 + "_to_" + b2 + tail
    ensures a1 == a2 && b1 == b2
  {
    var n1 := head + a1 + "_to_" + b1 + tail;
    var n2 := head + a2 + "_to_" + b2 + tail;
    var i := |head|;
    var j := i + |a1| + 4;
    assert n1[i..i + |a1|] == a1 && n2[i..i + |a2|] == a2;
    assert n1[j..j + |b1|] == b1 && n2[j..j + |b2|] == b2;
  }

  /** Two different slices never share a file, under the same conditions on `strftime`. */
  lemma DistinctSlicesDistinctFiles(st: Setup, s1: Span, s2: Span, width: nat)
    requires forall d1, d2 | st.fmt(d1) == st.fmt(d2) :: d1 == d2
    requires forall d :: |st.fmt(d)| == width && '_' !in st.fmt(d)
    requires s1 != s2
    ensures FileName(st, s1) != FileName(st, s2)
  {
    if FileName(st, s1) == FileName(st, s2) {
      FileNameNamesSlice(st, s1, s2, width);
    }
  }
}
