/**
 * `download` of the first package generation (eulerian_analytics/datamining.py):
 * choose the output file, create its directory, skip an existing file,
 * then search, poll the job every 5 seconds until it is COMPLETED and
 * stream the CSV export into the file. An API error on the search or on
 * a status reply makes the call return 0.
 *
 * Two lines of the source read differently from what they evidently
 * mean: the default name uses the start date twice (lines 125-126), and
 * the directory created for a path with a '/' is its last component,
 * the file name itself (line 55). `Variant` selects either reading; the
 * call as written is `AsWritten`.
 */
module EulerianDatamining {
  import opened Wrappers
  import opened Text
  import opened PyValue
  import opened Remote
  import EulerianHelper
  import JobPoll

  /** What `download` returns: the path, or 0 after an API error. */
  datatype Returned = Path(path: string) | Zero

  /** The code as written, or as evidently intended. */
  datatype Variant = AsWritten | Intended

  // ---------------------------------------------------------------
  // _build_output_path2file (lines 106-129)
  // ---------------------------------------------------------------

  /** `payload[key].replace('/', '_')`. */
  function DateText(payload: Py, key: string): (r: Result<string>)
    ensures r.Ok? <==> Get(payload, key).Ok? && Get(payload, key).value.PStr?
    ensures r.Ok? ==> r.value == ReplaceChar(payload.entries[key].s, '/', '_') && '/' !in r.value
  {
    var v :- Get(payload, key);
    if !v.PStr? then Raise(AttributeError, "'" + TypeName(v) + "' object has no attribute 'replace'")
    else Ok(ReplaceChar(v.s, '/', '_'))
  }

  /** `'_'.join([website_name, datamining_type, date_from, date_to]) + '.csv.gz'`. */
  function OutputName(website: string, dmType: string, dateFrom: string, dateTo: string): (r: string)
    ensures r == website + "_" + dmType + "_" + dateFrom + "_" + dateTo + ".csv.gz"
  {
    var parts := [website, dmType, dateFrom, dateTo];
    assert Join("_", parts[2..]) == dateFrom + "_" + dateTo by {
      assert parts[2..][1..] == [dateTo];
    }
    assert Join("_", parts[1..]) == dmType + "_" + Join("_", parts[2..]) by {
      assert parts[1..][1..] == parts[2..];
    }
    Join("_", parts) + ".csv.gz"
  }

  /** The default name as written: both dates are read from "date-from". */
  function BuildOutputPath(website: string, dmType: string, payload: Py): Result<string>
  {
    var dateFrom :- DateText(payload, "date-from");
    // line 126 reads "date-from" a second time, with the same result
    Ok(OutputName(website, dmType, dateFrom, dateFrom))
  }

  /** The default name as intended: the second date is "date-to". */
  function BuildOutputPathIntended(website: string, dmType: string, payload: Py): Result<string>
  {
    var dateFrom :- DateText(payload, "date-from");
    var dateTo :- DateText(payload, "date-to");
    Ok(OutputName(website, dmType, dateFrom, dateTo))
  }

  /**
   * As written, the default name repeats the start date and never reads
   * "date-to": two payloads with the same start date get the same name.
   */
  lemma DefaultNameRepeatsStart(website: string, dmType: string, p: map<string, Py>, q: map<string, Py>, d: string)
    requires "date-from" in p && p["date-from"] == PStr(d)
    requires "date-from" in q && q["date-from"] == PStr(d)
    ensures BuildOutputPath(website, dmType, PDict(p)) == BuildOutputPath(website, dmType, PDict(q))
    ensures var e := ReplaceChar(d, '/', '_');
      BuildOutputPath(website, dmType, PDict(p)) == Ok(website + "_" + dmType + "_" + e + "_" + e + ".csv.gz")
  {
  }

  /**
   * As intended, the name tells two date ranges apart: equal names with
   * the same website, type and start mean the same end date (dates hold
   * no '_', so the replacement of '/' loses nothing).
   */
  lemma IntendedNameTellsEndsApart(website: string, dmType: string, p: map<string, Py>, q: map<string, Py>)
    requires BuildOutputPathIntended(website, dmType, PDict(p)).Ok?
    requires BuildOutputPathIntended(website, dmType, PDict(q)).Ok?
    requires p["date-from"] == q["date-from"]
    requires '_' !in p["date-to"].s && '_' !in q["date-to"].s
    requires BuildOutputPathIntended(website, dmType, PDict(p)) == BuildOutputPathIntended(website, dmType, PDict(q))
    ensures p["date-to"] == q["date-to"]
  {
    var from := ReplaceChar(p["date-from"].s, '/', '_');
    var a := ReplaceChar(p["date-to"].s, '/', '_');
    var b := ReplaceChar(q["date-to"].s, '/', '_');
    var head := website + "_" + dmType + "_" + from + "_";
    assert head + a + ".csv.gz" == head + b + ".csv.gz";
    assert a == (head + a + ".csv.gz")[|head|..|head| + |a|];
    assert b == (head + b + ".csv.gz")[|head|..|head| + |b|];
    ReplaceCharInjective(p["date-to"].s, q["date-to"].s, '/', '_');
  }

  // ---------------------------------------------------------------
  // The output path and its directory (lines 53-65)
  // ---------------------------------------------------------------

  /** The file to write and the directory to create first ("" for none). */
  datatype Target = Target(path: string, dir: string)

  /** Lines 53-62: split the path on '/', pick the directory, or build the default name. */
  function Targeted(v: Variant, outputPath: Py, website: string, dmType: string, payload: Py): (r: Result<Target>)
    ensures !outputPath.PStr? ==> r.Fail? && r.error.kind == AttributeError
    ensures outputPath.PStr? && outputPath.s != "" ==> r.Ok? && r.value.path == outputPath.s
    ensures outputPath.PStr? && '/' !in outputPath.s ==> r.Ok? ==> r.value.dir == ""
  {
    if !outputPath.PStr? then Raise(AttributeError, "'" + TypeName(outputPath) + "' object has no attribute 'split'")
    else
      var parts := Split(outputPath.s, '/');
      if |parts| > 1 then
        Ok(Target(outputPath.s, if v == AsWritten then parts[|parts| - 1] else Join("/", parts[..|parts| - 1])))
      else if parts[0] != "" then
        Ok(Target(outputPath.s, ""))
      else
        var name :- if v == AsWritten then BuildOutputPath(website, dmType, payload)
                    else BuildOutputPathIntended(website, dmType, payload);
        Ok(Target(name, ""))
  }

  /** Only a path without any '/' splits into one part; an empty one splits into the empty text. */
  lemma SplitWithout(s: string)
    ensures |Split(s, '/')| == 1 <==> '/' !in s
    ensures |Split(s, '/')| == 1 ==> Split(s, '/')[0] == s
  {
    var i := IndexOf(s, '/');
    if i < |s| {
      assert |Split(s, '/')| == 1 + |Split(s[i + 1..], '/')|;
    }
  }

  /**
   * Line 55 as written: for `d/f` with no '/' in `f`, the directory to
   * create is `f`, the file name, and not `d`.
   */
  lemma DirIsFileName(d: string, f: string, website: string, dmType: string, payload: Py)
    requires '/' !in f
    ensures Targeted(AsWritten, PStr(d + "/" + f), website, dmType, payload) == Ok(Target(d + "/" + f, f))
  {
    SplitAtLast(d, f, '/');
    assert d + "/" + f == d + ['/'] + f;
  }

  /**
   * As intended, the directory is what precedes the last '/', so the
   * file lies in it: the path is the directory, '/', and the name.
   */
  lemma IntendedDirHoldsFile(d: string, f: string, website: string, dmType: string, payload: Py)
    requires '/' !in f
    ensures Targeted(Intended, PStr(d + "/" + f), website, dmType, payload) == Ok(Target(d + "/" + f, d))
  {
    var s := d + "/" + f;
    assert s == d + ['/'] + f;
    SplitAtLast(d, f, '/');
    var parts := Split(s, '/');
    assert parts[..|parts| - 1] == Split(d, '/');
    JoinSplit(d, '/');
  }

  /** Line 60-62: an empty path gets the default name, and no directory. */
  lemma EmptyPathIsNamed(v: Variant, website: string, dmType: string, payload: Py)
    ensures var name := if v == AsWritten then BuildOutputPath(website, dmType, payload)
                        else BuildOutputPathIntended(website, dmType, payload);
      (name.Ok? ==> Targeted(v, PStr(""), website, dmType, payload) == Ok(Target(name.value, "")))
      && (name.Fail? ==> Targeted(v, PStr(""), website, dmType, payload) == Fail(name.error))
  {
    SplitWithout("");
  }

  /** Lines 64-65: `os.mkdir(output_dir)` when it is set and does not exist. */
  function Prepared(t: Target, disk: Disk): (r: (Disk, seq<Event>))
    ensures r.0.files == disk.files && disk.dirs <= r.0.dirs
    ensures t.dir != "" && !Exists(disk, t.dir) ==> r == (Disk(disk.files, disk.dirs + {t.dir}), [MakeDir(t.dir)])
    ensures t.dir == "" || Exists(disk, t.dir) ==> r == (disk, [])
  {
    if t.dir != "" && !Exists(disk, t.dir) then (Disk(disk.files, disk.dirs + {t.dir}), [MakeDir(t.dir)])
    else (disk, [])
  }

  // ---------------------------------------------------------------
  // The requests (lines 72-104)
  // ---------------------------------------------------------------

  function BaseUrl(grid: string, datacenter: string, website: string, dmType: string): string
  {
    "https://" + grid + ".api.eulerian." + datacenter + "/ea/v2/ea/" + website + "/report/" + dmType + "/"
  }

  /** `.json()` then `has_api_error`: `None` when the reply reports an error. */
  function Checked(reply: Reply): (r: Result<Option<Py>>)
    ensures r == Ok(None) <==> reply.Json? && EulerianHelper.HasApiError(reply.body) == Ok(1)
    ensures r.Ok? && r.value.Some? ==> reply == Json(r.value.value) && r.value.value.PDict?
    ensures reply.NotJson? ==> r.Fail? && r.error.kind == JsonDecodeError
  {
    match reply
    case NotJson(_) => Raise(JsonDecodeError, "Expecting value")
    case Json(body) =>
      var flag :- EulerianHelper.HasApiError(body);
      if flag == 1 then Ok(None) else Ok(Some(body))
  }

  /** Lines 76-81: the search; `None` is the API error that makes the call return 0. */
  function Searched(base: string, payload: Py, replies: seq<Reply>): (o: Outcome<Option<Py>>)
    ensures o.trace == [Send(Request("get", base + "search.json", payload, PNone))]
    ensures o.result.Ok? ==> replies != [] && o.rest == replies[1..]
    ensures o.result == Ok(None) <==> replies != [] && Checked(replies[0]) == Ok(None)
    ensures o.result.Ok? && o.result.value.Some? ==>
      Checked(replies[0]).Ok? && Checked(replies[0]).value.Some?
      && Get(Checked(replies[0]).value.value, "jobrun_id") == Ok(o.result.value.value)
  {
    var req := Request("get", base + "search.json", payload, PNone);
    if |replies| == 0 then Outcome(Raise(NoReply, "no reply"), [Send(req)], [])
    else
      match Checked(replies[0])
      case Fail(e) => Outcome(Fail(e), [Send(req)], replies[1..])
      case Ok(None) => Outcome(Ok(None), [Send(req)], replies[1..])
      case Ok(Some(body)) =>
        match Get(body, "jobrun_id")
        case Fail(e) => Outcome(Fail(e), [Send(req)], replies[1..])
        case Ok(id) => Outcome(Ok(Some(id)), [Send(req)], replies[1..])
  }

  /** What one status reply tells the loop. */
  datatype Tick = Pending | Completed | Errored | Broken(e: Error)

  function StatusTick(reply: Reply): (k: Tick)
    ensures k == Errored <==> Checked(reply) == Ok(None)
    ensures k == Completed ==> reply.Json? && Get(reply.body, "jobrun_status") == Ok(PStr("COMPLETED"))
    ensures k == Pending ==> reply.Json? && Get(reply.body, "jobrun_status").Ok?
                             && Get(reply.body, "jobrun_status").value != PStr("COMPLETED")
  {
    match Checked(reply)
    case Fail(e) => Broken(e)
    case Ok(None) => Errored
    case Ok(Some(body)) =>
      match Get(body, "jobrun_status")
      case Fail(e) => Broken(e)
      case Ok(s) => if s == PStr("COMPLETED") then Completed else Pending
  }

  function StatusRequest(base: string, id: Py): Request
  {
    Request("get", base + "status.json", PDict(map["jobrun-id" := id]), PNone)
  }

  /**
   * Lines 84-92: sleep 5 seconds, ask for the status, repeat. The result
   * is `true` once COMPLETED and `false` after an API error.
   */
  function Polled(req: Request, replies: seq<Reply>): (o: Outcome<bool>)
    ensures |o.rest| < |replies| || (replies == [] && o.rest == [])
    decreases |replies|
  {
    var tick := [Sleep(5), Send(req)];
    if |replies| == 0 then Outcome(Raise(NoReply, "no reply"), tick, [])
    else
      match StatusTick(replies[0])
      case Completed => Outcome(Ok(true), tick, replies[1..])
      case Errored => Outcome(Ok(false), tick, replies[1..])
      case Broken(e) => Outcome(Fail(e), tick, replies[1..])
      case Pending => JobPoll.After(tick, Polled(req, replies[1..]))
  }

  /** `while not ready: ...` as it runs. */
  method PollStatus(req: Request, replies: seq<Reply>) returns (o: Outcome<bool>)
    ensures o == Polled(req, replies)
  {
    var trace: seq<Event> := [];
    var rest := replies;
    var tick := [Sleep(5), Send(req)];
    while true
      invariant JobPoll.After(trace, Polled(req, rest)) == Polled(req, replies)
      decreases |rest|
    {
      if |rest| == 0 {
        return Outcome(Raise(NoReply, "no reply"), trace + tick, []);
      }
      var k := StatusTick(rest[0]);
      if k.Completed? {
        return Outcome(Ok(true), trace + tick, rest[1..]);
      }
      if k.Errored? {
        return Outcome(Ok(false), trace + tick, rest[1..]);
      }
      if k.Broken? {
        return Outcome(Fail(k.e), trace + tick, rest[1..]);
      }
      ghost var later := Polled(req, rest[1..]);
      assert trace + tick + later.trace == trace + (tick + later.trace);
      trace := trace + tick;
      rest := rest[1..];
    }
  }

  /**
   * A poll that ends with an answer read n replies: the first n - 1 were
   * pending, the n-th completed (`true`) or reported an error (`false`);
   * every tick slept 5 seconds and sent the same status request.
   */
  lemma {:induction false} PolledShape(req: Request, replies: seq<Reply>)
    ensures var o := Polled(req, replies);
      var n := |replies| - |o.rest|;
      o.result.Ok? ==>
        1 <= n && o.rest == replies[n..]
        && (forall i | 0 <= i < n - 1 :: StatusTick(replies[i]) == Pending)
        && StatusTick(replies[n - 1]) == (if o.result.value then Completed else Errored)
        && o.trace == Ticks(req, n)
    decreases |replies|
  {
    var o := Polled(req, replies);
    if o.result.Ok? && StatusTick(replies[0]) == Pending {
      var tail := replies[1..];
      var later := Polled(req, tail);
      assert o == JobPoll.After([Sleep(5), Send(req)], later);
      PolledShape(req, tail);
      var m := |tail| - |later.rest|;
      var n := |replies| - |o.rest|;
      assert n == m + 1;
      Shifted(replies, m);
      assert Ticks(req, n) == [Sleep(5), Send(req)] + Ticks(req, m);
    } else if o.result.Ok? {
      assert Ticks(req, 1) == [Sleep(5), Send(req)] + Ticks(req, 0);
    }
  }

  /** What the shorter poll says about replies[1..], said about the replies. */
  lemma Shifted(replies: seq<Reply>, m: nat)
    requires 1 <= m < |replies|
    requires StatusTick(replies[0]) == Pending
    requires forall i | 0 <= i < m - 1 :: StatusTick(replies[1..][i]) == Pending
    ensures forall i | 0 <= i < m :: StatusTick(replies[i]) == Pending
    ensures replies[m] == replies[1..][m - 1] && replies[1..][m..] == replies[m + 1..]
  {
    forall i | 0 < i < m ensures StatusTick(replies[i]) == Pending {
      assert replies[i] == replies[1..][i - 1];
    }
  }

  /** n ticks of the loop: a 5-second sleep and the status request, n times. */
  function Ticks(req: Request, n: nat): (t: seq<Event>)
    ensures |t| == 2 * n
  {
    if n == 0 then [] else [Sleep(5), Send(req)] + Ticks(req, n - 1)
  }

  /** Line 95: the export request, CSV output of the job. */
  function DownloadRequest(base: string, id: Py): Request
  {
    Request("get", base + "download.json", PDict(map["output-as-csv" := PInt(1), "jobrun-id" := id]), PNone)
  }

  /** The bytes of a reply as received; a JSON reply is represented by its `str()`. */
  function Body(reply: Reply): string
  {
    match reply
    case NotJson(text) => text
    case Json(body) => Str(body)
  }

  /** `r.iter_content(1024*1024*5)`: the body in 5 MB pieces. */
  const ChunkSize: nat := 1024 * 1024 * 5

  /** A text cut in pieces of `n` characters, the last one possibly shorter. */
  function Chunks(s: string, n: nat): (r: seq<string>)
    requires n > 0
    ensures forall k | 0 <= k < |r| :: 0 < |r[k]| <= n
    decreases |s|
  {
    if |s| == 0 then [] else if |s| <= n then [s] else [s[..n]] + Chunks(s[n..], n)
  }

  function Concat(xs: seq<string>): string
    decreases |xs|
  {
    if |xs| == 0 then "" else xs[0] + Concat(xs[1..])
  }

  /** Writing every piece in turn writes the whole body. */
  lemma {:induction false} ChunksRejoin(s: string, n: nat)
    requires n > 0
    ensures Concat(Chunks(s, n)) == s
    decreases |s|
  {
    if |s| > n {
      ChunksRejoin(s[n..], n);
      assert Chunks(s, n)[1..] == Chunks(s[n..], n);
    }
  }

  /** The write loop of lines 100-101. */
  method WriteChunks(chunks: seq<string>) returns (content: string)
    ensures content == Concat(chunks)
  {
    content := "";
    for i := 0 to |chunks|
      invariant content + Concat(chunks[i..]) == Concat(chunks)
    {
      assert chunks[i..][1..] == chunks[i + 1..];
      content := content + chunks[i];
    }
    assert chunks[|chunks|..] == [];
  }

  /** Lines 94-104: open the file, request the export, write its body. */
  function Fetched(base: string, id: Py, path: string, disk: Disk, replies: seq<Reply>): (r: Run<Returned>)
    ensures r.disk == Opened(disk, path)
    ensures r.result.Ok? <==> replies != []
    ensures r.result.Ok? ==> (r.result.value == Path(path) && r.rest == replies[1..]
      && r.trace == [Send(DownloadRequest(base, id)), WriteFile(path, [PStr(Body(replies[0]))])])
  {
    var req := DownloadRequest(base, id);
    var d := Opened(disk, path);
    if |replies| == 0 then Run(Raise(NoReply, "no reply"), [Send(req), WriteFile(path, [])], [], d)
    else Run(Ok(Path(path)), [Send(req), WriteFile(path, [PStr(Body(replies[0]))])], replies[1..], d)
  }

  /** Lines 81-104: poll the job, then fetch the export. */
  function Awaited(base: string, id: Py, path: string, disk: Disk, replies: seq<Reply>): (r: Run<Returned>)
    ensures r.disk == disk || r.disk == Opened(disk, path)
    ensures r.result == Ok(Zero) ==> r.disk == disk
  {
    var poll := Polled(StatusRequest(base, id), replies);
    match poll.result
    case Fail(e) => Run(Fail(e), poll.trace, poll.rest, disk)
    case Ok(false) => Run(Ok(Zero), poll.trace, poll.rest, disk)
    case Ok(true) =>
      var f := Fetched(base, id, path, disk, poll.rest);
      Run(f.result, poll.trace + f.trace, f.rest, f.disk)
  }

  /** Lines 72-104: search, poll, fetch. */
  function Job(base: string, payload: Py, path: string, disk: Disk, replies: seq<Reply>): (r: Run<Returned>)
    ensures r.disk == disk || r.disk == Opened(disk, path)
    ensures r.result.Ok? && r.result.value.Path? ==> r.result.value.path == path && r.disk == Opened(disk, path)
  {
    var search := Searched(base, payload, replies);
    match search.result
    case Fail(e) => Run(Fail(e), search.trace, search.rest, disk)
    case Ok(None) => Run(Ok(Zero), search.trace, search.rest, disk)
    case Ok(Some(id)) =>
      var a := Awaited(base, id, path, disk, search.rest);
      Run(a.result, search.trace + a.trace, a.rest, a.disk)
  }

  /** Lines 64-104 once the target is known: create the directory, skip or run the job. */
  function Proceeded(t: Target, grid: string, datacenter: string, website: string, dmType: string, payload: Py,
                     overrideFile: Py, disk: Disk, replies: seq<Reply>): (r: Run<Returned>)
    ensures r.result.Ok? && r.result.value.Path? ==> r.result.value.path == t.path && Exists(r.disk, t.path)
    ensures disk.files <= r.disk.files && disk.dirs <= r.disk.dirs
  {
    var (d, made) := Prepared(t, disk);
    if Exists(d, t.path) && !Truthy(overrideFile) then Run(Ok(Path(t.path)), made, replies, d)
    else
      var j := Job(BaseUrl(grid, datacenter, website, dmType), payload, t.path, d, replies);
      Run(j.result, made + j.trace, j.rest, j.disk)
  }

  /** `download(...)` (lines 7-104), under either reading of lines 55 and 126. */
  function Downloaded(v: Variant, grid: string, datacenter: string, website: string, dmType: string, payload: Py,
                      outputPath: Py, overrideFile: Py, disk: Disk, replies: seq<Reply>): (r: Run<Returned>)
    ensures r.result.Ok? && r.result.value.Path? ==> Exists(r.disk, r.result.value.path)
    ensures disk.files <= r.disk.files && disk.dirs <= r.disk.dirs
  {
    match Targeted(v, outputPath, website, dmType, payload)
    case Fail(e) => Run(Fail(e), [], replies, disk)
    case Ok(t) => Proceeded(t, grid, datacenter, website, dmType, payload, overrideFile, disk, replies)
  }

  /** Lines 94-104 as they run. */
  method Fetch(base: string, id: Py, path: string, disk: Disk, replies: seq<Reply>) returns (r: Run<Returned>)
    ensures r == Fetched(base, id, path, disk, replies)
  {
    var req := DownloadRequest(base, id);
    var d := Opened(disk, path);
    if |replies| == 0 {
      return Run(Raise(NoReply, "no reply"), [Send(req), WriteFile(path, [])], [], d);
    }
    var body := Body(replies[0]);
    var content := WriteChunks(Chunks(body, ChunkSize));
    ChunksRejoin(body, ChunkSize);
    r := Run(Ok(Path(path)), [Send(req), WriteFile(path, [PStr(content)])], replies[1..], d);
  }

  /** Lines 72-104 as they run. */
  method RunJob(base: string, payload: Py, path: string, disk: Disk, replies: seq<Reply>) returns (r: Run<Returned>)
    ensures r == Job(base, payload, path, disk, replies)
  {
    var search := Searched(base, payload, replies);
    match search.result
    case Fail(e) =>
      r := Run(Fail(e), search.trace, search.rest, disk);
    case Ok(None) =>
      r := Run(Ok(Zero), search.trace, search.rest, disk);
    case Ok(Some(id)) =>
      var poll := PollStatus(StatusRequest(base, id), search.rest);
      match poll.result
      case Fail(e) =>
        r := Run(Fail(e), search.trace + poll.trace, poll.rest, disk);
      case Ok(false) =>
        r := Run(Ok(Zero), search.trace + poll.trace, poll.rest, disk);
      case Ok(true) =>
        var f := Fetch(base, id, path, disk, poll.rest);
        assert search.trace + (poll.trace + f.trace) == search.trace + poll.trace + f.trace;
        r := Run(f.result, search.trace + poll.trace + f.trace, f.rest, f.disk);
  }

  /** Lines 64-104 as they run. */
  method Proceed(t: Target, grid: string, datacenter: string, website: string, dmType: string, payload: Py,
                 overrideFile: Py, disk: Disk, replies: seq<Reply>) returns (r: Run<Returned>)
    ensures r == Proceeded(t, grid, datacenter, website, dmType, payload, overrideFile, disk, replies)
  {
    var (d, made) := Prepared(t, disk);
    if Exists(d, t.path) && !Truthy(overrideFile) {
      r := Run(Ok(Path(t.path)), made, replies, d);
    } else {
      var j := RunJob(BaseUrl(grid, datacenter, website, dmType), payload, t.path, d, replies);
      r := Run(j.result, made + j.trace, j.rest, j.disk);
    }
  }

  /** `download(...)` as it runs. */
  method Download(v: Variant, grid: string, datacenter: string, website: string, dmType: string, payload: Py,
                  outputPath: Py, overrideFile: Py, disk: Disk, replies: seq<Reply>) returns (r: Run<Returned>)
    ensures r == Downloaded(v, grid, datacenter, website, dmType, payload, outputPath, overrideFile, disk, replies)
  {
    var target := Targeted(v, outputPath, website, dmType, payload);
    match target
    case Fail(e) =>
      r := Run(Fail(e), [], replies, disk);
    case Ok(t) =>
      r := Proceed(t, grid, datacenter, website, dmType, payload, overrideFile, disk, replies);
  }

  // ---------------------------------------------------------------
  // What a call promises
  // ---------------------------------------------------------------

  /** Lines 67-69: an existing file without `override_file` is returned and nothing is requested. */
  lemma ExistingFileIsKept(v: Variant, grid: string, datacenter: string, website: string, dmType: string,
                           payload: Py, outputPath: Py, overrideFile: Py, disk: Disk, replies: seq<Reply>)
    requires Targeted(v, outputPath, website, dmType, payload).Ok?
    requires Targeted(v, outputPath, website, dmType, payload).value.path in disk.files
    requires !Truthy(overrideFile)
    ensures var r := Downloaded(v, grid, datacenter, website, dmType, payload, outputPath, overrideFile, disk, replies);
      r.result == Ok(Path(Targeted(v, outputPath, website, dmType, payload).value.path))
      && Sent(r.trace) == [] && r.rest == replies && r.disk.files == disk.files
  {
    var t := Targeted(v, outputPath, website, dmType, payload).value;
    var made := Prepared(t, disk).1;
    assert Sent(made) == [] by {
      if made != [] {
        assert made == [MakeDir(t.dir)];
        assert made[1..] == [];
      }
    }
  }

  /** Lines 78-79: an API error on the search returns 0 after that one request, and writes nothing. */
  lemma SearchErrorIsZero(base: string, payload: Py, path: string, disk: Disk, replies: seq<Reply>)
    requires replies != [] && replies[0].Json? && EulerianHelper.HasApiError(replies[0].body) == Ok(1)
    ensures var r := Job(base, payload, path, disk, replies);
      r.result == Ok(Zero) && r.disk == disk && r.rest == replies[1..]
      && r.trace == [Send(Request("get", base + "search.json", payload, PNone))]
  {
  }

  /** Lines 89-90: an API error on a status reply returns 0, and writes nothing. */
  lemma StatusErrorIsZero(base: string, id: Py, path: string, disk: Disk, replies: seq<Reply>)
    requires Polled(StatusRequest(base, id), replies).result == Ok(false)
    ensures Awaited(base, id, path, disk, replies).result == Ok(Zero)
    ensures Awaited(base, id, path, disk, replies).disk == disk
  {
  }

  /**
   * A call that writes the file: the search answered a jobrun id, the
   * status polls ended COMPLETED, and the last request is the CSV export
   * of that job, its body written whole into the file.
   */
  lemma WrittenFileIsTheExport(base: string, payload: Py, path: string, disk: Disk, replies: seq<Reply>)
    requires Job(base, payload, path, disk, replies).result.Ok?
    requires Job(base, payload, path, disk, replies).result.value.Path?
    ensures var search := Searched(base, payload, replies);
      search.result.Ok? && search.result.value.Some?
      && var id := search.result.value.value;
      var poll := Polled(StatusRequest(base, id), search.rest);
      poll.result == Ok(true)
      && var r := Job(base, payload, path, disk, replies);
      poll.rest != []
      && r.trace == search.trace + poll.trace
                    + [Send(DownloadRequest(base, id)), WriteFile(path, [PStr(Body(poll.rest[0]))])]
      && r.disk == Opened(disk, path)
  {
    var search := Searched(base, payload, replies);
    var id := search.result.value.value;
    var poll := Polled(StatusRequest(base, id), search.rest);
    var f := Fetched(base, id, path, disk, poll.rest);
    assert search.trace + (poll.trace + f.trace) == search.trace + poll.trace + f.trace;
  }

  /**
   * As written, a default name already on disk for another end date is
   * taken for this download: nothing is requested.
   */
  lemma OtherRangeIsSkipped(grid: string, datacenter: string, website: string, dmType: string,
                            p: map<string, Py>, q: map<string, Py>, d: string, disk: Disk, replies: seq<Reply>)
    requires "date-from" in p && p["date-from"] == PStr(d)
    requires "date-from" in q && q["date-from"] == PStr(d)
    requires BuildOutputPath(website, dmType, PDict(p)).value in disk.files
    ensures var r := Downloaded(AsWritten, grid, datacenter, website, dmType, PDict(q), PStr(""), PBool(false), disk, replies);
      r.result == Ok(Path(BuildOutputPath(website, dmType, PDict(p)).value)) && r.trace == [] && r.rest == replies
  {
    DefaultNameRepeatsStart(website, dmType, p, q, d);
    EmptyPathIsNamed(AsWritten, website, dmType, PDict(q));
  }

  /** As written, for `d/f` a directory named `f` is created, before anything is sent. */
  lemma MadeDirIsFileName(grid: string, datacenter: string, website: string, dmType: string, payload: Py,
                          d: string, f: string, overrideFile: Py, disk: Disk, replies: seq<Reply>)
    requires '/' !in f && f != "" && !Exists(disk, f)
    ensures var r := Downloaded(AsWritten, grid, datacenter, website, dmType, payload, PStr(d + "/" + f), overrideFile, disk, replies);
      r.trace != [] && r.trace[0] == MakeDir(f) && f in r.disk.dirs
  {
    DirIsFileName(d, f, website, dmType, payload);
  }

  /** As intended, for `d/f` the directory `d` that holds the file is created first. */
  lemma MadeDirHoldsFile(grid: string, datacenter: string, website: string, dmType: string, payload: Py,
                         d: string, f: string, overrideFile: Py, disk: Disk, replies: seq<Reply>)
    requires '/' !in f && d != "" && !Exists(disk, d)
    ensures var r := Downloaded(Intended, grid, datacenter, website, dmType, payload, PStr(d + "/" + f), overrideFile, disk, replies);
      r.trace != [] && r.trace[0] == MakeDir(d) && d in r.disk.dirs
  {
    IntendedDirHoldsFile(d, f, website, dmType, payload);
  }
}
