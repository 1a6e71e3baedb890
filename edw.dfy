/**
 * `download_edw` of eanalytics_api_py/conn/_download_edw.py: the query is
 * read for its first epoch pair and its readers, a default file name is
 * derived from them, a session token is fetched, the job is submitted
 * (unless a jobrun id is given), polled until "Done", and the data it
 * points to is streamed into a gzipped CSV file, after which the job is
 * cancelled.
 */
module Edw {
  import opened Wrappers
  import opened Text
  import opened PyValue
  import opened Remote
  import JsonRequest
  import JobPoll
  import Connection
  import Datamining

  // ---------------------------------------------------------------
  // The two regular expressions of lines 60-69
  // ---------------------------------------------------------------

  /** The character classes the two patterns use: `\d`, `\w`, `\W` and `[\w_-]`. */
  datatype CharClass = Digit | Word | NonWord | Tag

  predicate InClass(k: CharClass, c: char)
  {
    match k
    case Digit => IsDigit(c)
    case Word => IsWordChar(c)
    case NonWord => !IsWordChar(c)
    case Tag => IsWordChar(c) || c == '-'
  }

  /** End of the longest run of class `k` starting at `i`. */
  function RunEnd(s: string, i: nat, k: CharClass): (e: nat)
    requires i <= |s|
    ensures i <= e <= |s|
    ensures forall j | i <= j < e :: InClass(k, s[j])
    ensures e < |s| ==> !InClass(k, s[e])
    decreases |s| - i
  {
    if i < |s| && InClass(k, s[i]) then RunEnd(s, i + 1, k) else i
  }

  /** A run is determined by where it stops. */
  lemma RunEndAt(s: string, i: nat, e: nat, k: CharClass)
    requires i <= e <= |s|
    requires forall j | i <= j < e :: InClass(k, s[j])
    requires e < |s| ==> !InClass(k, s[e])
    ensures RunEnd(s, i, k) == e
  {
  }

  /**
   * `{\W+?(\d+)\W+?(\d+)\W+?}` tried at `i`: the two digit groups. Each
   * lazy `\W+?` cannot pass a digit, so it runs to the next digit; the
   * greedy `\d+` must then be followed by a non-word character; the
   * last `\W+?` stops at the first '}' of the non-word run that follows.
   */
  function EpochAt(s: string, i: nat): (r: Option<(string, string)>)
    requires i <= |s|
    ensures r.Some? ==> r.value.0 != "" && AllDigits(r.value.0) && r.value.1 != "" && AllDigits(r.value.1)
  {
    if i == |s| || s[i] != '{' then None
    else
      var a := RunEnd(s, i + 1, NonWord);
      if a == i + 1 || a == |s| || !IsDigit(s[a]) then None
      else
        var b := RunEnd(s, a, Digit);
        var c := RunEnd(s, b, NonWord);
        if c == b || c == |s| || !IsDigit(s[c]) then None
        else
          var e := RunEnd(s, c, Digit);
          var g := RunEnd(s, e, NonWord);
          if e == g || '}' !in s[e + 1..g] then None
          else Some((s[a..b], s[c..e]))
  }

  /** The leftmost position in [i, n) where `found` holds. */
  function Leftmost(found: nat -> bool, i: nat, n: nat): (r: Option<nat>)
    ensures r.Some? ==> i <= r.value < n && found(r.value)
    ensures r.Some? ==> forall j | i <= j < r.value :: !found(j)
    ensures r.None? ==> forall j | i <= j < n :: !found(j)
    decreases n - i
  {
    if n <= i then None
    else if found(i) then Some(i)
    else Leftmost(found, i + 1, n)
  }

  /** Where `re.findall` finds its first epoch pair: the leftmost position the pattern matches at. */
  function FirstEpoch(s: string): (r: Option<nat>)
    ensures r.Some? ==> r.value < |s| && EpochAt(s, r.value).Some?
    ensures r.Some? ==> forall j | 0 <= j < r.value :: EpochAt(s, j).None?
    ensures r.None? ==> forall j | 0 <= j < |s| :: EpochAt(s, j).None?
  {
    var found := (j: nat) => j <= |s| && EpochAt(s, j).Some?;
    assert forall j: nat | j < |s| :: found(j) == EpochAt(s, j).Some?;
    Leftmost(found, 0, |s|)
  }

  /** What a reader match may hold: word characters, '-', one ':' and one '@'. */
  predicate ReaderChars(w: string)
  {
    ':' in w && '@' in w && forall j | 0 <= j < |w| :: InClass(Tag, w[j]) || w[j] == ':' || w[j] == '@'
  }

  /** `\w+:\w+@[\w_-]+` tried at `i`: where the match ends. */
  function ReaderAt(s: string, i: nat): (r: Option<nat>)
    requires i <= |s|
    ensures r.Some? ==> i < r.value <= |s|
  {
    var a := RunEnd(s, i, Word);
    if a == i || a == |s| || s[a] != ':' then None
    else
      var b := RunEnd(s, a + 1, Word);
      if b == a + 1 || b == |s| || s[b] != '@' then None
      else
        var c := RunEnd(s, b + 1, Tag);
        if c == b + 1 then None else Some(c)
  }

  /** What `ReaderAt` matches holds only word characters, '-', a ':' and an '@'. */
  lemma ReaderAtChars(s: string, i: nat)
    requires i <= |s|
    ensures ReaderAt(s, i).Some? ==> ReaderChars(s[i..ReaderAt(s, i).value])
  {
    if ReaderAt(s, i).Some? {
      var a := RunEnd(s, i, Word);
      var b := RunEnd(s, a + 1, Word);
      var c := RunEnd(s, b + 1, Tag);
      assert s[i..c][a - i] == ':' && s[i..c][b - i] == '@';
    }
  }

  /** `re.findall(r'\w+:\w+@[\w_-]+', s[i:])`: left to right, each search resuming where the last match ended. */
  function Readers(s: string, i: nat): (r: seq<string>)
    requires i <= |s|
    ensures forall k | 0 <= k < |r| :: ReaderChars(r[k])
    decreases |s| - i
  {
    if i == |s| then []
    else
      match ReaderAt(s, i)
      case Some(e) => ReaderAtChars(s, i); [s[i..e]] + Readers(s, e)
      case None => Readers(s, i + 1)
  }

  /** The pattern matches at `i` once its runs are known to end where they do. */
  lemma EpochAtRuns(s: string, i: nat, a: nat, b: nat, c: nat, e: nat, g: nat)
    requires i < |s| && s[i] == '{'
    requires i + 1 < a < |s| && RunEnd(s, i + 1, NonWord) == a && IsDigit(s[a])
    requires RunEnd(s, a, Digit) == b && RunEnd(s, b, NonWord) == c
    requires b < c < |s| && IsDigit(s[c])
    requires RunEnd(s, c, Digit) == e && RunEnd(s, e, NonWord) == g && e < g && e + 1 <= g
    requires '}' in s[e + 1..g]
    ensures EpochAt(s, i) == Some((s[a..b], s[c..e]))
  {
  }

  /** A run over a piece of the text ends right after the piece when the next character is outside the class. */
  lemma RunEndOver(s: string, i: nat, w: string, k: CharClass)
    requires i + |w| <= |s| && s[i..i + |w|] == w
    requires forall j | 0 <= j < |w| :: InClass(k, w[j])
    requires i + |w| < |s| ==> !InClass(k, s[i + |w|])
    ensures RunEnd(s, i, k) == i + |w|
  {
    forall j | i <= j < i + |w| ensures InClass(k, s[j]) {
      assert s[j] == s[i..i + |w|][j - i];
    }
    RunEndAt(s, i, i + |w|, k);
  }

  /** The runs over `{ d1 ` at the start of a text: the blank, then the digits of d1. */
  lemma OpeningRuns(s: string, d1: string)
    requires d1 != "" && AllDigits(d1)
    requires |s| > 3 + |d1| && s[1] == ' ' && s[2..2 + |d1|] == d1 && s[2 + |d1|] == ' '
    ensures RunEnd(s, 1, NonWord) == 2 && RunEnd(s, 2, Digit) == 2 + |d1|
  {
    assert s[1..2] == " ";
    assert s[2] == d1[0];
    RunEndOver(s, 1, " ", NonWord);
    RunEndOver(s, 2, d1, Digit);
  }

  /** The runs over ` d2` starting at position c - 1. */
  lemma ClosingRuns(s: string, c: nat, d2: string)
    requires d2 != "" && AllDigits(d2) && 0 < c
    requires |s| == c + |d2| + 2 && s[c - 1] == ' ' && s[c..c + |d2|] == d2
    requires s[c + |d2|] == ' '
    ensures RunEnd(s, c - 1, NonWord) == c && RunEnd(s, c, Digit) == c + |d2|
  {
    assert s[c - 1..c] == " ";
    assert s[c] == d2[0];
    RunEndOver(s, c - 1, " ", NonWord);
    RunEndOver(s, c, d2, Digit);
  }

  /** The last run of a text ending in ` }` takes both characters. */
  lemma ClosingBrace(s: string, e: nat)
    requires |s| == e + 2 && s[e] == ' ' && s[e + 1] == '}'
    ensures RunEnd(s, e, NonWord) == |s|
  {
    assert InClass(NonWord, s[e]) && InClass(NonWord, s[e + 1]);
    assert RunEnd(s, e + 2, NonWord) == e + 2;
  }

  /** Any text laid out as `{ d1 d2 }` matches at its start with the pair d1, d2. */
  lemma EpochOfLayout(s: string, d1: string, d2: string)
    requires d1 != "" && AllDigits(d1) && d2 != "" && AllDigits(d2)
    requires |s| == |d1| + |d2| + 5 && s[0] == '{' && s[1] == ' '
    requires s[2..2 + |d1|] == d1 && s[2 + |d1|] == ' '
    requires s[3 + |d1|..3 + |d1| + |d2|] == d2 && s[3 + |d1| + |d2|] == ' ' && s[4 + |d1| + |d2|] == '}'
    ensures EpochAt(s, 0) == Some((d1, d2))
  {
    var c := 3 + |d1|;
    OpeningRuns(s, d1);
    ClosingRuns(s, c, d2);
    ClosingBrace(s, c + |d2|);
    assert IsDigit(s[2]) && IsDigit(s[c]) by {
      assert s[2] == d1[0] && s[c] == d2[0];
    }
    assert s[c + |d2| + 1..|s|] == "}";
    EpochAtRuns(s, 0, 2, c - 1, c, c + |d2|, |s|);
  }

  /** A query holding `{ d1 d2 }` (no brace before it) yields exactly the pair d1, d2. */
  lemma EpochOfBraces(d1: string, d2: string)
    requires d1 != "" && AllDigits(d1) && d2 != "" && AllDigits(d2)
    ensures EpochAt("{ " + d1 + " " + d2 + " }", 0) == Some((d1, d2))
  {
    var s := "{ " + d1 + " " + d2 + " }";
    assert s[2..2 + |d1|] == d1 && s[3 + |d1|..3 + |d1| + |d2|] == d2;
    EpochOfLayout(s, d1, d2);
  }

  /** A reader `a:b@t` alone is matched whole. */
  lemma ReaderOfParts(a: string, b: string, t: string)
    requires a != "" && b != "" && t != ""
    requires forall j | 0 <= j < |a| :: IsWordChar(a[j])
    requires forall j | 0 <= j < |b| :: IsWordChar(b[j])
    requires forall j | 0 <= j < |t| :: InClass(Tag, t[j])
    ensures ReaderAt(a + ":" + b + "@" + t, 0) == Some(|a| + |b| + |t| + 2)
  {
    var s := a + ":" + b + "@" + t;
    assert s[..|a|] == a && s[|a|] == ':' && s[|a| + 1..|a| + 1 + |b|] == b && s[|a| + 1 + |b|] == '@';
    assert s[|a| + 2 + |b|..] == t;
    ReaderOfLayout(s, a, b, t);
  }

  /** Any text laid out as `a:b@t` is matched whole. */
  lemma ReaderOfLayout(s: string, a: string, b: string, t: string)
    requires a != "" && b != "" && t != ""
    requires forall j | 0 <= j < |a| :: IsWordChar(a[j])
    requires forall j | 0 <= j < |b| :: IsWordChar(b[j])
    requires forall j | 0 <= j < |t| :: InClass(Tag, t[j])
    requires |s| == |a| + |b| + |t| + 2
    requires s[..|a|] == a && s[|a|] == ':' && s[|a| + 1..|a| + 1 + |b|] == b && s[|a| + 1 + |b|] == '@'
    requires s[|a| + 2 + |b|..] == t
    ensures ReaderAt(s, 0) == Some(|s|)
  {
    var p := |a|;
    var q := p + 1 + |b|;
    assert s[0..p] == a;
    RunEndOver(s, 0, a, Word);
    RunEndOver(s, p + 1, b, Word);
    assert s[q + 1..q + 1 + |t|] == t;
    RunEndOver(s, q + 1, t, Tag);
    ReaderOfRuns(s, p, q);
  }

  /** The match `ReaderAt` finds, read off the three runs it scans. */
  lemma ReaderOfRuns(s: string, p: nat, q: nat)
    requires 0 < p && p + 1 < q && q + 1 < |s| && s[p] == ':' && s[q] == '@'
    requires RunEnd(s, 0, Word) == p && RunEnd(s, p + 1, Word) == q && RunEnd(s, q + 1, Tag) == |s|
    ensures ReaderAt(s, 0) == Some(|s|)
  {
  }

  // ---------------------------------------------------------------
  // Reader names and the default file name (lines 71-89)
  // ---------------------------------------------------------------

  /** `s.replace(':', '_').replace('@', '_')`. */
  function Sanitise(w: string): (r: string)
    ensures |r| == |w| && ':' !in r && '@' !in r
    ensures forall j | 0 <= j < |w| :: r[j] == (if w[j] == ':' || w[j] == '@' then '_' else w[j])
  {
    ReplaceChar(ReplaceChar(w, ':', '_'), '@', '_')
  }

  /** Characters a file-name part may hold. */
  predicate TagText(w: string)
  {
    forall j | 0 <= j < |w| :: InClass(Tag, w[j])
  }

  /** A sanitised reader is made of word characters and '-' alone. */
  lemma SanitisedReader(w: string)
    requires ReaderChars(w)
    ensures TagText(Sanitise(w))
  {
  }

  /** Sanitising works character by character, so it distributes over concatenation. */
  lemma SanitiseAppend(x: string, y: string)
    ensures Sanitise(x + y) == Sanitise(x) + Sanitise(y)
  {
    ReplaceCharAppend(x, y, ':', '_');
    ReplaceCharAppend(ReplaceChar(x, ':', '_'), ReplaceChar(y, ':', '_'), '@', '_');
  }

  /** `a:b@t` becomes `a_b_t`. */
  lemma SanitiseParts(a: string, b: string, t: string)
    requires ':' !in a && '@' !in a && ':' !in b && '@' !in b && ':' !in t && '@' !in t
    ensures Sanitise(a + ":" + b + "@" + t) == a + "_" + b + "_" + t
  {
    SanitiseAppend(a + ":" + b + "@", t);
    SanitiseAppend(a + ":" + b, "@");
    SanitiseAppend(a + ":", b);
    SanitiseAppend(a, ":");
    assert Sanitise(a) == a && Sanitise(b) == b && Sanitise(t) == t;
    assert Sanitise(":") == "_" && Sanitise("@") == "_";
  }

  /** What the query tells: the first epoch pair and the sanitised readers. */
  datatype EdwQuery = EdwQuery(text: string, epochFrom: string, epochTo: string, readers: seq<string>)

  /** Lines 57-77. */
  function ParseQuery(query: Py): (r: Result<EdwQuery>)
    ensures !query.PStr? ==> r.Fail? && r.error.kind == TypeError
    ensures query.PStr? ==> (r.Ok? <==> FirstEpoch(query.s).Some? && Readers(query.s, 0) != [])
    ensures query.PStr? && r.Fail? ==> r.error.kind == ValueError
    ensures r.Ok? ==> r.value.text == query.s
    ensures r.Ok? ==> Some((r.value.epochFrom, r.value.epochTo)) == EpochAt(query.s, FirstEpoch(query.s).value)
    ensures r.Ok? ==> AllDigits(r.value.epochFrom) && AllDigits(r.value.epochTo)
    ensures r.Ok? ==> |r.value.readers| == |Readers(query.s, 0)| > 0
    ensures r.Ok? ==> forall k | 0 <= k < |r.value.readers| ::
      r.value.readers[k] == Sanitise(Readers(query.s, 0)[k]) && TagText(r.value.readers[k])
  {
    if !query.PStr? then Raise(TypeError, "query should be a string")
    else
      match FirstEpoch(query.s)
      case None => Raise(ValueError, "Could not read epoch_from and epoch_to from query")
      case Some(i) =>
        var found := Readers(query.s, 0);
        if found == [] then Raise(ValueError, "Could not read READER from query")
        else
          var pair := EpochAt(query.s, i).value;
          var readers := seq(|found|, k requires 0 <= k < |found| => Sanitise(found[k]));
          assert forall k | 0 <= k < |found| :: TagText(readers[k]) by {
            forall k | 0 <= k < |found| ensures TagText(readers[k]) {
              SanitisedReader(found[k]);
            }
          }
          Ok(EdwQuery(query.s, pair.0, pair.1, readers))
  }

  /** `'_'.join(["dw", grid, "_".join(epochs[0]), "_".join(readers)]) + ".cvs.gzip"`. */
  function DefaultName(grid: string, q: EdwQuery): string
  {
    "dw_" + grid + "_" + q.epochFrom + "_" + q.epochTo + "_" + Join("_", q.readers) + ".cvs.gzip"
  }

  /** Every character of a join comes from a part or the separator. */
  lemma {:induction false} JoinChars(sep: string, parts: seq<string>, c: char)
    requires c in Join(sep, parts)
    ensures c in sep || exists k | 0 <= k < |parts| :: c in parts[k]
    decreases |parts|
  {
    if |parts| > 1 {
      var rest := Join(sep, parts[1..]);
      assert Join(sep, parts) == parts[0] + sep + rest;
      if c in rest {
        JoinChars(sep, parts[1..], c);
        if c !in sep {
          var k :| 0 <= k < |parts[1..]| && c in parts[1..][k];
          assert c in parts[k + 1];
        }
      } else if c !in sep {
        assert c in parts[0];
      }
    } else if |parts| == 1 {
      assert c in parts[0];
    }
  }

  /** The default name never holds ':' or '@' when the gridpool name does not. */
  lemma DefaultNameIsClean(grid: string, q: EdwQuery)
    requires AllDigits(q.epochFrom) && AllDigits(q.epochTo)
    requires forall k | 0 <= k < |q.readers| :: TagText(q.readers[k])
    requires ':' !in grid && '@' !in grid
    ensures ':' !in DefaultName(grid, q) && '@' !in DefaultName(grid, q)
  {
    var j := Join("_", q.readers);
    forall c | c in j && (c == ':' || c == '@') ensures false {
      JoinChars("_", q.readers, c);
    }
    assert ':' !in q.epochFrom && '@' !in q.epochFrom;
    assert ':' !in q.epochTo && '@' !in q.epochTo;
  }

  // ---------------------------------------------------------------
  // Where the data goes (lines 79-96)
  // ---------------------------------------------------------------

  datatype Target = Target(path: string, skip: bool)

  /**
   * A given path must be a string and is never skipped; without one the
   * default name is used, and skipped when it exists and `override_file`
   * is False.
   */
  function OutputTarget(grid: string, q: EdwQuery, outputPath: Py, overrideFile: Py, files: set<string>): (r: Result<Target>)
    ensures Truthy(outputPath) ==> (r.Ok? <==> outputPath.PStr?)
    ensures Truthy(outputPath) && r.Ok? ==> r.value == Target(outputPath.s, false)
    ensures !Truthy(outputPath) ==> (r.Ok? <==> overrideFile.PBool?)
    ensures !Truthy(outputPath) && r.Ok? ==>
      r.value.path == DefaultName(grid, q) && (r.value.skip <==> DefaultName(grid, q) in files && !overrideFile.b)
    ensures r.Fail? ==> r.error.kind == TypeError
  {
    if Truthy(outputPath) then
      if outputPath.PStr? then Ok(Target(outputPath.s, false))
      else Raise(TypeError, "output_path2file should be a str type")
    else
      var name := DefaultName(grid, q);
      var skip :- JsonRequest.IsSkippable(PStr(name), overrideFile, files);
      Ok(Target(name, skip))
  }

  // ---------------------------------------------------------------
  // The session (lines 98-124)
  // ---------------------------------------------------------------

  const IpifyUrl: string := "https://api.ipify.org"

  /** A given ip must be a string (ValueError); without one, the external address is asked for. */
  function SessionIp(ip: Py, ipify: string): (r: (Result<string>, seq<Event>))
    ensures Truthy(ip) ==> r.1 == [] && (r.0.Ok? <==> ip.PStr?)
    ensures Truthy(ip) && r.0.Ok? ==> r.0.value == ip.s
    ensures Truthy(ip) && r.0.Fail? ==> r.0.error.kind == ValueError
    ensures !Truthy(ip) ==> r == (Ok(ipify), [Send(Request("get", IpifyUrl, PNone, PNone))])
  {
    if Truthy(ip) then
      if ip.PStr? then (Ok(ip.s), []) else (Raise(ValueError, "ip should be a str type"), [])
    else (Ok(ipify), [Send(Request("get", IpifyUrl, PNone, PNone))])
  }

  function TokenUrl(c: Connection.Conn): string
  {
    c.apiV2 + "/er/account/get_dw_session_token.json"
  }

  /** The headers every EDW call carries. */
  function EdwHeaders(token: string): Py
  {
    PDict(map["Authorization" := PStr("Bearer " + token), "Content-Type" := PStr("application/json")])
  }

  /** `edw_token_json["data"]["rows"][0][0]`, which must be a string to follow "Bearer ". */
  function TokenOf(body: Py): (r: Result<string>)
  {
    var data :- Get(body, "data");
    var rows :- Get(data, "rows");
    var row :- At(rows, 0);
    var token :- At(row, 0);
    if token.PStr? then Ok(token.s) else Raise(TypeError, "can only concatenate str to str")
  }

  /** Lines 109-124: the session token, as the headers it yields. */
  function Session(c: Connection.Conn, ip: string, replies: seq<Reply>): (o: Outcome<Py>)
    ensures o.result.Ok? ==> replies != [] && replies[0].Json? && o.rest == replies[1..]
    ensures o.result.Ok? ==> TokenOf(replies[0].body).Ok? && o.result.value == EdwHeaders(TokenOf(replies[0].body).value)
    ensures o.result.Ok? ==> |o.trace| == 1 && o.trace[0].Send? && o.trace[0].req.verb == "get"
                             && o.trace[0].req.url == TokenUrl(c)
  {
    var call := JsonRequest.Call(PStr("get"), PStr(TokenUrl(c)), c.headers, PDict(map["ip" := PStr(ip)]), PNone, replies);
    match call.result
    case Fail(e) => Outcome(Fail(e), call.trace, call.rest)
    case Ok(j) =>
      match TokenOf(j)
      case Fail(e) => Outcome(Fail(e), call.trace, call.rest)
      case Ok(token) => Outcome(Ok(EdwHeaders(token)), call.trace, call.rest)
  }

  /** What the checks and the session leave for the job. */
  datatype Plan = Plan(conn: Connection.Conn, query: EdwQuery, path: string, headers: Py)

  /** The file is reused, or the job goes ahead. */
  datatype Begin = Skip(path: string) | Go(plan: Plan)

  /** Lines 57-96: the query and the file it goes to. */
  function Targeted(grid: string, query: Py, outputPath: Py, overrideFile: Py, files: set<string>)
    : (r: Result<(EdwQuery, Target)>)
    ensures r.Ok? <==> ParseQuery(query).Ok? && OutputTarget(grid, ParseQuery(query).value, outputPath, overrideFile, files).Ok?
    ensures r.Ok? ==> r.value == (ParseQuery(query).value, OutputTarget(grid, ParseQuery(query).value, outputPath, overrideFile, files).value)
  {
    var q :- ParseQuery(query);
    var t :- OutputTarget(grid, q, outputPath, overrideFile, files);
    Ok((q, t))
  }

  /** Lines 98-124: the ip and the session token, for a file that is not reused. */
  function Opening(c: Connection.Conn, q: EdwQuery, path: string, ip: Py, ipify: string, replies: seq<Reply>)
    : (o: Outcome<Plan>)
    ensures o.result.Ok? ==> o.result.value.conn == c && o.result.value.query == q && o.result.value.path == path
  {
    var (addr, asked) := SessionIp(ip, ipify);
    match addr
    case Fail(e) => Outcome(Fail(e), asked, replies)
    case Ok(a) =>
      var session := Session(c, a, replies);
      match session.result
      case Fail(e) => Outcome(Fail(e), asked + session.trace, session.rest)
      case Ok(h) => Outcome(Ok(Plan(c, q, path, h)), asked + session.trace, session.rest)
  }

  /** Lines 57-124: the query, the target file, the ip and the session token, in that order. */
  function Prelude(c: Connection.Conn, query: Py, ip: Py, outputPath: Py, overrideFile: Py, ipify: string,
                   disk: Disk, replies: seq<Reply>): (o: Outcome<Begin>)
    ensures o.result.Ok? ==> ParseQuery(query).Ok?
    ensures o.result.Ok? && o.result.value.Skip? ==>
      o.trace == [] && o.rest == replies && !Truthy(outputPath)
      && o.result.value.path == DefaultName(c.gridpool, ParseQuery(query).value) && o.result.value.path in disk.files
    ensures o.result.Ok? && o.result.value.Go? ==> o.result.value.plan.conn == c
    ensures o.result.Ok? && o.result.value.Go? && Truthy(outputPath) ==> outputPath.PStr? && o.result.value.plan.path == outputPath.s
  {
    match Targeted(c.gridpool, query, outputPath, overrideFile, disk.files)
    case Fail(e) => Outcome(Fail(e), [], replies)
    case Ok((q, t)) =>
      if t.skip then Outcome(Ok(Skip(t.path)), [], replies)
      else
        var o := Opening(c, q, t.path, ip, ipify, replies);
        Outcome(if o.result.Ok? then Ok(Go(o.result.value)) else Fail(o.result.error), o.trace, o.rest)
  }

  // ---------------------------------------------------------------
  // The job (lines 126-175)
  // ---------------------------------------------------------------

  function SubmitUrl(c: Connection.Conn): string
  {
    c.baseUrl + ":981/edw/jobs"
  }

  function StatusUrl(c: Connection.Conn, jobrunId: Py): string
  {
    SubmitUrl(c) + "/" + Str(jobrunId)
  }

  /** `search_json['data'][0]`. */
  function JobrunOf(body: Py): Result<Py>
  {
    var data :- Get(body, "data");
    At(data, 0)
  }

  /** Lines 126-142: a given jobrun id is used as it is; otherwise the query is posted. */
  function Submitted(p: Plan, jobrunId: Py, replies: seq<Reply>): (o: Outcome<Py>)
    ensures Truthy(jobrunId) ==> o == Outcome(Ok(jobrunId), [], replies)
    ensures !Truthy(jobrunId) && o.result.Ok? ==>
      o.trace == [Send(Request("post", SubmitUrl(p.conn), PNone,
                               PDict(map["kind" := PStr("edw#request"), "query" := PStr(p.query.text)])))]
  {
    if Truthy(jobrunId) then Outcome(Ok(jobrunId), [], replies)
    else
      var body := PDict(map["kind" := PStr("edw#request"), "query" := PStr(p.query.text)]);
      var call := JsonRequest.Call(PStr("post"), PStr(SubmitUrl(p.conn)), p.headers, PNone, body, replies);
      match call.result
      case Fail(e) => Outcome(Fail(e), call.trace, call.rest)
      case Ok(j) => Outcome(JobrunOf(j), call.trace, call.rest)
  }

  /** The status request of the poll, through `_to_json`. */
  function StatusRequest(p: Plan, jobrunId: Py): Result<Request>
  {
    JobPoll.StatusRequest(JobPoll.Package, StatusUrl(p.conn, jobrunId), p.headers, PNone)
  }

  /**
   * `urllib.parse.unwrap`, which `urllib.request.Request` applies to the
   * text of its url: surrounding white space, then one `<...>` wrapper and
   * one `URL:` prefix, are removed.
   */
  function Unwrapped(s: string): string
  {
    var a := Strip(s);
    var b := if 2 <= |a| && a[0] == '<' && a[|a| - 1] == '>' then Strip(a[1..|a| - 1]) else a;
    if StartsWith(b, "URL:") then Strip(b[4..]) else b
  }

  /** Unwrapping keeps characters of the text only. */
  lemma UnwrappedChars(s: string, c: char)
    requires c !in s
    ensures c !in Unwrapped(s)
  {
    var a := Strip(s);
    StripKeeps(s, c);
    var b := if 2 <= |a| && a[0] == '<' && a[|a| - 1] == '>' then Strip(a[1..|a| - 1]) else a;
    if 2 <= |a| && a[0] == '<' && a[|a| - 1] == '>' {
      StripKeeps(a[1..|a| - 1], c);
    }
    if StartsWith(b, "URL:") {
      StripKeeps(b[4..], c);
    }
  }

  /** `_splittag`: the text before the last '#', when there is one. */
  function Unfragmented(s: string): (r: string)
    ensures '#' !in s ==> r == s
    ensures '#' in s ==> |r| < |s| && r == s[..|r|] && s[|r|] == '#' && '#' !in s[|r| + 1..]
    decreases |s|
  {
    if '#' !in s then s
    else if s[|s| - 1] == '#' then s[..|s| - 1]
    else
      var r := Unfragmented(s[..|s| - 1]);
      assert s[|r| + 1..] == s[..|s| - 1][|r| + 1..] + [s[|s| - 1]];
      r
  }

  /** `_splittype` finds a scheme: a non-empty run of characters other than '/' and ':', then ':'. */
  predicate HasScheme(s: string)
  {
    var i := IndexOf(s, ':');
    0 < i < |s| && '/' !in s[..i]
  }

  /**
   * `urllib.request.Request(url=download_url)`: the url is `str()` of the
   * value, unwrapped and without its fragment; without a scheme the
   * constructor raises ValueError ("unknown url type").
   */
  function DownloadRequest(url: Py): (r: Result<Request>)
    ensures r.Ok? ==> HasScheme(r.value.url) && r.value.verb == "get"
    ensures r.Ok? ==> r.value.query == PNone && r.value.json == PNone
    ensures r.Ok? ==> StartsWith(Unwrapped(Str(url)), r.value.url)
    ensures r.Ok? && '#' !in Unwrapped(Str(url)) ==> r.value.url == Unwrapped(Str(url))
    ensures r.Fail? ==> r.error.kind == ValueError
  {
    var full := Unfragmented(Unwrapped(Str(url)));
    if HasScheme(full) then Ok(Request("get", full, PNone, PNone))
    else Raise(ValueError, "unknown url type")
  }

  /** The first ':' of `scheme:rest` ends the scheme, which is not "URL" for a `URL:` prefix. */
  lemma SchemeColon(scheme: string, rest: string)
    requires ':' !in scheme && scheme != "URL"
    ensures IndexOf(scheme + ":" + rest, ':') == |scheme|
    ensures (scheme + ":" + rest)[..|scheme|] == scheme
    ensures !StartsWith(scheme + ":" + rest, "URL:")
  {
    var s := scheme + ":" + rest;
    assert s[|scheme|] == ':';
    assert forall k | 0 <= k < |scheme| :: s[k] == scheme[k];
    assert s[..|scheme|] == scheme;
    if 4 <= |s| {
      if |scheme| < 3 {
        assert s[..4][|scheme|] == ':';
      } else if |scheme| == 3 {
        assert s[..4][..3] == scheme;
      } else {
        assert s[..4][3] == scheme[3];
      }
    }
  }

  /** A url whose unwrapped text without fragment has a scheme is requested as that text. */
  lemma DownloadRequestOf(url: Py, full: string)
    requires full == Unfragmented(Unwrapped(Str(url))) && HasScheme(full)
    ensures DownloadRequest(url) == Ok(Request("get", full, PNone, PNone))
  {
  }

  /** Text without surrounding white space, `<...>` or `URL:` is its own unwrapping. */
  lemma UnwrappedPlain(s: string)
    requires 0 < |s| && !IsSpace(s[0]) && !IsSpace(s[|s| - 1]) && s[0] != '<' && !StartsWith(s, "URL:")
    ensures Unwrapped(s) == s
  {
    assert TrimLeft(s) == s;
    assert TrimRight(s) == s;
  }

  /** The last '#' starts the fragment. */
  lemma {:induction false} UnfragmentedTag(u: string, tag: string)
    requires '#' !in tag
    ensures Unfragmented(u + "#" + tag) == u
    decreases |tag|
  {
    var s := u + "#" + tag;
    assert s[|u|] == '#';
    if tag == [] {
      assert s[..|s| - 1] == u;
    } else {
      var init := tag[..|tag| - 1];
      assert s[|s| - 1] == tag[|tag| - 1];
      assert s[..|s| - 1] == u + "#" + init;
      assert forall c | c in init :: c in tag;
      UnfragmentedTag(u, init);
    }
  }

  /** A plain url with a scheme is requested as it is. */
  lemma DownloadRequestPlain(scheme: string, rest: string)
    requires scheme != "" && '/' !in scheme && ':' !in scheme && '#' !in scheme && scheme != "URL" && scheme[0] != '<'
    requires !IsSpace(scheme[0]) && '#' !in rest && (rest == "" || !IsSpace(rest[|rest| - 1]))
    ensures DownloadRequest(PStr(scheme + ":" + rest)) == Ok(Request("get", scheme + ":" + rest, PNone, PNone))
  {
    var s := scheme + ":" + rest;
    SchemeColon(scheme, rest);
    assert s[0] == scheme[0];
    UnwrappedPlain(s);
    assert '#' !in s;
    DownloadRequestOf(PStr(s), s);
  }

  /** The fragment of a url is not part of the request: `scheme:rest#tag` is requested as `scheme:rest`. */
  lemma FragmentDropped(scheme: string, rest: string, tag: string)
    requires scheme != "" && '/' !in scheme && ':' !in scheme && '#' !in scheme && scheme != "URL" && scheme[0] != '<'
    requires !IsSpace(scheme[0]) && '#' !in tag && (tag == "" || !IsSpace(tag[|tag| - 1]))
    ensures Unfragmented(Unwrapped(scheme + ":" + rest + "#" + tag)) == scheme + ":" + rest
    ensures HasScheme(scheme + ":" + rest)
  {
    var u := scheme + ":" + rest;
    var s := u + "#" + tag;
    assert Unwrapped(s) == s by {
      SchemeColon(scheme, rest + "#" + tag);
      assert s == scheme + ":" + (rest + "#" + tag);
      assert s[0] == scheme[0];
      assert s[|s| - 1] == if tag == "" then '#' else tag[|tag| - 1];
      UnwrappedPlain(s);
    }
    UnfragmentedTag(u, tag);
    SchemeColon(scheme, rest);
  }

  /** Without ':' there is no scheme: ValueError, whatever the value. */
  lemma NoColonRefused(url: Py)
    requires ':' !in Str(url)
    ensures DownloadRequest(url).Fail? && DownloadRequest(url).error.kind == ValueError
  {
    var full := Unfragmented(Unwrapped(Str(url)));
    UnwrappedChars(Str(url), ':');
    assert ':' !in full;
    assert IndexOf(full, ':') == |full|;
  }

  /** A number, a bool or None has no ':' in its text, so it is refused. */
  lemma ScalarRefused(url: Py)
    requires url.PNone? || url.PBool? || url.PInt? || url.PFloat? || url.PNaN?
    ensures DownloadRequest(url).Fail? && DownloadRequest(url).error.kind == ValueError
  {
    if url.PInt? {
      var i := url.i;
      if i < 0 {
        assert Str(url) == "-" + NatToString(-i);
      }
    }
    NoColonRefused(url);
  }

  /**
   * The URL the job is cancelled under, as written: `search_url` is bound
   * only when the job was submitted here (line 128) but is read at line
   * 172 in every case. Reading the unbound local raises UnboundLocalError,
   * a subclass of NameError, which is the kind recorded here.
   */
  function CancelBaseAsWritten(c: Connection.Conn, jobrunId: Py): (r: Result<string>)
    ensures r.Fail? <==> Truthy(jobrunId)
    ensures r.Fail? ==> r.error.kind == NameError
    ensures r.Ok? ==> r.value == SubmitUrl(c)
  {
    if Truthy(jobrunId) then
      Raise(NameError, "UnboundLocalError: cannot access local variable 'search_url' where it is not associated with a value")
    else Ok(SubmitUrl(c))
  }

  /** Lines 165-175: the download request, then the stream into the file. */
  function Fetched(path: string, url: Py, cancelBase: Result<string>, disk: Disk, replies: seq<Reply>): (r: Run<string>)
    ensures r.result.Ok? ==> r.result.value == path && r.disk == Opened(disk, path)
    ensures r.disk == disk || r.disk == Opened(disk, path)
    ensures cancelBase.Fail? ==> r.result.Fail? && r.disk == disk && r.trace == []
  {
    match DownloadRequest(url)
    case Fail(e) => Run(Fail(e), [], replies, disk)
    case Ok(req) =>
      match cancelBase
      case Fail(e) => Run(Fail(e), [], replies, disk)
      case Ok(base) =>
        var st := StreamedEdw(req, path, base, disk, replies);
        Run(if st.result.Ok? then Ok(path) else Fail(st.result.error), st.trace, st.rest, st.disk)
  }

  /** Lines 144-175: poll the job until "Done", then fetch `data[1]` of the final status. */
  function Awaited(p: Plan, id: Py, wait: Py, cancelBase: Result<string>, disk: Disk, replies: seq<Reply>)
    : (r: Run<string>)
    ensures r.result.Ok? ==> r.result.value == p.path && r.disk == Opened(disk, p.path)
    ensures r.disk == disk || r.disk == Opened(disk, p.path)
    ensures cancelBase.Fail? ==> r.result.Fail? && r.disk == disk
    ensures r.trace != [] && r.trace[0] == Sleep(JobPoll.WaitSeconds(wait))
  {
    var poll := JobPoll.Polled(StatusRequest(p, id), JobPoll.DoneRule, JobPoll.WaitSeconds(wait), replies);
    match poll.result
    case Fail(e) => Run(Fail(e), poll.trace, poll.rest, disk)
    case Ok(url) =>
      var f := Fetched(p.path, url, cancelBase, disk, poll.rest);
      Run(f.result, poll.trace + f.trace, f.rest, f.disk)
  }

  /**
   * Lines 126-178 once the session is open: submit, poll until "Done",
   * and stream `data[1]` of the final status into the file.
   */
  function Finish(p: Plan, jobrunId: Py, wait: Py, cancelBase: Result<string>, disk: Disk, replies: seq<Reply>)
    : (r: Run<string>)
    ensures r.result.Ok? ==> r.result.value == p.path && r.disk == Opened(disk, p.path)
    ensures r.disk == disk || r.disk == Opened(disk, p.path)
    ensures cancelBase.Fail? ==> r.result.Fail? && r.disk == disk
    ensures Truthy(jobrunId) ==> r.trace != [] && r.trace[0] == Sleep(JobPoll.WaitSeconds(wait))
  {
    var sub := Submitted(p, jobrunId, replies);
    match sub.result
    case Fail(e) => Run(Fail(e), sub.trace, sub.rest, disk)
    case Ok(id) =>
      var a := Awaited(p, id, wait, cancelBase, disk, sub.rest);
      assert Truthy(jobrunId) ==> sub.trace + a.trace == a.trace;
      Run(a.result, sub.trace + a.trace, a.rest, a.disk)
  }

  // ---------------------------------------------------------------
  // _stream_to_csv_gzip (lines 181-251)
  // ---------------------------------------------------------------

  /** `ijson.items(f, "a.b.item")`: the items of the list at that path, else none. */
  function ItemsAt(body: Py, path: seq<string>): seq<Py>
    decreases |path|
  {
    if |path| == 0 then (if body.PList? then body.items else [])
    else if body.PDict? && path[0] in body.entries then ItemsAt(body.entries[path[0]], path[1..])
    else []
  }

  /** `columns.append(header[1])` for each schema entry. */
  function SchemaColumns(schema: seq<Py>): (r: Result<seq<Py>>)
    ensures r.Ok? <==> forall k | 0 <= k < |schema| :: At(schema[k], 1).Ok?
    ensures r.Ok? ==> |r.value| == |schema| && forall k | 0 <= k < |schema| :: At(schema[k], 1) == Ok(r.value[k])
  {
    if |schema| == 0 then Ok([])
    else
      var h :- At(schema[0], 1);
      var t :- SchemaColumns(schema[1..]);
      Ok([h] + t)
  }

  /** The first schema entry without an element [1] decides the error. */
  lemma {:induction false} SchemaFirstFailure(schema: seq<Py>, i: nat)
    requires i < |schema| && At(schema[i], 1).Fail?
    requires forall k | 0 <= k < i :: At(schema[k], 1).Ok?
    ensures SchemaColumns(schema) == Fail(At(schema[i], 1).error)
  {
    if i > 0 {
      SchemaFirstFailure(schema[1..], i - 1);
    }
  }

  /** One POST per job uuid, in order, to `{search_url}/{uuid}/cancel`. */
  function Cancels(base: string, uuids: seq<Py>): (t: seq<Event>)
    ensures |t| == |uuids|
    ensures forall k | 0 <= k < |uuids| :: t[k] == Send(Request("post", base + "/" + Str(uuids[k]) + "/cancel", PNone, PNone))
  {
    if |uuids| == 0 then []
    else [Send(Request("post", base + "/" + Str(uuids[0]) + "/cancel", PNone, PNone))] + Cancels(base, uuids[1..])
  }

  /**
   * The gzip file is opened first; the download request is sent once for
   * the schema, once for the rows and once for the job uuids, which are
   * cancelled without waiting for an answer.
   */
  function StreamedEdw(req: Request, path: string, base: string, disk: Disk, replies: seq<Reply>): (r: Run<()>)
    ensures r.disk == Opened(disk, path)
    ensures r.result.Ok? ==> |replies| >= 3 && r.rest == replies[3..]
  {
    var d := Opened(disk, path);
    if |replies| == 0 then Run(Raise(NoReply, "no reply"), [Send(req), WriteFile(path, [])], [], d)
    else
      match Datamining.Parsed(replies[0])
      case Fail(e) => Run(Fail(e), [Send(req), WriteFile(path, [])], replies[1..], d)
      case Ok(first) =>
        match SchemaColumns(ItemsAt(first, ["headers", "schema"]))
        case Fail(e) => Run(Fail(e), [Send(req), WriteFile(path, [])], replies[1..], d)
        case Ok(columns) =>
          var head := [PList(columns)];
          if |replies| == 1 then Run(Raise(NoReply, "no reply"), [Send(req), Send(req), WriteFile(path, head)], [], d)
          else
            match Datamining.Parsed(replies[1])
            case Fail(e) => Run(Fail(e), [Send(req), Send(req), WriteFile(path, head)], replies[2..], d)
            case Ok(second) =>
              var rows := ItemsAt(second, ["rows"]);
              var k := Datamining.WritablePrefix(rows);
              if k < |rows| then
                Run(Raise(CsvError, "iterable expected"), [Send(req), Send(req), WriteFile(path, head + rows[..k])],
                    replies[2..], d)
              else
                var written := [Send(req), Send(req), WriteFile(path, head + rows), Send(req)];
                if |replies| == 2 then Run(Raise(NoReply, "no reply"), written, [], d)
                else
                  match Datamining.Parsed(replies[2])
                  case Fail(e) => Run(Fail(e), written, replies[3..], d)
                  case Ok(third) =>
                    Run(Ok(()), written + Cancels(base, ItemsAt(third, ["headers", "uuid"])), replies[3..], d)
  }

  /** The header loop of lines 223-229. */
  method CollectSchema(schema: seq<Py>) returns (r: Result<seq<Py>>)
    ensures r == SchemaColumns(schema)
  {
    var columns: seq<Py> := [];
    var i := 0;
    while i < |schema|
      invariant 0 <= i <= |schema| && |columns| == i
      invariant forall k | 0 <= k < i :: At(schema[k], 1) == Ok(columns[k])
    {
      var h := At(schema[i], 1);
      if h.Fail? {
        SchemaFirstFailure(schema, i);
        return Fail(h.error);
      }
      columns := columns + [h.value];
      i := i + 1;
    }
    var all := SchemaColumns(schema);
    assert all.Ok?;
    assert forall k | 0 <= k < |schema| :: all.value[k] == columns[k];
    assert all.value == columns;
    return Ok(columns);
  }

  /** The cancel loop of lines 238-251. */
  method CancelJobs(base: string, uuids: seq<Py>) returns (t: seq<Event>)
    ensures t == Cancels(base, uuids)
  {
    t := [];
    for i := 0 to |uuids|
      invariant |t| == i
      invariant forall k | 0 <= k < i :: t[k] == Send(Request("post", base + "/" + Str(uuids[k]) + "/cancel", PNone, PNone))
    {
      t := t + [Send(Request("post", base + "/" + Str(uuids[i]) + "/cancel", PNone, PNone))];
    }
  }

  /** `_stream_to_csv_gzip` as it runs. */
  method StreamToCsvGzip(req: Request, path: string, base: string, disk: Disk, replies: seq<Reply>) returns (r: Run<()>)
    ensures r == StreamedEdw(req, path, base, disk, replies)
  {
    var d := Opened(disk, path);
    if |replies| == 0 {
      return Run(Raise(NoReply, "no reply"), [Send(req), WriteFile(path, [])], [], d);
    }
    var first := Datamining.Parsed(replies[0]);
    if first.Fail? {
      return Run(Fail(first.error), [Send(req), WriteFile(path, [])], replies[1..], d);
    }
    var columns := CollectSchema(ItemsAt(first.value, ["headers", "schema"]));
    if columns.Fail? {
      return Run(Fail(columns.error), [Send(req), WriteFile(path, [])], replies[1..], d);
    }
    var head := [PList(columns.value)];
    if |replies| == 1 {
      return Run(Raise(NoReply, "no reply"), [Send(req), Send(req), WriteFile(path, head)], [], d);
    }
    var second := Datamining.Parsed(replies[1]);
    if second.Fail? {
      return Run(Fail(second.error), [Send(req), Send(req), WriteFile(path, head)], replies[2..], d);
    }
    var rows := ItemsAt(second.value, ["rows"]);
    var lines, ok := Datamining.CopyRows(head, rows);
    if !ok {
      return Run(Raise(CsvError, "iterable expected"), [Send(req), Send(req), WriteFile(path, lines)], replies[2..], d);
    }
    assert rows[..|rows|] == rows;
    var written := [Send(req), Send(req), WriteFile(path, lines), Send(req)];
    if |replies| == 2 {
      return Run(Raise(NoReply, "no reply"), written, [], d);
    }
    var third := Datamining.Parsed(replies[2]);
    if third.Fail? {
      return Run(Fail(third.error), written, replies[3..], d);
    }
    var cancels := CancelJobs(base, ItemsAt(third.value, ["headers", "uuid"]));
    r := Run(Ok(()), written + cancels, replies[3..], d);
  }

  /** Lines 165-175 as they run. */
  method FetchFile(path: string, url: Py, cancelBase: Result<string>, disk: Disk, replies: seq<Reply>)
    returns (r: Run<string>)
    ensures r == Fetched(path, url, cancelBase, disk, replies)
  {
    var req := DownloadRequest(url);
    if req.Fail? {
      return Run(Fail(req.error), [], replies, disk);
    }
    if cancelBase.Fail? {
      return Run(Fail(cancelBase.error), [], replies, disk);
    }
    var st := StreamToCsvGzip(req.value, path, cancelBase.value, disk, replies);
    r := Run(if st.result.Ok? then Ok(path) else Fail(st.result.error), st.trace, st.rest, st.disk);
  }

  /** Lines 144-175 as they run. */
  method AwaitJob(p: Plan, id: Py, wait: Py, cancelBase: Result<string>, disk: Disk, replies: seq<Reply>)
    returns (r: Run<string>)
    ensures r == Awaited(p, id, wait, cancelBase, disk, replies)
  {
    var poll := JobPoll.PollUntilReady(JobPoll.Package, JobPoll.DoneRule, StatusUrl(p.conn, id), p.headers, PNone,
                                       JobPoll.WaitSeconds(wait), replies);
    if poll.result.Fail? {
      return Run(Fail(poll.result.error), poll.trace, poll.rest, disk);
    }
    var f := FetchFile(p.path, poll.result.value, cancelBase, disk, poll.rest);
    r := Run(f.result, poll.trace + f.trace, f.rest, f.disk);
  }

  /** Lines 126-178 as they run. */
  method FinishJob(p: Plan, jobrunId: Py, wait: Py, cancelBase: Result<string>, disk: Disk, replies: seq<Reply>)
    returns (r: Run<string>)
    ensures r == Finish(p, jobrunId, wait, cancelBase, disk, replies)
  {
    var sub := Submitted(p, jobrunId, replies);
    if sub.result.Fail? {
      return Run(Fail(sub.result.error), sub.trace, sub.rest, disk);
    }
    var a := AwaitJob(p, sub.result.value, wait, cancelBase, disk, sub.rest);
    r := Run(a.result, sub.trace + a.trace, a.rest, a.disk);
  }

  // ---------------------------------------------------------------
  // download_edw, start to end
  // ---------------------------------------------------------------

  /** `download_edw` with the URL the job is cancelled under given. */
  function DownloadedWith(c: Connection.Conn, query: Py, wait: Py, ip: Py, outputPath: Py, overrideFile: Py,
                          jobrunId: Py, ipify: string, cancelBase: Result<string>, disk: Disk, replies: seq<Reply>)
    : (r: Run<string>)
    ensures r.result.Ok? ==> r.result.value in r.disk.files
  {
    Continued(Prelude(c, query, ip, outputPath, overrideFile, ipify, disk, replies), jobrunId, wait, cancelBase,
              disk, replies)
  }

  /** What follows the prelude: the reused file, or lines 126-178 for a file to write. */
  function Continued(pre: Outcome<Begin>, jobrunId: Py, wait: Py, cancelBase: Result<string>, disk: Disk,
                     replies: seq<Reply>): (r: Run<string>)
    ensures r.result.Ok? && pre.result.Ok? && pre.result.value.Go? ==> r.result.value in r.disk.files
  {
    match pre.result
    case Fail(e) => Run(Fail(e), pre.trace, pre.rest, disk)
    case Ok(Skip(path)) => Run(Ok(path), [], replies, disk)
    case Ok(Go(p)) =>
      var f := Finish(p, jobrunId, wait, cancelBase, disk, pre.rest);
      Run(f.result, pre.trace + f.trace, f.rest, f.disk)
  }

  /** `download_edw` (lines 16-178), with the job cancelled under the jobs URL whether or not it was submitted here. */
  function Downloaded(c: Connection.Conn, query: Py, wait: Py, ip: Py, outputPath: Py, overrideFile: Py,
                      jobrunId: Py, ipify: string, disk: Disk, replies: seq<Reply>): (r: Run<string>)
    ensures r.result.Ok? ==> r.result.value in r.disk.files
  {
    DownloadedWith(c, query, wait, ip, outputPath, overrideFile, jobrunId, ipify, Ok(SubmitUrl(c)), disk, replies)
  }

  /** `download_edw` as written. */
  function DownloadedAsWritten(c: Connection.Conn, query: Py, wait: Py, ip: Py, outputPath: Py, overrideFile: Py,
                               jobrunId: Py, ipify: string, disk: Disk, replies: seq<Reply>): (r: Run<string>)
    ensures r.result.Ok? ==> r.result.value in r.disk.files
  {
    DownloadedWith(c, query, wait, ip, outputPath, overrideFile, jobrunId, ipify, CancelBaseAsWritten(c, jobrunId),
                   disk, replies)
  }

  /** `download_edw` as it runs, with the URL the job is cancelled under given. */
  method DownloadEdwWith(c: Connection.Conn, query: Py, wait: Py, ip: Py, outputPath: Py, overrideFile: Py,
                         jobrunId: Py, ipify: string, cancelBase: Result<string>, disk: Disk, replies: seq<Reply>)
    returns (r: Run<string>)
    ensures r == DownloadedWith(c, query, wait, ip, outputPath, overrideFile, jobrunId, ipify, cancelBase, disk, replies)
  {
    var pre := Prelude(c, query, ip, outputPath, overrideFile, ipify, disk, replies);
    r := Continue(pre, jobrunId, wait, cancelBase, disk, replies);
  }

  /** What follows the prelude, as it runs. */
  method Continue(pre: Outcome<Begin>, jobrunId: Py, wait: Py, cancelBase: Result<string>, disk: Disk,
                  replies: seq<Reply>) returns (r: Run<string>)
    ensures r == Continued(pre, jobrunId, wait, cancelBase, disk, replies)
  {
    if pre.result.Fail? {
      return Run(Fail(pre.result.error), pre.trace, pre.rest, disk);
    }
    if pre.result.value.Skip? {
      return Run(Ok(pre.result.value.path), [], replies, disk);
    }
    var f := FinishJob(pre.result.value.plan, jobrunId, wait, cancelBase, disk, pre.rest);
    r := Run(f.result, pre.trace + f.trace, f.rest, f.disk);
  }

  /** `download_edw` as it runs. */
  method DownloadEdw(c: Connection.Conn, query: Py, wait: Py, ip: Py, outputPath: Py, overrideFile: Py,
                     jobrunId: Py, ipify: string, disk: Disk, replies: seq<Reply>) returns (r: Run<string>)
    ensures r == Downloaded(c, query, wait, ip, outputPath, overrideFile, jobrunId, ipify, disk, replies)
  {
    r := DownloadEdwWith(c, query, wait, ip, outputPath, overrideFile, jobrunId, ipify, Ok(SubmitUrl(c)), disk, replies);
  }

  // ---------------------------------------------------------------
  // What a call promises
  // ---------------------------------------------------------------

  /** The default file, when it exists and `override_file` is False, is returned before anything is sent. */
  lemma DefaultNameReused(c: Connection.Conn, query: Py, wait: Py, ip: Py, jobrunId: Py, ipify: string,
                          disk: Disk, replies: seq<Reply>)
    requires ParseQuery(query).Ok?
    requires DefaultName(c.gridpool, ParseQuery(query).value) in disk.files
    ensures Downloaded(c, query, wait, ip, PNone, PBool(false), jobrunId, ipify, disk, replies)
         == Run(Ok(DefaultName(c.gridpool, ParseQuery(query).value)), [], replies, disk)
  {
  }

  /** A path given by the caller is always written, never reused. */
  lemma GivenPathIsWritten(c: Connection.Conn, query: Py, wait: Py, ip: Py, outputPath: Py, overrideFile: Py,
                           jobrunId: Py, ipify: string, disk: Disk, replies: seq<Reply>)
    requires Truthy(outputPath)
    requires Downloaded(c, query, wait, ip, outputPath, overrideFile, jobrunId, ipify, disk, replies).result.Ok?
    ensures outputPath.PStr?
    ensures Downloaded(c, query, wait, ip, outputPath, overrideFile, jobrunId, ipify, disk, replies)
            .disk == Opened(disk, outputPath.s)
  {
  }

  /** The header row is element [1] of each schema entry, in order, and the rows follow unchanged. */
  lemma EdwFileShape(req: Request, path: string, base: string, disk: Disk, replies: seq<Reply>)
    requires StreamedEdw(req, path, base, disk, replies).result.Ok?
    ensures |replies| >= 3 && replies[0].Json? && replies[1].Json? && replies[2].Json?
    ensures var t := StreamedEdw(req, path, base, disk, replies).trace;
      var schema := ItemsAt(replies[0].body, ["headers", "schema"]);
      var rows := ItemsAt(replies[1].body, ["rows"]);
      var uuids := ItemsAt(replies[2].body, ["headers", "uuid"]);
      |t| == 4 + |uuids| && t[..4] == [Send(req), Send(req), WriteFile(path, t[2].lines), Send(req)]
      && |t[2].lines| == 1 + |rows| && t[2].lines[1..] == rows
      && t[2].lines[0].PList? && |t[2].lines[0].items| == |schema|
      && (forall k | 0 <= k < |schema| :: At(schema[k], 1) == Ok(t[2].lines[0].items[k]))
      && (forall k | 0 <= k < |uuids| :: t[4 + k].Send? && t[4 + k].req.verb == "post"
            && t[4 + k].req.url == base + "/" + Str(uuids[k]) + "/cancel")
  {
  }

  /**
   * As written, a supplied jobrun id is polled for and then the call
   * fails with an UnboundLocalError (a NameError): nothing is written.
   */
  lemma SuppliedJobrunNameError(p: Plan, jobrunId: Py, wait: Py, disk: Disk, replies: seq<Reply>)
    requires Truthy(jobrunId)
    ensures var r := Finish(p, jobrunId, wait, CancelBaseAsWritten(p.conn, jobrunId), disk, replies);
      r.result.Fail? && r.disk == disk
    ensures var poll := JobPoll.Polled(StatusRequest(p, jobrunId), JobPoll.DoneRule, JobPoll.WaitSeconds(wait), replies);
      poll.result.Ok? && DownloadRequest(poll.result.value).Ok?
      ==> Finish(p, jobrunId, wait, CancelBaseAsWritten(p.conn, jobrunId), disk, replies).result.error.kind == NameError
  {
  }

  /**
   * With the jobs URL bound in every case, a supplied jobrun id is polled
   * for, its data streamed into the file and the job cancelled under the
   * same URL a submitted job would be.
   */
  lemma SuppliedJobrunStreams(p: Plan, jobrunId: Py, wait: Py, disk: Disk, replies: seq<Reply>, req: Request)
    requires Truthy(jobrunId)
    requires var poll := JobPoll.Polled(StatusRequest(p, jobrunId), JobPoll.DoneRule, JobPoll.WaitSeconds(wait), replies);
      poll.result.Ok? && DownloadRequest(poll.result.value) == Ok(req)
    ensures var poll := JobPoll.Polled(StatusRequest(p, jobrunId), JobPoll.DoneRule, JobPoll.WaitSeconds(wait), replies);
      var st := StreamedEdw(req, p.path, SubmitUrl(p.conn), disk, poll.rest);
      var r := Finish(p, jobrunId, wait, Ok(SubmitUrl(p.conn)), disk, replies);
      r.trace == poll.trace + st.trace && r.disk == Opened(disk, p.path)
      && (r.result.Ok? <==> st.result.Ok?)
  {
    var poll := JobPoll.Polled(StatusRequest(p, jobrunId), JobPoll.DoneRule, JobPoll.WaitSeconds(wait), replies);
    var st := StreamedEdw(req, p.path, SubmitUrl(p.conn), disk, poll.rest);
    assert [] + (poll.trace + st.trace) == poll.trace + st.trace;
  }
}
