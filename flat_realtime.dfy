/**
 * `download_flat_realtime_report` (conn/_download_flat_realtime_report.py):
 * a realtime report fetched path by path. Each path of `path_dim_map` is
 * a dotted list of segments; a segment ending in "[%d]" fans out into one
 * path per id the API lists for it, and the expanded paths are requested
 * in batches of eleven, then ten.
 *
 * DataFrames are modelled by their columns and rows; `pd.concat` of the
 * frames is the list of frames.
 */
module FlatRealtime {
  import opened Wrappers
  import opened Text
  import opened PyValue
  import opened Remote
  import JsonRequest
  import Connection

  // ---------------------------------------------------------------
  // `fmt % n` for a single integer argument
  // ---------------------------------------------------------------

  /**
   * Python's `%` formatting of `s` with one integer, scanning from the
   * left: "%%" is a percent sign, the first of "%d", "%i", "%u", "%s",
   * "%r" and "%a" takes the integer (each writes it in decimal), "%(" asks
   * for a mapping, and an unused argument is an error. Python fetches the
   * argument before it looks at the conversion character, so any other
   * conversion found once the integer is used is "not enough arguments".
   * Flags, widths, precisions and the other conversions ("%x", "%o",
   * "%e", "%f", "%g", "%c") are not formatted here: before the integer is
   * used they are refused like a character Python does not know.
   */
  function FormatFrom(s: string, n: int, used: bool): (r: Result<string>)
    ensures r.Fail? ==> r.error.kind == TypeError || r.error.kind == ValueError
    decreases |s|
  {
    if |s| == 0 then
      if used then Ok("") else Raise(TypeError, "not all arguments converted during string formatting")
    else if s[0] != '%' then
      var t :- FormatFrom(s[1..], n, used);
      Ok([s[0]] + t)
    else if |s| == 1 then Raise(ValueError, "incomplete format")
    else if s[1] == '%' then
      var t :- FormatFrom(s[2..], n, used);
      Ok("%" + t)
    else if s[1] == '(' then Raise(TypeError, "format requires a mapping")
    else if s[1] in DecimalConversions then
      if used then Raise(TypeError, "not enough arguments for format string")
      else
        var t :- FormatFrom(s[2..], n, true);
        Ok(IntToString(n) + t)
    else if used then Raise(TypeError, "not enough arguments for format string")
    else Raise(ValueError, "unsupported format character")
  }

  /** The conversions that write an integer argument in decimal. */
  const DecimalConversions: set<char> := {'d', 'i', 'u', 's', 'r', 'a'}

  /** `s % n`. */
  function Percent(s: string, n: int): Result<string>
  {
    FormatFrom(s, n, false)
  }

  /** Text without '%' is copied unchanged once the argument is used. */
  lemma {:induction false} FormatPlain(s: string, n: int)
    requires '%' !in s
    ensures FormatFrom(s, n, true) == Ok(s)
    ensures FormatFrom(s, n, false).Fail? && FormatFrom(s, n, false).error.kind == TypeError
    decreases |s|
  {
    if |s| > 0 {
      assert s[0] in s && s[0] != '%';
      assert forall c | c in s[1..] :: c in s;
      FormatPlain(s[1..], n);
      assert [s[0]] + s[1..] == s;
    }
  }

  /** A leading "%d" (or another decimal conversion) takes the integer, and the text after it is copied. */
  lemma PercentFirst(c: char, b: string, n: int)
    requires c in DecimalConversions && '%' !in b
    ensures FormatFrom(['%', c] + b, n, false) == Ok(IntToString(n) + b)
  {
    var s := ['%', c] + b;
    assert s[0] == '%' && s[1] == c && s[2..] == b;
    FormatPlain(b, n);
  }

  /** Text with one decimal conversion and no other '%' gets the integer in its place. */
  lemma PercentOne(a: string, c: char, b: string, n: int)
    requires c in DecimalConversions && '%' !in a && '%' !in b
    ensures Percent(a + ['%', c] + b, n) == Ok(a + IntToString(n) + b)
  {
    PercentFirst(c, b, n);
    FormatPlainPrefix(a, ['%', c] + b, n, false);
    assert a + ['%', c] + b == a + (['%', c] + b);
    assert a + (IntToString(n) + b) == a + IntToString(n) + b;
  }

  /** Text without '%' in front of a format is copied as it is. */
  lemma {:induction false} FormatPlainPrefix(a: string, t: string, n: int, used: bool)
    requires '%' !in a
    ensures FormatFrom(t, n, used).Ok? ==> FormatFrom(a + t, n, used) == Ok(a + FormatFrom(t, n, used).value)
    decreases |a|
  {
    if a == [] {
      assert a + t == t;
      if FormatFrom(t, n, used).Ok? {
        assert a + FormatFrom(t, n, used).value == FormatFrom(t, n, used).value;
      }
    } else if FormatFrom(t, n, used).Ok? {
      var v := FormatFrom(t, n, used).value;
      var c, rest := a[0], a[1..];
      assert '%' !in rest by {
        forall k | 0 <= k < |rest| ensures rest[k] != '%' {
          assert rest[k] == a[k + 1];
        }
      }
      FormatPlainPrefix(rest, t, n, used);
      var u := rest + t;
      assert a + t == [c] + u;
      FormatPlainHead(c, u, n, used);
      assert [c] + (rest + v) == a + v;
    }
  }

  /** A leading character other than '%' is copied as it is. */
  lemma FormatPlainHead(c: char, t: string, n: int, used: bool)
    requires c != '%'
    ensures FormatFrom(t, n, used).Ok? ==> FormatFrom([c] + t, n, used) == Ok([c] + FormatFrom(t, n, used).value)
  {
    assert ([c] + t)[0] == c && ([c] + t)[1..] == t;
  }

  /**
   * Once the integer is used, a conversion other than "%%" finds no
   * argument left: a TypeError whatever its character (`"%d%z" % 5`).
   */
  lemma SecondConversionNeedsArgument(c: char, t: string, n: int)
    requires c != '%' && c != '('
    ensures FormatFrom(['%', c] + t, n, true) == Raise(TypeError, "not enough arguments for format string")
  {
    assert (['%', c] + t)[0] == '%' && (['%', c] + t)[1] == c;
  }

  /** Before the integer is used, an unknown conversion character is a ValueError. */
  lemma UnknownConversionFirst(c: char, t: string, n: int)
    requires c !in DecimalConversions && c != '%' && c != '('
    ensures FormatFrom(['%', c] + t, n, false) == Raise(ValueError, "unsupported format character")
  {
    assert (['%', c] + t)[0] == '%' && (['%', c] + t)[1] == c;
  }

  /** Text without '%' cannot take the argument: a TypeError. */
  lemma PercentNothingToFill(s: string, n: int)
    requires '%' !in s
    ensures Percent(s, n).Fail? && Percent(s, n).error.kind == TypeError
  {
    FormatPlain(s, n);
  }

  // ---------------------------------------------------------------
  // `",".join(list)`
  // ---------------------------------------------------------------

  /** The strings of a list; `join` raises TypeError on any other item. */
  function StrItems(xs: seq<Py>): (r: Result<seq<string>>)
    ensures r.Ok? <==> forall k | 0 <= k < |xs| :: xs[k].PStr?
    ensures r.Ok? ==> |r.value| == |xs| && forall k | 0 <= k < |xs| :: xs[k] == PStr(r.value[k])
    ensures r.Fail? ==> r.error.kind == TypeError
    decreases |xs|
  {
    if |xs| == 0 then Ok([])
    else if !xs[0].PStr? then Raise(TypeError, "sequence item: expected str instance")
    else
      var t :- StrItems(xs[1..]);
      Ok([xs[0].s] + t)
  }

  /** `sep.join(xs)`. */
  function JoinItems(sep: string, xs: seq<Py>): Result<string>
  {
    var strs :- StrItems(xs);
    Ok(Join(sep, strs))
  }

  // ---------------------------------------------------------------
  // Arguments and payload (lines 60-109)
  // ---------------------------------------------------------------

  /** The checked arguments; `items` are those of `path_dim_map`, in insertion order. */
  datatype Args = Args(dateFrom: string, dateTo: string, website: string, report: string,
                       items: seq<(Py, Py)>, kpi: seq<Py>, scale: string)

  /**
   * Lines 60-79. `pathDimMap` is None when `path_dim_map` is not a dict
   * and otherwise lists its items in insertion order.
   */
  function CheckArgs(dateFrom: Py, dateTo: Py, websiteName: Py, reportName: Py, pathDimMap: Option<seq<(Py, Py)>>,
                     kpi: Py, dateScale: Py): (r: Result<Args>)
    ensures r.Ok? <==> dateFrom.PStr? && dateTo.PStr? && websiteName.PStr? && reportName.PStr?
                       && pathDimMap.Some? && kpi.PList? && dateScale.PStr?
    ensures r.Ok? ==> r.value == Args(dateFrom.s, dateTo.s, websiteName.s, reportName.s, pathDimMap.value,
                                      kpi.items, dateScale.s)
    ensures r.Fail? ==> r.error.kind == TypeError
  {
    if !dateFrom.PStr? then Raise(TypeError, "date_from should be a string dtype")
    else if !dateTo.PStr? then Raise(TypeError, "date_to should be a string dtype")
    else if !websiteName.PStr? then Raise(TypeError, "website_name should be a string dtype")
    else if !reportName.PStr? then Raise(TypeError, "report_name should be a string dtype")
    else if pathDimMap.None? then Raise(TypeError, "path_dim_map should be a dict dtype")
    else if !kpi.PList? then Raise(TypeError, "kpi should be a list dtype")
    else if !dateScale.PStr? then Raise(TypeError, "date_scale be a str dtype")
    else Ok(Args(dateFrom.s, dateTo.s, websiteName.s, reportName.s, pathDimMap.value, kpi.items, dateScale.s))
  }

  /** Lines 81-87: the dates, the date-in-row switches and the columns "id" then the kpis. */
  function BasePayload(a: Args): (r: Result<map<string, Py>>)
    ensures r.Ok? <==> StrItems(a.kpi).Ok?
    ensures r.Ok? ==> r.value.Keys == {"date-from", "date-to", "ea-switch-datetorow", "ea-enable-datefmt", "ea-columns"}
    ensures r.Ok? ==> r.value["date-from"] == PStr(a.dateFrom) && r.value["date-to"] == PStr(a.dateTo)
    ensures r.Ok? ==> r.value["ea-columns"] == PStr("id," + Join(",", StrItems(a.kpi).value))
  {
    var kpis :- JoinItems(",", a.kpi);
    Ok(map["date-from" := PStr(a.dateFrom), "date-to" := PStr(a.dateTo), "ea-switch-datetorow" := PInt(1),
           "ea-enable-datefmt" := PStr("%s"), "ea-columns" := PStr("id," + kpis)])
  }

  /**
   * Lines 89-94: the filters as `check_convert_realtime_filter` returns
   * them (`converted`, a call into code outside this model), or none.
   */
  function Filters(filters: Py, converted: Result<Py>): (r: Result<map<string, Py>>)
    ensures !Truthy(filters) ==> r == Ok(map[])
    ensures Truthy(filters) && !filters.PDict? ==> r.Fail? && r.error.kind == TypeError
    ensures Truthy(filters) && filters.PDict? ==>
      (r.Ok? <==> converted.Ok? && converted.value.PDict?)
      && (r.Ok? ==> r.value == converted.value.entries)
  {
    if !Truthy(filters) then Ok(map[])
    else if !filters.PDict? then Raise(TypeError, "filters should be a dict dtype")
    else
      var v :- converted;
      if v.PDict? then Ok(v.entries) else Raise(AttributeError, "object has no attribute 'keys'")
  }

  /** A filter value is copied when it has a non-zero length. */
  predicate Kept(filters: map<string, Py>, k: string)
  {
    k in filters && Len(filters[k]).Ok? && Len(filters[k]).value > 0
  }

  /** The non-empty filter values among the keys in `done`. */
  function KeptPart(filters: map<string, Py>, done: set<string>): map<string, Py>
  {
    map k | k in done && Kept(filters, k) :: filters[k]
  }

  /** Lines 96-98: the payload with every non-empty filter value written in. */
  function Copied(payload: map<string, Py>, filters: map<string, Py>): (r: Result<map<string, Py>>)
    ensures r.Ok? <==> forall k | k in filters :: Len(filters[k]).Ok?
    ensures r.Fail? ==> r.error.kind == TypeError
  {
    if forall k | k in filters :: Len(filters[k]).Ok? then Ok(payload + KeptPart(filters, filters.Keys))
    else Raise(TypeError, "object has no len()")
  }

  /** Only non-empty filter values reach the payload, and nothing else changes. */
  lemma CopiedContents(payload: map<string, Py>, filters: map<string, Py>, k: string)
    requires Copied(payload, filters).Ok?
    ensures k in Copied(payload, filters).value <==> k in payload || Kept(filters, k)
    ensures Kept(filters, k) ==> Copied(payload, filters).value[k] == filters[k]
    ensures !Kept(filters, k) && k in payload ==> Copied(payload, filters).value[k] == payload[k]
  {
  }

  /** Visiting one more key adds its value when it is non-empty. */
  lemma KeptStep(filters: map<string, Py>, done: set<string>, k: string)
    requires k in filters && k !in done
    ensures KeptPart(filters, done + {k})
         == if Kept(filters, k) then KeptPart(filters, done)[k := filters[k]] else KeptPart(filters, done)
  {
    if Kept(filters, k) {
      assert KeptPart(filters, done + {k}).Keys == KeptPart(filters, done).Keys + {k};
    } else {
      assert KeptPart(filters, done + {k}).Keys == KeptPart(filters, done).Keys;
    }
  }

  /** Writing a key after a merge is writing it into the right-hand map. */
  lemma UpdateMerge(payload: map<string, Py>, m: map<string, Py>, k: string, v: Py)
    ensures (payload + m)[k := v] == payload + m[k := v]
  {
  }

  /** The loop of lines 96-98, one key at a time. */
  method CopyFilters(payload: map<string, Py>, filters: map<string, Py>) returns (r: Result<map<string, Py>>)
    ensures r == Copied(payload, filters)
  {
    var p := payload;
    var done: set<string> := {};
    assert KeptPart(filters, done) == map[];
    while done != filters.Keys
      invariant done <= filters.Keys
      invariant forall k | k in done :: Len(filters[k]).Ok?
      invariant p == payload + KeptPart(filters, done)
      decreases |filters.Keys - done|
    {
      var k :| k in filters.Keys - done;
      var size := Len(filters[k]);
      if size.Fail? {
        return Raise(TypeError, "object has no len()");
      }
      KeptStep(filters, done, k);
      if size.value > 0 {
        UpdateMerge(payload, KeptPart(filters, done), k, filters[k]);
        p := p[k := filters[k]];
      }
      done := done + {k};
    }
    return Ok(p);
  }

  const Scales: seq<string> := ["H", "D", "W", "M"]

  /** Lines 81-102: the payload before the view is chosen. */
  function Payload(a: Args, filters: Py, converted: Result<Py>): (r: Result<map<string, Py>>)
    ensures r.Ok? ==> a.scale == "" || a.scale in Scales
    ensures (StrItems(a.kpi).Ok? && Filters(filters, converted).Ok?
             && Copied(BasePayload(a).value, Filters(filters, converted).value).Ok?
             && a.scale != "" && a.scale !in Scales) ==> r.Fail? && r.error.kind == ValueError
    ensures r.Ok? ==> "ea-columns" in r.value && "date-from" in r.value && "date-to" in r.value
  {
    var base :- BasePayload(a);
    var f :- Filters(filters, converted);
    var p :- Copied(base, f);
    if a.scale != "" && a.scale !in Scales then Raise(ValueError, "date_scale not allowed")
    else Ok(p)
  }

  // ---------------------------------------------------------------
  // Steps that each read some replies
  // ---------------------------------------------------------------

  /** `o` run after steps that produced `acc` and the events `tr`. */
  function Prefix<T>(acc: seq<T>, tr: seq<Event>, o: Outcome<seq<T>>): (p: Outcome<seq<T>>)
    ensures p.rest == o.rest && p.trace == tr + o.trace
    ensures p.result.Ok? <==> o.result.Ok?
    ensures p.result.Ok? ==> p.result.value == acc + o.result.value
    ensures p.result.Fail? ==> p.result == o.result
  {
    Outcome(if o.result.Ok? then Ok(acc + o.result.value) else Fail(o.result.error), tr + o.trace, o.rest)
  }

  lemma PrefixEmpty<T>(o: Outcome<seq<T>>)
    ensures Prefix([], [], o) == o
  {
    assert [] + o.trace == o.trace;
    if o.result.Ok? {
      assert [] + o.result.value == o.result.value;
    }
  }

  lemma PrefixPrefix<T>(a: seq<T>, t: seq<Event>, b: seq<T>, u: seq<Event>, o: Outcome<seq<T>>)
    ensures Prefix(a, t, Prefix(b, u, o)) == Prefix(a + b, t + u, o)
  {
    assert t + (u + o.trace) == (t + u) + o.trace;
    if o.result.Ok? {
      assert a + (b + o.result.value) == (a + b) + o.result.value;
    }
  }

  // ---------------------------------------------------------------
  // _get_ids and _get_all_paths (lines 149-182, 228-231)
  // ---------------------------------------------------------------

  /** Index of the first field named "id"; a field without a name before it raises. */
  function IdColumn(fields: seq<Py>): (r: Result<Option<nat>>)
    ensures r.Ok? && r.value.Some? ==> r.value.value < |fields| && Get(fields[r.value.value], "name") == Ok(PStr("id"))
    ensures r.Ok? && r.value.Some? ==>
      forall k | 0 <= k < r.value.value :: Get(fields[k], "name").Ok? && Get(fields[k], "name") != Ok(PStr("id"))
    ensures r.Ok? && r.value.None? ==>
      forall k | 0 <= k < |fields| :: Get(fields[k], "name").Ok? && Get(fields[k], "name") != Ok(PStr("id"))
    decreases |fields|
  {
    if |fields| == 0 then Ok(None)
    else
      var name :- Get(fields[0], "name");
      if name == PStr("id") then Ok(Some(0))
      else
        var rest :- IdColumn(fields[1..]);
        Ok(if rest.Some? then Some(rest.value + 1) else None)
  }

  /**
   * `_get_ids`: the rows and the index of the "id" column. Without such a
   * column the function returns None, which the caller cannot iterate. The
   * fields are iterated: a string's characters and a non-empty dict's keys
   * have no "name" (TypeError), an empty container has no "id" field. The
   * generator it returns takes the iterator of the rows at once.
   */
  function IdRows(j: Py): (r: Result<(seq<Py>, nat)>)
    ensures r.Ok? ==> Get(j, "data").Ok? && Get(Get(j, "data").value, "rows").Ok?
    ensures r.Ok? ==> Items(Get(Get(j, "data").value, "rows").value) == Ok(r.value.0)
    ensures r.Ok? ==> Get(Get(j, "data").value, "fields").Ok?
    ensures r.Ok? ==> Items(Get(Get(j, "data").value, "fields").value).Ok?
    ensures r.Ok? ==> IdColumn(Items(Get(Get(j, "data").value, "fields").value).value) == Ok(Some(r.value.1))
  {
    var data :- Get(j, "data");
    var fields :- Get(data, "fields");
    var headers :- Items(fields);
    var col :- IdColumn(headers);
    if col.None? then Raise(TypeError, "'NoneType' object is not iterable")
    else
      var rows :- Get(data, "rows");
      var items :- Items(rows);
      Ok((items, col.value))
  }

  /** The path an id fans out to: `".".join([prev, seg % int(id)])`. */
  function IdPath(prev: string, seg: string, row: Py, col: nat): Result<string>
  {
    var id :- At(row, col);
    var n :- ToInt(id);
    var s :- Percent(seg, n);
    Ok(prev + "." + s)
  }

  /** Line 171-172: one path per id, in the order of the rows. */
  function IdPaths(prev: string, seg: string, rows: seq<Py>, col: nat): (r: Result<seq<string>>)
    ensures r.Ok? <==> forall k | 0 <= k < |rows| :: IdPath(prev, seg, rows[k], col).Ok?
    ensures r.Ok? ==> |r.value| == |rows| && forall k | 0 <= k < |rows| :: IdPath(prev, seg, rows[k], col) == Ok(r.value[k])
    decreases |rows|
  {
    if |rows| == 0 then Ok([])
    else
      var p :- IdPath(prev, seg, rows[0], col);
      var t :- IdPaths(prev, seg, rows[1..], col);
      Ok([p] + t)
  }

  /** The paths `prev` leads to through segment `seg`, with the request a "[%d]" segment needs. */
  function Expansion(url: string, headers: Py, payload: map<string, Py>, prev: string, seg: string,
                     replies: seq<Reply>): (o: Outcome<seq<string>>)
    ensures !EndsWith(seg, "[%d]") ==> o == Outcome(Ok([prev + "." + seg]), [], replies)
    ensures EndsWith(seg, "[%d]") && o.result.Ok? ==>
      replies != [] && replies[0].Json? && o.rest == replies[1..] && IdRows(replies[0].body).Ok?
      && o.result == IdPaths(prev, seg, IdRows(replies[0].body).value.0, IdRows(replies[0].body).value.1)
    ensures |o.rest| <= |replies|
  {
    if !EndsWith(seg, "[%d]") then Outcome(Ok([prev + "." + seg]), [], replies)
    else
      var params := payload["path" := PStr(prev + "." + ReplaceAll(seg, "[%d]", ""))];
      var call := JsonRequest.Call(PStr("get"), PStr(url), headers, PDict(params), PNone, replies);
      match call.result
      case Fail(e) => Outcome(Fail(e), call.trace, call.rest)
      case Ok(j) =>
        match IdRows(j)
        case Fail(e) => Outcome(Fail(e), call.trace, call.rest)
        case Ok((rows, col)) => Outcome(IdPaths(prev, seg, rows, col), call.trace, call.rest)
  }

  /** Lines 158-172: the paths one level deeper, prefix by prefix. */
  function Level(url: string, headers: Py, payload: map<string, Py>, prevs: seq<string>, seg: string,
                 replies: seq<Reply>): (o: Outcome<seq<string>>)
    ensures |o.rest| <= |replies|
    decreases |prevs|
  {
    if |prevs| == 0 then Outcome(Ok([]), [], replies)
    else
      var e := Expansion(url, headers, payload, prevs[0], seg, replies);
      if e.result.Fail? then Outcome(Fail(e.result.error), e.trace, e.rest)
      else Prefix(e.result.value, e.trace, Level(url, headers, payload, prevs[1..], seg, e.rest))
  }

  /** `_get_all_paths(i, l_path, l_prev_path)`: the paths through segments `i` to the last. */
  function AllPaths(url: string, headers: Py, payload: map<string, Py>, segs: seq<string>, i: nat,
                    prevs: seq<string>, replies: seq<Reply>): (o: Outcome<seq<string>>)
    requires 1 <= i < |segs|
    decreases |segs| - i
  {
    var l := Level(url, headers, payload, prevs, segs[i], replies);
    if l.result.Fail? then l
    else if i == |segs| - 1 then l
    else
      var d := AllPaths(url, headers, payload, segs, i + 1, l.result.value, l.rest);
      Outcome(d.result, l.trace + d.trace, d.rest)
  }

  /** A segment without "[%d]" is appended to every prefix, in order, and nothing is sent. */
  lemma {:induction false} PlainSegmentAppends(url: string, headers: Py, payload: map<string, Py>, prevs: seq<string>,
                                               seg: string, replies: seq<Reply>)
    requires !EndsWith(seg, "[%d]")
    ensures Level(url, headers, payload, prevs, seg, replies)
         == Outcome(Ok(seq(|prevs|, k requires 0 <= k < |prevs| => prevs[k] + "." + seg)), [], replies)
    decreases |prevs|
  {
    if |prevs| > 0 {
      PlainSegmentAppends(url, headers, payload, prevs[1..], seg, replies);
      var e := Expansion(url, headers, payload, prevs[0], seg, replies);
      assert e == Outcome(Ok([prevs[0] + "." + seg]), [], replies);
      var tail := seq(|prevs| - 1, k requires 0 <= k < |prevs| - 1 => prevs[1..][k] + "." + seg);
      var all := seq(|prevs|, k requires 0 <= k < |prevs| => prevs[k] + "." + seg);
      assert [prevs[0] + "." + seg] + tail == all;
      var none: seq<Event> := [];
      assert Level(url, headers, payload, prevs, seg, replies) == Prefix(e.result.value, none, Outcome(Ok(tail), none, replies));
    } else {
      assert seq(|prevs|, k requires 0 <= k < |prevs| => prevs[k] + "." + seg) == [];
    }
  }

  /** Appending `.a` and then `.b` to every prefix appends `.a.b`. */
  lemma DotTwice(prevs: seq<string>, a: string, b: string)
    ensures var next := seq(|prevs|, k requires 0 <= k < |prevs| => prevs[k] + "." + a);
      seq(|next|, k requires 0 <= k < |next| => next[k] + "." + b)
      == seq(|prevs|, k requires 0 <= k < |prevs| => prevs[k] + "." + (a + "." + b))
  {
    var next := seq(|prevs|, k requires 0 <= k < |prevs| => prevs[k] + "." + a);
    forall k | 0 <= k < |prevs| ensures next[k] + "." + b == prevs[k] + "." + (a + "." + b) {
    }
  }

  /** Through plain segments only, each prefix gains the rest of the path, dot-joined, and nothing is sent. */
  lemma {:induction false} PlainPathsAppend(url: string, headers: Py, payload: map<string, Py>, segs: seq<string>,
                                            i: nat, prevs: seq<string>, replies: seq<Reply>)
    requires 1 <= i < |segs|
    requires forall k | i <= k < |segs| :: !EndsWith(segs[k], "[%d]")
    ensures AllPaths(url, headers, payload, segs, i, prevs, replies)
         == Outcome(Ok(seq(|prevs|, k requires 0 <= k < |prevs| => prevs[k] + "." + Join(".", segs[i..]))), [], replies)
    decreases |segs| - i
  {
    PlainSegmentAppends(url, headers, payload, prevs, segs[i], replies);
    var next := seq(|prevs|, k requires 0 <= k < |prevs| => prevs[k] + "." + segs[i]);
    if i == |segs| - 1 {
      assert segs[i..] == [segs[i]];
      assert Join(".", segs[i..]) == segs[i];
      var whole := seq(|prevs|, k requires 0 <= k < |prevs| => prevs[k] + "." + Join(".", segs[i..]));
      assert forall k | 0 <= k < |prevs| :: next[k] == whole[k];
      assert next == whole;
    } else {
      PlainPathsAppend(url, headers, payload, segs, i + 1, next, replies);
      assert segs[i..][1..] == segs[i + 1..];
      assert Join(".", segs[i..]) == segs[i] + "." + Join(".", segs[i + 1..]);
      DotTwice(prevs, segs[i], Join(".", segs[i + 1..]));
      var none: seq<Event> := [];
      assert none + none == none;
    }
  }

  /** The loop of lines 171-172. */
  method ExpandIds(prev: string, seg: string, rows: seq<Py>, col: nat) returns (r: Result<seq<string>>)
    ensures r == IdPaths(prev, seg, rows, col)
  {
    var acc: seq<string> := [];
    ghost var all := IdPaths(prev, seg, rows, col);
    assert rows[0..] == rows;
    GlueEmpty(all);
    for i := 0 to |rows|
      invariant all == Glue(acc, IdPaths(prev, seg, rows[i..], col))
    {
      assert rows[i..][1..] == rows[i + 1..];
      var p := IdPath(prev, seg, rows[i], col);
      if p.Fail? {
        return Fail(p.error);
      }
      GlueGlue(acc, [p.value], IdPaths(prev, seg, rows[i + 1..], col));
      acc := acc + [p.value];
    }
    assert acc + [] == acc;
    return Ok(acc);
  }

  /** `acc` in front of a list that may have failed. */
  function Glue<T>(acc: seq<T>, r: Result<seq<T>>): Result<seq<T>>
  {
    if r.Ok? then Ok(acc + r.value) else r
  }

  lemma GlueEmpty<T>(r: Result<seq<T>>)
    ensures Glue([], r) == r
  {
    if r.Ok? {
      assert [] + r.value == r.value;
    }
  }

  lemma GlueGlue<T>(a: seq<T>, b: seq<T>, r: Result<seq<T>>)
    ensures Glue(a, Glue(b, r)) == Glue(a + b, r)
  {
    if r.Ok? {
      assert a + (b + r.value) == (a + b) + r.value;
    }
  }

  /** The body of the loop of lines 158-172 for one prefix. */
  method Expand(url: string, headers: Py, payload: map<string, Py>, prev: string, seg: string,
                replies: seq<Reply>) returns (o: Outcome<seq<string>>)
    ensures o == Expansion(url, headers, payload, prev, seg, replies)
  {
    if !EndsWith(seg, "[%d]") {
      return Outcome(Ok([prev + "." + seg]), [], replies);
    }
    var params := payload["path" := PStr(prev + "." + ReplaceAll(seg, "[%d]", ""))];
    var call := JsonRequest.Call(PStr("get"), PStr(url), headers, PDict(params), PNone, replies);
    if call.result.Fail? {
      return Outcome(Fail(call.result.error), call.trace, call.rest);
    }
    var ids := IdRows(call.result.value);
    if ids.Fail? {
      return Outcome(Fail(ids.error), call.trace, call.rest);
    }
    var paths := ExpandIds(prev, seg, ids.value.0, ids.value.1);
    o := Outcome(paths, call.trace, call.rest);
  }

  /** `_get_all_paths` as it runs: a loop over the prefixes, then the next level. */
  method GetAllPaths(url: string, headers: Py, payload: map<string, Py>, segs: seq<string>, i: nat,
                     prevs: seq<string>, replies: seq<Reply>) returns (o: Outcome<seq<string>>)
    requires 1 <= i < |segs|
    ensures o == AllPaths(url, headers, payload, segs, i, prevs, replies)
    decreases |segs| - i
  {
    var l := NextLevel(url, headers, payload, prevs, segs[i], replies);
    if l.result.Fail? || i == |segs| - 1 {
      return l;
    }
    var deeper := GetAllPaths(url, headers, payload, segs, i + 1, l.result.value, l.rest);
    o := Outcome(deeper.result, l.trace + deeper.trace, deeper.rest);
  }

  /** Lines 157-172 as they run: the loop over the prefixes. */
  method NextLevel(url: string, headers: Py, payload: map<string, Py>, prevs: seq<string>, seg: string,
                   replies: seq<Reply>) returns (o: Outcome<seq<string>>)
    ensures o == Level(url, headers, payload, prevs, seg, replies)
  {
    var next: seq<string> := [];
    var trace: seq<Event> := [];
    var rest := replies;
    assert prevs[0..] == prevs;
    PrefixEmpty(Level(url, headers, payload, prevs, seg, replies));
    for j := 0 to |prevs|
      invariant Level(url, headers, payload, prevs, seg, replies)
             == Prefix(next, trace, Level(url, headers, payload, prevs[j..], seg, rest))
    {
      assert prevs[j..][1..] == prevs[j + 1..];
      var e := Expand(url, headers, payload, prevs[j], seg, rest);
      if e.result.Fail? {
        return Outcome(Fail(e.result.error), trace + e.trace, e.rest);
      }
      PrefixPrefix(next, trace, e.result.value, e.trace, Level(url, headers, payload, prevs[j + 1..], seg, e.rest));
      next := next + e.result.value;
      trace := trace + e.trace;
      rest := e.rest;
    }
    assert next + [] == next && trace + [] == trace;
    o := Outcome(Ok(next), trace, rest);
  }

  // ---------------------------------------------------------------
  // _all_paths_to_df (lines 185-225)
  // ---------------------------------------------------------------

  /** Line 204: whether the buffer is sent once path `i` of `n` has been added. */
  predicate Flush(i: nat, n: nat)
  {
    n == 1 || (i != 0 && (i % 10 == 0 || i == n - 1))
  }

  /** The batches of lines 200-218, with `buf` the paths gathered before index `i`. */
  function Grouped(paths: seq<string>, i: nat, buf: seq<string>): seq<seq<string>>
    requires i <= |paths|
    decreases |paths| - i
  {
    if i == |paths| then []
    else
      var b := buf + [paths[i]];
      if Flush(i, |paths|) then [b] + Grouped(paths, i + 1, []) else Grouped(paths, i + 1, b)
  }

  /** The batches the paths are requested in. */
  function Batches(paths: seq<string>): seq<seq<string>>
  {
    Grouped(paths, 0, [])
  }

  function Flatten(batches: seq<seq<string>>): seq<string>
    decreases |batches|
  {
    if |batches| == 0 then [] else batches[0] + Flatten(batches[1..])
  }

  /** From index `i` on, the batches hold the buffer and then every remaining path, in order. */
  lemma {:induction false} GroupedFlatten(paths: seq<string>, i: nat, buf: seq<string>)
    requires i < |paths|
    ensures Flatten(Grouped(paths, i, buf)) == buf + paths[i..]
    decreases |paths| - i
  {
    var b := buf + [paths[i]];
    assert paths[i..] == [paths[i]] + paths[i + 1..];
    if Flush(i, |paths|) {
      var g := Grouped(paths, i + 1, []);
      assert ([b] + g)[1..] == g;
      if i + 1 < |paths| {
        GroupedFlatten(paths, i + 1, []);
      } else {
        assert paths[i + 1..] == [];
      }
    } else {
      GroupedFlatten(paths, i + 1, b);
    }
  }

  /** Concatenating the batches gives back the paths, in order. */
  lemma BatchesFlatten(paths: seq<string>)
    ensures Flatten(Batches(paths)) == paths
  {
    if |paths| > 0 {
      GroupedFlatten(paths, 0, []);
      assert paths[0..] == paths;
    }
  }

  /** The size of the buffer before index `i` when no early flush happened. */
  function BufferSize(i: nat): nat
  {
    if i <= 10 then i else (i - 1) % 10
  }

  /**
   * From index `i` with a buffer of the expected size, every batch is
   * non-empty; the first holds at most eleven paths (ten once past index
   * ten) and exactly that many when it is not the last; the later ones
   * hold at most ten and exactly ten when not the last.
   */
  lemma {:induction false} GroupedSizes(paths: seq<string>, i: nat, buf: seq<string>)
    requires i < |paths| && |buf| == BufferSize(i)
    ensures var g := Grouped(paths, i, buf);
      |g| > 0
      && (forall k | 0 <= k < |g| :: 0 < |g[k]|)
      && |g[0]| <= (if i <= 10 then 11 else 10)
      && (|g| > 1 ==> |g[0]| == (if i <= 10 then 11 else 10))
      && (forall k | 1 <= k < |g| :: |g[k]| <= 10)
      && (forall k | 1 <= k < |g| - 1 :: |g[k]| == 10)
    decreases |paths| - i
  {
    var n := |paths|;
    var b := buf + [paths[i]];
    if Flush(i, n) {
      var g := Grouped(paths, i + 1, []);
      assert Grouped(paths, i, buf) == [b] + g;
      if i + 1 < n {
        assert i != 0 && i % 10 == 0;
        assert BufferSize(i + 1) == 0;
        GroupedSizes(paths, i + 1, []);
      }
    } else {
      assert i + 1 < n;
      assert |b| == BufferSize(i + 1);
      GroupedSizes(paths, i + 1, b);
    }
  }

  /**
   * One batch per request: the first holds at most eleven paths, the
   * later ones at most ten, every batch but the last is full, and none is
   * empty.
   */
  lemma BatchSizes(paths: seq<string>)
    ensures var g := Batches(paths);
      (|g| == 0 <==> |paths| == 0)
      && (forall k | 0 <= k < |g| :: 0 < |g[k]|)
      && (|g| > 0 ==> |g[0]| <= 11)
      && (|g| > 1 ==> |g[0]| == 11)
      && (forall k | 1 <= k < |g| :: |g[k]| <= 10)
      && (forall k | 1 <= k < |g| - 1 :: |g[k]| == 10)
  {
    if |paths| > 0 {
      GroupedSizes(paths, 0, []);
    }
  }

  /** A DataFrame as the model keeps it: its column labels and its rows. */
  datatype Frame = Frame(columns: seq<Py>, rows: seq<Py>)

  /** `[d_field["name"] for d_field in fields]`. */
  function Names(fields: seq<Py>): (r: Result<seq<Py>>)
    ensures r.Ok? <==> forall k | 0 <= k < |fields| :: Get(fields[k], "name").Ok?
    ensures r.Ok? ==> |r.value| == |fields| && forall k | 0 <= k < |fields| :: Get(fields[k], "name") == Ok(r.value[k])
    decreases |fields|
  {
    if |fields| == 0 then Ok([])
    else
      var name :- Get(fields[0], "name");
      var t :- Names(fields[1..]);
      Ok([name] + t)
  }

  /** The number of cells of a row that is a list; other rows count none. */
  function Width(row: Py): nat
  {
    if row.PList? then |row.items| else 0
  }

  /** The widest row's number of cells (0 for no rows). */
  function MaxWidth(rows: seq<Py>): (w: nat)
    ensures forall k | 0 <= k < |rows| :: Width(rows[k]) <= w
    ensures |rows| > 0 ==> exists k | 0 <= k < |rows| :: Width(rows[k]) == w
    ensures |rows| == 0 ==> w == 0
  {
    if |rows| == 0 then 0
    else
      var w := MaxWidth(rows[1..]);
      assert forall k | 1 <= k < |rows| :: rows[k] == rows[1..][k - 1];
      if Width(rows[0]) >= w then Width(rows[0]) else w
  }

  /** Every row is a list, and there is at least one: pandas then reads the data as rows of cells. */
  predicate ListRows(rows: seq<Py>)
  {
    |rows| > 0 && forall k | 0 <= k < |rows| :: rows[k].PList?
  }

  /** One row filled with None up to `w` cells. */
  function PadRow(row: Py, w: nat): (r: Py)
    requires Width(row) <= w
    ensures r.PList? && |r.items| == w
    ensures r.items[..Width(row)] == (if row.PList? then row.items else [])
    ensures forall c | Width(row) <= c < w :: r.items[c] == PNone
  {
    var cells := if row.PList? then row.items else [];
    PList(cells + seq(w - |cells|, _ => PNone))
  }

  /** Each list row filled with None up to `w` cells, as `lib.to_object_array` lays them out. */
  function PadRows(rows: seq<Py>, w: nat): (r: seq<Py>)
    requires forall k | 0 <= k < |rows| :: Width(rows[k]) <= w
    ensures |r| == |rows|
    ensures forall k | 0 <= k < |rows| :: r[k] == PadRow(rows[k], w)
  {
    seq(|rows|, k requires 0 <= k < |rows| => PadRow(rows[k], w))
  }

  /**
   * `pd.DataFrame(data=data["rows"], columns=<field names>)` of a decoded
   * reply: a list of list rows is laid out as wide as its widest row,
   * shorter rows filled with None, and that width must be the number of
   * names; another list gives one row per item; None and an empty dict
   * give no rows; a string or a scalar is refused by the constructor.
   */
  function FrameOf(j: Py): (r: Result<Frame>)
    ensures r.Ok? ==> Get(j, "data").Ok? && Get(Get(j, "data").value, "rows").Ok?
    ensures r.Ok? ==> var rows := Get(Get(j, "data").value, "rows").value;
      if rows.PList? && ListRows(rows.items) then
        |r.value.columns| == MaxWidth(rows.items) && r.value.rows == PadRows(rows.items, |r.value.columns|)
      else if rows.PList? then r.value.rows == rows.items
      else r.value.rows == [] && (rows.PNone? || rows == PDict(map[]))
    ensures r.Ok? ==> Get(Get(j, "data").value, "fields").Ok?
    ensures r.Ok? ==> Items(Get(Get(j, "data").value, "fields").value).Ok?
    ensures r.Ok? ==> Names(Items(Get(Get(j, "data").value, "fields").value).value) == Ok(r.value.columns)
    ensures Get(j, "data").Ok? && Get(Get(j, "data").value, "rows").Ok? && Get(Get(j, "data").value, "fields").Ok?
            && Items(Get(Get(j, "data").value, "fields").value).Ok?
            && Names(Items(Get(Get(j, "data").value, "fields").value).value).Ok?
            && Get(Get(j, "data").value, "rows").value.PList? && ListRows(Get(Get(j, "data").value, "rows").value.items)
            ==> (r.Fail? <==> MaxWidth(Get(Get(j, "data").value, "rows").value.items)
                              != |Names(Items(Get(Get(j, "data").value, "fields").value).value).value|)
                && (r.Fail? ==> r.error.kind == ValueError)
  {
    var data :- Get(j, "data");
    var rows :- Get(data, "rows");
    var fields :- Get(data, "fields");
    var headers :- Items(fields);
    var names :- Names(headers);
    match rows
    case PList(items) =>
      if ListRows(items) then
        var w := MaxWidth(items);
        if w != |names| then
          Raise(ValueError, NatToString(|names|) + " columns passed, passed data had " + NatToString(w) + " columns")
        else Ok(Frame(names, PadRows(items, w)))
      else Ok(Frame(names, items))
    case PNone => Ok(Frame(names, []))
    case PDict(m) =>
      if m == map[] then Ok(Frame(names, []))
      else Raise(TypeError, "a dict of columns is not modelled")
    case PObject(_, _) => Raise(TypeError, "data of another type is not modelled")
    case _ => Raise(ValueError, "DataFrame constructor not properly called!")
  }

  /** A row wider than the field names is refused: names ["id"] with the row [1, 2]. */
  lemma WiderRowRefused()
    ensures var j := PDict(map["data" := PDict(map["fields" := PList([PDict(map["name" := PStr("id")])]),
                                                   "rows" := PList([PList([PInt(1), PInt(2)])])])]);
      FrameOf(j).Fail? && FrameOf(j).error.kind == ValueError
  {
    var fields := PList([PDict(map["name" := PStr("id")])]);
    var rows := PList([PList([PInt(1), PInt(2)])]);
    var data := PDict(map["fields" := fields, "rows" := rows]);
    var j := PDict(map["data" := data]);
    assert Get(j, "data") == Ok(data);
    assert Get(data, "rows") == Ok(rows);
    assert Get(data, "fields") == Ok(fields);
    assert MaxWidth(rows.items) == 2;
  }

  /** The request of one batch: the payload with the batch's paths, comma-joined. */
  function BatchRequest(url: string, payload: map<string, Py>, batch: seq<string>): Request
  {
    Request("get", url, PDict(payload["path" := PStr(Join(",", batch))]), PNone)
  }

  /** Lines 205-217 for each batch in turn: one request and one frame per batch. */
  function BatchFrames(url: string, headers: Py, payload: map<string, Py>, batches: seq<seq<string>>,
                       replies: seq<Reply>): (o: Outcome<seq<Frame>>)
    ensures |o.rest| <= |replies|
    decreases |batches|
  {
    if |batches| == 0 then Outcome(Ok([]), [], replies)
    else
      var one := BatchFrame(url, headers, payload, batches[0], replies);
      if one.result.Fail? then one
      else Prefix(one.result.value, one.trace, BatchFrames(url, headers, payload, batches[1..], one.rest))
  }

  /** A successful run sent one request per batch, in order, and got one frame and one reply per batch. */
  predicate OnePerBatch(url: string, payload: map<string, Py>, batches: seq<seq<string>>, replies: seq<Reply>,
                        o: Outcome<seq<Frame>>)
  {
    o.result.Ok? ==>
      |o.result.value| == |batches| && |replies| >= |batches| && o.rest == replies[|batches|..]
      && |o.trace| == |batches|
      && forall k | 0 <= k < |batches| :: o.trace[k] == Send(BatchRequest(url, payload, batches[k]))
  }

  /** The first batch's request and frame, put in front of a run that has the shape for the rest. */
  lemma OnePerBatchStep(url: string, payload: map<string, Py>, batches: seq<seq<string>>, replies: seq<Reply>,
                        one: Outcome<seq<Frame>>, later: Outcome<seq<Frame>>)
    requires batches != [] && replies != []
    requires one.result.Ok? && |one.result.value| == 1 && one.rest == replies[1..]
    requires one.trace == [Send(BatchRequest(url, payload, batches[0]))]
    requires OnePerBatch(url, payload, batches[1..], one.rest, later)
    ensures OnePerBatch(url, payload, batches, replies, Prefix(one.result.value, one.trace, later))
  {
    var o := Prefix(one.result.value, one.trace, later);
    if o.result.Ok? {
      assert replies[1..][|batches| - 1..] == replies[|batches|..];
      forall k | 0 <= k < |batches|
        ensures o.trace[k] == Send(BatchRequest(url, payload, batches[k]))
      {
        if k > 0 {
          assert o.trace[k] == later.trace[k - 1];
          assert batches[1..][k - 1] == batches[k];
        }
      }
    }
  }

  /** A successful run sends one request per batch, in order, and gets one frame and one reply per batch. */
  lemma {:induction false} BatchFramesShape(url: string, headers: Py, payload: map<string, Py>,
                                            batches: seq<seq<string>>, replies: seq<Reply>)
    ensures OnePerBatch(url, payload, batches, replies, BatchFrames(url, headers, payload, batches, replies))
    decreases |batches|
  {
    if |batches| > 0 {
      var one := BatchFrame(url, headers, payload, batches[0], replies);
      if one.result.Ok? {
        var later := BatchFrames(url, headers, payload, batches[1..], one.rest);
        BatchFramesShape(url, headers, payload, batches[1..], one.rest);
        OnePerBatchStep(url, payload, batches, replies, one, later);
      }
    }
  }

  /** Lines 205-217: the request of one batch and the frame of its reply. */
  function BatchFrame(url: string, headers: Py, payload: map<string, Py>, batch: seq<string>,
                      replies: seq<Reply>): (o: Outcome<seq<Frame>>)
    ensures o.result.Ok? ==>
      |o.result.value| == 1 && replies != [] && o.rest == replies[1..] && o.trace == [Send(BatchRequest(url, payload, batch))]
  {
    var params := payload["path" := PStr(Join(",", batch))];
    var call := JsonRequest.Call(PStr("get"), PStr(url), headers, PDict(params), PNone, replies);
    match call.result
    case Fail(e) => Outcome(Fail(e), call.trace, call.rest)
    case Ok(j) =>
      assert "path" in params && Truthy(PDict(params));
      match FrameOf(j)
      case Fail(e) => Outcome(Fail(e), call.trace, call.rest)
      case Ok(f) => Outcome(Ok([f]), call.trace, call.rest)
  }

  /** Lines 194-198: the columns asked for, as `ea-columns` or, with a date scale, as `dd-dt`. */
  function Columned(payload: map<string, Py>, dims: seq<Py>, kpi: seq<Py>, scale: string): (r: Result<map<string, Py>>)
    ensures r.Ok? <==> StrItems(dims + kpi).Ok?
    ensures r.Ok? && scale == "" ==>
      r.value == payload["ea-columns" := PStr("name," + Join(",", StrItems(dims + kpi).value))]
    ensures r.Ok? && scale != "" ==>
      r.value == (payload - {"ea-columns"})["date-scale" := PStr(scale)]["dd-dt" := PStr(Join(",", StrItems(dims + kpi).value))]
  {
    var columns :- JoinItems(",", dims + kpi);
    if scale == "" then Ok(payload["ea-columns" := PStr("name," + columns)])
    else Ok((payload - {"ea-columns"})["date-scale" := PStr(scale)]["dd-dt" := PStr(columns)])
  }

  /** The columns of one path never leak into the next: setting them again overwrites all of them. */
  lemma ColumnedForgetsPrevious(payload: map<string, Py>, d1: seq<Py>, d2: seq<Py>, kpi: seq<Py>, scale: string)
    requires Columned(payload, d1, kpi, scale).Ok?
    ensures Columned(Columned(payload, d1, kpi, scale).value, d2, kpi, scale) == Columned(payload, d2, kpi, scale)
  {
    if scale == "" && StrItems(d2 + kpi).Ok? {
      var p1 := Columned(payload, d1, kpi, scale).value;
      var c2 := PStr("name," + Join(",", StrItems(d2 + kpi).value));
      assert p1["ea-columns" := c2] == payload["ea-columns" := c2];
    } else if scale != "" && StrItems(d2 + kpi).Ok? {
      var p1 := Columned(payload, d1, kpi, scale).value;
      var c2 := PStr(Join(",", StrItems(d2 + kpi).value));
      assert (p1 - {"ea-columns"})["date-scale" := PStr(scale)]["dd-dt" := c2]
          == (payload - {"ea-columns"})["date-scale" := PStr(scale)]["dd-dt" := c2];
    }
  }

  /** `_all_paths_to_df`; `pd.concat` of no frame raises ValueError. */
  function PathsToFrames(url: string, headers: Py, payload: map<string, Py>, scale: string, paths: seq<string>,
                         dims: seq<Py>, kpi: seq<Py>, replies: seq<Reply>): (o: Outcome<seq<Frame>>)
    ensures o.result.Ok? ==> Columned(payload, dims, kpi, scale).Ok? && |paths| > 0
    ensures o.result.Ok? ==>
      o == BatchFrames(url, headers, Columned(payload, dims, kpi, scale).value, Batches(paths), replies)
  {
    match Columned(payload, dims, kpi, scale)
    case Fail(e) => Outcome(Fail(e), [], replies)
    case Ok(p) =>
      var o := BatchFrames(url, headers, p, Batches(paths), replies);
      if o.result.Ok? && o.result.value == [] then Outcome(Raise(ValueError, "No objects to concatenate"), o.trace, o.rest)
      else o
  }

  /** `_all_paths_to_df` as it runs: the buffer loop, with a request at each flush. */
  method AllPathsToDf(url: string, headers: Py, payload: map<string, Py>, scale: string, paths: seq<string>,
                      dims: seq<Py>, kpi: seq<Py>, replies: seq<Reply>) returns (o: Outcome<seq<Frame>>)
    ensures o == PathsToFrames(url, headers, payload, scale, paths, dims, kpi, replies)
  {
    var p := Columned(payload, dims, kpi, scale);
    if p.Fail? {
      return Outcome(Fail(p.error), [], replies);
    }
    var o' := SendBatches(url, headers, p.value, paths, replies);
    if o'.result.Ok? && o'.result.value == [] {
      return Outcome(Raise(ValueError, "No objects to concatenate"), o'.trace, o'.rest);
    }
    o := o';
  }

  /** The batches from path `i` on: a flush sends the buffer, otherwise the path joins it. */
  lemma GroupedStep(url: string, headers: Py, payload: map<string, Py>, paths: seq<string>, i: nat,
                    buf: seq<string>, replies: seq<Reply>)
    requires i < |paths|
    ensures var b := buf + [paths[i]];
      var one := BatchFrame(url, headers, payload, b, replies);
      BatchFrames(url, headers, payload, Grouped(paths, i, buf), replies)
      == if !Flush(i, |paths|) then BatchFrames(url, headers, payload, Grouped(paths, i + 1, b), replies)
         else if one.result.Fail? then one
         else Prefix(one.result.value, one.trace, BatchFrames(url, headers, payload, Grouped(paths, i + 1, []), one.rest))
  {
    var g := Grouped(paths, i, buf);
    if Flush(i, |paths|) {
      assert g[1..] == Grouped(paths, i + 1, []);
    }
  }

  /** Lines 200-218 as they run: the buffer loop, with a request at each flush. */
  method SendBatches(url: string, headers: Py, payload: map<string, Py>, paths: seq<string>, replies: seq<Reply>)
    returns (o: Outcome<seq<Frame>>)
    ensures o == BatchFrames(url, headers, payload, Batches(paths), replies)
  {
    var buf: seq<string> := [];
    var frames: seq<Frame> := [];
    var trace: seq<Event> := [];
    var rest := replies;
    ghost var all := BatchFrames(url, headers, payload, Batches(paths), replies);
    PrefixEmpty(all);
    for i := 0 to |paths|
      invariant all == Prefix(frames, trace, BatchFrames(url, headers, payload, Grouped(paths, i, buf), rest))
    {
      GroupedStep(url, headers, payload, paths, i, buf, rest);
      buf := buf + [paths[i]];
      if Flush(i, |paths|) {
        var one := BatchFrame(url, headers, payload, buf, rest);
        if one.result.Fail? {
          return Outcome(Fail(one.result.error), trace + one.trace, one.rest);
        }
        PrefixPrefix(frames, trace, one.result.value, one.trace,
                     BatchFrames(url, headers, payload, Grouped(paths, i + 1, []), one.rest));
        frames := frames + one.result.value;
        trace := trace + one.trace;
        rest := one.rest;
        buf := [];
      }
    }
    assert frames + [] == frames && trace + [] == trace;
    o := Outcome(Ok(frames), trace, rest);
  }

  // ---------------------------------------------------------------
  // download_flat_realtime_report (lines 11-146)
  // ---------------------------------------------------------------

  /** Line 123: `l_path[0] % int(d_website["website_id"])`. */
  function FirstSegment(site: map<Py, Py>, seg: string): (r: Result<string>)
    ensures r.Ok? ==>
      PStr("website_id") in site && ToInt(site[PStr("website_id")]).Ok? && r == Percent(seg, ToInt(site[PStr("website_id")]).value)
    ensures PStr("website_id") !in site ==> r.Fail? && r.error.kind == KeyError
  {
    if PStr("website_id") !in site then Raise(KeyError, "website_id")
    else
      var id :- ToInt(site[PStr("website_id")]);
      Percent(seg, id)
  }

  /** Lines 116-137 for one item of `path_dim_map`: the frames of every path it expands to. */
  function ItemFrames(url: string, headers: Py, payload: map<string, Py>, scale: string, site: map<Py, Py>,
                      kpi: seq<Py>, path: Py, dims: Py, replies: seq<Reply>): (o: Outcome<seq<Frame>>)
    ensures o.result.Ok? ==> path.PStr? && dims.PList? && Columned(payload, dims.items, kpi, scale).Ok?
    ensures !path.PStr? || !dims.PList? ==> o == Outcome(Raise(ValueError, "path_dim_map"), [], replies)
    ensures path.PStr? && dims.PList? && |Split(path.s, '.')| == 1 && FirstSegment(site, path.s).Ok?
            ==> o.result.Fail? && o.result.error.kind == IndexError && o.trace == []
  {
    if !path.PStr? || !dims.PList? then Outcome(Raise(ValueError, "path_dim_map"), [], replies)
    else
      var segs := Split(path.s, '.');
      match FirstSegment(site, segs[0])
      case Fail(e) => Outcome(Fail(e), [], replies)
      case Ok(first) =>
        if |segs| == 1 then Outcome(Raise(IndexError, "list index out of range"), [], replies)
        else Expanded(url, headers, payload, scale, kpi, segs, first, dims.items, replies)
  }

  /** Lines 124-137: the paths the item expands to, then their frames. */
  function Expanded(url: string, headers: Py, payload: map<string, Py>, scale: string, kpi: seq<Py>,
                    segs: seq<string>, first: string, dims: seq<Py>, replies: seq<Reply>): Outcome<seq<Frame>>
    requires 2 <= |segs|
  {
    var all := AllPaths(url, headers, payload, segs[0 := first], 1, [first], replies);
    match all.result
    case Fail(e) => Outcome(Fail(e), all.trace, all.rest)
    case Ok(paths) =>
      var f := PathsToFrames(url, headers, payload, scale, paths, dims, kpi, all.rest);
      Outcome(f.result, all.trace + f.trace, f.rest)
  }

  /**
   * The payload the next item starts from: `_all_paths_to_df` changes the
   * shared payload's columns in place, so an item's expansion requests
   * carry the columns the previous item asked for.
   */
  function NextPayload(payload: map<string, Py>, dims: Py, kpi: seq<Py>, scale: string): map<string, Py>
  {
    if dims.PList? && Columned(payload, dims.items, kpi, scale).Ok? then Columned(payload, dims.items, kpi, scale).value
    else payload
  }

  /** Lines 115-139: the items in order, each one's frames after the previous ones'. */
  function ItemsFrames(url: string, headers: Py, payload: map<string, Py>, scale: string, site: map<Py, Py>,
                       kpi: seq<Py>, items: seq<(Py, Py)>, replies: seq<Reply>): (o: Outcome<seq<Frame>>)
    ensures o.result.Ok? ==> forall k | 0 <= k < |items| :: items[k].0.PStr? && items[k].1.PList?
    decreases |items|
  {
    if |items| == 0 then Outcome(Ok([]), [], replies)
    else
      var it := ItemFrames(url, headers, payload, scale, site, kpi, items[0].0, items[0].1, replies);
      if it.result.Fail? then it
      else
        var next := NextPayload(payload, items[0].1, kpi, scale);
        Prefix(it.result.value, it.trace, ItemsFrames(url, headers, next, scale, site, kpi, items[1..], it.rest))
  }

  /** Line 112. */
  function ReportUrl(c: Connection.Conn, website: string, report: string): string
  {
    c.apiV2 + "/ea/" + website + "/report/realtime/" + report + ".json"
  }

  /**
   * `download_flat_realtime_report`: the argument checks, the payload,
   * the view and website lookups, then every item's frames.
   * `converted` is what `check_convert_realtime_filter` returns.
   */
  function Downloaded(c: Connection.Conn, dateFrom: Py, dateTo: Py, websiteName: Py, reportName: Py,
                      pathDimMap: Option<seq<(Py, Py)>>, kpi: Py, dateScale: Py, viewId: Py,
                      filters: Py, converted: Result<Py>, replies: seq<Reply>): (o: Outcome<seq<Frame>>)
    ensures CheckArgs(dateFrom, dateTo, websiteName, reportName, pathDimMap, kpi, dateScale).Fail? ==>
      o.result.Fail? && o.result.error.kind == TypeError && o.trace == []
    ensures o.result.Ok? ==> o.result.value != []
  {
    match CheckArgs(dateFrom, dateTo, websiteName, reportName, pathDimMap, kpi, dateScale)
    case Fail(e) => Outcome(Fail(e), [], replies)
    case Ok(a) =>
      match Payload(a, filters, converted)
      case Fail(e) => Outcome(Fail(e), [], replies)
      case Ok(payload) => Fetched(c, a, payload, viewId, replies)
  }

  /** Lines 104-146, once the payload is built. */
  function Fetched(c: Connection.Conn, a: Args, payload: map<string, Py>, viewId: Py, replies: seq<Reply>): (o: Outcome<seq<Frame>>)
    ensures o.result.Ok? ==> o.result.value != []
  {
    var view := Connection.GetViewIdNameMap(c, PStr(a.website), replies);
    match view.result
    case Fail(e) => Outcome(Fail(e), view.trace, view.rest)
    case Ok(names) =>
      if PStr(Str(viewId)) !in names then Outcome(Fail(JoinedKeysError(names.Keys, "view_id not found")), view.trace, view.rest)
      else
        var site := Connection.GetWebsiteByName(c, PStr(a.website), view.rest);
        match site.result
        case Fail(e) => Outcome(Fail(e), view.trace + site.trace, site.rest)
        case Ok(d) =>
          var p := payload["view-id" := PStr(Str(viewId))];
          var items := ItemsFrames(ReportUrl(c, a.website, a.report), c.headers, p, a.scale, d, a.kpi, a.items, site.rest);
          var trace := view.trace + site.trace + items.trace;
          if items.result.Ok? && items.result.value == [] then
            Outcome(Raise(ValueError, "No objects to concatenate"), trace, items.rest)
          else Outcome(items.result, trace, items.rest)
  }

  // ---------------------------------------------------------------
  // The view id (lines 104-110)
  // ---------------------------------------------------------------

  /** Every request in `tr` has `view-id` set to `v` in its query. */
  predicate CarriesView(tr: seq<Event>, v: Py)
  {
    forall k | 0 <= k < |tr| && tr[k].Send? ::
      tr[k].req.query.PDict? && "view-id" in tr[k].req.query.entries && tr[k].req.query.entries["view-id"] == v
  }

  lemma CarriesViewJoin(a: seq<Event>, b: seq<Event>, v: Py)
    requires CarriesView(a, v) && CarriesView(b, v)
    ensures CarriesView(a + b, v)
  {
    forall k | 0 <= k < |a + b| && (a + b)[k].Send?
      ensures (a + b)[k].req.query.PDict? && "view-id" in (a + b)[k].req.query.entries
              && (a + b)[k].req.query.entries["view-id"] == v
    {
      if k >= |a| {
        assert (a + b)[k] == b[k - |a|];
      }
    }
  }

  /** A GET whose parameters hold `view-id` sends it. */
  lemma CallCarriesView(url: string, headers: Py, params: map<string, Py>, replies: seq<Reply>)
    requires "view-id" in params
    ensures CarriesView(JsonRequest.Call(PStr("get"), PStr(url), headers, PDict(params), PNone, replies).trace, params["view-id"])
  {
    assert Truthy(PDict(params));
  }

  lemma ExpansionCarriesView(url: string, headers: Py, payload: map<string, Py>, prev: string, seg: string,
                             replies: seq<Reply>)
    requires "view-id" in payload
    ensures CarriesView(Expansion(url, headers, payload, prev, seg, replies).trace, payload["view-id"])
  {
    if EndsWith(seg, "[%d]") {
      CallCarriesView(url, headers, payload["path" := PStr(prev + "." + ReplaceAll(seg, "[%d]", ""))], replies);
    }
  }

  lemma {:induction false} LevelCarriesView(url: string, headers: Py, payload: map<string, Py>, prevs: seq<string>,
                                            seg: string, replies: seq<Reply>)
    requires "view-id" in payload
    ensures CarriesView(Level(url, headers, payload, prevs, seg, replies).trace, payload["view-id"])
    decreases |prevs|
  {
    if |prevs| > 0 {
      var e := Expansion(url, headers, payload, prevs[0], seg, replies);
      ExpansionCarriesView(url, headers, payload, prevs[0], seg, replies);
      if e.result.Ok? {
        LevelCarriesView(url, headers, payload, prevs[1..], seg, e.rest);
        CarriesViewJoin(e.trace, Level(url, headers, payload, prevs[1..], seg, e.rest).trace, payload["view-id"]);
      }
    }
  }

  lemma {:induction false} AllPathsCarriesView(url: string, headers: Py, payload: map<string, Py>, segs: seq<string>,
                                               i: nat, prevs: seq<string>, replies: seq<Reply>)
    requires 1 <= i < |segs| && "view-id" in payload
    ensures CarriesView(AllPaths(url, headers, payload, segs, i, prevs, replies).trace, payload["view-id"])
    decreases |segs| - i
  {
    var l := Level(url, headers, payload, prevs, segs[i], replies);
    LevelCarriesView(url, headers, payload, prevs, segs[i], replies);
    if l.result.Ok? && i < |segs| - 1 {
      AllPathsCarriesView(url, headers, payload, segs, i + 1, l.result.value, l.rest);
      CarriesViewJoin(l.trace, AllPaths(url, headers, payload, segs, i + 1, l.result.value, l.rest).trace, payload["view-id"]);
    }
  }

  lemma {:induction false} BatchFramesCarriesView(url: string, headers: Py, payload: map<string, Py>,
                                                  batches: seq<seq<string>>, replies: seq<Reply>)
    requires "view-id" in payload
    ensures CarriesView(BatchFrames(url, headers, payload, batches, replies).trace, payload["view-id"])
    decreases |batches|
  {
    if |batches| > 0 {
      CallCarriesView(url, headers, payload["path" := PStr(Join(",", batches[0]))], replies);
      var one := BatchFrame(url, headers, payload, batches[0], replies);
      if one.result.Ok? {
        BatchFramesCarriesView(url, headers, payload, batches[1..], one.rest);
        CarriesViewJoin(one.trace, BatchFrames(url, headers, payload, batches[1..], one.rest).trace, payload["view-id"]);
      }
    }
  }

  /** Setting an item's columns leaves `view-id` as it was. */
  lemma NextPayloadKeepsView(payload: map<string, Py>, dims: Py, kpi: seq<Py>, scale: string)
    requires "view-id" in payload
    ensures "view-id" in NextPayload(payload, dims, kpi, scale)
    ensures NextPayload(payload, dims, kpi, scale)["view-id"] == payload["view-id"]
  {
  }

  lemma PathsToFramesCarriesView(url: string, headers: Py, payload: map<string, Py>, scale: string, paths: seq<string>,
                                 dims: seq<Py>, kpi: seq<Py>, replies: seq<Reply>)
    requires "view-id" in payload
    ensures CarriesView(PathsToFrames(url, headers, payload, scale, paths, dims, kpi, replies).trace, payload["view-id"])
  {
    if Columned(payload, dims, kpi, scale).Ok? {
      NextPayloadKeepsView(payload, PList(dims), kpi, scale);
      BatchFramesCarriesView(url, headers, Columned(payload, dims, kpi, scale).value, Batches(paths), replies);
    }
  }

  lemma ItemFramesCarriesView(url: string, headers: Py, payload: map<string, Py>, scale: string, site: map<Py, Py>,
                              kpi: seq<Py>, path: Py, dims: Py, replies: seq<Reply>)
    requires "view-id" in payload
    ensures CarriesView(ItemFrames(url, headers, payload, scale, site, kpi, path, dims, replies).trace, payload["view-id"])
  {
    if path.PStr? && dims.PList? {
      var segs := Split(path.s, '.');
      if FirstSegment(site, segs[0]).Ok? && |segs| > 1 {
        var first := FirstSegment(site, segs[0]).value;
        var all := AllPaths(url, headers, payload, segs[0 := first], 1, [first], replies);
        AllPathsCarriesView(url, headers, payload, segs[0 := first], 1, [first], replies);
        if all.result.Ok? {
          var f := PathsToFrames(url, headers, payload, scale, all.result.value, dims.items, kpi, all.rest);
          PathsToFramesCarriesView(url, headers, payload, scale, all.result.value, dims.items, kpi, all.rest);
          CarriesViewJoin(all.trace, f.trace, payload["view-id"]);
        }
      }
    }
  }

  lemma {:induction false} ItemsFramesCarriesView(url: string, headers: Py, payload: map<string, Py>, scale: string,
                                                  site: map<Py, Py>, kpi: seq<Py>, items: seq<(Py, Py)>, replies: seq<Reply>)
    requires "view-id" in payload
    ensures CarriesView(ItemsFrames(url, headers, payload, scale, site, kpi, items, replies).trace, payload["view-id"])
    decreases |items|
  {
    if |items| > 0 {
      var it := ItemFrames(url, headers, payload, scale, site, kpi, items[0].0, items[0].1, replies);
      ItemFramesCarriesView(url, headers, payload, scale, site, kpi, items[0].0, items[0].1, replies);
      if it.result.Ok? {
        var next := NextPayload(payload, items[0].1, kpi, scale);
        NextPayloadKeepsView(payload, items[0].1, kpi, scale);
        ItemsFramesCarriesView(url, headers, next, scale, site, kpi, items[1..], it.rest);
        CarriesViewJoin(it.trace, ItemsFrames(url, headers, next, scale, site, kpi, items[1..], it.rest).trace, payload["view-id"]);
      }
    }
  }

  /**
   * Lines 104-108: a `view_id` whose `str()` is not a key of the view map
   * ends the call once the map is fetched, and nothing more is sent. The
   * error is the ValueError, or the TypeError of joining keys that are
   * not all str.
   */
  lemma UnknownViewStops(c: Connection.Conn, a: Args, payload: map<string, Py>, viewId: Py, replies: seq<Reply>)
    requires Connection.GetViewIdNameMap(c, PStr(a.website), replies).result.Ok?
    requires PStr(Str(viewId)) !in Connection.GetViewIdNameMap(c, PStr(a.website), replies).result.value
    ensures var view := Connection.GetViewIdNameMap(c, PStr(a.website), replies);
      var o := Fetched(c, a, payload, viewId, replies);
      o.result.Fail? && o.trace == view.trace && o.rest == view.rest
      && (o.result.error.kind == ValueError <==> forall k | k in view.result.value :: k.PStr?)
  {
  }

  /**
   * Lines 109-146: once the view is found, every request sent after the
   * view and website lookups carries `view-id` = `str(view_id)`.
   */
  lemma ViewIdInEveryReportRequest(c: Connection.Conn, a: Args, payload: map<string, Py>, viewId: Py, replies: seq<Reply>)
    requires Connection.GetViewIdNameMap(c, PStr(a.website), replies).result.Ok?
    requires PStr(Str(viewId)) in Connection.GetViewIdNameMap(c, PStr(a.website), replies).result.value
    ensures var view := Connection.GetViewIdNameMap(c, PStr(a.website), replies);
      var site := Connection.GetWebsiteByName(c, PStr(a.website), view.rest);
      var o := Fetched(c, a, payload, viewId, replies);
      var n := |view.trace| + |site.trace|;
      |o.trace| >= n && o.trace[..n] == view.trace + site.trace && CarriesView(o.trace[n..], PStr(Str(viewId)))
  {
    var view := Connection.GetViewIdNameMap(c, PStr(a.website), replies);
    var site := Connection.GetWebsiteByName(c, PStr(a.website), view.rest);
    var o := Fetched(c, a, payload, viewId, replies);
    var n := |view.trace| + |site.trace|;
    if site.result.Ok? {
      var p := payload["view-id" := PStr(Str(viewId))];
      var items := ItemsFrames(ReportUrl(c, a.website, a.report), c.headers, p, a.scale, site.result.value, a.kpi, a.items, site.rest);
      ItemsFramesCarriesView(ReportUrl(c, a.website, a.report), c.headers, p, a.scale, site.result.value, a.kpi, a.items, site.rest);
      assert o.trace == (view.trace + site.trace) + items.trace;
      assert o.trace[n..] == items.trace;
    } else {
      assert o.trace == view.trace + site.trace;
      assert o.trace[n..] == [];
    }
  }

  /**
   * A path whose segments after the first are all plain asks for nothing
   * while expanding: it becomes a single path, sent in a single batch.
   */
  lemma PlainItemOneRequest(url: string, headers: Py, payload: map<string, Py>, scale: string, site: map<Py, Py>,
                            kpi: seq<Py>, path: string, dims: seq<Py>, replies: seq<Reply>)
    requires |Split(path, '.')| >= 2
    requires forall k | 1 <= k < |Split(path, '.')| :: !EndsWith(Split(path, '.')[k], "[%d]")
    requires FirstSegment(site, Split(path, '.')[0]).Ok?
    requires Columned(payload, dims, kpi, scale).Ok?
    ensures var segs := Split(path, '.');
      ItemFrames(url, headers, payload, scale, site, kpi, PStr(path), PList(dims), replies)
      == BatchFrames(url, headers, Columned(payload, dims, kpi, scale).value,
                     [[FirstSegment(site, segs[0]).value + "." + Join(".", segs[1..])]], replies)
  {
    var segs := Split(path, '.');
    var first := FirstSegment(site, segs[0]).value;
    var one := first + "." + Join(".", segs[1..]);
    PlainTailOnePath(url, headers, payload, segs, first, replies);
    QuietExpansion(url, headers, payload, scale, site, kpi, path, dims, replies, first, [one]);
    OnePathOneBatch(url, headers, payload, scale, one, dims, kpi, replies);
  }

  /** An expansion that sends nothing hands its paths, and the replies untouched, to the batches. */
  lemma QuietExpansion(url: string, headers: Py, payload: map<string, Py>, scale: string, site: map<Py, Py>,
                       kpi: seq<Py>, path: string, dims: seq<Py>, replies: seq<Reply>, first: string,
                       paths: seq<string>)
    requires |Split(path, '.')| >= 2 && FirstSegment(site, Split(path, '.')[0]) == Ok(first)
    requires AllPaths(url, headers, payload, Split(path, '.')[0 := first], 1, [first], replies)
          == Outcome(Ok(paths), [], replies)
    ensures ItemFrames(url, headers, payload, scale, site, kpi, PStr(path), PList(dims), replies)
         == PathsToFrames(url, headers, payload, scale, paths, dims, kpi, replies)
  {
    assert ItemFrames(url, headers, payload, scale, site, kpi, PStr(path), PList(dims), replies)
        == Expanded(url, headers, payload, scale, kpi, Split(path, '.'), first, dims, replies);
    var f := PathsToFrames(url, headers, payload, scale, paths, dims, kpi, replies);
    assert [] + f.trace == f.trace;
  }

  /** The expansion of a path whose segments after the first are plain is that one path, dot-joined. */
  lemma PlainTailOnePath(url: string, headers: Py, payload: map<string, Py>, segs: seq<string>, first: string,
                         replies: seq<Reply>)
    requires |segs| >= 2
    requires forall k | 1 <= k < |segs| :: !EndsWith(segs[k], "[%d]")
    ensures AllPaths(url, headers, payload, segs[0 := first], 1, [first], replies)
         == Outcome(Ok([first + "." + Join(".", segs[1..])]), [], replies)
  {
    var segs' := segs[0 := first];
    assert segs'[1..] == segs[1..];
    assert forall k | 1 <= k < |segs'| :: segs'[k] == segs[k];
    PlainPathsAppend(url, headers, payload, segs', 1, [first], replies);
    assert seq(1, k requires 0 <= k < 1 => [first][k] + "." + Join(".", segs'[1..]))
        == [first + "." + Join(".", segs[1..])];
  }

  /** A single path is a single batch. */
  lemma OnePathOneBatch(url: string, headers: Py, payload: map<string, Py>, scale: string, one: string,
                        dims: seq<Py>, kpi: seq<Py>, replies: seq<Reply>)
    requires Columned(payload, dims, kpi, scale).Ok?
    ensures PathsToFrames(url, headers, payload, scale, [one], dims, kpi, replies)
         == BatchFrames(url, headers, Columned(payload, dims, kpi, scale).value, [[one]], replies)
  {
    assert Flush(0, 1) && Grouped([one], 1, []) == [];
    assert Batches([one]) == [[] + [one]] + [];
  }

  /** One item as it runs: expand the path, then fetch its batches. */
  method ItemToFrames(url: string, headers: Py, payload: map<string, Py>, scale: string, site: map<Py, Py>,
                      kpi: seq<Py>, path: Py, dims: Py, replies: seq<Reply>) returns (o: Outcome<seq<Frame>>)
    ensures o == ItemFrames(url, headers, payload, scale, site, kpi, path, dims, replies)
  {
    if !path.PStr? || !dims.PList? {
      return Outcome(Raise(ValueError, "path_dim_map"), [], replies);
    }
    var segs := Split(path.s, '.');
    var first := FirstSegment(site, segs[0]);
    if first.Fail? {
      return Outcome(Fail(first.error), [], replies);
    }
    if |segs| == 1 {
      return Outcome(Raise(IndexError, "list index out of range"), [], replies);
    }
    segs := segs[0 := first.value];
    var all := GetAllPaths(url, headers, payload, segs, 1, [first.value], replies);
    if all.result.Fail? {
      return Outcome(Fail(all.result.error), all.trace, all.rest);
    }
    var f := AllPathsToDf(url, headers, payload, scale, all.result.value, dims.items, kpi, all.rest);
    o := Outcome(f.result, all.trace + f.trace, f.rest);
  }

  /** Lines 114-139 as they run: the items in order, with the payload they share. */
  method ItemsToFrames(url: string, headers: Py, payload: map<string, Py>, scale: string, site: map<Py, Py>,
                       kpi: seq<Py>, items: seq<(Py, Py)>, replies: seq<Reply>) returns (o: Outcome<seq<Frame>>)
    ensures o == ItemsFrames(url, headers, payload, scale, site, kpi, items, replies)
  {
    var shared := payload;
    var frames: seq<Frame> := [];
    var trace: seq<Event> := [];
    var rest := replies;
    ghost var all := ItemsFrames(url, headers, payload, scale, site, kpi, items, replies);
    PrefixEmpty(all);
    assert items[0..] == items;
    for i := 0 to |items|
      invariant all == Prefix(frames, trace, ItemsFrames(url, headers, shared, scale, site, kpi, items[i..], rest))
    {
      assert items[i..][1..] == items[i + 1..];
      var it := ItemToFrames(url, headers, shared, scale, site, kpi, items[i].0, items[i].1, rest);
      if it.result.Fail? {
        return Outcome(Fail(it.result.error), trace + it.trace, it.rest);
      }
      var next := NextPayload(shared, items[i].1, kpi, scale);
      PrefixPrefix(frames, trace, it.result.value, it.trace,
                   ItemsFrames(url, headers, next, scale, site, kpi, items[i + 1..], it.rest));
      frames := frames + it.result.value;
      trace := trace + it.trace;
      rest := it.rest;
      shared := next;
    }
    assert frames + [] == frames && trace + [] == trace;
    o := Outcome(Ok(frames), trace, rest);
  }

  /** `download_flat_realtime_report` as it runs. */
  method DownloadFlatRealtimeReport(c: Connection.Conn, dateFrom: Py, dateTo: Py, websiteName: Py, reportName: Py,
                                    pathDimMap: Option<seq<(Py, Py)>>, kpi: Py, dateScale: Py, viewId: Py,
                                    filters: Py, converted: Result<Py>, replies: seq<Reply>)
    returns (o: Outcome<seq<Frame>>)
    ensures o == Downloaded(c, dateFrom, dateTo, websiteName, reportName, pathDimMap, kpi, dateScale, viewId,
                            filters, converted, replies)
  {
    var a := CheckArgs(dateFrom, dateTo, websiteName, reportName, pathDimMap, kpi, dateScale);
    match a
    case Fail(e) => o := Outcome(Fail(e), [], replies);
    case Ok(args) =>
      var base := Payload(args, filters, converted);
      match base
      case Fail(e) => o := Outcome(Fail(e), [], replies);
      case Ok(payload) => o := FetchReport(c, args, payload, viewId, replies);
  }

  /** Lines 104-146 as they run. */
  method FetchReport(c: Connection.Conn, a: Args, payload: map<string, Py>, viewId: Py, replies: seq<Reply>)
    returns (o: Outcome<seq<Frame>>)
    ensures o == Fetched(c, a, payload, viewId, replies)
  {
    var view := Connection.GetViewIdNameMap(c, PStr(a.website), replies);
    match view.result
    case Fail(e) => o := Outcome(Fail(e), view.trace, view.rest);
    case Ok(names) =>
      if PStr(Str(viewId)) !in names {
        o := Outcome(Fail(JoinedKeysError(names.Keys, "view_id not found")), view.trace, view.rest);
      } else {
        var site := Connection.GetWebsiteByName(c, PStr(a.website), view.rest);
        match site.result
        case Fail(e) => o := Outcome(Fail(e), view.trace + site.trace, site.rest);
        case Ok(d) =>
          var p := payload["view-id" := PStr(Str(viewId))];
          var items := ItemsToFrames(ReportUrl(c, a.website, a.report), c.headers, p, a.scale, d,
                                     a.kpi, a.items, site.rest);
          var trace := view.trace + site.trace + items.trace;
          if items.result.Ok? && items.result.value == [] {
            o := Outcome(Raise(ValueError, "No objects to concatenate"), trace, items.rest);
          } else {
            o := Outcome(items.result, trace, items.rest);
          }
      }
  }
}
