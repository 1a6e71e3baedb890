/**
 * `download_flat_overview_realtime_report`
 * (conn/_download_flat_overview_realtime_report.py): an overview report
 * fetched channel by channel from a per-report path module, then
 * reshaped: alias columns dropped, columns renamed to their short names,
 * and each column given a type.
 *
 * Frames are modelled by their column labels only; the values, the
 * alias merge of lines 183-184 and the casts themselves are not.
 */
module FlatOverview {
  import opened Wrappers
  import opened Text
  import opened PyValue
  import opened Remote
  import JsonRequest
  import Connection
  import FlatRealtime

  // ---------------------------------------------------------------
  // Arguments and payload (lines 67-129)
  // ---------------------------------------------------------------

  datatype Args = Args(dateFrom: string, dateTo: string, website: string, report: string, kpi: seq<Py>)

  /** Lines 67-80. */
  function CheckArgs(dateFrom: Py, dateTo: Py, websiteName: Py, reportName: Py, kpi: Py): (r: Result<Args>)
    ensures r.Ok? <==> dateFrom.PStr? && dateTo.PStr? && websiteName.PStr? && reportName.PStr? && kpi.PList?
    ensures r.Ok? ==> r.value == Args(dateFrom.s, dateTo.s, websiteName.s, reportName.s, kpi.items)
    ensures r.Fail? ==> r.error.kind == TypeError
  {
    if !dateFrom.PStr? then Raise(TypeError, "date_from should be a string dtype")
    else if !dateTo.PStr? then Raise(TypeError, "date_to should be a string dtype")
    else if !websiteName.PStr? then Raise(TypeError, "website_name should be a string dtype")
    else if !reportName.PStr? then Raise(TypeError, "report_name should be a string dtype")
    else if !kpi.PList? then Raise(TypeError, "kpi should be a list dtype")
    else Ok(Args(dateFrom.s, dateTo.s, websiteName.s, reportName.s, kpi.items))
  }

  /**
   * One of the four id filters: the ids the caller gave, the payload key
   * they go to, and the ids the platform knows (the keys of the map its
   * `get_..._id_name_map` returns, or that call's failure).
   */
  datatype IdFilter = IdFilter(ids: Py, key: string, known: Result<set<Py>>)

  /** The payload keys of the four filters, in the order they are checked. */
  const FilterKeys: seq<string> := ["ea-subk", "shoppingcart-k1", "shoppingcart-k1-custom", "visitpprofil-k1"]

  /**
   * Where `for _id in ids: if _id not in map` stops: the first id that
   * cannot be a dict key (a list or a dict) or that the map does not
   * know; `|ids|` when every id is known.
   */
  function FirstUnknown(ids: seq<Py>, known: set<Py>): (k: nat)
    ensures k <= |ids|
    ensures forall j | 0 <= j < k :: Connection.Hashable(ids[j]) && ids[j] in known
    ensures k < |ids| ==> !Connection.Hashable(ids[k]) || ids[k] !in known
    decreases |ids|
  {
    if |ids| == 0 || !Connection.Hashable(ids[0]) || ids[0] !in known then 0
    else 1 + FirstUnknown(ids[1..], known)
  }

  /**
   * Lines 86-122 for one filter: only a truthy list of known ids is
   * accepted, and it is comma-joined. The ids are looked up in order: one
   * that cannot be hashed is a TypeError, and an unknown one raises the
   * ValueError whose message joins the map's keys, which is a TypeError
   * when a key is not a str.
   */
  function ApplyFilter(payload: map<string, Py>, f: IdFilter): (r: Result<map<string, Py>>)
    ensures !Truthy(f.ids) ==> r == Ok(payload)
    ensures Truthy(f.ids) && !f.ids.PList? ==> r.Fail? && r.error.kind == TypeError
    ensures Truthy(f.ids) && f.ids.PList? && f.known.Ok?
            && (exists k | 0 <= k < |f.ids.items| :: f.ids.items[k] !in f.known.value || !Connection.Hashable(f.ids.items[k]))
            ==> r.Fail? && (r.error.kind == ValueError || r.error.kind == TypeError)
    ensures Truthy(f.ids) && f.ids.PList? && f.known.Ok?
            && (forall k | 0 <= k < |f.ids.items| :: Connection.Hashable(f.ids.items[k]))
            && (exists k | 0 <= k < |f.ids.items| :: f.ids.items[k] !in f.known.value)
            ==> r.Fail? && (r.error.kind == ValueError <==> forall key | key in f.known.value :: key.PStr?)
    ensures Truthy(f.ids) && f.ids.PList? && f.known.Ok? && |f.ids.items| > 0 && !Connection.Hashable(f.ids.items[0])
            ==> r.Fail? && r.error.kind == TypeError
    ensures r.Ok? && Truthy(f.ids) ==>
      f.ids.PList? && f.known.Ok? && (forall k | 0 <= k < |f.ids.items| :: f.ids.items[k] in f.known.value)
      && FlatRealtime.StrItems(f.ids.items).Ok? && r.value == payload[f.key := PStr(Join(",", FlatRealtime.StrItems(f.ids.items).value))]
  {
    if !Truthy(f.ids) then Ok(payload)
    else if !f.ids.PList? then Raise(TypeError, "id filter should be a list")
    else
      var known :- f.known;
      var k := FirstUnknown(f.ids.items, known);
      if k < |f.ids.items| then
        if !Connection.Hashable(f.ids.items[k]) then Raise(TypeError, "unhashable type")
        else Fail(JoinedKeysError(known, "id not allowed"))
      else
        var joined :- FlatRealtime.JoinItems(",", f.ids.items);
        Ok(payload[f.key := PStr(joined)])
  }

  /** The filters in turn. */
  function ApplyFilters(payload: map<string, Py>, fs: seq<IdFilter>): (r: Result<map<string, Py>>)
    decreases |fs|
  {
    if |fs| == 0 then Ok(payload)
    else
      var p :- ApplyFilter(payload, fs[0]);
      ApplyFilters(p, fs[1..])
  }

  /** The filters add only their own keys and leave every other entry as it was. */
  lemma {:induction false} FiltersTouchOnlyTheirKeys(payload: map<string, Py>, fs: seq<IdFilter>)
    requires ApplyFilters(payload, fs).Ok?
    ensures var r := ApplyFilters(payload, fs).value;
      (forall k | k in r :: k in payload || exists j | 0 <= j < |fs| :: fs[j].key == k)
      && forall k | k in payload && (forall j | 0 <= j < |fs| :: fs[j].key != k) :: k in r && r[k] == payload[k]
    decreases |fs|
  {
    if |fs| > 0 {
      var p := ApplyFilter(payload, fs[0]).value;
      FiltersTouchOnlyTheirKeys(p, fs[1..]);
      var r := ApplyFilters(payload, fs).value;
      forall k | k in r
        ensures k in payload || exists j | 0 <= j < |fs| :: fs[j].key == k
      {
        if k !in p {
          var j :| 0 <= j < |fs[1..]| && fs[1..][j].key == k;
          assert fs[j + 1].key == k;
        } else if k !in payload {
          assert fs[0].key == k;
        }
      }
      forall k | k in payload && (forall j | 0 <= j < |fs| :: fs[j].key != k)
        ensures k in r && r[k] == payload[k]
      {
        assert fs[0].key != k;
        assert forall j | 0 <= j < |fs[1..]| :: fs[1..][j].key == fs[j + 1].key;
      }
    }
  }

  /**
   * The four filters of lines 86-122, mdevicetype, ordertype,
   * ordertypecustom and profile, each given as its ids and the ids the
   * platform knows, with their payload keys.
   */
  function Keyed(filters: seq<(Py, Result<set<Py>>)>): (fs: seq<IdFilter>)
    requires |filters| == 4
    ensures |fs| == 4 && forall j | 0 <= j < 4 :: fs[j] == IdFilter(filters[j].0, FilterKeys[j], filters[j].1)
  {
    seq(4, j requires 0 <= j < 4 => IdFilter(filters[j].0, FilterKeys[j], filters[j].1))
  }

  /** Lines 82-122: the dates, then the four filters. */
  function Payload(a: Args, filters: seq<(Py, Result<set<Py>>)>): (r: Result<map<string, Py>>)
    requires |filters| == 4
  {
    ApplyFilters(map["date-from" := PStr(a.dateFrom), "date-to" := PStr(a.dateTo)], Keyed(filters))
  }

  /** The payload holds the dates as given, and besides them only the filter keys. */
  lemma PayloadKeys(a: Args, filters: seq<(Py, Result<set<Py>>)>)
    requires |filters| == 4 && Payload(a, filters).Ok?
    ensures var r := Payload(a, filters).value;
      "date-from" in r && "date-to" in r && r["date-from"] == PStr(a.dateFrom) && r["date-to"] == PStr(a.dateTo)
      && forall k | k in r :: k == "date-from" || k == "date-to" || k in FilterKeys
  {
    var fs := Keyed(filters);
    var dates := map["date-from" := PStr(a.dateFrom), "date-to" := PStr(a.dateTo)];
    FiltersTouchOnlyTheirKeys(dates, fs);
    DatesAreNoFilterKeys();
    var r := Payload(a, filters).value;
    forall j | 0 <= j < |fs| ensures fs[j].key != "date-from" && fs[j].key != "date-to" {
      assert fs[j].key == FilterKeys[j];
    }
    forall k | k in r ensures k == "date-from" || k == "date-to" || k in FilterKeys {
      if k !in dates {
        var j :| 0 <= j < |fs| && fs[j].key == k;
        assert fs[j].key == FilterKeys[j];
      }
    }
  }

  /** Neither date key is a filter key. */
  lemma DatesAreNoFilterKeys()
    ensures "date-from" !in FilterKeys && "date-to" !in FilterKeys
  {
    assert forall j | 0 <= j < |FilterKeys| :: FilterKeys[j][0] != 'd';
  }

  // ---------------------------------------------------------------
  // The path module (lines 133-141)
  // ---------------------------------------------------------------

  /**
   * One entry of `d_path`: the path segments, the dims, the constant
   * columns added (`add_dim_value_map`, none when absent) and the
   * renames (`rename_dim_map`, none when absent).
   */
  datatype Channel = Channel(path: seq<string>, dim: Py, addDims: seq<Py>, renames: map<Py, Py>)

  /**
   * A module `realtime_overview.path._<report>`: `dim_px_map`,
   * `override_dim_map` as its name/alias pairs in order, and `d_path`
   * with its keys in insertion order.
   */
  datatype PathModule = PathModule(dimPx: map<Py, Py>, overrideDims: seq<(Py, Py)>, table: map<Py, Channel>,
                                   order: seq<Py>)

  /**
   * Lines 140-142: the channels to fetch; a falsy `channel` means every key
   * of `d_path`, in order, and anything else is iterated as it is.
   */
  function ChannelList(channel: Py, order: seq<Py>): (r: Result<seq<Py>>)
    ensures !Truthy(channel) ==> r == Ok(order)
    ensures Truthy(channel) && channel.PList? ==> r == Ok(channel.items)
    ensures Truthy(channel) && channel.PStr? ==>
      r.Ok? && |r.value| == |channel.s| && forall k | 0 <= k < |channel.s| :: r.value[k] == PStr([channel.s[k]])
    ensures Truthy(channel) && !channel.PList? && !channel.PStr? && !channel.PDict? ==>
      r.Fail? && r.error.kind == TypeError
  {
    if !Truthy(channel) then Ok(order)
    else Items(channel)
  }

  // ---------------------------------------------------------------
  // One channel (lines 143-173)
  // ---------------------------------------------------------------

  /** Line 166: `sub_df[dim] = value` appends the column unless it is already there. */
  function AddColumns(cols: seq<Py>, dims: seq<Py>): (r: seq<Py>)
    ensures |cols| <= |r| && r[..|cols|] == cols
    ensures forall x | x in dims :: x in r
    ensures forall x | x in r :: x in cols || x in dims
    decreases |dims|
  {
    if |dims| == 0 then cols
    else
      var next := if dims[0] in cols then cols else cols + [dims[0]];
      var r := AddColumns(next, dims[1..]);
      assert forall i | 0 <= i < |next| :: next[i] == r[i];
      assert dims[0] in next;
      r
  }

  /** `DataFrame.rename(columns=m)`: mapped labels are replaced, the others kept, in place. */
  function Rename(cols: seq<Py>, m: map<Py, Py>): (r: seq<Py>)
    ensures |r| == |cols|
    ensures forall k | 0 <= k < |cols| :: r[k] == (if cols[k] in m then m[cols[k]] else cols[k])
  {
    seq(|cols|, k requires 0 <= k < |cols| => if cols[k] in m then m[cols[k]] else cols[k])
  }

  /** The request of one channel. */
  function ChannelRequest(url: string, payload: map<string, Py>, path: seq<string>, columns: string): Request
  {
    Request("get", url, PDict(payload["path" := PStr(Join(".", path))]["ea-columns" := PStr(columns)]), PNone)
  }

  /** What one channel leaves: its columns, and `d_path` with its first segment formatted. */
  datatype Step = Step(columns: seq<Py>, table: map<Py, Channel>)

  /**
   * Lines 143-173 for one channel, on the copy `table` of `d_path`. The
   * first segment is formatted with the website id and written back into
   * the copy; the request asks for that path and the dims then the kpis.
   */
  function ChannelColumns(url: string, headers: Py, payload: map<string, Py>, site: map<Py, Py>, kpi: seq<Py>,
                          table: map<Py, Channel>, ch: Py, replies: seq<Reply>): (o: Outcome<Step>)
    ensures o.result.Ok? ==>
      ch in table && |table[ch].path| > 0 && FlatRealtime.FirstSegment(site, table[ch].path[0]).Ok?
      && table[ch].dim.PList? && FlatRealtime.StrItems(table[ch].dim.items + kpi).Ok?
    ensures o.result.Ok? ==>
      var e := table[ch];
      var first := FlatRealtime.FirstSegment(site, e.path[0]).value;
      o.result.value.table == table[ch := e.(path := e.path[0 := first])]
      && o.trace == [Send(ChannelRequest(url, payload, e.path[0 := first], Join(",", FlatRealtime.StrItems(e.dim.items + kpi).value)))]
    ensures ch.PStr? && ch !in table ==> o == Outcome(Raise(KeyError, "channel"), [], replies)
  {
    if ch.PList? || ch.PDict? then Outcome(Raise(TypeError, "unhashable type"), [], replies)
    else if ch !in table then Outcome(Raise(KeyError, "channel"), [], replies)
    else
      var e := table[ch];
      if |e.path| == 0 then Outcome(Raise(IndexError, "list index out of range"), [], replies)
      else
        match FlatRealtime.FirstSegment(site, e.path[0])
        case Fail(err) => Outcome(Fail(err), [], replies)
        case Ok(first) =>
          var copy := table[ch := e.(path := e.path[0 := first])];
          if !e.dim.PList? then Outcome(Raise(TypeError, "l_dim should be a list dtype"), [], replies)
          else
            match FlatRealtime.JoinItems(",", e.dim.items + kpi)
            case Fail(err) => Outcome(Fail(err), [], replies)
            case Ok(columns) => Fetched(url, headers, payload, e, e.path[0 := first], columns, copy, replies)
  }

  /** Lines 150-173: the request, the frame's columns, the added columns and the renames. */
  function Fetched(url: string, headers: Py, payload: map<string, Py>, e: Channel, path: seq<string>,
                   columns: string, copy: map<Py, Channel>, replies: seq<Reply>): (o: Outcome<Step>)
    ensures o.result.Ok? ==> o.result.value.table == copy && o.trace == [Send(ChannelRequest(url, payload, path, columns))]
    ensures o.result.Ok? ==> replies != [] && o.rest == replies[1..]
  {
    var params := payload["path" := PStr(Join(".", path))]["ea-columns" := PStr(columns)];
    var call := JsonRequest.Call(PStr("get"), PStr(url), headers, PDict(params), PNone, replies);
    match call.result
    case Fail(err) => Outcome(Fail(err), call.trace, call.rest)
    case Ok(j) =>
      assert "path" in params && Truthy(PDict(params));
      match FlatRealtime.FrameOf(j)
      case Fail(err) => Outcome(Fail(err), call.trace, call.rest)
      case Ok(f) => Outcome(Ok(Step(Rename(AddColumns(f.columns, e.addDims), e.renames), copy)), call.trace, call.rest)
  }

  /** Lines 142-173: the channels in turn, each on the copy the previous ones left. */
  function ChannelsColumns(url: string, headers: Py, payload: map<string, Py>, site: map<Py, Py>, kpi: seq<Py>,
                           table: map<Py, Channel>, chans: seq<Py>, replies: seq<Reply>): (o: Outcome<seq<seq<Py>>>)
    ensures o.result.Ok? ==> |o.result.value| == |chans|
    decreases |chans|
  {
    if |chans| == 0 then Outcome(Ok([]), [], replies)
    else
      var s := ChannelColumns(url, headers, payload, site, kpi, table, chans[0], replies);
      match s.result
      case Fail(err) => Outcome(Fail(err), s.trace, s.rest)
      case Ok(step) =>
        FlatRealtime.Prefix([step.columns], s.trace,
                            ChannelsColumns(url, headers, payload, site, kpi, step.table, chans[1..], s.rest))
  }

  /** A number has no '%' in it. */
  lemma NumberHasNoPercent(n: int)
    ensures '%' !in IntToString(n)
  {
    var s := IntToString(n);
    if n < 0 {
      var d := NatToString(-n);
      assert s == "-" + d;
      assert forall k | 0 <= k < |d| :: IsDigit(d[k]);
      assert forall k | 0 <= k < |s| :: s[k] != '%' by {
        forall k | 0 <= k < |s| ensures s[k] != '%' {
          if k > 0 {
            assert s[k] == d[k - 1];
          }
        }
      }
    } else {
      assert forall k | 0 <= k < |s| :: IsDigit(s[k]);
    }
  }

  /**
   * The copy of `d_path` keeps its formatted first segment, so a channel
   * listed twice cannot be formatted again: the second time raises
   * TypeError (not all arguments converted).
   */
  lemma RepeatedChannelRaises(url: string, headers: Py, payload: map<string, Py>, site: map<Py, Py>, kpi: seq<Py>,
                              table: map<Py, Channel>, ch: Py, a: string, b: string, replies: seq<Reply>)
    requires ch in table && |table[ch].path| > 0 && table[ch].path[0] == a + "%d" + b
    requires '%' !in a && '%' !in b
    requires ChannelColumns(url, headers, payload, site, kpi, table, ch, replies).result.Ok?
    ensures var o := ChannelsColumns(url, headers, payload, site, kpi, table, [ch, ch], replies);
      o.result.Fail? && o.result.error.kind == TypeError
  {
    var s := ChannelColumns(url, headers, payload, site, kpi, table, ch, replies);
    var id := ToInt(site[PStr("website_id")]).value;
    FlatRealtime.PercentOne(a, 'd', b, id);
    assert a + ['%', 'd'] + b == a + "%d" + b;
    var first := a + IntToString(id) + b;
    NumberHasNoPercent(id);
    assert '%' !in first;
    var again := s.result.value.table[ch];
    assert again.path[0] == first;
    FlatRealtime.PercentNothingToFill(first, id);
    assert [ch, ch][1..] == [ch];
  }

  // ---------------------------------------------------------------
  // Concatenation and reshaping (lines 175-198)
  // ---------------------------------------------------------------

  /** `pd.concat`'s columns: every label of every frame, at its first appearance. */
  function Union(acc: seq<Py>, frames: seq<seq<Py>>): (r: seq<Py>)
    decreases |frames|
  {
    if |frames| == 0 then acc else Union(AddColumns(acc, frames[0]), frames[1..])
  }

  /** Concatenation keeps what it had and holds exactly the labels of the frames. */
  lemma {:induction false} UnionLabels(acc: seq<Py>, frames: seq<seq<Py>>)
    ensures var r := Union(acc, frames);
      |acc| <= |r| && r[..|acc|] == acc
      && (forall x | x in r :: x in acc || exists k | 0 <= k < |frames| :: x in frames[k])
      && forall k, x | 0 <= k < |frames| && x in frames[k] :: x in r
    decreases |frames|
  {
    if |frames| > 0 {
      var next := AddColumns(acc, frames[0]);
      UnionLabels(next, frames[1..]);
      var r := Union(acc, frames);
      assert r[..|acc|] == next[..|next|][..|acc|];
      forall x | x in r
        ensures x in acc || exists k | 0 <= k < |frames| :: x in frames[k]
      {
        if x !in next {
          var k :| 0 <= k < |frames[1..]| && x in frames[1..][k];
          assert x in frames[k + 1];
        } else if x !in acc {
          assert x in frames[0];
        }
      }
      forall k, x | 0 <= k < |frames| && x in frames[k]
        ensures x in r
      {
        if k > 0 {
          assert x in frames[1..][k - 1];
        } else {
          assert x in next;
          assert next == r[..|next|];
        }
      }
    }
  }

  /** Adding labels never repeats one, when there is no repeat to begin with. */
  lemma {:induction false} AddColumnsDistinct(cols: seq<Py>, dims: seq<Py>)
    requires Distinct(cols)
    ensures Distinct(AddColumns(cols, dims))
    decreases |dims|
  {
    if |dims| > 0 {
      var next := if dims[0] in cols then cols else cols + [dims[0]];
      AddColumnsDistinct(next, dims[1..]);
    }
  }

  predicate Distinct(xs: seq<Py>)
  {
    forall i, j | 0 <= i < j < |xs| :: xs[i] != xs[j]
  }

  /** The concatenated frame has no repeated column. */
  lemma {:induction false} UnionDistinct(acc: seq<Py>, frames: seq<seq<Py>>)
    requires Distinct(acc)
    ensures Distinct(Union(acc, frames))
    decreases |frames|
  {
    if |frames| > 0 {
      AddColumnsDistinct(acc, frames[0]);
      UnionDistinct(AddColumns(acc, frames[0]), frames[1..]);
    }
  }

  /** Lines 175-178; `pd.concat` of no frame raises ValueError. */
  function Concat(frames: seq<seq<Py>>): (r: Result<seq<Py>>)
    ensures r.Ok? <==> frames != []
  {
    if frames == [] then Raise(ValueError, "No objects to concatenate") else Ok(Union([], frames))
  }

  /** `cols` without any column labelled `x`. */
  function Without(cols: seq<Py>, x: Py): (r: seq<Py>)
    ensures forall y | y in r :: y in cols && y != x
    ensures forall y | y in cols && y != x :: y in r
    decreases |cols|
  {
    if |cols| == 0 then []
    else if cols[0] == x then Without(cols[1..], x)
    else [cols[0]] + Without(cols[1..], x)
  }

  /** Lines 181-188: for each name/alias pair in turn, the alias column goes when both columns are there. */
  function Override(cols: seq<Py>, pairs: seq<(Py, Py)>): (r: seq<Py>)
    ensures forall y | y in r :: y in cols
    ensures forall y | y in cols && (forall k | 0 <= k < |pairs| :: pairs[k].1 != y) :: y in r
    decreases |pairs|
  {
    if |pairs| == 0 then cols
    else
      var (name, alias) := pairs[0];
      Override(if name in cols && alias in cols then Without(cols, alias) else cols, pairs[1..])
  }

  /** With its name column present, an alias column is gone; without it, nothing changes. */
  lemma OverrideOne(cols: seq<Py>, name: Py, alias: Py)
    ensures name in cols && alias in cols ==> Override(cols, [(name, alias)]) == Without(cols, alias)
    ensures name in cols && alias in cols ==> alias !in Override(cols, [(name, alias)])
    ensures name !in cols || alias !in cols ==> Override(cols, [(name, alias)]) == cols
  {
    assert [(name, alias)][1..] == [];
  }

  /** Lines 186-188 as they run: the pairs in turn, dropping in place. */
  method DropAliases(cols: seq<Py>, pairs: seq<(Py, Py)>) returns (r: seq<Py>)
    ensures r == Override(cols, pairs)
  {
    r := cols;
    assert pairs[0..] == pairs;
    for i := 0 to |pairs|
      invariant Override(r, pairs[i..]) == Override(cols, pairs)
    {
      assert pairs[i..][1..] == pairs[i + 1..];
      var (name, alias) := pairs[i];
      if name in r && alias in r {
        r := Without(r, alias);
      }
    }
  }

  /** The column types lines 194-198 give. */
  datatype Dtype = Category | Int64 | Unchanged

  /**
   * Lines 195-198 for one column: category for a short name, int64 for
   * a name without '/', otherwise unchanged. `'/' in` a label that is
   * not a string raises TypeError.
   */
  function TypeOf(col: Py, shortNames: set<Py>): (r: Result<Dtype>)
  {
    if col in shortNames then Ok(Category)
    else if !col.PStr? then Raise(TypeError, "argument of type is not iterable")
    else if '/' !in col.s then Ok(Int64)
    else Ok(Unchanged)
  }

  /**
   * Lines 194-198: each column with its type, in order; the first label
   * that cannot be typed raises TypeError.
   */
  function Typing(cols: seq<Py>, shortNames: set<Py>): (r: Result<seq<(Py, Dtype)>>)
    ensures r.Ok? <==> forall k | 0 <= k < |cols| :: cols[k] in shortNames || cols[k].PStr?
    ensures r.Fail? ==> r == Raise(TypeError, "argument of type is not iterable")
    ensures r.Ok? ==> |r.value| == |cols| && forall k | 0 <= k < |cols| :: r.value[k].0 == cols[k]
    ensures r.Ok? ==> forall k | 0 <= k < |cols| ::
      (r.value[k].1 == Category <==> cols[k] in shortNames)
      && (r.value[k].1 == Int64 <==> cols[k] !in shortNames && '/' !in cols[k].s)
      && (r.value[k].1 == Unchanged <==> cols[k] !in shortNames && '/' in cols[k].s)
    decreases |cols|
  {
    if |cols| == 0 then Ok([])
    else
      var t :- TypeOf(cols[0], shortNames);
      var rest :- Typing(cols[1..], shortNames);
      Ok([(cols[0], t)] + rest)
  }

  /** Lines 194-198 as they run: the columns in turn. */
  method ColumnTypes(cols: seq<Py>, shortNames: set<Py>) returns (r: Result<seq<(Py, Dtype)>>)
    ensures r == Typing(cols, shortNames)
  {
    var typed: seq<(Py, Dtype)> := [];
    ghost var all := Typing(cols, shortNames);
    assert cols[0..] == cols;
    FlatRealtime.GlueEmpty(all);
    for i := 0 to |cols|
      invariant all == FlatRealtime.Glue(typed, Typing(cols[i..], shortNames))
    {
      assert cols[i..][1..] == cols[i + 1..];
      var t := TypeOf(cols[i], shortNames);
      if t.Fail? {
        return Fail(t.error);
      }
      FlatRealtime.GlueGlue(typed, [(cols[i], t.value)], Typing(cols[i + 1..], shortNames));
      typed := typed + [(cols[i], t.value)];
    }
    assert typed + [] == typed;
    return Ok(typed);
  }

  /** The short names of `dim_px_map`. */
  function ShortNames(dimPx: map<Py, Py>): set<Py>
  {
    set k | k in dimPx :: dimPx[k]
  }

  // ---------------------------------------------------------------
  // download_flat_overview_realtime_report (lines 11-200)
  // ---------------------------------------------------------------

  /**
   * Lines 175-192: the concatenated columns without the alias columns,
   * renamed to their short names.
   */
  function Reshaped(frames: seq<seq<Py>>, m: PathModule): (r: Result<seq<Py>>)
    ensures r.Ok? <==> frames != []
    ensures r.Ok? ==> r.value == Rename(Override(Union([], frames), m.overrideDims), m.dimPx)
  {
    var cols :- Concat(frames);
    Ok(Rename(Override(cols, m.overrideDims), m.dimPx))
  }

  /**
   * The whole call: `filters` are the mdevicetype, ordertype,
   * ordertypecustom and profile filters; `module` is the path module of
   * the report, or None when it cannot be imported. The result is every
   * column of the report with its type.
   */
  function Downloaded(c: Connection.Conn, dateFrom: Py, dateTo: Py, websiteName: Py, reportName: Py, kpi: Py,
                      channel: Py, viewId: Py, filters: seq<(Py, Result<set<Py>>)>, pathModule: Option<PathModule>,
                      replies: seq<Reply>): (o: Outcome<seq<(Py, Dtype)>>)
    requires |filters| == 4
    ensures CheckArgs(dateFrom, dateTo, websiteName, reportName, kpi).Fail? ==>
      o.result.Fail? && o.result.error.kind == TypeError && o.trace == []
  {
    match CheckArgs(dateFrom, dateTo, websiteName, reportName, kpi)
    case Fail(e) => Outcome(Fail(e), [], replies)
    case Ok(a) =>
      match Payload(a, filters)
      case Fail(e) => Outcome(Fail(e), [], replies)
      case Ok(payload) => Viewed(c, a, payload, viewId, channel, pathModule, replies)
  }

  /** Lines 124-131: the view id must be one of the website's views; then the website is looked up. */
  function Viewed(c: Connection.Conn, a: Args, payload: map<string, Py>, viewId: Py, channel: Py,
                  pathModule: Option<PathModule>, replies: seq<Reply>): (o: Outcome<seq<(Py, Dtype)>>)
  {
    Checked(c, a, payload, PStr(Str(viewId)), channel, pathModule, Connection.GetViewIdNameMap(c, PStr(a.website), replies))
  }

  /** Lines 126-131, given the view map lookup. */
  function Checked(c: Connection.Conn, a: Args, payload: map<string, Py>, viewIdText: Py, channel: Py,
                   pathModule: Option<PathModule>, view: Outcome<map<Py, Py>>): (o: Outcome<seq<(Py, Dtype)>>)
  {
    match view.result
    case Fail(e) => Outcome(Fail(e), view.trace, view.rest)
    case Ok(names) =>
      if viewIdText !in names then Outcome(Fail(JoinedKeysError(names.Keys, "view_id not found")), view.trace, view.rest)
      else After(view.trace, Reported(c, a, payload["view-id" := viewIdText],
                                      Connection.GetWebsiteByName(c, PStr(a.website), view.rest), channel, pathModule))
  }

  /** A channel's request carries the payload's `view-id`. */
  lemma ChannelColumnsCarriesView(url: string, headers: Py, payload: map<string, Py>, site: map<Py, Py>, kpi: seq<Py>,
                                  table: map<Py, Channel>, ch: Py, replies: seq<Reply>)
    requires "view-id" in payload
    ensures FlatRealtime.CarriesView(ChannelColumns(url, headers, payload, site, kpi, table, ch, replies).trace, payload["view-id"])
  {
    if !(ch.PList? || ch.PDict?) && ch in table && |table[ch].path| > 0 {
      var e := table[ch];
      var first := FlatRealtime.FirstSegment(site, e.path[0]);
      if first.Ok? && e.dim.PList? && FlatRealtime.JoinItems(",", e.dim.items + kpi).Ok? {
        var columns := FlatRealtime.JoinItems(",", e.dim.items + kpi).value;
        var path := e.path[0 := first.value];
        FlatRealtime.CallCarriesView(url, headers, payload["path" := PStr(Join(".", path))]["ea-columns" := PStr(columns)], replies);
      }
    }
  }

  lemma {:induction false} ChannelsColumnsCarriesView(url: string, headers: Py, payload: map<string, Py>, site: map<Py, Py>,
                                                      kpi: seq<Py>, table: map<Py, Channel>, chans: seq<Py>, replies: seq<Reply>)
    requires "view-id" in payload
    ensures FlatRealtime.CarriesView(ChannelsColumns(url, headers, payload, site, kpi, table, chans, replies).trace, payload["view-id"])
    decreases |chans|
  {
    if |chans| > 0 {
      var s := ChannelColumns(url, headers, payload, site, kpi, table, chans[0], replies);
      ChannelColumnsCarriesView(url, headers, payload, site, kpi, table, chans[0], replies);
      if s.result.Ok? {
        var later := ChannelsColumns(url, headers, payload, site, kpi, s.result.value.table, chans[1..], s.rest);
        ChannelsColumnsCarriesView(url, headers, payload, site, kpi, s.result.value.table, chans[1..], s.rest);
        FlatRealtime.CarriesViewJoin(s.trace, later.trace, payload["view-id"]);
      }
    }
  }

  /**
   * Lines 124-128: a `view_id` whose `str()` is not a key of the view map
   * ends the call once the map is fetched, and nothing more is sent. The
   * error is the ValueError, or the TypeError of joining keys that are
   * not all str.
   */
  lemma UnknownViewStops(c: Connection.Conn, a: Args, payload: map<string, Py>, viewId: Py, channel: Py,
                         pathModule: Option<PathModule>, replies: seq<Reply>)
    requires Connection.GetViewIdNameMap(c, PStr(a.website), replies).result.Ok?
    requires PStr(Str(viewId)) !in Connection.GetViewIdNameMap(c, PStr(a.website), replies).result.value
    ensures var view := Connection.GetViewIdNameMap(c, PStr(a.website), replies);
      var o := Viewed(c, a, payload, viewId, channel, pathModule, replies);
      o.result.Fail? && o.trace == view.trace && o.rest == view.rest
      && (o.result.error.kind == ValueError <==> forall k | k in view.result.value :: k.PStr?)
  {
  }

  /** Lines 131-173: every request after the website lookup carries the payload's `view-id`. */
  lemma ReportedCarriesView(c: Connection.Conn, a: Args, payload: map<string, Py>, site: Outcome<map<Py, Py>>,
                            channel: Py, pathModule: Option<PathModule>)
    requires "view-id" in payload
    ensures var r := Reported(c, a, payload, site, channel, pathModule);
      |r.trace| >= |site.trace| && r.trace[..|site.trace|] == site.trace
      && FlatRealtime.CarriesView(r.trace[|site.trace|..], payload["view-id"])
  {
    var r := Reported(c, a, payload, site, channel, pathModule);
    if site.result.Ok? && pathModule.Some? && ChannelList(channel, pathModule.value.order).Ok? {
      var m := pathModule.value;
      var url := FlatRealtime.ReportUrl(c, a.website, a.report);
      var chans := ChannelList(channel, m.order).value;
      var all := ChannelsColumns(url, c.headers, payload, site.result.value, a.kpi, m.table, chans, site.rest);
      ChannelsColumnsCarriesView(url, c.headers, payload, site.result.value, a.kpi, m.table, chans, site.rest);
      assert r.trace == site.trace + all.trace;
      assert r.trace[|site.trace|..] == all.trace;
    } else {
      assert r.trace == site.trace;
      assert r.trace[|site.trace|..] == [];
    }
  }

  /**
   * Lines 126-173, given the view map: when the view is found, every
   * request sent after the view and website lookups carries `view-id` =
   * `str(view_id)`.
   */
  lemma CheckedCarriesView(c: Connection.Conn, a: Args, payload: map<string, Py>, viewIdText: Py, channel: Py,
                           pathModule: Option<PathModule>, view: Outcome<map<Py, Py>>)
    requires view.result.Ok? && viewIdText in view.result.value
    ensures var site := Connection.GetWebsiteByName(c, PStr(a.website), view.rest);
      var o := Checked(c, a, payload, viewIdText, channel, pathModule, view);
      var n := |view.trace| + |site.trace|;
      |o.trace| >= n && o.trace[..n] == view.trace + site.trace && FlatRealtime.CarriesView(o.trace[n..], viewIdText)
  {
    var site := Connection.GetWebsiteByName(c, PStr(a.website), view.rest);
    var r := Reported(c, a, payload["view-id" := viewIdText], site, channel, pathModule);
    ReportedCarriesView(c, a, payload["view-id" := viewIdText], site, channel, pathModule);
    var n := |view.trace| + |site.trace|;
    assert Checked(c, a, payload, viewIdText, channel, pathModule, view).trace == view.trace + r.trace;
    assert (view.trace + r.trace)[..n] == view.trace + r.trace[..|site.trace|];
    assert (view.trace + r.trace)[n..] == r.trace[|site.trace|..];
  }

  /**
   * Lines 124-173: once the view is found, every request sent after the
   * view and website lookups carries `view-id` = `str(view_id)`.
   */
  lemma ViewIdInEveryChannelRequest(c: Connection.Conn, a: Args, payload: map<string, Py>, viewId: Py, channel: Py,
                                    pathModule: Option<PathModule>, replies: seq<Reply>)
    requires Connection.GetViewIdNameMap(c, PStr(a.website), replies).result.Ok?
    requires PStr(Str(viewId)) in Connection.GetViewIdNameMap(c, PStr(a.website), replies).result.value
    ensures var view := Connection.GetViewIdNameMap(c, PStr(a.website), replies);
      var site := Connection.GetWebsiteByName(c, PStr(a.website), view.rest);
      var o := Viewed(c, a, payload, viewId, channel, pathModule, replies);
      var n := |view.trace| + |site.trace|;
      |o.trace| >= n && o.trace[..n] == view.trace + site.trace && FlatRealtime.CarriesView(o.trace[n..], PStr(Str(viewId)))
  {
    CheckedCarriesView(c, a, payload, PStr(Str(viewId)), channel, pathModule,
                       Connection.GetViewIdNameMap(c, PStr(a.website), replies));
  }

  /** A step that came after others, which left the events `tr`. */
  function After<T>(tr: seq<Event>, o: Outcome<T>): Outcome<T>
  {
    Outcome(o.result, tr + o.trace, o.rest)
  }

  /** Lines 131-198, once the website has been looked up. */
  function Reported(c: Connection.Conn, a: Args, payload: map<string, Py>, site: Outcome<map<Py, Py>>,
                    channel: Py, pathModule: Option<PathModule>): (o: Outcome<seq<(Py, Dtype)>>)
  {
    match site.result
    case Fail(e) => Outcome(Fail(e), site.trace, site.rest)
    case Ok(d) =>
      if pathModule.None? then Outcome(Raise(ImportError, "No module named " + a.report), site.trace, site.rest)
      else
        var m := pathModule.value;
        match ChannelList(channel, m.order)
        case Fail(e) => Outcome(Fail(e), site.trace, site.rest)
        case Ok(chans) =>
          var url := FlatRealtime.ReportUrl(c, a.website, a.report);
          var all := ChannelsColumns(url, c.headers, payload, d, a.kpi, m.table, chans, site.rest);
          var trace := site.trace + all.trace;
          match all.result
          case Fail(e) => Outcome(Fail(e), trace, all.rest)
          case Ok(frames) =>
            match Reshaped(frames, m)
            case Fail(e) => Outcome(Fail(e), trace, all.rest)
            case Ok(cols) => Outcome(Typing(cols, ShortNames(m.dimPx)), trace, all.rest)
  }

  /** Lines 142-173 as they run: the channel loop over the copy of `d_path`. */
  method ChannelLoop(url: string, headers: Py, payload: map<string, Py>, site: map<Py, Py>, kpi: seq<Py>,
                     table: map<Py, Channel>, chans: seq<Py>, replies: seq<Reply>) returns (o: Outcome<seq<seq<Py>>>)
    ensures o == ChannelsColumns(url, headers, payload, site, kpi, table, chans, replies)
  {
    var copy := table;
    var frames: seq<seq<Py>> := [];
    var trace: seq<Event> := [];
    var rest := replies;
    ghost var all := ChannelsColumns(url, headers, payload, site, kpi, table, chans, replies);
    assert chans[0..] == chans;
    FlatRealtime.PrefixEmpty(all);
    for i := 0 to |chans|
      invariant all == FlatRealtime.Prefix(frames, trace, ChannelsColumns(url, headers, payload, site, kpi, copy, chans[i..], rest))
    {
      assert chans[i..][1..] == chans[i + 1..];
      var s := ChannelColumns(url, headers, payload, site, kpi, copy, chans[i], rest);
      if s.result.Fail? {
        return Outcome(Fail(s.result.error), trace + s.trace, s.rest);
      }
      FlatRealtime.PrefixPrefix(frames, trace, [s.result.value.columns], s.trace,
                                ChannelsColumns(url, headers, payload, site, kpi, s.result.value.table, chans[i + 1..], s.rest));
      frames := frames + [s.result.value.columns];
      trace := trace + s.trace;
      rest := s.rest;
      copy := s.result.value.table;
    }
    assert frames + [] == frames && trace + [] == trace;
    o := Outcome(Ok(frames), trace, rest);
  }

  /** `download_flat_overview_realtime_report` as it runs. */
  method DownloadFlatOverviewRealtimeReport(c: Connection.Conn, dateFrom: Py, dateTo: Py, websiteName: Py,
                                            reportName: Py, kpi: Py, channel: Py, viewId: Py, filters: seq<(Py, Result<set<Py>>)>,
                                            pathModule: Option<PathModule>, replies: seq<Reply>)
    returns (o: Outcome<seq<(Py, Dtype)>>)
    requires |filters| == 4
    ensures o == Downloaded(c, dateFrom, dateTo, websiteName, reportName, kpi, channel, viewId, filters, pathModule, replies)
  {
    match CheckArgs(dateFrom, dateTo, websiteName, reportName, kpi)
    case Fail(e) => o := Outcome(Fail(e), [], replies);
    case Ok(a) =>
      match Payload(a, filters)
      case Fail(e) => o := Outcome(Fail(e), [], replies);
      case Ok(payload) => o := View(c, a, payload, viewId, channel, pathModule, replies);
  }

  /** Lines 124-131 as they run. */
  method View(c: Connection.Conn, a: Args, payload: map<string, Py>, viewId: Py, channel: Py,
              pathModule: Option<PathModule>, replies: seq<Reply>) returns (o: Outcome<seq<(Py, Dtype)>>)
    ensures o == Viewed(c, a, payload, viewId, channel, pathModule, replies)
  {
    var view := Connection.GetViewIdNameMap(c, PStr(a.website), replies);
    var viewIdText := PStr(Str(viewId));
    if view.result.Fail? || viewIdText !in view.result.value {
      return Checked(c, a, payload, viewIdText, channel, pathModule, view);
    }
    var site := Connection.GetWebsiteByName(c, PStr(a.website), view.rest);
    var after := Report(c, a, payload["view-id" := viewIdText], site, channel, pathModule);
    o := After(view.trace, after);
  }

  /** Lines 131-198 as they run. */
  method Report(c: Connection.Conn, a: Args, payload: map<string, Py>, site: Outcome<map<Py, Py>>,
                channel: Py, pathModule: Option<PathModule>) returns (o: Outcome<seq<(Py, Dtype)>>)
    ensures o == Reported(c, a, payload, site, channel, pathModule)
  {
    if site.result.Fail? {
      return Outcome(Fail(site.result.error), site.trace, site.rest);
    }
    if pathModule.None? {
      return Outcome(Raise(ImportError, "No module named " + a.report), site.trace, site.rest);
    }
    var m := pathModule.value;
    var chans := ChannelList(channel, m.order);
    if chans.Fail? {
      return Outcome(Fail(chans.error), site.trace, site.rest);
    }
    var url := FlatRealtime.ReportUrl(c, a.website, a.report);
    var all := ChannelLoop(url, c.headers, payload, site.result.value, a.kpi, m.table, chans.value, site.rest);
    var trace := site.trace + all.trace;
    if all.result.Fail? {
      return Outcome(Fail(all.result.error), trace, all.rest);
    }
    var reshaped := Reshaped(all.result.value, m);
    if reshaped.Fail? {
      return Outcome(Fail(reshaped.error), trace, all.rest);
    }
    var dropped := DropAliases(Union([], all.result.value), m.overrideDims);
    var typed := ColumnTypes(Rename(dropped, m.dimPx), ShortNames(m.dimPx));
    o := Outcome(typed, trace, all.rest);
  }
}
