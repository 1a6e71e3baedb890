/**
 * `move_columns` of the frame transformations: move a column, named by
 * the first key of a dictionary, to the position given as its value.
 * The function works on a copy unless asked to work in place, checks
 * its arguments, then drops the column and inserts it again at the
 * requested position. Its `return` sits inside the loop over the keys,
 * so only the first key is ever moved.
 */
module Pddf {
  import opened Wrappers
  import opened Text
  import opened PyValue
  import opened DataFrames

  /** The `df` argument: a frame object, or any other value. */
  datatype FrameArg = IsFrame(obj: DataFrame) | NotFrame(v: Py)

  /** The `colname_idx` argument: a dictionary with its items in insertion order, or any other value. */
  datatype Arg = DictArg(items: seq<(Py, Py)>) | OtherArg(v: Py)

  /**
   * The checks before any key is read: `df.copy()` when not in place
   * (only dictionaries and lists have a `copy` besides frames), then the
   * two `isinstance` tests.
   */
  function ArgError(df: FrameArg, colnameIdx: Arg, inplace: bool): (e: Option<Error>)
    ensures e.None? <==> df.IsFrame? && colnameIdx.DictArg?
    ensures df.IsFrame? && colnameIdx.OtherArg? ==> e == Some(Error(TypeError, "colname_idx should be a dict"))
    ensures df.NotFrame? && (inplace || df.v.PDict? || df.v.PList?) ==> e == Some(Error(TypeError, "df should be a pandas DataFrame"))
  {
    if df.NotFrame? && !inplace && !(df.v.PDict? || df.v.PList?) then
      Some(Error(AttributeError, "'" + TypeName(df.v) + "' object has no attribute 'copy'"))
    else if df.NotFrame? then Some(Error(TypeError, "df should be a pandas DataFrame"))
    else if colnameIdx.OtherArg? then Some(Error(TypeError, "colname_idx should be a dict"))
    else None
  }

  /** The checks on the first key and its value; `None` for an empty dictionary. */
  function FirstKey(t: Frame, items: seq<(Py, Py)>): (r: Result<Option<(string, int)>>)
    ensures r == Ok(None) <==> |items| == 0
    ensures r.Ok? && r.value.Some? ==>
      (var (key, idx) := items[0];
       key == PStr(r.value.value.0) && r.value.value.0 in t.columns && IsInt(idx) && r.value.value.1 == IntOf(idx))
    ensures |items| > 0 && !items[0].0.PStr? ==> r == Raise(TypeError, "key=" + Str(items[0].0) + ", should be an str type")
    ensures |items| > 0 && items[0].0.PStr? && items[0].0.s !in t.columns ==>
      r == Raise(ValueError, "key=" + items[0].0.s + " is not a column of the given DataFrame")
  {
    if |items| == 0 then Ok(None)
    else
      var (key, idx) := items[0];
      if !key.PStr? then Raise(TypeError, "key=" + Str(key) + ", should be an str type")
      else if key.s !in t.columns then Raise(ValueError, "key=" + key.s + " is not a column of the given DataFrame")
      else if !IsInt(idx) then Raise(TypeError, "key=" + key.s + ", val=" + Str(idx) + " should be an integer type")
      else Ok(Some((key.s, IntOf(idx))))
  }

  /** The frame once the column has been dropped, before it is inserted again. */
  function Lifted(t: Frame, name: string): (r: Frame)
    requires name in t.columns
    ensures name !in r.columns
  {
    Drop(t, name)
  }

  /** Whether `insert` accepts the position: between 0 and the number of remaining columns. */
  predicate InRange(t: Frame, name: string, idx: int)
    requires name in t.columns
  {
    0 <= idx <= |Lifted(t, name).columns|
  }

  /** Lines 48-60: keep the column, drop it, insert it at `idx`. */
  function Relocated(t: Frame, name: string, idx: int): (r: Result<Frame>)
    requires name in t.columns
    ensures r.Ok? <==> InRange(t, name, idx)
  {
    var rest := Lifted(t, name);
    if !InRange(t, name, idx) then
      Raise(IndexError, "index " + IntToString(idx) + " is out of bounds for axis 0 with size " + NatToString(|rest.columns|))
    else Ok(Insert(rest, idx, name, Column(t, name), DtypeOf(t, name)))
  }

  /** What `move_columns` returns for a frame argument and a dictionary, as written: the first key only. */
  function MoveFirst(t: Frame, items: seq<(Py, Py)>): Result<Option<Frame>>
  {
    var first :- FirstKey(t, items);
    match first
    case None => Ok(None)
    case Some((name, idx)) =>
      var r :- Relocated(t, name, idx);
      Ok(Some(r))
  }

  /**
   * The contents the frame object is left with: the moved frame, the
   * frame without the column when `insert` refuses the position, and the
   * frame unchanged when a check fails.
   */
  function LeftBehind(t: Frame, items: seq<(Py, Py)>): Frame
  {
    match FirstKey(t, items)
    case Ok(Some((name, idx))) =>
      (match Relocated(t, name, idx)
       case Ok(r) => r
       case Fail(_) => Lifted(t, name))
    case _ => t
  }

  /** What an object result holds, as a value. */
  ghost function Contents(r: Result<Option<DataFrame>>): Result<Option<Table>>
    reads if r.Ok? && r.value.Some? then {r.value.value} else {}
  {
    match r
    case Fail(e) => Fail(e)
    case Ok(None) => Ok(None)
    case Ok(Some(d)) => Ok(Some(d.Value()))
  }

  /**
   * `move_columns(df, colname_idx, inplace)`. Without `inplace` the
   * caller's frame is never touched and a moved frame is a new object;
   * with it, the caller's frame is the one changed and returned.
   */
  method MoveColumns(df: FrameArg, colnameIdx: Arg, inplace: bool) returns (r: Result<Option<DataFrame>>)
    requires df.IsFrame? ==> df.obj.Valid() && Distinct(df.obj.columns)
    modifies if df.IsFrame? && inplace then {df.obj} else {}
    ensures ArgError(df, colnameIdx, inplace).Some? ==> r == Fail(ArgError(df, colnameIdx, inplace).value)
    ensures ArgError(df, colnameIdx, inplace).None? ==>
      Contents(r) == MoveFirst(old(df.obj.Value()), colnameIdx.items)
    ensures r.Ok? && r.value.Some? ==> r.value.value.Valid()
    ensures r.Ok? && r.value.Some? ==> (if inplace then r.value.value == df.obj else fresh(r.value.value))
    ensures df.IsFrame? && !inplace ==> unchanged(df.obj)
    ensures df.IsFrame? && inplace && colnameIdx.DictArg? ==>
      df.obj.Valid() && df.obj.Value() == LeftBehind(old(df.obj.Value()), colnameIdx.items)
  {
    var e := ArgError(df, colnameIdx, inplace);
    if e.Some? {
      return Fail(e.value);
    }
    var d := df.obj;
    if !inplace {
      d := df.obj.Copy();
    }
    var t: Frame := d.Value();
    var items := colnameIdx.items;
    for i := 0 to |items|
      invariant i == 0
      invariant d.Valid() && d.Value() == t
    {
      var first := FirstKey(t, items);
      if first.Fail? {
        return Fail(first.error);
      }
      var (name, idx) := first.value.value;
      var tmp := Column(t, name);
      var dtype := DtypeOf(t, name);
      d.Set(Drop(t, name));
      if !InRange(t, name, idx) {
        return Fail(Relocated(t, name, idx).error);
      }
      d.Set(Insert(Drop(t, name), idx, name, tmp, dtype));
      return Ok(Some(d));
    }
    return Ok(None);
  }

  // ---------------------------------------------------------------
  // The move as an operation on sequences
  // ---------------------------------------------------------------

  /** `xs` without its entry at `f`. */
  function Remove<T>(xs: seq<T>, f: nat): (r: seq<T>)
    requires f < |xs|
    ensures |r| == |xs| - 1
  {
    xs[..f] + xs[f + 1..]
  }

  /** The entry at `f` taken out and put back at `loc`. */
  function Move<T>(xs: seq<T>, f: nat, loc: nat): (r: seq<T>)
    requires f < |xs| && loc < |xs|
    ensures |r| == |xs|
  {
    var rest := Remove(xs, f);
    rest[..loc] + [xs[f]] + rest[loc..]
  }

  /** Where the entry at position `j` of the moved sequence came from. */
  function Origin(f: nat, loc: nat, j: nat): nat
  {
    if j == loc then f
    else
      var k := if j < loc then j else j - 1;
      if k < f then k else k + 1
  }

  /** Where the entry at position `s` goes. */
  function Target(f: nat, loc: nat, s: nat): nat
  {
    if s == f then loc
    else
      var k := if s < f then s else s - 1;
      if k < loc then k else k + 1
  }

  /** Every position of the moved sequence holds the entry of its origin, and origins are one-to-one. */
  lemma MoveAt<T>(xs: seq<T>, f: nat, loc: nat, j: nat)
    requires f < |xs| && loc < |xs| && j < |xs|
    ensures Origin(f, loc, j) < |xs| && Move(xs, f, loc)[j] == xs[Origin(f, loc, j)]
    ensures Target(f, loc, Origin(f, loc, j)) == j
    ensures Target(f, loc, j) < |xs| && Origin(f, loc, Target(f, loc, j)) == j
  {
    var rest := Remove(xs, f);
    if j < loc {
      assert Move(xs, f, loc)[j] == rest[j];
    } else if j > loc {
      assert Move(xs, f, loc)[j] == rest[j - 1];
    }
  }

  /** Moving keeps the same entries, and the others in their order. */
  lemma MoveKeeps<T>(xs: seq<T>, f: nat, loc: nat)
    requires f < |xs| && loc < |xs|
    ensures Move(xs, f, loc)[loc] == xs[f]
    ensures Remove(Move(xs, f, loc), loc) == Remove(xs, f)
    ensures multiset(Move(xs, f, loc)) == multiset(xs)
  {
    var rest := Remove(xs, f);
    var m := Move(xs, f, loc);
    assert m[..loc] == rest[..loc];
    assert m[loc + 1..] == rest[loc..];
    assert rest[..loc] + rest[loc..] == rest;
    assert xs == xs[..f] + [xs[f]] + xs[f + 1..];
    calc {
      multiset(m);
      multiset(rest[..loc]) + multiset([xs[f]]) + multiset(rest[loc..]);
      multiset(rest) + multiset([xs[f]]);
      multiset(xs[..f]) + multiset(xs[f + 1..]) + multiset([xs[f]]);
      multiset(xs);
    }
  }

  /** Moving an entry to where it already is changes nothing. */
  lemma MoveInPlace<T>(xs: seq<T>, f: nat)
    requires f < |xs|
    ensures Move(xs, f, f) == xs
  {
    assert Remove(xs, f)[..f] == xs[..f];
    assert Remove(xs, f)[f..] == xs[f + 1..];
    assert xs == xs[..f] + [xs[f]] + xs[f + 1..];
  }

  /** A moved sequence of distinct labels is still distinct. */
  lemma MoveDistinct(xs: seq<string>, f: nat, loc: nat)
    requires f < |xs| && loc < |xs| && Distinct(xs)
    ensures Distinct(Move(xs, f, loc))
  {
    var m := Move(xs, f, loc);
    forall i, j | 0 <= i < j < |m|
      ensures m[i] != m[j]
    {
      MoveAt(xs, f, loc, i);
      MoveAt(xs, f, loc, j);
    }
  }

  // ---------------------------------------------------------------
  // drop and insert make the move
  // ---------------------------------------------------------------

  /** Dropping a label that does not occur keeps everything. */
  lemma {:induction false} DroppedAbsent<T>(xs: seq<T>, labels: seq<string>, name: string)
    requires |xs| == |labels| && name !in labels
    ensures Dropped(xs, labels, name) == xs
    decreases |xs|
  {
    if |xs| > 0 {
      DroppedAbsent(xs[1..], labels[1..], name);
    }
  }

  /** Dropping a label that occurs once, at `f`, removes the entry at `f`. */
  lemma {:induction false} DroppedOnce<T>(xs: seq<T>, labels: seq<string>, name: string, f: nat)
    requires |xs| == |labels| && Distinct(labels) && f < |labels| && labels[f] == name
    ensures Dropped(xs, labels, name) == Remove(xs, f)
    decreases |xs|
  {
    if f == 0 {
      assert name !in labels[1..];
      DroppedAbsent(xs[1..], labels[1..], name);
    } else {
      assert Distinct(labels[1..]) by {
        forall i, j | 0 <= i < j < |labels[1..]|
          ensures labels[1..][i] != labels[1..][j]
        {
          assert labels[1..][i] == labels[i + 1] && labels[1..][j] == labels[j + 1];
        }
      }
      DroppedOnce(xs[1..], labels[1..], name, f - 1);
      assert [xs[0]] + Remove(xs[1..], f - 1) == Remove(xs, f);
    }
  }

  /** With distinct labels, a successful relocation is the move of one position. */
  lemma RelocatedMoves(t: Frame, name: string, idx: int)
    requires name in t.columns && Distinct(t.columns) && InRange(t, name, idx)
    ensures var f := Find(t.columns, name);
      idx < |t.columns| &&
      Relocated(t, name, idx) == Ok(Table(Move(t.columns, f, idx), Move(t.dtypes, f, idx), Move(t.cols, f, idx), t.height))
  {
    var f := Find(t.columns, name);
    DroppedOnce(t.columns, t.columns, name, f);
    DroppedOnce(t.dtypes, t.columns, name, f);
    DroppedOnce(t.cols, t.columns, name, f);
  }

  /**
   * Lines 48-60 with distinct labels: the column lands at `idx` with its
   * values and dtype, every other column keeps its values, its dtype and
   * its order relative to the others, and the set of labels is the same.
   */
  lemma RelocatedPlaces(t: Frame, name: string, idx: int)
    requires name in t.columns && Distinct(t.columns) && InRange(t, name, idx)
    ensures var r := Relocated(t, name, idx).value;
      && 0 <= idx < |r.columns| && r.columns[idx] == name
      && Column(r, name) == Column(t, name) && DtypeOf(r, name) == DtypeOf(t, name)
      && Remove(r.columns, idx) == Remove(t.columns, Find(t.columns, name))
      && multiset(r.columns) == multiset(t.columns) && Distinct(r.columns)
      && r.height == t.height
      && forall c | c in t.columns :: c in r.columns && Column(r, c) == Column(t, c) && DtypeOf(r, c) == DtypeOf(t, c)
  {
    var f := Find(t.columns, name);
    RelocatedMoves(t, name, idx);
    var r := Relocated(t, name, idx).value;
    MoveKeeps(t.columns, f, idx);
    MoveDistinct(t.columns, f, idx);
    forall c | c in t.columns
      ensures c in r.columns && Column(r, c) == Column(t, c) && DtypeOf(r, c) == DtypeOf(t, c)
    {
      var s := Find(t.columns, c);
      var j := Target(f, idx, s);
      MoveAt(t.columns, f, idx, s);
      MoveAt(t.columns, f, idx, j);
      MoveAt(t.cols, f, idx, j);
      MoveAt(t.dtypes, f, idx, j);
      assert r.columns[j] == c;
      assert Find(r.columns, c) == j;
    }
  }

  /**
   * Lines 45-46: `next` does nothing, so a column already at `idx` is
   * dropped and inserted again, and the frame comes back the same.
   */
  lemma AlreadyInPlace(t: Frame, name: string, idx: int)
    requires name in t.columns && Distinct(t.columns) && idx == Find(t.columns, name)
    ensures Relocated(t, name, idx) == Ok(t)
  {
    DroppedOnce(t.columns, t.columns, name, idx);
    RelocatedMoves(t, name, idx);
    MoveInPlace(t.columns, idx);
    MoveInPlace(t.dtypes, idx);
    MoveInPlace(t.cols, idx);
  }

  /**
   * Lines 33-62 as written: only the first item of the dictionary is
   * read, and an empty dictionary gives `None`.
   */
  lemma FirstItemOnly(t: Frame, items: seq<(Py, Py)>, more: seq<(Py, Py)>)
    requires |items| > 0
    ensures MoveFirst(t, items + more) == MoveFirst(t, items[..1])
    ensures MoveFirst(t, []) == Ok(None)
  {
    assert (items + more)[0] == items[..1][0];
  }

  // ---------------------------------------------------------------
  // Every key moved, as the loop evidently intends
  // ---------------------------------------------------------------

  /**
   * Each key of the dictionary moved in turn, the checks made key by key,
   * and the frame returned after the last one.
   */
  function MoveAll(t: Frame, items: seq<(Py, Py)>): (r: Result<Frame>)
    requires Distinct(t.columns)
    ensures r.Ok? ==> Distinct(r.value.columns) && multiset(r.value.columns) == multiset(t.columns)
    ensures r.Ok? ==> r.value.height == t.height
    decreases |items|
  {
    if |items| == 0 then Ok(t)
    else
      var first := FirstKey(t, items);
      if first.Fail? then Fail(first.error)
      else
        var (name, idx) := first.value.value;
        var moved := Relocated(t, name, idx);
        if moved.Fail? then Fail(moved.error)
        else
          RelocatedPlaces(t, name, idx);
          MoveAll(moved.value, items[1..])
  }

  /** With every key moved, the last key of the dictionary ends at its index. */
  lemma {:induction false} MoveAllLast(t: Frame, items: seq<(Py, Py)>)
    requires Distinct(t.columns) && MoveAll(t, items).Ok? && |items| > 0
    ensures var (key, idx) := items[|items| - 1];
      key.PStr? && IsInt(idx) && 0 <= IntOf(idx) < |MoveAll(t, items).value.columns|
      && MoveAll(t, items).value.columns[IntOf(idx)] == key.s
    decreases |items|
  {
    var (name, idx) := FirstKey(t, items).value.value;
    RelocatedPlaces(t, name, idx);
    var u := Relocated(t, name, idx).value;
    if |items| > 1 {
      MoveAllLast(u, items[1..]);
      assert items[1..][|items[1..]| - 1] == items[|items| - 1];
    }
  }

  /** A string key naming a column, with an integer value, passes the checks. */
  lemma FirstKeyPasses(t: Frame, items: seq<(Py, Py)>, name: string, idx: int)
    requires |items| > 0 && items[0] == (PStr(name), PInt(idx)) && name in t.columns
    ensures FirstKey(t, items) == Ok(Some((name, idx)))
  {
  }

  /** One key moved, then the rest of them. */
  lemma MoveAllStep(t: Frame, items: seq<(Py, Py)>, name: string, idx: int)
    requires Distinct(t.columns) && |items| > 0 && FirstKey(t, items) == Ok(Some((name, idx)))
    requires InRange(t, name, idx)
    ensures Distinct(Relocated(t, name, idx).value.columns)
    ensures MoveAll(t, items) == MoveAll(Relocated(t, name, idx).value, items[1..])
  {
    RelocatedPlaces(t, name, idx);
  }

  /** The first key `a` of `[a, b, c]` moved to 1. */
  lemma FirstOfThree(t: Frame, a: string, b: string, c: string)
    requires t.columns == [a, b, c] && Distinct(t.columns)
    ensures InRange(t, a, 1) && Relocated(t, a, 1).value.columns == [b, a, c]
  {
    assert Find(t.columns, a) == 0;
    DroppedOnce(t.columns, t.columns, a, 0);
    RelocatedMoves(t, a, 1);
  }

  /** The last key `c` of `[b, a, c]` moved to 0. */
  lemma LastOfThree(u: Frame, a: string, b: string, c: string)
    requires u.columns == [b, a, c] && Distinct(u.columns)
    ensures InRange(u, c, 0) && Relocated(u, c, 0).value.columns == [c, b, a]
  {
    assert Find(u.columns, c) == 2;
    DroppedOnce(u.columns, u.columns, c, 2);
    RelocatedMoves(u, c, 0);
  }

  /**
   * The two differ as soon as the dictionary has two keys: for columns
   * `[a, b, c]` and `{a: 1, c: 0}` the function as written gives
   * `[b, a, c]`, while moving every key gives `[c, b, a]`.
   */
  lemma SecondKeyIgnored(t: Frame, a: string, b: string, c: string, items: seq<(Py, Py)>)
    requires t.columns == [a, b, c] && Distinct(t.columns)
    requires items == [(PStr(a), PInt(1)), (PStr(c), PInt(0))]
    ensures MoveFirst(t, items).Ok? && MoveFirst(t, items).value.Some?
    ensures MoveFirst(t, items).value.value.columns == [b, a, c]
    ensures MoveAll(t, items).Ok? && MoveAll(t, items).value.columns == [c, b, a]
  {
    FirstOfThree(t, a, b, c);
    FirstKeyPasses(t, items, a, 1);
    var u := Relocated(t, a, 1).value;
    assert MoveFirst(t, items) == Ok(Some(u));
    MoveAllStep(t, items, a, 1);
    LastOfThree(u, a, b, c);
    FirstKeyPasses(u, items[1..], c, 0);
    MoveAllStep(u, items[1..], c, 0);
    assert items[1..][1..] == [];
  }
}
