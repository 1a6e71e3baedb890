/**
 * The part of pandas the loaders rely on, reduced to what they observe:
 * a frame is a sequence of labelled, typed columns of equal height.
 * `DataFrame` is the mutable object the loaders change in place
 * (`df.columns = ...`, `df[name] = ...`, `drop(..., inplace=True)`,
 * `insert`); `Table` is its value. Cell values are never converted:
 * a cast changes the dtype only.
 */
module DataFrames {
  import opened PyValue

  /** The dtypes the loaders read or set. */
  datatype Dtype = Object | Int64 | Float64 | Bool | Int16 | Category

  datatype Table = Table(columns: seq<string>, dtypes: seq<Dtype>, cols: seq<seq<Py>>, height: nat)

  /** One label, one dtype and `height` values per column. */
  predicate WellFormed(t: Table)
  {
    |t.dtypes| == |t.columns| && |t.cols| == |t.columns|
    && forall j | 0 <= j < |t.cols| :: |t.cols[j]| == t.height
  }

  type Frame = t: Table | WellFormed(t) witness Table([], [], [], 0)

  predicate Distinct(xs: seq<string>)
  {
    forall i, j | 0 <= i < j < |xs| :: xs[i] != xs[j]
  }

  /**
   * A frame as `read_csv` and `concat` hand it back: `read_csv` renames
   * repeated header names apart and `concat` takes the union of labels,
   * so no label repeats.
   */
  type Sheet = t: Table | WellFormed(t) && Distinct(t.columns) witness Table([], [], [], 0)

  /** Position of the first column labelled `name`; `|columns|` when there is none. */
  function Find(columns: seq<string>, name: string): (j: nat)
    ensures j <= |columns|
    ensures j < |columns| <==> name in columns
    ensures j < |columns| ==> columns[j] == name
    ensures forall k | 0 <= k < j :: columns[k] != name
    decreases |columns|
  {
    if |columns| == 0 then 0
    else if columns[0] == name then 0
    else 1 + Find(columns[1..], name)
  }

  /** `df[name]`: the values of the column labelled `name`. */
  function Column(t: Frame, name: string): (v: seq<Py>)
    requires name in t.columns
    ensures |v| == t.height
  {
    t.cols[Find(t.columns, name)]
  }

  /** `df[name].dtype`. */
  function DtypeOf(t: Frame, name: string): Dtype
    requires name in t.columns
  {
    t.dtypes[Find(t.columns, name)]
  }

  // ---------------------------------------------------------------
  // Rows
  // ---------------------------------------------------------------

  function Count(keep: seq<bool>): nat
    decreases |keep|
  {
    if |keep| == 0 then 0 else (if keep[0] then 1 else 0) + Count(keep[1..])
  }

  /** The entries of `xs` whose mask entry is true, in order. */
  function Select<T>(xs: seq<T>, keep: seq<bool>): (r: seq<T>)
    requires |xs| == |keep|
    ensures |r| == Count(keep)
    decreases |xs|
  {
    if |xs| == 0 then [] else (if keep[0] then [xs[0]] else []) + Select(xs[1..], keep[1..])
  }

  /** `df[mask]`: every column keeps the rows the mask selects. */
  function Where(t: Frame, keep: seq<bool>): (r: Frame)
    requires |keep| == t.height
    ensures r.columns == t.columns && r.dtypes == t.dtypes && r.height == Count(keep)
    ensures forall j | 0 <= j < |r.cols| :: r.cols[j] == Select(t.cols[j], keep)
  {
    Table(t.columns, t.dtypes, seq(|t.cols|, j requires 0 <= j < |t.cols| => Select(t.cols[j], keep)), Count(keep))
  }

  /**
   * Selecting by a mask computed from the values themselves keeps
   * exactly the values that pass, in their order.
   */
  lemma {:induction false} SelectByValue(xs: seq<Py>, keep: seq<bool>, p: Py -> bool)
    requires |keep| == |xs|
    requires forall i | 0 <= i < |xs| :: keep[i] == p(xs[i])
    ensures forall v | v in Select(xs, keep) :: p(v)
    ensures forall v | v in xs && p(v) :: v in Select(xs, keep)
    decreases |xs|
  {
    if |xs| > 0 {
      SelectByValue(xs[1..], keep[1..], p);
      forall v | v in xs && p(v) ensures v in Select(xs, keep) {
        if v != xs[0] {
          assert v in xs[1..];
        }
      }
    }
  }

  // ---------------------------------------------------------------
  // Labels and columns
  // ---------------------------------------------------------------

  /** `df.columns = names`. */
  function Relabeled(t: Frame, names: seq<string>): (r: Frame)
    requires |names| == |t.columns|
  {
    Table(names, t.dtypes, t.cols, t.height)
  }

  /** `df[name] = values`: every column labelled `name` takes them; a new label is appended. */
  function Assigned(t: Frame, name: string, values: seq<Py>, d: Dtype): (r: Frame)
    requires |values| == t.height
    ensures name in t.columns ==> r.columns == t.columns
    ensures name !in t.columns ==> r.columns == t.columns + [name]
    ensures r.height == t.height
  {
    if name in t.columns then
      Table(t.columns,
            seq(|t.dtypes|, j requires 0 <= j < |t.dtypes| => if t.columns[j] == name then d else t.dtypes[j]),
            seq(|t.cols|, j requires 0 <= j < |t.cols| => if t.columns[j] == name then values else t.cols[j]),
            t.height)
    else
      Table(t.columns + [name], t.dtypes + [d], t.cols + [values], t.height)
  }

  /** After `df[name] = values`, that label reads the new values and every other label its old ones. */
  lemma AssignedColumn(t: Frame, name: string, values: seq<Py>, d: Dtype, c: string)
    requires |values| == t.height && Distinct(t.columns)
    requires c == name || c in t.columns
    ensures Distinct(Assigned(t, name, values, d).columns)
    ensures c in Assigned(t, name, values, d).columns
    ensures Column(Assigned(t, name, values, d), c) == if c == name then values else Column(t, c)
    ensures DtypeOf(Assigned(t, name, values, d), c) == if c == name then d else DtypeOf(t, c)
  {
    var r := Assigned(t, name, values, d);
    if name !in t.columns {
      if c != name {
        assert Find(r.columns, c) == Find(t.columns, c) by {
          assert r.columns[..|t.columns|] == t.columns;
          FindInPrefix(r.columns, |t.columns|, c);
        }
      } else {
        assert Find(r.columns, c) == |t.columns| by {
          assert forall k | 0 <= k < |t.columns| :: r.columns[k] != c;
        }
      }
    }
  }

  /** A label found in a prefix is found at the same place in the whole. */
  lemma FindInPrefix(xs: seq<string>, n: nat, c: string)
    requires n <= |xs| && c in xs[..n]
    ensures Find(xs, c) == Find(xs[..n], c)
  {
    var j := Find(xs[..n], c);
    assert xs[j] == c;
    forall k | 0 <= k < j
      ensures xs[k] != c
    {
      assert xs[k] == xs[..n][k];
    }
  }

  /** Writing a column's own values back under its own label changes nothing. */
  lemma AssignedSame(t: Frame, c: string)
    requires c in t.columns && Distinct(t.columns)
    ensures Assigned(t, c, Column(t, c), DtypeOf(t, c)) == t
  {
    var r := Assigned(t, c, Column(t, c), DtypeOf(t, c));
    var f := Find(t.columns, c);
    assert forall j | 0 <= j < |t.columns| && t.columns[j] == c :: j == f;
    assert r.dtypes == t.dtypes;
    assert r.cols == t.cols;
  }

  /** `df[name] = df[name].astype(d)`: the dtype of every column labelled `name`. */
  function Cast(t: Frame, name: string, d: Dtype): (r: Frame)
    ensures r.columns == t.columns && r.cols == t.cols && r.height == t.height
    ensures forall j | 0 <= j < |r.dtypes| :: r.dtypes[j] == if t.columns[j] == name then d else t.dtypes[j]
  {
    Table(t.columns,
          seq(|t.dtypes|, j requires 0 <= j < |t.dtypes| => if t.columns[j] == name then d else t.dtypes[j]),
          t.cols, t.height)
  }

  /** The entries of `xs` whose label is not `name`. */
  function Dropped<T>(xs: seq<T>, labels: seq<string>, name: string): (r: seq<T>)
    requires |xs| == |labels|
    ensures |r| == |labels| - Occurrences(labels, name)
    ensures forall x | x in r :: x in xs
    decreases |xs|
  {
    if |xs| == 0 then []
    else (if labels[0] == name then [] else [xs[0]]) + Dropped(xs[1..], labels[1..], name)
  }

  function Occurrences(labels: seq<string>, name: string): (n: nat)
    ensures n <= |labels|
    decreases |labels|
  {
    if |labels| == 0 then 0 else (if labels[0] == name then 1 else 0) + Occurrences(labels[1..], name)
  }

  /** Dropping a label leaves no column with it. */
  lemma {:induction false} DroppedLabels(labels: seq<string>, name: string)
    ensures name !in Dropped(labels, labels, name)
    decreases |labels|
  {
    if |labels| > 0 {
      DroppedLabels(labels[1..], name);
    }
  }

  /** `drop(labels=[name], axis=1)`: every column labelled `name` goes. */
  function Drop(t: Frame, name: string): (r: Frame)
    ensures name !in r.columns && r.height == t.height
  {
    DroppedLabels(t.columns, name);
    assert forall x | x in t.cols :: |x| == t.height;
    Table(Dropped(t.columns, t.columns, name), Dropped(t.dtypes, t.columns, name),
          Dropped(t.cols, t.columns, name), t.height)
  }

  /** `insert(loc, name, values)`: a new column at position `loc`. */
  function Insert(t: Frame, loc: nat, name: string, values: seq<Py>, d: Dtype): (r: Frame)
    requires loc <= |t.columns| && |values| == t.height
    ensures r.columns == t.columns[..loc] + [name] + t.columns[loc..]
    ensures r.height == t.height
  {
    Table(t.columns[..loc] + [name] + t.columns[loc..], t.dtypes[..loc] + [d] + t.dtypes[loc..],
          t.cols[..loc] + [values] + t.cols[loc..], t.height)
  }

  /** `df.rename(columns=m)`: every label the map knows is replaced. */
  function RenameLabels(columns: seq<string>, m: map<string, string>): (r: seq<string>)
    ensures |r| == |columns|
    ensures forall i | 0 <= i < |r| :: r[i] == if columns[i] in m then m[columns[i]] else columns[i]
  {
    seq(|columns|, i requires 0 <= i < |columns| => if columns[i] in m then m[columns[i]] else columns[i])
  }

  // ---------------------------------------------------------------
  // The mutable object
  // ---------------------------------------------------------------

  class DataFrame {
    var columns: seq<string>
    var dtypes: seq<Dtype>
    var cols: seq<seq<Py>>
    var height: nat

    function Value(): Table
      reads this
    {
      Table(columns, dtypes, cols, height)
    }

    predicate Valid()
      reads this
    {
      WellFormed(Value())
    }

    constructor (t: Frame)
      ensures Valid() && Value() == t
    {
      columns := t.columns;
      dtypes := t.dtypes;
      cols := t.cols;
      height := t.height;
    }

    /** `df.copy()`: a new object with the same contents. */
    method Copy() returns (d: DataFrame)
      requires Valid()
      ensures fresh(d) && d.Valid() && d.Value() == Value()
    {
      d := new DataFrame(Value());
    }

    /** Replace the whole contents, as the in-place operations of pandas do. */
    method Set(t: Frame)
      modifies this
      ensures Valid() && Value() == t
    {
      columns := t.columns;
      dtypes := t.dtypes;
      cols := t.cols;
      height := t.height;
    }
  }
}
