/**
 * Reshaping a datamining extract (eanalytics_api_py/eaload/datamining.py):
 * the repeated touchpoint and product columns are renamed so that
 * pandas' `wide_to_long` turns each of them into one row per touchpoint
 * or per product, and rows without a touchpoint or a product reference
 * are dropped. `wide_to_long(...).reset_index()` is pandas' own work and
 * is a parameter of the model.
 */
module EaloadDatamining {
  import opened Wrappers
  import opened Text
  import opened PyValue
  import opened DataFrames
  import EaloadGeneric

  /** What `source` holds: paths to load, or a frame the caller owns. */
  datatype Source = Paths(v: Py) | Given(df: DataFrame)

  /** `pd.wide_to_long(df, stubnames, i, j).reset_index()`. */
  type Reshape = (Frame, seq<string>, string, string) -> Result<Frame>

  /**
   * The frame the reshaping starts from: a path is a list of one path,
   * a list is loaded by `csv_files_2_df`, a frame is used as it is.
   */
  function Input(source: Source, read: Py -> Result<Sheet>, concat: seq<Sheet> -> Sheet): (r: Result<Frame>)
    requires source.Given? ==> source.df.Valid()
    reads if source.Given? then {source.df} else {}
    ensures source.Paths? && !source.v.PStr? && !source.v.PList? ==> r.Fail? && r.error.kind == ValueError
  {
    match source
    case Given(df) => Ok(df.Value())
    case Paths(v) =>
      if v.PStr? then EaloadGeneric.Loaded(PList([v]), read, concat)
      else if v.PList? then EaloadGeneric.Loaded(v, read, concat)
      else Raise(ValueError, "source should be a path2file or a pandas DataFrame")
  }

  /** A single path and the list holding only it load the same frame. */
  lemma PathIsListOfOne(s: string, read: Py -> Result<Sheet>, concat: seq<Sheet> -> Sheet)
    ensures Input(Paths(PStr(s)), read, concat) == Input(Paths(PList([PStr(s)])), read, concat)
  {
  }

  // ---------------------------------------------------------------
  // Stub names, collected once each in order of first appearance
  // ---------------------------------------------------------------

  /** `if x not in acc: acc.append(x)`. */
  function AddOne(acc: seq<string>, x: string): seq<string>
  {
    if x in acc then acc else acc + [x]
  }

  /** The stub list the loops build from the candidates `xs`. */
  function Firsts(xs: seq<string>): seq<string>
    decreases |xs|
  {
    if |xs| == 0 then [] else AddOne(Firsts(xs[..|xs| - 1]), xs[|xs| - 1])
  }

  /**
   * The stub list holds every candidate exactly once, and in the order
   * of the candidates' first appearance.
   */
  lemma {:induction false} FirstsAreTheEntries(xs: seq<string>)
    ensures Distinct(Firsts(xs))
    ensures forall x :: x in Firsts(xs) <==> x in xs
    ensures forall i, j | 0 <= i < j < |Firsts(xs)| :: Find(xs, Firsts(xs)[i]) < Find(xs, Firsts(xs)[j])
    decreases |xs|
  {
    if |xs| > 0 {
      var init := xs[..|xs| - 1];
      var x := xs[|xs| - 1];
      FirstsAreTheEntries(init);
      var f := Firsts(init);
      assert xs == init + [x];
      forall y | y in init
        ensures Find(xs, y) == Find(init, y)
      {
        FindInPrefix(xs, |xs| - 1, y);
      }
      if x !in f {
        assert x !in init;
        assert xs[Find(xs, x)] == x;
        assert Find(xs, x) == |init|;
        var r := f + [x];
        assert Firsts(xs) == r;
        forall i, j | 0 <= i < j < |r|
          ensures Find(xs, r[i]) < Find(xs, r[j])
        {
          assert r[i] == f[i] && f[i] in init;
          if j < |f| {
            assert r[j] == f[j] && f[j] in init;
          }
        }
      }
    }
  }

  // ---------------------------------------------------------------
  // Touchpoints (lines 71-108)
  // ---------------------------------------------------------------

  /**
   * `re.sub(r'^(channel)_lvl(\d+)_(.+)$', r"\g<1>_\g<3>_\g<2>", n)`:
   * the level number moves from after `channel_lvl` to the end.
   */
  function TouchpointName(n: string): string
  {
    if StartsWith(n, "channel_lvl") then
      var r := n[11..];
      var d := DigitRunEnd(r, 0);
      if 0 < d < |r| && r[d] == '_' && OneLine(r[d + 1..]) then
        var x := r[d + 1..];
        "channel_" + x[..LineEnd(x)] + "_" + r[..d] + x[LineEnd(x)..]
      else n
    else n
  }

  /** `re.sub(r'^(channel_.+_)(\d+)$', r"\g<1>", n)`: the name without its trailing number. */
  function StubOf(n: string): string
  {
    var e := LineEnd(n);
    var b := DigitRunStart(n, e);
    if StartsWith(n, "channel_") && '\n' !in n[..e] && 9 < b < e && n[b - 1] == '_' then n[..b] + n[e..]
    else n
  }

  /** Lines 101-102: `channel_..._` loses its final underscore. */
  function Stripped(n: string): string
  {
    if StartsWith(n, "channel_") && EndsWith(n, "_") then n[..|n| - 1] else n
  }

  /** A level column `channel_lvl<d>_<x>` is renamed `channel_<x>_<d>`. */
  lemma TouchpointNameMovesLevel(d: string, x: string)
    requires 0 < |d| && AllDigits(d) && 0 < |x| && '\n' !in x
    ensures TouchpointName("channel_lvl" + d + "_" + x) == "channel_" + x + "_" + d
  {
    var n := "channel_lvl" + d + "_" + x;
    var r := n[11..];
    assert r == d + "_" + x;
    assert r[|d|] == '_';
    assert DigitRunEnd(r, 0) == |d|;
    assert r[|d| + 1..] == x && r[..|d|] == d;
    assert LineEnd(x) == |x|;
    assert x[..|x|] == x && x[|x|..] == [];
  }

  /**
   * The stub of `channel_<x>_<d>` is `channel_<x>_`, which the reshaped
   * frame calls `channel_<x>`: the touchpoint column of level `d` ends
   * up as row `d` of column `channel_<x>`.
   */
  lemma TouchpointStub(d: string, x: string)
    requires 0 < |d| && AllDigits(d) && 0 < |x| && '\n' !in x
    ensures StubOf("channel_" + x + "_" + d) == "channel_" + x + "_"
    ensures Stripped("channel_" + x + "_") == "channel_" + x
  {
    var head := "channel_" + x + "_";
    var m := head + d;
    assert forall k | 0 <= k < |d| :: d[k] != '\n';
    assert '\n' !in head;
    assert m[..8] == "channel_" && m[|head| - 1] == '_' && m[|head|..] == d && m[..|head|] == head;
    StubOfNumbered(m, d);
    assert head[..8] == "channel_" && head[|head| - 1..] == "_";
  }

  /** A one-line `channel_..._<digits>` label loses its digits to `StubOf`. */
  lemma StubOfNumbered(m: string, d: string)
    requires 0 < |d| && AllDigits(d) && '\n' !in d && 9 < |m| - |d|
    requires m[..8] == "channel_" && '\n' !in m[..|m| - |d|]
    requires m[|m| - |d| - 1] == '_' && m[|m| - |d|..] == d
    ensures StubOf(m) == m[..|m| - |d|]
  {
    assert m == m[..|m| - |d|] + d;
    assert LineEnd(m) == |m|;
    TrailingDigits(m, d);
    assert m[..|m|] == m && m[|m|..] == [];
  }

  /** A string ending in `_` and then the digits `d` has `d` as its final digit run. */
  lemma TrailingDigits(m: string, d: string)
    requires |d| < |m| && m[|m| - |d| - 1] == '_' && AllDigits(d) && m[|m| - |d|..] == d
    ensures DigitRunStart(m, |m|) == |m| - |d|
  {
    assert !IsDigit(m[|m| - |d| - 1]);
    assert forall k | |m| - |d| <= k < |m| :: m[k] == d[k - (|m| - |d|)];
  }

  /** The renamed labels: `TouchpointName` of each label, in order. */
  function TouchpointColumns(labels: seq<string>): (r: seq<string>)
    ensures |r| == |labels|
    decreases |labels|
  {
    if |labels| == 0 then []
    else TouchpointColumns(labels[..|labels| - 1]) + [TouchpointName(labels[|labels| - 1])]
  }

  /** Each label is renamed on its own, in place. */
  lemma {:induction false} TouchpointColumnsAt(labels: seq<string>, k: nat)
    requires k < |labels|
    ensures TouchpointColumns(labels)[k] == TouchpointName(labels[k])
    decreases |labels|
  {
    if k < |labels| - 1 {
      TouchpointColumnsAt(labels[..|labels| - 1], k);
    }
  }

  /** The stub of each `channel_lvl` label, in label order, repeats kept. */
  function TouchpointCandidates(labels: seq<string>): seq<string>
    decreases |labels|
  {
    if |labels| == 0 then []
    else
      var c := labels[|labels| - 1];
      TouchpointCandidates(labels[..|labels| - 1])
      + (if StartsWith(c, "channel_lvl") then [StubOf(TouchpointName(c))] else [])
  }

  lemma FirstsSnoc(xs: seq<string>, x: string)
    ensures Firsts(xs + [x]) == AddOne(Firsts(xs), x)
  {
    assert (xs + [x])[..|xs|] == xs;
  }

  lemma CandidatesStep(labels: seq<string>, i: nat)
    requires i < |labels|
    ensures TouchpointColumns(labels[..i + 1]) == TouchpointColumns(labels[..i]) + [TouchpointName(labels[i])]
    ensures Firsts(TouchpointCandidates(labels[..i + 1]))
      == if StartsWith(labels[i], "channel_lvl") then AddOne(Firsts(TouchpointCandidates(labels[..i])), StubOf(TouchpointName(labels[i])))
         else Firsts(TouchpointCandidates(labels[..i]))
  {
    assert labels[..i + 1][..i] == labels[..i];
    var c := TouchpointCandidates(labels[..i]);
    if StartsWith(labels[i], "channel_lvl") {
      FirstsSnoc(c, StubOf(TouchpointName(labels[i])));
    } else {
      assert c + [] == c;
    }
  }

  /** Lines 75-87 for one label: its new name, and its stub when it is a level column. */
  method RenameLevel(n: string) returns (name: string, prefix: Option<string>)
    ensures name == TouchpointName(n)
    ensures prefix == if StartsWith(n, "channel_lvl") then Some(StubOf(TouchpointName(n))) else None
  {
    name, prefix := n, None;
    if StartsWith(n, "channel_lvl") {
      name := TouchpointName(n);
      prefix := Some(StubOf(name));
    }
  }

  /** Lines 71-88: the renamed labels and the stub names, in one pass. */
  method RenameTouchpoints(labels: seq<string>) returns (columns: seq<string>, stubnames: seq<string>)
    ensures columns == TouchpointColumns(labels)
    ensures stubnames == Firsts(TouchpointCandidates(labels))
  {
    columns, stubnames := [], [];
    for i := 0 to |labels|
      invariant columns == TouchpointColumns(labels[..i])
      invariant stubnames == Firsts(TouchpointCandidates(labels[..i]))
    {
      var name, prefix := RenameLevel(labels[i]);
      if prefix.Some? && prefix.value !in stubnames {
        stubnames := stubnames + [prefix.value];
      }
      columns := columns + [name];
      CandidatesStep(labels, i);
    }
    assert labels[..|labels|] == labels;
  }

  /** The labels after reshaping, each `Stripped`. */
  function StrippedColumns(labels: seq<string>): (r: seq<string>)
    ensures |r| == |labels| && forall i | 0 <= i < |labels| :: r[i] == Stripped(labels[i])
  {
    seq(|labels|, i requires 0 <= i < |labels| => Stripped(labels[i]))
  }

  /** Lines 99-103. */
  method StripLabels(labels: seq<string>) returns (columns: seq<string>)
    ensures columns == StrippedColumns(labels)
  {
    columns := [];
    for i := 0 to |labels|
      invariant |columns| == i && forall k | 0 <= k < i :: columns[k] == Stripped(labels[k])
    {
      var name := labels[i];
      if StartsWith(name, "channel_") && EndsWith(name, "_") {
        name := name[..|name| - 1];
      }
      columns := columns + [name];
    }
  }

  // ---------------------------------------------------------------
  // Rows without a value
  // ---------------------------------------------------------------

  /** Membership in `['-', 0, None, '0', np.nan]`. */
  predicate IsBlank(v: Py)
  {
    v == PStr("-") || v == PStr("0") || v == PNone || v == PNaN || IsNumericZero(v)
  }

  /** `df[~df.<key>.isin(['-', 0, None, '0', np.nan])]`. */
  function DropBlank(t: Frame, key: string): (r: Result<Frame>)
    ensures key !in t.columns <==> r.Fail?
    ensures r.Fail? ==> r.error.kind == AttributeError
  {
    if key !in t.columns then Raise(AttributeError, "'DataFrame' object has no attribute '" + key + "'")
    else
      var v := Column(t, key);
      Ok(Where(t, seq(t.height, i requires 0 <= i < t.height => !IsBlank(v[i]))))
  }

  /**
   * The kept rows are exactly those whose `key` value is not blank:
   * the labels stay, no blank value is left, and every other value of
   * the column survives.
   */
  lemma DropBlankRows(t: Frame, key: string)
    requires key in t.columns
    ensures var r := DropBlank(t, key).value;
      r.columns == t.columns && r.dtypes == t.dtypes
      && (forall v | v in Column(r, key) :: !IsBlank(v))
      && (forall v | v in Column(t, key) && !IsBlank(v) :: v in Column(r, key))
  {
    var v := Column(t, key);
    var keep := seq(t.height, i requires 0 <= i < t.height => !IsBlank(v[i]));
    SelectByValue(v, keep, x => !IsBlank(x));
  }

  /** Lines 52-69 (and 162-179): the frame object to work on. */
  method Obtain(source: Source, read: Py -> Result<Sheet>, concat: seq<Sheet> -> Sheet) returns (r: Result<DataFrame>)
    requires source.Given? ==> source.df.Valid()
    ensures r.Fail? ==> Input(source, read, concat) == Fail(r.error)
    ensures r.Ok? ==> r.value.Valid() && Input(source, read, concat) == Ok(r.value.Value())
    ensures r.Ok? ==> if source.Given? then r.value == source.df else fresh(r.value)
  {
    if source.Given? {
      return Ok(source.df);
    }
    var v := source.v;
    if !v.PStr? && !v.PList? {
      return Raise(ValueError, "source should be a path2file or a pandas DataFrame");
    }
    r := EaloadGeneric.CsvFilesToDf(if v.PStr? then PList([v]) else v, read, concat);
  }

  /** Lines 71-108 once the frame is in hand. */
  function Touchpoints(t: Frame, reshape: Reshape): Result<Frame>
  {
    var long :- reshape(Relabeled(t, TouchpointColumns(t.columns)),
                        Firsts(TouchpointCandidates(t.columns)), "order_ref", "channel_position");
    DropBlank(Relabeled(long, StrippedColumns(long.columns)), "channel_p0")
  }

  /** Lines 71-108 on the frame object, which is relabeled in place. */
  method TouchpointsOf(df: DataFrame, reshape: Reshape) returns (r: Result<Frame>)
    requires df.Valid()
    modifies df
    ensures r == Touchpoints(old(df.Value()), reshape)
    ensures df.Valid() && df.Value() == Relabeled(old(df.Value()), TouchpointColumns(old(df.columns)))
  {
    var columns, stubnames := RenameTouchpoints(df.columns);
    df.Set(Relabeled(df.Value(), columns));
    var long := reshape(df.Value(), stubnames, "order_ref", "channel_position");
    if long.Fail? {
      return Fail(long.error);
    }
    var labels := StripLabels(long.value.columns);
    r := DropBlank(Relabeled(long.value, labels), "channel_p0");
  }

  /**
   * `deduplicate_touchpoints`. A frame the caller passes is relabeled
   * in place before it is reshaped (line 90).
   */
  method DeduplicateTouchpoints(source: Source, read: Py -> Result<Sheet>, concat: seq<Sheet> -> Sheet, reshape: Reshape)
    returns (r: Result<Frame>)
    requires source.Given? ==> source.df.Valid()
    modifies if source.Given? then {source.df} else {}
    ensures old(Input(source, read, concat)).Fail? ==> r == Fail(old(Input(source, read, concat)).error)
    ensures old(Input(source, read, concat)).Ok? ==> r == Touchpoints(old(Input(source, read, concat)).value, reshape)
    ensures source.Given? ==> (source.df.Valid()
      && source.df.Value() == Relabeled(old(source.df.Value()), TouchpointColumns(old(source.df.columns))))
  {
    var input := Obtain(source, read, concat);
    if input.Fail? {
      return Fail(input.error);
    }
    r := TouchpointsOf(input.value, reshape);
  }

  // ---------------------------------------------------------------
  // Products (lines 181-223)
  // ---------------------------------------------------------------

  /** The label prefixes of the product columns (lines 184-192). */
  const ProductPrefixes: seq<string> := ["orderproduct_name", "orderproduct_quantity", "orderproduct_ref",
    "orderproduct_sellprice", "productgroup_margin", "productgroup_name", "productparam_"]

  /** Line 207. */
  const NoProductMessage: string := "No product column found starting by: " + Join(", ", ProductPrefixes)

  /** `"_".join(n.split("_")[:-1])`. */
  function StubPart(n: string): string
  {
    var parts := Split(n, '_');
    Join("_", parts[..|parts| - 1])
  }

  /** `n.split("_")[-1]`. */
  function IndexPart(n: string): string
  {
    var parts := Split(n, '_');
    parts[|parts| - 1]
  }

  /** Lines 196-203: a label goes through every prefix in turn and is renamed on each match. */
  function ProductPass(n: string, stubs: seq<string>, prefixes: seq<string>): (string, seq<string>)
    decreases |prefixes|
  {
    if |prefixes| == 0 then (n, stubs)
    else if StartsWith(n, prefixes[0]) then
      ProductPass(StubPart(n) + IndexPart(n), AddOne(stubs, StubPart(n)), prefixes[1..])
    else ProductPass(n, stubs, prefixes[1..])
  }

  predicate IsProductColumn(n: string)
  {
    exists p | p in ProductPrefixes :: StartsWith(n, p)
  }

  /** The label a product column ends up with: its last underscore removed. */
  function ProductName(n: string): string
  {
    if IsProductColumn(n) then StubPart(n) + IndexPart(n) else n
  }

  /** Position of the last `_` in `n`. */
  function LastUnderscore(n: string): (u: nat)
    requires '_' in n
    ensures u < |n| && n[u] == '_' && forall i | u < i < |n| :: n[i] != '_'
    decreases |n|
  {
    if n[|n| - 1] == '_' then |n| - 1
    else
      assert '_' in n[..|n| - 1] by {
        var k :| 0 <= k < |n| && n[k] == '_';
        assert n[..|n| - 1][k] == '_';
      }
      LastUnderscore(n[..|n| - 1])
  }

  /** The stub is the text before the last underscore, the index the text after it. */
  lemma StubAndIndex(n: string)
    requires '_' in n
    ensures StubPart(n) == n[..LastUnderscore(n)]
    ensures IndexPart(n) == n[LastUnderscore(n) + 1..]
  {
    var u := LastUnderscore(n);
    var p, q := n[..u], n[u + 1..];
    assert n == p + ['_'] + q;
    assert '_' !in q;
    SplitAtLast(p, q, '_');
    var parts := Split(n, '_');
    assert parts[..|parts| - 1] == Split(p, '_');
    JoinSplit(p, '_');
  }

  /** Every prefix has its only underscore at position 12. */
  lemma PrefixShape()
    ensures forall k | 0 <= k < |ProductPrefixes| :: 13 <= |ProductPrefixes[k]| && ProductPrefixes[k][12] == '_'
    ensures forall k, i | 0 <= k < |ProductPrefixes| && 0 <= i < |ProductPrefixes[k]| && i != 12 :: ProductPrefixes[k][i] != '_'
  {
  }

  /** Two different prefixes disagree at position 0, 7 or 13. */
  lemma PrefixesDiffer()
    ensures forall j, k | 0 <= j < k < |ProductPrefixes| ::
      ProductPrefixes[j][0] != ProductPrefixes[k][0] || ProductPrefixes[j][7] != ProductPrefixes[k][7]
      || (k < 6 && ProductPrefixes[j][13] != ProductPrefixes[k][13])
  {
  }

  /** No label starts with two different prefixes. */
  lemma AtMostOnePrefix(n: string, j: nat, k: nat)
    requires j < |ProductPrefixes| && k < |ProductPrefixes|
    requires StartsWith(n, ProductPrefixes[j]) && StartsWith(n, ProductPrefixes[k])
    ensures j == k
  {
    PrefixShape();
    PrefixesDiffer();
  }

  /** After the rename a label starts with no later prefix. */
  lemma NoLaterPrefix(n: string, k: nat)
    requires k < |ProductPrefixes| && StartsWith(n, ProductPrefixes[k])
    ensures forall j | k < j < |ProductPrefixes| :: !StartsWith(StubPart(n) + IndexPart(n), ProductPrefixes[j])
  {
    PrefixShape();
    var p := ProductPrefixes[k];
    assert n[12] == p[12];
    var u := LastUnderscore(n);
    StubAndIndex(n);
    var d := n[..u] + n[u + 1..];
    assert forall i | 13 <= i < |p| :: n[i] == p[i];
    assert u == 12 || |p| <= u;
    forall j | k < j < |ProductPrefixes|
      ensures !StartsWith(d, ProductPrefixes[j])
    {
      if StartsWith(d, ProductPrefixes[j]) && |p| <= u {
        assert d[..|p|] == n[..|p|];
        AtMostOnePrefix(d, j, k);
      }
    }
  }

  /** Passing a label through prefixes it does not start with changes nothing. */
  lemma {:induction false} PassMisses(n: string, stubs: seq<string>, prefixes: seq<string>)
    requires forall p | p in prefixes :: !StartsWith(n, p)
    ensures ProductPass(n, stubs, prefixes) == (n, stubs)
    decreases |prefixes|
  {
    if |prefixes| > 0 {
      PassMisses(n, stubs, prefixes[1..]);
    }
  }

  lemma {:induction false} PassSkips(n: string, stubs: seq<string>, prefixes: seq<string>, k: nat)
    requires k <= |prefixes| && forall j | 0 <= j < k :: !StartsWith(n, prefixes[j])
    ensures ProductPass(n, stubs, prefixes) == ProductPass(n, stubs, prefixes[k..])
    decreases k
  {
    if 0 < k {
      PassSkips(n, stubs, prefixes, k - 1);
      assert prefixes[k - 1..][1..] == prefixes[k..];
    }
  }

  /**
   * The pass over all prefixes renames a label at most once: a product
   * column loses its last underscore and contributes its stub, any
   * other label goes through untouched.
   */
  lemma ProductPassOnce(n: string, stubs: seq<string>)
    ensures ProductPass(n, stubs, ProductPrefixes)
      == (ProductName(n), if IsProductColumn(n) then AddOne(stubs, StubPart(n)) else stubs)
  {
    if IsProductColumn(n) {
      var k :| 0 <= k < |ProductPrefixes| && StartsWith(n, ProductPrefixes[k]);
      PassFrom(n, stubs, k);
    } else {
      PassMisses(n, stubs, ProductPrefixes);
    }
  }

  /** The pass over a label that starts with prefix `k`: renamed there, and only there. */
  lemma PassFrom(n: string, stubs: seq<string>, k: nat)
    requires k < |ProductPrefixes| && StartsWith(n, ProductPrefixes[k])
    ensures ProductPass(n, stubs, ProductPrefixes) == (StubPart(n) + IndexPart(n), AddOne(stubs, StubPart(n)))
  {
    forall j | 0 <= j < k
      ensures !StartsWith(n, ProductPrefixes[j])
    {
      if StartsWith(n, ProductPrefixes[j]) {
        AtMostOnePrefix(n, j, k);
      }
    }
    PassSkips(n, stubs, ProductPrefixes, k);
    PassAt(n, stubs, ProductPrefixes, k);
    LaterMisses(n, k);
    PassMisses(StubPart(n) + IndexPart(n), AddOne(stubs, StubPart(n)), ProductPrefixes[k + 1..]);
  }

  /** No prefix after the `k`-th starts the renamed label. */
  lemma LaterMisses(n: string, k: nat)
    requires k < |ProductPrefixes| && StartsWith(n, ProductPrefixes[k])
    ensures forall p | p in ProductPrefixes[k + 1..] :: !StartsWith(StubPart(n) + IndexPart(n), p)
  {
    NoLaterPrefix(n, k);
    var later := ProductPrefixes[k + 1..];
    forall p | p in later
      ensures !StartsWith(StubPart(n) + IndexPart(n), p)
    {
      var j :| 0 <= j < |later| && later[j] == p;
      assert p == ProductPrefixes[k + 1 + j];
    }
  }

  /**
   * A product label `<stub>_<index>` is renamed `<stub><index>` and
   * contributes `<stub>` to the stub names.
   */
  lemma ProductLabel(stub: string, idx: string)
    requires IsProductColumn(stub) && '_' !in idx
    ensures IsProductColumn(stub + "_" + idx)
    ensures StubPart(stub + "_" + idx) == stub && ProductName(stub + "_" + idx) == stub + idx
  {
    var n := stub + "_" + idx;
    var p :| p in ProductPrefixes && StartsWith(stub, p);
    assert n[..|p|] == stub[..|p|];
    assert StartsWith(n, p);
    assert n[|stub|] == '_';
    assert forall i | |stub| < i < |n| :: n[i] == idx[i - |stub| - 1];
    assert LastUnderscore(n) == |stub|;
    StubAndIndex(n);
    assert n[..|stub|] == stub && n[|stub| + 1..] == idx;
  }

  /** One step of the pass, at prefix `k`. */
  lemma PassAt(n: string, stubs: seq<string>, prefixes: seq<string>, k: nat)
    requires k < |prefixes|
    ensures ProductPass(n, stubs, prefixes[k..])
      == if StartsWith(n, prefixes[k]) then ProductPass(StubPart(n) + IndexPart(n), AddOne(stubs, StubPart(n)), prefixes[k + 1..])
         else ProductPass(n, stubs, prefixes[k + 1..])
  {
    assert prefixes[k..][1..] == prefixes[k + 1..];
  }

  /** Lines 196-203 for one label. */
  method RenameProduct(n: string, stubs: seq<string>) returns (name: string, stubnames: seq<string>)
    ensures (name, stubnames) == ProductPass(n, stubs, ProductPrefixes)
  {
    name, stubnames := n, stubs;
    for k := 0 to |ProductPrefixes|
      invariant ProductPass(name, stubnames, ProductPrefixes[k..]) == ProductPass(n, stubs, ProductPrefixes)
    {
      PassAt(name, stubnames, ProductPrefixes, k);
      if StartsWith(name, ProductPrefixes[k]) {
        var parts := Split(name, '_');
        var stubname := Join("_", parts[..|parts| - 1]);
        var idx := parts[|parts| - 1];
        name := stubname + idx;
        if stubname !in stubnames {
          stubnames := stubnames + [stubname];
        }
      }
    }
  }

  /** The renamed labels of lines 195-204. */
  function ProductColumns(labels: seq<string>): (r: seq<string>)
    ensures |r| == |labels|
    decreases |labels|
  {
    if |labels| == 0 then []
    else ProductColumns(labels[..|labels| - 1]) + [ProductName(labels[|labels| - 1])]
  }

  /** Each label is renamed on its own, in place. */
  lemma {:induction false} ProductColumnsAt(labels: seq<string>, k: nat)
    requires k < |labels|
    ensures ProductColumns(labels)[k] == ProductName(labels[k])
    decreases |labels|
  {
    if k < |labels| - 1 {
      ProductColumnsAt(labels[..|labels| - 1], k);
    }
  }

  /** The stub of each product column, in label order, repeats kept. */
  function ProductCandidates(labels: seq<string>): seq<string>
    decreases |labels|
  {
    if |labels| == 0 then []
    else
      var c := labels[|labels| - 1];
      ProductCandidates(labels[..|labels| - 1]) + (if IsProductColumn(c) then [StubPart(c)] else [])
  }

  /** The candidates are the stubs of the product columns. */
  lemma {:induction false} ProductCandidatesMembers(labels: seq<string>)
    ensures forall x :: x in ProductCandidates(labels) <==> exists c | c in labels :: IsProductColumn(c) && x == StubPart(c)
    decreases |labels|
  {
    if |labels| > 0 {
      var init := labels[..|labels| - 1];
      ProductCandidatesMembers(init);
      assert labels == init + [labels[|labels| - 1]];
    }
  }

  lemma ProductStep(labels: seq<string>, i: nat)
    requires i < |labels|
    ensures ProductColumns(labels[..i + 1]) == ProductColumns(labels[..i]) + [ProductName(labels[i])]
    ensures Firsts(ProductCandidates(labels[..i + 1]))
      == if IsProductColumn(labels[i]) then AddOne(Firsts(ProductCandidates(labels[..i])), StubPart(labels[i]))
         else Firsts(ProductCandidates(labels[..i]))
  {
    assert labels[..i + 1][..i] == labels[..i];
    var c := ProductCandidates(labels[..i]);
    if IsProductColumn(labels[i]) {
      FirstsSnoc(c, StubPart(labels[i]));
    } else {
      assert c + [] == c;
    }
  }

  /** Lines 195-204: the renamed labels and the stub names, in one pass. */
  method RenameProducts(labels: seq<string>) returns (columns: seq<string>, stubnames: seq<string>)
    ensures columns == ProductColumns(labels)
    ensures stubnames == Firsts(ProductCandidates(labels))
  {
    columns, stubnames := [], [];
    for i := 0 to |labels|
      invariant columns == ProductColumns(labels[..i])
      invariant stubnames == Firsts(ProductCandidates(labels[..i]))
    {
      var name, next := RenameProduct(labels[i], stubnames);
      ProductPassOnce(labels[i], stubnames);
      stubnames := next;
      columns := columns + [name];
      ProductStep(labels, i);
    }
    assert labels[..|labels|] == labels;
  }

  /** Lines 211-213: the first stub name that is also a label. */
  function FirstClash(stubs: seq<string>, columns: seq<string>): (r: Option<string>)
    ensures r.None? <==> forall s | s in stubs :: s !in columns
    ensures r.Some? ==> (r.value in stubs && r.value in columns
      && forall k | 0 <= k < Find(stubs, r.value) :: stubs[k] !in columns)
    decreases |stubs|
  {
    if |stubs| == 0 then None
    else if stubs[0] in columns then Some(stubs[0])
    else
      var r := FirstClash(stubs[1..], columns);
      assert r.Some? ==> Find(stubs, r.value) == 1 + Find(stubs[1..], r.value);
      r
  }

  /** Lines 211-213. */
  method CheckStubs(stubs: seq<string>, columns: seq<string>) returns (r: Option<string>)
    ensures r == FirstClash(stubs, columns)
  {
    for i := 0 to |stubs|
      invariant FirstClash(stubs[i..], columns) == FirstClash(stubs, columns)
    {
      if stubs[i] in columns {
        return Some(stubs[i]);
      }
      assert stubs[i..][1..] == stubs[i + 1..];
    }
    return None;
  }

  /** Lines 181-223 once the frame is in hand. */
  function Products(t: Frame, reshape: Reshape): Result<Frame>
  {
    var stubs := Firsts(ProductCandidates(t.columns));
    var columns := ProductColumns(t.columns);
    if stubs == [] then Raise(SystemError, NoProductMessage)
    else match FirstClash(stubs, columns)
      case Some(s) => Raise(ValueError, "stubname=" + s + " should not equal to a column name")
      case None =>
        var long :- reshape(Relabeled(t, columns), stubs, "order_ref", "product_position");
        DropBlank(long, "orderproduct_ref")
  }

  /** The `SystemError` is raised exactly when no label starts with a product prefix. */
  lemma NoProductColumns(t: Frame, reshape: Reshape)
    ensures Firsts(ProductCandidates(t.columns)) == [] <==> forall c | c in t.columns :: !IsProductColumn(c)
    ensures (forall c | c in t.columns :: !IsProductColumn(c)) ==> Products(t, reshape) == Raise(SystemError, NoProductMessage)
  {
    var cands := ProductCandidates(t.columns);
    ProductCandidatesMembers(t.columns);
    FirstsAreTheEntries(cands);
    if Firsts(cands) != [] {
      assert Firsts(cands)[0] in cands;
    }
    if exists c | c in t.columns :: IsProductColumn(c) {
      var c :| c in t.columns && IsProductColumn(c);
      assert StubPart(c) in cands;
      assert StubPart(c) in Firsts(cands);
    }
  }

  /**
   * A trailing underscore makes the stub equal to the renamed label:
   * a frame whose only product label is `<stub>_` raises the
   * `ValueError` of line 213.
   */
  lemma TrailingUnderscoreClashes(t: Frame, reshape: Reshape, stub: string)
    requires t.columns == [stub + "_"] && IsProductColumn(stub)
    ensures Products(t, reshape) == Raise(ValueError, "stubname=" + stub + " should not equal to a column name")
  {
    ProductLabel(stub, "");
    assert stub + "" == stub && stub + "_" + "" == stub + "_";
    assert t.columns[..0] == [];
    assert ProductColumns(t.columns) == [stub];
    assert ProductCandidates(t.columns) == [stub];
    assert Firsts([stub]) == [stub] by {
      assert [stub][..0] == [];
    }
  }

  /** Lines 209-223 on the frame object, which is relabeled in place once stubs were found. */
  method ProductsOf(df: DataFrame, reshape: Reshape) returns (r: Result<Frame>)
    requires df.Valid()
    modifies df
    ensures r == Products(old(df.Value()), reshape)
    ensures df.Valid()
    ensures df.Value() == if Firsts(ProductCandidates(old(df.columns))) == [] then old(df.Value())
      else Relabeled(old(df.Value()), ProductColumns(old(df.columns)))
  {
    var columns, stubnames := RenameProducts(df.columns);
    if |stubnames| == 0 {
      return Raise(SystemError, NoProductMessage);
    }
    var t: Frame := df.Value();
    df.Set(Relabeled(t, columns));
    var clash := CheckStubs(stubnames, columns);
    if clash.Some? {
      return Raise(ValueError, "stubname=" + clash.value + " should not equal to a column name");
    }
    var long := reshape(df.Value(), stubnames, "order_ref", "product_position");
    if long.Fail? {
      return Fail(long.error);
    }
    r := DropBlank(long.value, "orderproduct_ref");
  }

  /**
   * `deduplicate_products`. A frame the caller passes is relabeled in
   * place once a product column was found (line 209), even when a
   * clash is raised afterwards.
   */
  method DeduplicateProducts(source: Source, read: Py -> Result<Sheet>, concat: seq<Sheet> -> Sheet, reshape: Reshape)
    returns (r: Result<Frame>)
    requires source.Given? ==> source.df.Valid()
    modifies if source.Given? then {source.df} else {}
    ensures old(Input(source, read, concat)).Fail? ==> r == Fail(old(Input(source, read, concat)).error)
    ensures old(Input(source, read, concat)).Ok? ==> r == Products(old(Input(source, read, concat)).value, reshape)
    ensures source.Given? ==> (source.df.Valid()
      && source.df.Value() == if Firsts(ProductCandidates(old(source.df.columns))) == [] then old(source.df.Value())
         else Relabeled(old(source.df.Value()), ProductColumns(old(source.df.columns))))
  {
    var input := Obtain(source, read, concat);
    if input.Fail? {
      return Fail(input.error);
    }
    r := ProductsOf(input.value, reshape);
  }
}
