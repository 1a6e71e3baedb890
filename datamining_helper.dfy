/**
 * `deduplicate_product_cols_file_2_df` (eanalytics_api_py/datamining_helper.py):
 * a datamining file whose product columns are numbered `<name> # <k>` is
 * read once per product number `k`, each time with the product columns
 * of that number renamed `<name>`, and the parts are stacked.
 *
 * The gzip file is given as its text lines (for the header) and as
 * `read`, which stands for `pd.read_csv(path2file, usecols=...)`;
 * `concat` stands for `pd.concat(...).reset_index().drop("index", 1)`.
 */
module DataminingHelper {
  import opened Wrappers
  import opened Text
  import opened PyValue
  import opened DataFrames
  import HeaderNames

  /** `prdref_colname_map` (lines 70-74). */
  function DefaultRef(language: string): Option<string>
  {
    if language == "fr" then Some("référence du produit")
    else if language == "en" then Some("product SKU")
    else if language == "es" then Some("referencia del producto")
    else None
  }

  /**
   * Lines 76-80: the label of the product reference column. The
   * language is checked even when a label is given.
   */
  function RefColumn(prdref: string, language: string): (r: Result<string>)
    ensures r.Fail? <==> language !in {"fr", "en", "es"}
    ensures r.Fail? ==> r.error.kind == KeyError
    ensures r.Ok? && prdref != "" ==> r.value == prdref
    ensures r.Ok? && prdref == "" ==> r.value in {"référence du produit", "product SKU", "referencia del producto"}
  {
    match DefaultRef(language)
    case None => Raise(KeyError, "accepted language=fr, en, es")
    case Some(d) => Ok(if prdref == "" then d else prdref)
  }

  /** Lines 106-111. */
  const NoProductsMessage: string := "No products found            \n Did you add the following parameters in the Conn.download_datamining payload ?            \n 'with-orderproduct' : 1,            \n 'with-productparam' : 1,            \n 'with-productgroup' : 1,         "

  // ---------------------------------------------------------------
  // The header (lines 83-103)
  // ---------------------------------------------------------------

  /** Line 88: the raw column names of the header line. */
  function HeaderParts(head: string): (r: seq<string>)
    ensures 1 <= |r|
  {
    Split(ReplaceAll(head, "\"", ""), ';')
  }

  /** `re.search(r"(\s#\s)(\d+)$", name)` finds a match. */
  predicate IsProduct(name: string)
  {
    HeaderNames.ProductTail(name).Some?
  }

  /** `int(group.group(2))`. */
  function ProductNumber(name: string): nat
    requires IsProduct(name)
  {
    var j := HeaderNames.ProductTail(name).value;
    DigitsValue(name[j + 3..LineEnd(name)])
  }

  /** `re.sub(r"(\s#\s)(\d+)$", r"\1{}", name)`, as the text around `{}`. */
  datatype Template = Template(before: string, after: string)

  function TemplateOf(name: string): Template
    requires IsProduct(name)
  {
    var j := HeaderNames.ProductTail(name).value;
    Template(name[..j + 3], name[LineEnd(name)..])
  }

  /** `template.format(i)`. */
  function Fill(t: Template, i: nat): string
  {
    t.before + NatToString(i) + t.after
  }

  /** `re.sub(r"(\s#\s)(\d+)$", "", name)` (line 126). */
  function Unsuffixed(name: string): string
  {
    match HeaderNames.ProductTail(name)
    case None => name
    case Some(j) => name[..j] + name[LineEnd(name)..]
  }

  /** The product numbers of the header names (`n_products`). */
  function Numbers(parts: seq<string>): set<nat>
    decreases |parts|
  {
    if |parts| == 0 then {}
    else
      var name := Strip(parts[|parts| - 1]);
      Numbers(parts[..|parts| - 1]) + if IsProduct(name) then {ProductNumber(name)} else {}
  }

  /** The other header names, in order (`non_product_cols`). */
  function Others(parts: seq<string>): seq<string>
    decreases |parts|
  {
    if |parts| == 0 then []
    else
      var name := Strip(parts[|parts| - 1]);
      Others(parts[..|parts| - 1]) + if IsProduct(name) then [] else [name]
  }

  /** The templates of the product names (`product_cols`). */
  function Templates(parts: seq<string>): set<Template>
    decreases |parts|
  {
    if |parts| == 0 then {}
    else
      var name := Strip(parts[|parts| - 1]);
      Templates(parts[..|parts| - 1]) + if IsProduct(name) then {TemplateOf(name)} else {}
  }

  /** The numbers are those of the product names. */
  lemma {:induction false} NumbersOf(parts: seq<string>)
    ensures forall n :: n in Numbers(parts) <==> exists p | p in parts :: IsProduct(Strip(p)) && ProductNumber(Strip(p)) == n
    ensures Numbers(parts) == {} <==> forall p | p in parts :: !IsProduct(Strip(p))
    decreases |parts|
  {
    if |parts| > 0 {
      var init := parts[..|parts| - 1];
      NumbersOf(init);
      assert parts == init + [parts[|parts| - 1]];
    }
  }

  /** The templates are those of the product names. */
  lemma {:induction false} TemplatesOf(parts: seq<string>)
    ensures forall t :: t in Templates(parts) <==> exists p | p in parts :: IsProduct(Strip(p)) && TemplateOf(Strip(p)) == t
    decreases |parts|
  {
    if |parts| > 0 {
      var init := parts[..|parts| - 1];
      TemplatesOf(init);
      assert parts == init + [parts[|parts| - 1]];
    }
  }

  /** The other names are the rest of the header, in header order. */
  lemma {:induction false} OthersOf(parts: seq<string>)
    ensures forall s :: s in Others(parts) <==> exists p | p in parts :: !IsProduct(Strip(p)) && Strip(p) == s
    ensures |Others(parts)| <= |parts|
    decreases |parts|
  {
    if |parts| > 0 {
      var init := parts[..|parts| - 1];
      OthersOf(init);
      assert parts == init + [parts[|parts| - 1]];
    }
  }

  lemma ClassifyStep(parts: seq<string>, i: nat)
    requires i < |parts|
    ensures var name := Strip(parts[i]);
      && Numbers(parts[..i + 1]) == Numbers(parts[..i]) + (if IsProduct(name) then {ProductNumber(name)} else {})
      && Others(parts[..i + 1]) == Others(parts[..i]) + (if IsProduct(name) then [] else [name])
      && Templates(parts[..i + 1]) == Templates(parts[..i]) + (if IsProduct(name) then {TemplateOf(name)} else {})
  {
    assert parts[..i + 1][..i] == parts[..i];
  }

  /** Lines 88-103: the header names sorted into numbers, other names and templates. */
  method ClassifyHeader(parts: seq<string>) returns (numbers: set<nat>, others: seq<string>, templates: set<Template>)
    ensures numbers == Numbers(parts) && others == Others(parts) && templates == Templates(parts)
  {
    numbers, others, templates := {}, [], {};
    for i := 0 to |parts|
      invariant numbers == Numbers(parts[..i]) && others == Others(parts[..i]) && templates == Templates(parts[..i])
    {
      var name := Strip(parts[i]);
      var group := HeaderNames.ProductTail(name);
      if group.Some? {
        numbers := numbers + {ProductNumber(name)};
        templates := templates + {TemplateOf(name)};
      } else {
        others := others + [name];
      }
      ClassifyStep(parts, i);
    }
    assert parts[..|parts|] == parts;
  }

  /** ` # ` and a numeral at the end of a name is where the pattern matches. */
  lemma NumberedTail(p: string, k: nat)
    ensures var name := p + " # " + NatToString(k);
      HeaderNames.ProductTail(name) == Some(|p|) && LineEnd(name) == |name|
      && name[..|p| + 3] == p + " # " && name[|p| + 3..|name|] == NatToString(k)
  {
    var pre := p + " # ";
    var name := pre + NatToString(k);
    forall j | |pre| <= j < |name|
      ensures IsDigit(name[j])
    {
      assert name[j] == NatToString(k)[j - |pre|];
    }
    HeaderNames.TailAt(name, |pre|);
  }

  /**
   * A product header `<p> # <k>` as the export writes it has number
   * `k` and template `<p> # {}`, and filling the template with `k`
   * gives the header back.
   */
  lemma ProductHeader(p: string, k: nat)
    ensures var name := p + " # " + NatToString(k);
      && IsProduct(name) && ProductNumber(name) == k
      && TemplateOf(name) == Template(p + " # ", "")
      && Fill(TemplateOf(name), k) == name
  {
    var name := p + " # " + NatToString(k);
    NumberedTail(p, k);
    DigitsValueOfNatToString(k);
    assert name[|name|..] == [];
  }

  /**
   * Whatever number fills it, the template of `<p> # <k>` names a column
   * that reads back as `<p>` (line 126): the parts of every number share
   * their labels.
   */
  lemma FilledReadsBack(p: string, k: nat, i: nat)
    ensures var name := p + " # " + NatToString(k);
      IsProduct(name) && Unsuffixed(Fill(TemplateOf(name), i)) == p
  {
    ProductHeader(p, k);
    var filled := p + " # " + NatToString(i);
    NumberedTail(p, i);
    assert Fill(TemplateOf(p + " # " + NatToString(k)), i) == filled;
    assert filled[..|p|] == p && filled[|filled|..] == [];
  }

  // ---------------------------------------------------------------
  // One read per product number (lines 113-135)
  // ---------------------------------------------------------------

  /** The largest product number (`max(n_products)`). */
  ghost function SetMax(s: set<nat>): (m: nat)
    requires s != {}
    ensures m in s && forall x | x in s :: x <= m
    decreases s
  {
    var x :| x in s;
    if s == {x} then x
    else
      assert exists y :: y in s && y != x;
      var m := SetMax(s - {x});
      assert forall y | y in s :: y == x || y in s - {x};
      if x < m then m else x
  }

  /** `max(n_products)`. */
  method MaxOf(numbers: set<nat>) returns (m: nat)
    requires numbers != {}
    ensures m == SetMax(numbers)
  {
    var rest := numbers;
    var x :| x in rest;
    m, rest := x, rest - {x};
    while rest != {}
      invariant rest <= numbers && m in numbers
      invariant forall y | y in numbers && y !in rest :: y <= m
      decreases rest
    {
      var y :| y in rest;
      if m < y {
        m := y;
      }
      rest := rest - {y};
    }
    assert forall y | y in numbers :: y <= m;
    assert SetMax(numbers) <= m && m <= SetMax(numbers);
  }

  /** Line 114: the columns read for product number `i` (order is irrelevant to `usecols`). */
  function Requested(others: seq<string>, templates: set<Template>, i: nat): set<string>
  {
    (set s | s in others) + (set t | t in templates :: Fill(t, i))
  }

  /** Line 126: every label loses its ` # <k>` suffix. */
  function UnsuffixedAll(labels: seq<string>): (r: seq<string>)
    ensures |r| == |labels|
  {
    seq(|labels|, i requires 0 <= i < |labels| => Unsuffixed(labels[i]))
  }

  /** A reference equal to `0` (or `0.0`, `False`) or to `"0"` marks a row without a product. */
  predicate NoProduct(v: Py)
  {
    IsNumericZero(v) || v == PStr("0")
  }

  /** Lines 132-133: the rows whose reference is neither `0` nor `"0"`. */
  function DropZeros(t: Frame, ref: string): (r: Frame)
    requires ref in t.columns
    ensures r.columns == t.columns
  {
    var v := Column(t, ref);
    Where(t, seq(t.height, i requires 0 <= i < t.height => !NoProduct(v[i])))
  }

  /** Lines 114-133 for product number `i`. */
  function ProductFrame(read: set<string> -> Result<Frame>, others: seq<string>, templates: set<Template>,
                        ref: string, i: nat): Result<Frame>
  {
    var df :- read(Requested(others, templates, i));
    var t := Relabeled(df, UnsuffixedAll(df.columns));
    if ref !in t.columns then Raise(KeyError, "product ref  column=" + ref + " not found")
    else Ok(DropZeros(t, ref))
  }

  /** The part read for product number `i` keeps exactly its rows with a product. */
  lemma ProductFrameRows(read: set<string> -> Result<Frame>, others: seq<string>, templates: set<Template>,
                         ref: string, i: nat)
    requires ProductFrame(read, others, templates, ref, i).Ok?
    ensures var df := read(Requested(others, templates, i)).value;
      var t := Relabeled(df, UnsuffixedAll(df.columns));
      var r := ProductFrame(read, others, templates, ref, i).value;
      && ref in t.columns && r.columns == t.columns
      && (forall v | v in Column(r, ref) :: !NoProduct(v))
      && (forall v | v in Column(t, ref) && !NoProduct(v) :: v in Column(r, ref))
  {
    var df := read(Requested(others, templates, i)).value;
    var t := Relabeled(df, UnsuffixedAll(df.columns));
    var v := Column(t, ref);
    SelectByValue(v, seq(t.height, k requires 0 <= k < t.height => !NoProduct(v[k])), x => !NoProduct(x));
  }

  /** The reader of one part per product number. */
  function PartReader(read: set<string> -> Result<Frame>, others: seq<string>, templates: set<Template>,
                      ref: string): nat -> Result<Frame>
  {
    i => ProductFrame(read, others, templates, ref, i)
  }

  /** Lines 113-135: the parts for product numbers 1 to `n`, or the first failure. */
  function Gather(part: nat -> Result<Frame>, n: nat): Result<seq<Frame>>
    decreases n
  {
    if n == 0 then Ok([])
    else
      var frames :- Gather(part, n - 1);
      var f :- part(n);
      Ok(frames + [f])
  }

  /** When the reads succeed there is one part per product number, in order. */
  lemma {:induction false} GatherParts(part: nat -> Result<Frame>, n: nat)
    requires Gather(part, n).Ok?
    ensures |Gather(part, n).value| == n
    ensures forall k | 0 <= k < n :: Ok(Gather(part, n).value[k]) == part(k + 1)
    decreases n
  {
    if n > 0 {
      GatherParts(part, n - 1);
    }
  }

  /** A failure at number `k` is the failure of every later count. */
  lemma {:induction false} GatherStops(part: nat -> Result<Frame>, k: nat, n: nat)
    requires k <= n && Gather(part, k).Fail?
    ensures Gather(part, n) == Gather(part, k)
    decreases n
  {
    if k < n {
      GatherStops(part, k, n - 1);
    }
  }

  /** Lines 114-135 for one product number. */
  method ReadProduct(read: set<string> -> Result<Frame>, others: seq<string>, templates: set<Template>,
                     ref: string, i: nat) returns (r: Result<Frame>)
    ensures r == ProductFrame(read, others, templates, ref, i)
  {
    var df := read(Requested(others, templates, i));
    if df.Fail? {
      return Fail(df.error);
    }
    var t := Relabeled(df.value, UnsuffixedAll(df.value.columns));
    if ref !in t.columns {
      return Raise(KeyError, "product ref  column=" + ref + " not found");
    }
    r := Ok(DropZeros(t, ref));
  }

  /** Lines 113-135: one part per product number from 1 to `top`. */
  method ReadParts(read: set<string> -> Result<Frame>, others: seq<string>, templates: set<Template>,
                   ref: string, top: nat) returns (r: Result<seq<Frame>>)
    ensures r == Gather(PartReader(read, others, templates, ref), top)
  {
    ghost var part := PartReader(read, others, templates, ref);
    var frames: seq<Frame> := [];
    for i := 1 to top + 1
      invariant Gather(part, i - 1) == Ok(frames)
    {
      var df := ReadProduct(read, others, templates, ref, i);
      if df.Fail? {
        GatherStops(part, i, top);
        return Fail(df.error);
      }
      frames := frames + [df.value];
    }
    return Ok(frames);
  }

  /** The whole of `deduplicate_product_cols_file_2_df`. */
  ghost function ProductColsFrame(prdref: string, language: string, lines: seq<string>,
                                  read: set<string> -> Result<Frame>, concat: seq<Frame> -> Frame): Result<Frame>
  {
    var ref :- RefColumn(prdref, language);
    if |lines| == 0 then Raise(NameError, "local variable 'head' referenced before assignment")
    else
      var parts := HeaderParts(lines[0]);
      if Numbers(parts) == {} then Raise(SystemError, NoProductsMessage)
      else
        var frames :- Gather(PartReader(read, Others(parts), Templates(parts), ref), SetMax(Numbers(parts)));
        if frames == [] then Raise(ValueError, "No objects to concatenate")
        else Ok(concat(frames))
  }

  /**
   * The result stacks one part per product number from 1 to the largest
   * one; a header whose only number is 0 leaves nothing to stack.
   */
  lemma ProductColsParts(prdref: string, language: string, lines: seq<string>,
                         read: set<string> -> Result<Frame>, concat: seq<Frame> -> Frame)
    requires ProductColsFrame(prdref, language, lines, read, concat).Ok?
    ensures var parts := HeaderParts(lines[0]);
      var frames := Gather(PartReader(read, Others(parts), Templates(parts), RefColumn(prdref, language).value), SetMax(Numbers(parts))).value;
      && 0 < SetMax(Numbers(parts)) && |frames| == SetMax(Numbers(parts))
      && ProductColsFrame(prdref, language, lines, read, concat) == Ok(concat(frames))
  {
    var parts := HeaderParts(lines[0]);
    GatherParts(PartReader(read, Others(parts), Templates(parts), RefColumn(prdref, language).value), SetMax(Numbers(parts)));
  }

  /** `deduplicate_product_cols_file_2_df`. */
  method DeduplicateProductColsFile(prdref: string, language: string, lines: seq<string>,
                                    read: set<string> -> Result<Frame>, concat: seq<Frame> -> Frame)
    returns (r: Result<Frame>)
    ensures r == ProductColsFrame(prdref, language, lines, read, concat)
  {
    var dflt := DefaultRef(language);
    if dflt.None? {
      return Raise(KeyError, "accepted language=fr, en, es");
    }
    var ref := prdref;
    if ref == "" {
      ref := dflt.value;
    }
    if |lines| == 0 {
      return Raise(NameError, "local variable 'head' referenced before assignment");
    }
    var numbers, others, templates := ClassifyHeader(HeaderParts(lines[0]));
    if |numbers| == 0 {
      return Raise(SystemError, NoProductsMessage);
    }
    var top := MaxOf(numbers);
    var frames :- ReadParts(read, others, templates, ref, top);
    if |frames| == 0 {
      return Raise(ValueError, "No objects to concatenate");
    }
    r := Ok(concat(frames));
  }
}
