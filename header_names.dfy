/**
 * Header-name resolution of the JSON to CSV transcoders
 * (eanalytics_api_py/conn/_download_datamining.py and its older copy in
 * eanalytics_api_py/conn.py): column ids of product, CGI, CRM and
 * audience parameters are rewritten from their human labels.
 *
 * The two regular expressions are hand-coded:
 *   productparam  `\s:\s([\w\W]+?)\s#\s(\d+)$`  (the older copy: `(\d)+$`)
 *   others        `^[\w\W]+?\s:\s(.*)$`
 * `$` matches at the end of the label or before a final newline.
 */
module HeaderNames {
  import opened Wrappers
  import opened Text
  import opened PyValue

  // ---------------------------------------------------------------
  // Positions in a label
  // ---------------------------------------------------------------

  /** `\s:\s` at position i. */
  predicate SepAt(s: string, i: nat)
  {
    i + 3 <= |s| && IsSpace(s[i]) && s[i + 1] == ':' && IsSpace(s[i + 2])
  }

  /** The smallest i in [lo, hi) where `\s:\s` starts, if any. */
  function FirstSep(s: string, lo: nat, hi: nat): (r: Option<nat>)
    ensures r.Some? ==> lo <= r.value < hi && SepAt(s, r.value)
    ensures r.Some? ==> forall k | lo <= k < r.value :: !SepAt(s, k)
    ensures r.None? ==> forall k | lo <= k < hi :: !SepAt(s, k)
    decreases hi - lo
  {
    if hi <= lo then None
    else if SepAt(s, lo) then Some(lo)
    else FirstSep(s, lo + 1, hi)
  }

  // ---------------------------------------------------------------
  // The productparam pattern
  // ---------------------------------------------------------------

  /**
   * Where `\s#\s(\d+)$` can start. The digit run must reach `$` and is
   * preceded by a space, so there is at most one such position.
   */
  function ProductTail(s: string): (r: Option<nat>)
    ensures r.Some? ==> r.value + 3 < LineEnd(s)
    ensures r.Some? ==> IsSpace(s[r.value]) && s[r.value + 1] == '#' && IsSpace(s[r.value + 2])
    ensures r.Some? ==> AllDigits(s[r.value + 3..LineEnd(s)])
  {
    var e := LineEnd(s);
    var b := DigitRunStart(s, e);
    if b < e && 3 <= b && IsSpace(s[b - 3]) && s[b - 2] == '#' && IsSpace(s[b - 1]) then
      assert forall k | 0 <= k < e - b :: s[b..e][k] == s[b + k];
      Some(b - 3)
    else None
  }

  /** The two groups of `re.search(r'\s:\s([\w\W]+?)\s#\s(\d+)$', s)`, or no match. */
  function ProductMatch(s: string): (r: Option<(string, string)>)
    ensures r.Some? ==> r.value.1 != [] && AllDigits(r.value.1) && r.value.0 != []
  {
    match ProductTail(s)
    case None => None
    case Some(j) =>
      if j < 4 then None
      else
        match FirstSep(s, 0, j - 3)
        case None => None
        case Some(i) => Some((s[i + 3..j], s[j + 3..LineEnd(s)]))
  }

  /**
   * The older pattern `(\d)+$` repeats a one-digit group, which keeps
   * only its last repetition: the last digit of the run.
   */
  function LegacyProductMatch(s: string): (r: Option<(string, string)>)
    ensures r.Some? ==> |r.value.1| == 1 && AllDigits(r.value.1)
  {
    match ProductMatch(s)
    case None => None
    case Some((name, digits)) => Some((name, [digits[|digits| - 1]]))
  }

  // ---------------------------------------------------------------
  // The cgiparam / iduserparam / cluster pattern
  // ---------------------------------------------------------------

  /** `(.*)$` can match from `from`: no newline before the `$` position. */
  predicate RestOnOneLine(s: string, from: nat)
  {
    forall k | from <= k < LineEnd(s) :: s[k] != '\n'
  }

  /** The smallest k >= lo whose `\s:\s` is followed by a one-line rest. */
  function FirstLabelSep(s: string, lo: nat): (r: Option<nat>)
    ensures r.Some? ==> lo <= r.value && SepAt(s, r.value) && RestOnOneLine(s, r.value + 3)
    ensures r.Some? ==> forall k | lo <= k < r.value :: !(SepAt(s, k) && RestOnOneLine(s, k + 3))
    ensures r.None? ==> forall k | lo <= k :: !(SepAt(s, k) && RestOnOneLine(s, k + 3))
    decreases |s| - lo
  {
    if |s| < lo + 3 then None
    else if SepAt(s, lo) && RestOnOneLine(s, lo + 3) then Some(lo)
    else FirstLabelSep(s, lo + 1)
  }

  /** Group 1 of `re.search(r'^[\w\W]+?\s:\s(.*)$', s)`, or no match. */
  function LabelMatch(s: string): (r: Option<string>)
    ensures r.Some? ==> '\n' !in r.value
  {
    match FirstLabelSep(s, 1)
    case None => None
    case Some(k) =>
      var g := if k + 3 <= LineEnd(s) then s[k + 3..LineEnd(s)] else "";
      assert forall t | 0 <= t < |g| :: g[t] == s[k + 3 + t];
      Some(g)
  }

  // ---------------------------------------------------------------
  // Renaming one header
  // ---------------------------------------------------------------

  /** Which productparam pattern a transcoder uses. */
  datatype Pattern = Current | Legacy

  /** `int(match.group(2)) - 1` for the digits group 2 captures. */
  function ProductIndex(p: Pattern, digits: string): int
    requires digits != [] && AllDigits(digits)
  {
    match p
    case Current => DigitsValue(digits) - 1
    case Legacy => DigitValue(digits[|digits| - 1]) - 1
  }

  /** `productparam_{name}_{int(index) - 1}`. */
  function ProductName(p: Pattern, text: string): (r: Result<string>)
    ensures r.Ok? <==> ProductMatch(text).Some?
    ensures r.Fail? ==> r.error.kind == AttributeError
  {
    match ProductMatch(text)
    case None => Raise(AttributeError, "'NoneType' object has no attribute 'group'")
    case Some((name, digits)) => Ok("productparam_" + name + "_" + IntToString(ProductIndex(p, digits)))
  }

  /** `{prefix}{group 1}` for the three label-named families. */
  function LabelName(prefix: string, text: string): (r: Result<string>)
    ensures r.Ok? <==> LabelMatch(text).Some?
    ensures r.Ok? ==> r.value == prefix + LabelMatch(text).value
    ensures r.Fail? ==> r.error.kind == AttributeError
  {
    match LabelMatch(text)
    case None => Raise(AttributeError, "'NoneType' object has no attribute 'group'")
    case Some(g) => Ok(prefix + g)
  }

  /** `header["header"]`, which `re.search` needs to be a string. */
  function LabelOf(header: Py): (r: Result<string>)
    ensures r.Ok? <==> Get(header, "header").Ok? && Get(header, "header").value.PStr?
  {
    var text :- Get(header, "header");
    if !text.PStr? then Raise(TypeError, "expected string or bytes-like object")
    else Ok(text.s)
  }

  /** One `if header["name"].startswith(prefix): ...` step of the label families. */
  function LabelStep(prefix: string, name: string, header: Py): (r: Result<string>)
    ensures !StartsWith(name, prefix) ==> r == Ok(name)
  {
    if !StartsWith(name, prefix) then Ok(name)
    else
      var text :- LabelOf(header);
      LabelName(prefix, text)
  }

  /** The new `header["name"]`, the four rewrites applied in source order. */
  function RenameHeader(p: Pattern, header: Py): (r: Result<string>)
  {
    var name :- Get(header, "name");
    if !name.PStr? then Raise(AttributeError, "object has no attribute 'startswith'")
    else
      var n1 :- if StartsWith(name.s, "productparam_") then
                  var text :- LabelOf(header); ProductName(p, text)
                else Ok(name.s);
      var n2 :- LabelStep("cgiparam_", n1, header);
      var n3 :- LabelStep("iduserparam_", n2, header);
      LabelStep("cluster_", n3, header)
  }

  /** A name outside the four families is kept, and its label is not even read. */
  lemma OtherNamesUnchanged(p: Pattern, name: string, header: map<string, Py>)
    requires "name" in header && header["name"] == PStr(name)
    requires !StartsWith(name, "productparam_") && !StartsWith(name, "cgiparam_")
    requires !StartsWith(name, "iduserparam_") && !StartsWith(name, "cluster_")
    ensures RenameHeader(p, PDict(header)) == Ok(name)
  {
  }

  /** A label without any `\s:\s` matches neither pattern. */
  lemma NoSeparatorNoMatch(text: string)
    requires forall k: nat :: !SepAt(text, k)
    ensures ProductMatch(text).None? && LabelMatch(text).None?
  {
    assert FirstLabelSep(text, 1).None?;
    match ProductTail(text)
    case None =>
    case Some(j) =>
      if 4 <= j {
        assert FirstSep(text, 0, j - 3).None?;
      }
  }

  /** ... so a header of any of the four families with such a label fails. */
  lemma UnmatchedLabelFails(p: Pattern, name: string, text: string)
    requires StartsWith(name, "productparam_") || StartsWith(name, "cgiparam_")
          || StartsWith(name, "iduserparam_") || StartsWith(name, "cluster_")
    requires forall k: nat :: !SepAt(text, k)
    ensures RenameHeader(p, Header(name, text)).Fail?
  {
    NoSeparatorNoMatch(text);
    if StartsWith(name, "productparam_") {
      ProductHeaderRenamed(p, name, text);
    } else if StartsWith(name, "cgiparam_") {
      LabelHeaderRenamed("cgiparam_", name, text, p);
    } else if StartsWith(name, "iduserparam_") {
      LabelHeaderRenamed("iduserparam_", name, text, p);
    } else {
      LabelHeaderRenamed("cluster_", name, text, p);
    }
  }

  // ---------------------------------------------------------------
  // Round trips: the labels the API writes give their names back
  // ---------------------------------------------------------------

  /** A digit run that starts right after a non-digit starts there. */
  lemma {:induction false} DigitRunFrom(s: string, m: nat, e: nat)
    requires 0 < m <= e <= |s| && !IsDigit(s[m - 1])
    requires forall i | m <= i < e :: IsDigit(s[i])
    ensures DigitRunStart(s, e) == m
    decreases e
  {
    if m < e {
      DigitRunFrom(s, m, e - 1);
    }
  }

  /** After a colon-free prefix of length m, the first `\s:\s` is a " : " at m. */
  lemma FirstSepAt(s: string, m: nat, hi: nat)
    requires m + 3 <= |s| && m < hi
    requires forall i | 0 <= i < m :: s[i] != ':'
    requires s[m] == ' ' && s[m + 1] == ':' && s[m + 2] == ' '
    ensures FirstSep(s, 0, hi) == Some(m)
  {
    assert SepAt(s, m);
    forall i | 0 <= i < m ensures !SepAt(s, i) {
      assert s[i + 1] != ':';
    }
  }

  /** " # " followed by digits up to the end is where `\s#\s(\d+)$` starts. */
  lemma TailAt(s: string, m: nat)
    requires 3 <= m < |s| && s[m - 3] == ' ' && s[m - 2] == '#' && s[m - 1] == ' '
    requires forall i | m <= i < |s| :: IsDigit(s[i])
    ensures LineEnd(s) == |s|
    ensures ProductTail(s) == Some(m - 3)
  {
    assert IsDigit(s[|s| - 1]);
    DigitRunFrom(s, m, |s|);
  }

  /** The groups of `"{p} : {name} # {digits}"`, with no ':' before the separator. */
  lemma ProductLabelMatch(p: string, name: string, digits: string)
    requires ':' !in p && name != []
    requires digits != [] && AllDigits(digits)
    ensures ProductMatch(p + " : " + name + " # " + digits) == Some((name, digits))
  {
    var a := p + " : ";
    var b := a + name;
    var pre := b + " # ";
    var text := pre + digits;
    var j := |b|;
    forall i | |pre| <= i < |text| ensures IsDigit(text[i]) {
      assert text[i] == digits[i - |pre|];
    }
    TailAt(text, |pre|);
    forall i | 0 <= i < |p| ensures text[i] != ':' {
      assert text[i] == p[i];
    }
    FirstSepAt(text, |p|, j - 3);
    assert text[..|b|] == b;
    assert text[|a|..j] == text[..|b|][|a|..] == name;
    assert text[j + 3..|text|] == digits;
  }

  /**
   * `"{p} : {name} # {k}"`, with no ':' before the separator, gives back
   * `productparam_{name}_{k - 1}`.
   */
  lemma ProductLabelRoundTrip(p: string, name: string, k: nat)
    requires ':' !in p && name != []
    ensures var text := p + " : " + name + " # " + NatToString(k);
      ProductMatch(text) == Some((name, NatToString(k)))
      && ProductName(Current, text) == Ok("productparam_" + name + "_" + IntToString(k - 1))
  {
    ProductLabelMatch(p, name, NatToString(k));
    DigitsValueOfNatToString(k);
  }

  /** The older pattern keeps the last digit only: "# 12" gives index 1, not 11. */
  lemma LegacyProductLabelIndex(p: string, name: string, k: nat)
    requires ':' !in p && name != []
    ensures var text := p + " : " + name + " # " + NatToString(k);
      ProductName(Legacy, text) == Ok("productparam_" + name + "_" + IntToString(k % 10 - 1))
  {
    ProductLabelRoundTrip(p, name, k);
    LastDigitOfNatToString(k);
    assert ProductIndex(Legacy, NatToString(k)) == k % 10 - 1;
  }

  /** `"{p} : {name}"`, with a non-empty colon-free p, gives back `{prefix}{name}`. */
  lemma LabelRoundTrip(prefix: string, p: string, name: string)
    requires ':' !in p && p != [] && '\n' !in name
    ensures LabelMatch(p + " : " + name) == Some(name)
    ensures LabelName(prefix, p + " : " + name) == Ok(prefix + name)
  {
    var a := p + " : ";
    var text := a + name;
    forall t | |a| <= t < |text| ensures text[t] != '\n' {
      assert text[t] == name[t - |a|];
    }
    assert LineEnd(text) == |text|;
    forall i | 1 <= i < |p| ensures !SepAt(text, i) {
      if i + 1 < |p| {
        assert text[i + 1] == p[i + 1] && p[i + 1] in p;
      } else {
        assert text[i + 1] == ' ';
      }
    }
    assert SepAt(text, |p|);
    assert RestOnOneLine(text, |p| + 3);
    assert FirstLabelSep(text, 1) == Some(|p|);
    assert text[|a|..|text|] == name;
  }

  /** A header as the API lists it: an id-like name and a human label. */
  function Header(name: string, text: string): Py
  {
    PDict(map["name" := PStr(name), "header" := PStr(text)])
  }

  /** The four family prefixes exclude one another. */
  lemma PrefixesExclude(x: string)
    ensures !StartsWith("productparam_" + x, "cgiparam_")
    ensures !StartsWith("productparam_" + x, "iduserparam_")
    ensures !StartsWith("productparam_" + x, "cluster_")
    ensures !StartsWith("cgiparam_" + x, "productparam_")
    ensures !StartsWith("cgiparam_" + x, "iduserparam_")
    ensures !StartsWith("cgiparam_" + x, "cluster_")
    ensures !StartsWith("iduserparam_" + x, "productparam_")
    ensures !StartsWith("iduserparam_" + x, "cgiparam_")
    ensures !StartsWith("iduserparam_" + x, "cluster_")
    ensures !StartsWith("cluster_" + x, "productparam_")
    ensures !StartsWith("cluster_" + x, "cgiparam_")
    ensures !StartsWith("cluster_" + x, "iduserparam_")
  {
    assert ("productparam_" + x)[0] == 'p';
    assert ("cgiparam_" + x)[0] == 'c' && ("cgiparam_" + x)[1] == 'g';
    assert ("iduserparam_" + x)[0] == 'i';
    assert ("cluster_" + x)[0] == 'c' && ("cluster_" + x)[1] == 'l';
  }

  /** A family prefix heads the text, which is the prefix and the rest. */
  lemma SplitPrefix(prefix: string, name: string)
    requires StartsWith(name, prefix)
    ensures name == prefix + name[|prefix|..]
  {
  }

  /** A productparam header takes the product name and no later rewrite applies. */
  lemma ProductHeaderRenamed(p: Pattern, name: string, text: string)
    requires StartsWith(name, "productparam_")
    ensures RenameHeader(p, Header(name, text)) == ProductName(p, text)
  {
    var h := Header(name, text);
    assert Get(h, "name") == Ok(PStr(name));
    assert LabelOf(h) == Ok(text);
    match ProductMatch(text)
    case None =>
    case Some((n, d)) =>
      var x := n + "_" + IntToString(ProductIndex(p, d));
      var v := "productparam_" + x;
      assert "productparam_" + n + "_" + IntToString(ProductIndex(p, d)) == v;
      assert ProductName(p, text) == Ok(v);
      PrefixesExclude(x);
      assert LabelStep("cgiparam_", v, h) == Ok(v);
      assert LabelStep("iduserparam_", v, h) == Ok(v);
      assert LabelStep("cluster_", v, h) == Ok(v);
  }

  /** A cgiparam, iduserparam or cluster header takes the text after its label's " : ". */
  lemma LabelHeaderRenamed(prefix: string, name: string, text: string, p: Pattern)
    requires prefix == "cgiparam_" || prefix == "iduserparam_" || prefix == "cluster_"
    requires StartsWith(name, prefix)
    ensures RenameHeader(p, Header(name, text)) == LabelName(prefix, text)
  {
    var h := Header(name, text);
    assert Get(h, "name") == Ok(PStr(name));
    assert LabelOf(h) == Ok(text);
    SplitPrefix(prefix, name);
    PrefixesExclude(name[|prefix|..]);
    match LabelMatch(text)
    case None =>
    case Some(g) =>
      PrefixesExclude(g);
  }

  /** With two or more digits the two patterns disagree: "# 12" gives 11 and 1. */
  lemma LegacyIndexDiffers(p: string, name: string)
    requires ':' !in p && name != []
    ensures var text := p + " : " + name + " # " + NatToString(12);
      ProductName(Current, text) == Ok("productparam_" + name + "_" + IntToString(11))
      && ProductName(Legacy, text) == Ok("productparam_" + name + "_" + IntToString(1))
      && ProductName(Current, text) != ProductName(Legacy, text)
  {
    ProductLabelRoundTrip(p, name, 12);
    LegacyProductLabelIndex(p, name, 12);
    assert |IntToString(11)| == 2;
    assert |IntToString(1)| == 1;
  }

  // ---------------------------------------------------------------
  // The header row
  // ---------------------------------------------------------------

  /** The renamed names of all headers, in order; the first failing header stops it. */
  function HeaderColumns(p: Pattern, fields: seq<Py>): (r: Result<seq<string>>)
    ensures r.Ok? ==> |r.value| == |fields|
    decreases |fields|
  {
    if |fields| == 0 then Ok([])
    else
      var cols :- HeaderColumns(p, fields[..|fields| - 1]);
      var n :- RenameHeader(p, fields[|fields| - 1]);
      Ok(cols + [n])
  }

  /**
   * The row holds each header's renamed name at its own position, it exists
   * when every header renames, and a failure is some header's failure.
   */
  lemma {:induction false} HeaderColumnsNames(p: Pattern, fields: seq<Py>)
    ensures HeaderColumns(p, fields).Ok? ==>
      forall k | 0 <= k < |fields| :: RenameHeader(p, fields[k]) == Ok(HeaderColumns(p, fields).value[k])
    ensures (forall k | 0 <= k < |fields| :: RenameHeader(p, fields[k]).Ok?) ==> HeaderColumns(p, fields).Ok?
    ensures HeaderColumns(p, fields).Fail? ==>
      exists k | 0 <= k < |fields| :: RenameHeader(p, fields[k]) == Fail(HeaderColumns(p, fields).error)
    decreases |fields|
  {
    if |fields| > 0 {
      var n := |fields| - 1;
      var init := fields[..n];
      HeaderColumnsNames(p, init);
      var prev := HeaderColumns(p, init);
      var last := RenameHeader(p, fields[n]);
      if prev.Fail? {
        assert HeaderColumns(p, fields) == prev;
        var k :| 0 <= k < n && RenameHeader(p, init[k]) == Fail(prev.error);
        assert init[k] == fields[k];
      } else if last.Fail? {
        assert HeaderColumns(p, fields) == Fail(last.error);
      } else {
        assert HeaderColumns(p, fields) == Ok(prev.value + [last.value]);
        assert fields == init + [fields[n]];
        AppendedNames(p, init, fields[n], prev.value, last.value);
      }
    }
  }

  lemma AppendedNames(p: Pattern, init: seq<Py>, x: Py, row: seq<string>, name: string)
    requires |row| == |init| && forall k | 0 <= k < |init| :: RenameHeader(p, init[k]) == Ok(row[k])
    requires RenameHeader(p, x) == Ok(name)
    ensures forall k | 0 <= k < |init| + 1 :: RenameHeader(p, (init + [x])[k]) == Ok((row + [name])[k])
  {
    forall k | 0 <= k < |init| + 1 ensures RenameHeader(p, (init + [x])[k]) == Ok((row + [name])[k]) {
      if k < |init| {
        assert (init + [x])[k] == init[k] && (row + [name])[k] == row[k];
      }
    }
  }

  /** Extending the headers by one renamed header extends the row by its name. */
  lemma HeaderColumnsStep(p: Pattern, fields: seq<Py>, i: nat)
    requires i < |fields|
    requires HeaderColumns(p, fields[..i]).Ok?
    ensures RenameHeader(p, fields[i]).Ok? ==>
      HeaderColumns(p, fields[..i + 1]) == Ok(HeaderColumns(p, fields[..i]).value + [RenameHeader(p, fields[i]).value])
    ensures RenameHeader(p, fields[i]).Fail? ==>
      HeaderColumns(p, fields[..i + 1]) == Fail(RenameHeader(p, fields[i]).error)
  {
    assert fields[..i + 1][..i] == fields[..i] && fields[..i + 1][i] == fields[i];
  }

  /** Once the first `m - 1` headers fail, the `m`-th header changes nothing. */
  lemma FailureStays(p: Pattern, fields: seq<Py>, m: nat)
    requires 0 < m <= |fields| && HeaderColumns(p, fields[..m - 1]).Fail?
    ensures HeaderColumns(p, fields[..m]) == HeaderColumns(p, fields[..m - 1])
  {
    assert fields[..m][..m - 1] == fields[..m - 1];
  }

  /** A failure of the first `n` headers is the failure of every longer prefix. */
  lemma {:induction false} FailureSpreads(p: Pattern, fields: seq<Py>, n: nat, m: nat, e: Error)
    requires n <= m <= |fields|
    requires HeaderColumns(p, fields[..n]) == Fail(e)
    ensures HeaderColumns(p, fields[..m]) == Fail(e)
    decreases m
  {
    if n < m {
      FailureSpreads(p, fields, n, m - 1, e);
      var before := HeaderColumns(p, fields[..m - 1]);
      assert before == Fail(e);
      FailureStays(p, fields, m);
    }
  }

  /** The first header whose rename fails decides the error, whatever follows it. */
  lemma FirstFailureDecides(p: Pattern, fields: seq<Py>, i: nat, m: nat)
    requires i < m <= |fields|
    requires HeaderColumns(p, fields[..i]).Ok?
    requires RenameHeader(p, fields[i]).Fail?
    ensures HeaderColumns(p, fields[..m]) == Fail(RenameHeader(p, fields[i]).error)
  {
    HeaderColumnsStep(p, fields, i);
    FailureSpreads(p, fields, i + 1, m, RenameHeader(p, fields[i]).error);
  }
}
