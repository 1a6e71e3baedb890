/**
 * Loading datamining CSV files into one frame
 * (eanalytics_api_py/eaload/generic.py): the files are read and
 * concatenated, the dtypes of known columns are set, and the
 * view-channel columns are brought to one naming convention.
 * Reading a file and concatenating frames are pandas' work; both are
 * parameters here.
 */
module EaloadGeneric {
  import opened Wrappers
  import opened Text
  import opened PyValue
  import opened DataFrames

  // ---------------------------------------------------------------
  // Reading the files (lines 48-67)
  // ---------------------------------------------------------------

  /** Lines 48-52: a string names one file, a list several; anything else is refused. */
  function PathList(path2files: Py): (r: Result<seq<Py>>)
    ensures path2files.PStr? ==> r == Ok([path2files])
    ensures path2files.PList? ==> r == Ok(path2files.items)
    ensures r.Fail? <==> !path2files.PStr? && !path2files.PList?
    ensures r.Fail? ==> r.error.kind == TypeError
  {
    match path2files
    case PStr(_) => Ok([path2files])
    case PList(items) => Ok(items)
    case _ => Raise(TypeError, "path2files should be either a str or a list type")
  }

  /** Lines 54-65: every file read in order; the first failing read ends the loop. */
  function ReadAll(read: Py -> Result<Sheet>, paths: seq<Py>): Result<seq<Sheet>>
    decreases |paths|
  {
    if |paths| == 0 then Ok([])
    else
      var frame :- read(paths[0]);
      var frames :- ReadAll(read, paths[1..]);
      Ok([frame] + frames)
  }

  /**
   * The reads succeed exactly when every file reads, giving one frame per
   * file in order; otherwise the error is the one of the first file that
   * does not read.
   */
  lemma {:induction false} ReadAllFirstFailure(read: Py -> Result<Sheet>, paths: seq<Py>)
    ensures var r := ReadAll(read, paths);
      (r.Ok? <==> forall i | 0 <= i < |paths| :: read(paths[i]).Ok?)
      && (r.Ok? ==> |r.value| == |paths| && forall i | 0 <= i < |paths| :: read(paths[i]) == Ok(r.value[i]))
      && (r.Fail? ==> exists i | 0 <= i < |paths| ::
            read(paths[i]) == Fail(r.error) && forall k | 0 <= k < i :: read(paths[k]).Ok?)
    decreases |paths|
  {
    if |paths| > 0 {
      var tail := paths[1..];
      ReadAllFirstFailure(read, tail);
      assert forall i | 1 <= i < |paths| :: paths[i] == tail[i - 1];
      var r := ReadAll(read, paths);
      if read(paths[0]).Ok? && ReadAll(read, tail).Fail? {
        var i :| 0 <= i < |tail| && read(tail[i]) == Fail(ReadAll(read, tail).error)
                 && forall k | 0 <= k < i :: read(tail[k]).Ok?;
        assert read(paths[i + 1]) == Fail(r.error);
        assert forall k | 0 <= k < i + 1 :: read(paths[k]).Ok?;
      } else if read(paths[0]).Fail? {
        assert read(paths[0]) == Fail(r.error);
      }
    }
  }

  /** The frames read so far, in front of what the remaining reads give. */
  function Prepend(frames: seq<Sheet>, r: Result<seq<Sheet>>): Result<seq<Sheet>>
  {
    match r
    case Ok(more) => Ok(frames + more)
    case Fail(e) => Fail(e)
  }

  /** `for path2file in path2files: ... l_df.append(df)`. */
  method ReadFiles(read: Py -> Result<Sheet>, paths: seq<Py>) returns (r: Result<seq<Sheet>>)
    ensures r == ReadAll(read, paths)
  {
    var frames: seq<Sheet> := [];
    var i := 0;
    assert paths[0..] == paths;
    if ReadAll(read, paths).Ok? {
      assert [] + ReadAll(read, paths).value == ReadAll(read, paths).value;
    }
    while i < |paths|
      invariant 0 <= i <= |paths|
      invariant ReadAll(read, paths) == Prepend(frames, ReadAll(read, paths[i..]))
    {
      assert paths[i..][1..] == paths[i + 1..];
      var frame := read(paths[i]);
      if frame.Fail? {
        return Fail(frame.error);
      }
      var later := ReadAll(read, paths[i + 1..]);
      if later.Ok? {
        assert frames + ([frame.value] + later.value) == (frames + [frame.value]) + later.value;
      }
      frames := frames + [frame.value];
      i := i + 1;
    }
    assert paths[i..] == [] && frames + [] == frames;
    return Ok(frames);
  }

  // ---------------------------------------------------------------
  // Dtypes (lines 97-142)
  // ---------------------------------------------------------------

  const CategoryColumns: seq<string> := ["order_status", "channel_lvl_via", "channel_lvl_profile",
    "ordertype_key", "orderproduct_ref", "orderproduct_name", "productgroup_name"]

  const Int16Columns: seq<string> := ["a_channel_sz", "a_orderproduct_sz", "channel_lvl_position",
    "product_position", "orderproduct_quantity"]

  /**
   * The dtype a column ends with after the three passes: the last pass
   * makes every `channel_lvl_p*` column a category, whatever the
   * earlier passes did; the listed columns keep the dtype their pass
   * gave; any other column of object dtype becomes a category.
   */
  function FinalDtype(name: string, d: Dtype): Dtype
  {
    if StartsWith(name, "channel_lvl_p") then Category
    else if name in CategoryColumns then Category
    else if name in Int16Columns then Int16
    else if d == Object then Category
    else d
  }

  /** A frame after `__set_df_col_dtypes`. */
  function Typed(t: Frame): (r: Frame)
    ensures r.columns == t.columns && r.cols == t.cols && r.height == t.height
  {
    Table(t.columns,
          seq(|t.dtypes|, j requires 0 <= j < |t.dtypes| => FinalDtype(t.columns[j], t.dtypes[j])),
          t.cols, t.height)
  }

  /** `channel_lvl_position` is in the int16 list, yet ends as a category. */
  lemma ChannelLvlPositionIsCategory(d: Dtype)
    ensures "channel_lvl_position" in Int16Columns
    ensures FinalDtype("channel_lvl_position", d) == Category
  {
  }

  /** Setting the dtypes a second time changes nothing. */
  lemma TypedIdempotent(t: Frame)
    ensures Typed(Typed(t)) == Typed(t)
  {
    var once := Typed(t);
    forall j | 0 <= j < |once.dtypes|
      ensures FinalDtype(t.columns[j], once.dtypes[j]) == once.dtypes[j]
    {
    }
  }

  /** Lines 113-134: each listed label present in the frame is cast to `d`. */
  method CastListed(df: DataFrame, names: seq<string>, d: Dtype)
    requires df.Valid()
    modifies df
    ensures df.Valid() && df.columns == old(df.columns) && df.cols == old(df.cols) && df.height == old(df.height)
    ensures forall j | 0 <= j < |df.dtypes| ::
      df.dtypes[j] == if df.columns[j] in names then d else old(df.dtypes[j])
  {
    var k := 0;
    while k < |names|
      invariant 0 <= k <= |names|
      invariant df.Valid() && df.columns == old(df.columns) && df.cols == old(df.cols) && df.height == old(df.height)
      invariant forall j | 0 <= j < |df.dtypes| ::
        df.dtypes[j] == if df.columns[j] in names[..k] then d else old(df.dtypes[j])
    {
      assert names[..k + 1] == names[..k] + [names[k]];
      if names[k] in df.columns {
        df.Set(Cast(df.Value(), names[k], d));
      }
      k := k + 1;
    }
    assert names[..|names|] == names;
  }

  /** Lines 136-140: `channel_lvl_p*` columns and object columns become categories. */
  method CastRemaining(df: DataFrame)
    requires df.Valid() && Distinct(df.columns)
    modifies df
    ensures df.Valid() && df.columns == old(df.columns) && df.cols == old(df.cols) && df.height == old(df.height)
    ensures forall j | 0 <= j < |df.dtypes| ::
      df.dtypes[j] == if StartsWith(df.columns[j], "channel_lvl_p") || old(df.dtypes[j]) == Object then Category
                      else old(df.dtypes[j])
  {
    var j := 0;
    while j < |df.columns|
      invariant 0 <= j <= |df.columns|
      invariant df.Valid() && df.columns == old(df.columns) && df.cols == old(df.cols) && df.height == old(df.height)
      invariant forall i | 0 <= i < j ::
        df.dtypes[i] == if StartsWith(df.columns[i], "channel_lvl_p") || old(df.dtypes[i]) == Object then Category else old(df.dtypes[i])
      invariant forall i | j <= i < |df.dtypes| :: df.dtypes[i] == old(df.dtypes[i])
    {
      var name := df.columns[j];
      assert forall i | 0 <= i < |df.columns| && df.columns[i] == name :: i == j;
      if StartsWith(name, "channel_lvl_p") {
        df.Set(Cast(df.Value(), name, Category));
      } else if df.dtypes[j] == Object {
        df.Set(Cast(df.Value(), name, Category));
      }
      j := j + 1;
    }
  }

  /**
   * `__set_df_col_dtypes`, in place: the category list, then the int16
   * list, each cast only when the column is present, then a pass over
   * every column.
   */
  method SetColDtypes(df: DataFrame)
    requires df.Valid() && Distinct(df.columns)
    modifies df
    ensures df.Valid() && df.Value() == Typed(old(df.Value()))
  {
    CastListed(df, CategoryColumns, Category);
    CastListed(df, Int16Columns, Int16);
    CastRemaining(df);
    assert df.dtypes == Typed(old(df.Value())).dtypes;
  }

  // ---------------------------------------------------------------
  // View channels (lines 70-93)
  // ---------------------------------------------------------------

  /** `re.sub(r"^channel_lvl0_(.+)$", r"viewchannel_\g<1>", n)`. */
  function ViewName(n: string): string
  {
    if StartsWith(n, "channel_lvl0_") && OneLine(n[13..]) then "viewchannel_" + n[13..] else n
  }

  /** `re.sub(r"^(viewchannel)_lvl_(.+)$", r"\g<1>_\g<2>", n)`. */
  function ViewRenamed(n: string): string
  {
    if StartsWith(n, "viewchannel_lvl_") && OneLine(n[16..]) then "viewchannel_" + n[16..] else n
  }

  /** One turn of the copy loop: `df_concat[newcol_name] = df_concat[col_name]`. */
  function CopyStep(t: Frame, n: string): Frame
  {
    if StartsWith(n, "channel_lvl0_") && n in t.columns then Assigned(t, ViewName(n), Column(t, n), DtypeOf(t, n))
    else t
  }

  /** The copy loop over the labels the frame had when it started. */
  function ViewCopies(t: Frame, names: seq<string>): Frame
    decreases |names|
  {
    if |names| == 0 then t else ViewCopies(CopyStep(t, names[0]), names[1..])
  }

  /** One label of the loop: copy it, then go on with the labels after it. */
  lemma ViewCopiesAt(t: Frame, names: seq<string>, i: nat)
    requires i < |names|
    ensures ViewCopies(t, names[i..]) == ViewCopies(CopyStep(t, names[i]), names[i + 1..])
  {
    assert names[i..][1..] == names[i + 1..];
  }

  /** Two level-0 columns never copy into the same new label. */
  lemma ViewNameInjective(m: string, n: string)
    requires StartsWith(m, "channel_lvl0_") && StartsWith(n, "channel_lvl0_")
    requires ViewName(m) != m && ViewName(n) != n && ViewName(m) == ViewName(n)
    ensures m == n
  {
    assert m == "channel_lvl0_" + m[13..];
    assert n == "channel_lvl0_" + n[13..];
    assert m[13..] == ViewName(m)[12..];
  }

  /** The copies only add labels, after the existing ones, and never repeat one. */
  lemma {:induction false} ViewCopiesShape(t: Frame, names: seq<string>)
    requires Distinct(t.columns)
    ensures var r := ViewCopies(t, names);
      Distinct(r.columns) && |t.columns| <= |r.columns| && r.columns[..|t.columns|] == t.columns
      && r.height == t.height
    decreases |names|
  {
    if |names| > 0 {
      var n := names[0];
      var t1 := CopyStep(t, n);
      if StartsWith(n, "channel_lvl0_") && n in t.columns {
        AssignedColumn(t, ViewName(n), Column(t, n), DtypeOf(t, n), ViewName(n));
      }
      ViewCopiesShape(t1, names[1..]);
      var r := ViewCopies(t, names);
      assert r.columns[..|t.columns|] == r.columns[..|t1.columns|][..|t.columns|];
    }
  }

  /** A label no turn writes to, other than with its own values, keeps its column. */
  lemma {:induction false} ViewCopiesUntouched(t: Frame, names: seq<string>, c: string)
    requires Distinct(t.columns) && c in t.columns
    requires forall m | m in names && StartsWith(m, "channel_lvl0_") :: ViewName(m) == m || ViewName(m) != c
    ensures var r := ViewCopies(t, names);
      c in r.columns && Column(r, c) == Column(t, c) && DtypeOf(r, c) == DtypeOf(t, c)
    decreases |names|
  {
    if |names| > 0 {
      var n := names[0];
      var t1 := CopyStep(t, n);
      if StartsWith(n, "channel_lvl0_") && n in t.columns {
        if ViewName(n) == n {
          AssignedSame(t, n);
        } else {
          AssignedColumn(t, ViewName(n), Column(t, n), DtypeOf(t, n), c);
        }
        AssignedColumn(t, ViewName(n), Column(t, n), DtypeOf(t, n), ViewName(n));
      }
      ViewCopiesUntouched(t1, names[1..], c);
    }
  }

  /** Lines 71-79: no column outside the `viewchannel_` names changes. */
  lemma ViewCopiesKeep(t: Frame, names: seq<string>, c: string)
    requires Distinct(t.columns) && c in t.columns && !StartsWith(c, "viewchannel_")
    ensures var r := ViewCopies(t, names);
      c in r.columns && Column(r, c) == Column(t, c) && DtypeOf(r, c) == DtypeOf(t, c)
  {
    forall m | m in names && StartsWith(m, "channel_lvl0_")
      ensures ViewName(m) == m || ViewName(m) != c
    {
      if ViewName(m) != m {
        assert ViewName(m)[..12] == "viewchannel_";
      }
    }
    ViewCopiesUntouched(t, names, c);
  }

  lemma LevelZeroIsNotView(n: string)
    requires StartsWith(n, "channel_lvl0_")
    ensures !StartsWith(n, "viewchannel_")
  {
    assert n[0] == 'c';
  }

  /** One turn leaves every level-0 column as it was. */
  lemma CopyStepKeepsLevelZero(t: Frame, m: string, n: string)
    requires Distinct(t.columns) && n in t.columns && StartsWith(n, "channel_lvl0_")
    ensures var t1 := CopyStep(t, m);
      Distinct(t1.columns) && n in t1.columns && Column(t1, n) == Column(t, n) && DtypeOf(t1, n) == DtypeOf(t, n)
  {
    LevelZeroIsNotView(n);
    ViewCopiesKeep(t, [m], n);
    ViewCopiesShape(t, [m]);
    assert ViewCopies(t, [m]) == CopyStep(t, m) by {
      assert [m][1..] == [];
    }
  }

  /** Lines 72-79: every level-0 column gets a copy under its `viewchannel_` name. */
  lemma {:induction false} ViewCopiesCopy(t: Frame, names: seq<string>, n: string)
    requires Distinct(t.columns) && n in t.columns && n in names && StartsWith(n, "channel_lvl0_")
    ensures var r := ViewCopies(t, names);
      ViewName(n) in r.columns && Column(r, ViewName(n)) == Column(t, n) && DtypeOf(r, ViewName(n)) == DtypeOf(t, n)
    decreases |names|
  {
    var t1 := CopyStep(t, names[0]);
    var rest := names[1..];
    CopyStepKeepsLevelZero(t, names[0], n);
    if names[0] != n {
      assert n in rest;
      ViewCopiesCopy(t1, rest, n);
    } else if n in rest {
      ViewCopiesCopy(t1, rest, n);
    } else {
      var v := ViewName(n);
      AssignedColumn(t, v, Column(t, n), DtypeOf(t, n), v);
      if v == n {
        LevelZeroIsNotView(n);
        ViewCopiesKeep(t1, rest, n);
      } else {
        forall m | m in rest && StartsWith(m, "channel_lvl0_")
          ensures ViewName(m) == m || ViewName(m) != v
        {
          if ViewName(m) != m && ViewName(m) == v {
            ViewNameInjective(m, n);
          }
        }
        ViewCopiesUntouched(t1, rest, v);
      }
    }
  }

  /** `df_concat.rename(columns=d_col_rename_map)` with the map of lines 83-90. */
  function RenameMap(columns: seq<string>): map<string, string>
  {
    map c | c in columns :: ViewRenamed(c)
  }

  /** Lines 82-93: every label is renamed by the pattern; count and order are kept. */
  lemma ViewRenamedLabels(columns: seq<string>)
    ensures var r := RenameLabels(columns, RenameMap(columns));
      |r| == |columns| && forall i | 0 <= i < |r| :: r[i] == ViewRenamed(columns[i])
  {
  }

  /** `viewchannel_lvl_X` becomes `viewchannel_X`; any other label is left alone. */
  lemma ViewRenamedShape(x: string, n: string)
    requires x != [] && '\n' !in x
    ensures ViewRenamed("viewchannel_lvl_" + x) == "viewchannel_" + x
    ensures !StartsWith(n, "viewchannel_lvl_") ==> ViewRenamed(n) == n
  {
    var s := "viewchannel_lvl_" + x;
    assert s[16..] == x;
    assert LineEnd(x) == |x| && x[..|x|] == x;
  }

  /** `for col_name in df_concat: d_col_rename_map[col_name] = new_colname`. */
  method RenameMapOf(columns: seq<string>) returns (m: map<string, string>)
    ensures m == RenameMap(columns)
  {
    m := map[];
    var i := 0;
    while i < |columns|
      invariant 0 <= i <= |columns|
      invariant m == RenameMap(columns[..i])
    {
      assert columns[..i + 1] == columns[..i] + [columns[i]];
      m := m[columns[i] := ViewRenamed(columns[i])];
      i := i + 1;
    }
    assert columns[..|columns|] == columns;
  }

  /** The copy loop, in place, over the labels the frame had when it started. */
  method CopyViewChannels(df: DataFrame)
    requires df.Valid()
    modifies df
    ensures df.Valid() && df.Value() == ViewCopies(old(df.Value()), old(df.columns))
  {
    var names := df.columns;
    var i := 0;
    while i < |names|
      invariant 0 <= i <= |names|
      invariant df.Valid()
      invariant ViewCopies(df.Value(), names[i..]) == ViewCopies(old(df.Value()), names)
    {
      var t: Frame := df.Value();
      ViewCopiesAt(t, names, i);
      var n := names[i];
      if StartsWith(n, "channel_lvl0_") && n in t.columns {
        df.Set(Assigned(t, ViewName(n), Column(t, n), DtypeOf(t, n)));
      }
      i := i + 1;
    }
  }

  // ---------------------------------------------------------------
  // csv_files_2_df (lines 6-95)
  // ---------------------------------------------------------------

  /** The frame `csv_files_2_df` returns. */
  function Loaded(path2files: Py, read: Py -> Result<Sheet>, concat: seq<Sheet> -> Sheet): Result<Frame>
  {
    var paths :- PathList(path2files);
    var frames :- ReadAll(read, paths);
    if frames == [] then Raise(ValueError, "No objects to concatenate")
    else
      var t := Typed(concat(frames));
      if "viewchannel_lvl_p0" !in t.columns then Ok(ViewCopies(t, t.columns))
      else Ok(Relabeled(t, RenameLabels(t.columns, RenameMap(t.columns))))
  }

  /**
   * The loaded frame keeps the concatenated columns, in order, with
   * their values; without `viewchannel_lvl_p0` it only gains columns,
   * and with it it has exactly as many columns.
   */
  lemma LoadedColumns(path2files: Py, read: Py -> Result<Sheet>, concat: seq<Sheet> -> Sheet)
    requires Loaded(path2files, read, concat).Ok?
    ensures var frames := ReadAll(read, PathList(path2files).value).value;
      var t := concat(frames);
      var r := Loaded(path2files, read, concat).value;
      frames != [] && r.height == t.height
      && ("viewchannel_lvl_p0" !in t.columns ==> |t.columns| <= |r.columns| && r.columns[..|t.columns|] == t.columns && Distinct(r.columns))
      && ("viewchannel_lvl_p0" in t.columns ==> |r.columns| == |t.columns| && r.cols == t.cols)
  {
    var frames := ReadAll(read, PathList(path2files).value).value;
    var t := Typed(concat(frames));
    if "viewchannel_lvl_p0" !in t.columns {
      ViewCopiesShape(t, t.columns);
    }
  }

  /** `csv_files_2_df`. */
  method CsvFilesToDf(path2files: Py, read: Py -> Result<Sheet>, concat: seq<Sheet> -> Sheet)
    returns (r: Result<DataFrame>)
    ensures r.Fail? ==> Loaded(path2files, read, concat) == Fail(r.error)
    ensures r.Ok? ==> fresh(r.value) && r.value.Valid() && Loaded(path2files, read, concat) == Ok(r.value.Value())
  {
    var paths := PathList(path2files);
    if paths.Fail? {
      return Fail(paths.error);
    }
    var frames := ReadFiles(read, paths.value);
    if frames.Fail? {
      return Fail(frames.error);
    }
    if frames.value == [] {
      return Raise(ValueError, "No objects to concatenate");
    }
    var df := new DataFrame(concat(frames.value));
    SetColDtypes(df);
    if "viewchannel_lvl_p0" !in df.columns {
      CopyViewChannels(df);
    } else {
      var m := RenameMapOf(df.columns);
      df := new DataFrame(Relabeled(df.Value(), RenameLabels(df.columns, m)));
    }
    return Ok(df);
  }
}
