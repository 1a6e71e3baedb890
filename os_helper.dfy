/**
 * The skip decision of eanalytics_api_py/internal/os.py, which
 * `Conn.__is_skippable_request` in eanalytics_api_py/conn.py repeats
 * word for word: 1 means "the local file is reused".
 */
module OsHelper {
  import opened Wrappers
  import opened PyValue
  import JsonRequest

  function IsSkippableRequest(path: Py, overrideFile: Py, files: set<string>): (r: Result<int>)
    ensures r.Ok? <==> path.PStr?
    ensures r.Fail? ==> r.error.kind == TypeError
    ensures r.Ok? ==> r.value == 0 || r.value == 1
    ensures r.Ok? ==> (r.value == 1 <==> path.s in files && !Truthy(overrideFile))
  {
    if !path.PStr? then Raise(TypeError, "output_path2file should be a string type")
    else if path.s in files then
      if Truthy(overrideFile) then Ok(0) else Ok(1)
    else Ok(0)
  }

  /** For a boolean `override_file` it is the conn/ package's `_is_skippable` as 0/1. */
  lemma AgreesWithIsSkippable(path: Py, overrideFile: bool, files: set<string>)
    requires path.PStr?
    ensures JsonRequest.IsSkippable(path, PBool(overrideFile), files).Ok?
    ensures IsSkippableRequest(path, PBool(overrideFile), files)
         == Ok(if JsonRequest.IsSkippable(path, PBool(overrideFile), files).value then 1 else 0)
  {
  }

  /** Unlike `_is_skippable`, any value is accepted as `override_file`, by its truth value. */
  lemma OverrideIsNotTypeChecked(path: string, files: set<string>)
    requires path in files
    ensures IsSkippableRequest(PStr(path), PInt(1), files) == Ok(0)
    ensures IsSkippableRequest(PStr(path), PStr(""), files) == Ok(1)
    ensures JsonRequest.IsSkippable(PStr(path), PInt(1), files).Fail?
  {
  }
}
