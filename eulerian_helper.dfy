/**
 * `has_api_error` of the first package generation (eulerian_analytics/helper.py).
 */
module EulerianHelper {
  import opened Wrappers
  import opened PyValue
  import JsonRequest

  /** 1 when "error" is present and truthy, else 0; "status" is never looked at. */
  function HasApiError(body: Py): (r: Result<int>)
    ensures r.Ok? <==> body.PDict?
    ensures r.Fail? ==> r.error.kind == AttributeError
    ensures r.Ok? ==> r.value == 0 || r.value == 1
    ensures r.Ok? ==> (r.value == 1 <==> "error" in body.entries && Truthy(body.entries["error"]))
  {
    if !body.PDict? then Raise(AttributeError, "object has no attribute 'keys'")
    else if "error" in body.entries && Truthy(body.entries["error"]) then Ok(1)
    else Ok(0)
  }

  /** Every error it reports, the newer predicate reports too. */
  lemma ReportedErrorsAreApiErrors(body: Py)
    requires HasApiError(body) == Ok(1)
    ensures JsonRequest.CheckApiError(body).Fail?
    ensures JsonRequest.CheckApiError(body).error.kind == SystemError
  {
  }

  /** A failed "status" alone is an error for the newer predicate only. */
  lemma FailedStatusIsMissed()
    ensures HasApiError(PDict(map["status" := PStr("FAILED")])) == Ok(0)
    ensures JsonRequest.CheckApiError(PDict(map["status" := PStr("FAILED")])).Fail?
  {
    var body := PDict(map["status" := PStr("FAILED")]);
    assert !JsonRequest.ErrorFlagged(body);
    assert JsonRequest.StatusFailed(body) by {
      assert body.entries["status"].s == "FAILED";
      assert Text.Lower("FAILED") == "failed";
    }
  }
}
