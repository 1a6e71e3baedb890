/**
 * The older request helper (eanalytics_api_py/internal/request.py), also
 * inlined as `Conn.__request_to_json` in eanalytics_api_py/conn.py. It
 * checks the request type before anything is sent and never reads the
 * Authorization header.
 */
module LegacyJsonRequest {
  import opened Wrappers
  import opened PyValue
  import opened Remote
  import JsonRequest

  /** The argument checks of `_request_to_json`, and the request they allow. */
  function Prepare(requestType: Py, url: Py, headers: Py, params: Py, jsonData: Py): (r: Result<Request>)
    ensures r.Ok? <==>
      requestType.PStr? && url.PStr?
      && JsonRequest.DictIfTruthy(headers) && JsonRequest.DictIfTruthy(params) && JsonRequest.DictIfTruthy(jsonData)
      && (requestType.s == "get" || requestType.s == "post")
    ensures r.Ok? ==> r.value.verb == requestType.s && r.value.url == url.s
    ensures requestType.PStr? && url.PStr?
            && JsonRequest.DictIfTruthy(headers) && JsonRequest.DictIfTruthy(params) && JsonRequest.DictIfTruthy(jsonData)
            && requestType.s != "get" && requestType.s != "post"
            ==> r.Fail? && r.error.kind == ValueError
    ensures r.Fail? ==> r.error.kind in {TypeError, ValueError}
  {
    if !requestType.PStr? then Raise(TypeError, "request_type should be a string dtype")
    else if !url.PStr? then Raise(TypeError, "url should be a string dtype")
    else if !JsonRequest.DictIfTruthy(headers) then Raise(TypeError, "headers should be a dict dtype")
    else if !JsonRequest.DictIfTruthy(params) then Raise(TypeError, "params should be a dict dtype")
    else if !JsonRequest.DictIfTruthy(jsonData) then Raise(TypeError, "json_data should be a dict dtype")
    else if requestType.s != "get" && requestType.s != "post" then
      Raise(ValueError, "request_type is not in get, post")
    else if requestType.s == "get" then
      Ok(Request("get", url.s, if Truthy(params) then params else PNone, PNone))
    else
      Ok(Request("post", url.s, PNone, jsonData))
  }

  /** `_request_to_json`, with `reply` the answer the server would give. */
  function RequestToJson(requestType: Py, url: Py, headers: Py, params: Py, jsonData: Py, reply: Reply): (r: Result<Py>)
    ensures Prepare(requestType, url, headers, params, jsonData).Fail? ==>
      r == Fail(Prepare(requestType, url, headers, params, jsonData).error)
    ensures Prepare(requestType, url, headers, params, jsonData).Ok? ==> r == JsonRequest.CheckReply(reply)
    ensures r.Ok? ==> reply == Json(r.value)
  {
    var _ :- Prepare(requestType, url, headers, params, jsonData);
    JsonRequest.CheckReply(reply)
  }

  /**
   * With a well-formed Authorization header both helpers decide alike:
   * same checks, same API-error predicate, same request.
   */
  lemma AgreesWithToJson(requestType: Py, url: Py, headers: Py, params: Py, jsonData: Py, reply: Reply)
    requires JsonRequest.BearerToken(headers).Ok?
    ensures RequestToJson(requestType, url, headers, params, jsonData, reply)
         == JsonRequest.ToJson(requestType, url, headers, params, jsonData, reply)
    ensures Prepare(requestType, url, headers, params, jsonData).Ok? ==>
      Prepare(requestType, url, headers, params, jsonData).value
      == JsonRequest.Prepare(requestType, url, headers, params, jsonData).value.req
  {
  }

  /** Without headers the older helper still sends the request; the newer one fails first. */
  lemma NoHeadersDiffer(url: string, body: map<string, Py>)
    requires "error" !in body && "status" !in body
    ensures RequestToJson(PStr("get"), PStr(url), PNone, PNone, PNone, Json(PDict(body))) == Ok(PDict(body))
    ensures JsonRequest.ToJson(PStr("get"), PStr(url), PNone, PNone, PNone, Json(PDict(body))).Fail?
  {
  }

  /** One exchange with the scripted server through `_request_to_json`. */
  function Call(requestType: Py, url: Py, headers: Py, params: Py, jsonData: Py, replies: seq<Reply>): (o: Outcome<Py>)
    ensures Prepare(requestType, url, headers, params, jsonData).Fail? <==> o.trace == []
    ensures o.trace != [] ==> o.trace == [Send(Prepare(requestType, url, headers, params, jsonData).value)]
    ensures o.trace != [] && replies != [] ==>
      o.result == RequestToJson(requestType, url, headers, params, jsonData, replies[0]) && o.rest == replies[1..]
    ensures o.trace == [] ==> o.rest == replies
    ensures |o.rest| <= |replies|
    ensures o.result.Ok? ==> replies != [] && o.rest == replies[1..]
  {
    match Prepare(requestType, url, headers, params, jsonData)
    case Fail(e) => Outcome(Fail(e), [], replies)
    case Ok(req) =>
      if |replies| == 0 then Outcome(Raise(NoReply, "no reply"), [Send(req)], [])
      else Outcome(JsonRequest.CheckReply(replies[0]), [Send(req)], replies[1..])
  }
}
