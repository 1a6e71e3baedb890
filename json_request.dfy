/**
 * The request helper of the conn/ package (eanalytics_api_py/internal/_request.py):
 * argument checks, the bearer-token log URL, the API-error predicate
 * shared by every caller, and the local-file skip decision.
 */
module JsonRequest {
  import opened Wrappers
  import opened Text
  import opened PyValue
  import opened Remote

  /** A request ready to be sent, with the URL written to the log. */
  datatype Prepared = Prepared(req: Request, logUrl: string)

  /** `headers` checked only when truthy (and likewise `params`, `json_data`). */
  predicate DictIfTruthy(v: Py)
  {
    !Truthy(v) || v.PDict?
  }

  /** `headers["Authorization"].split(" ")[1]`. */
  function BearerToken(headers: Py): (r: Result<string>)
    ensures r.Ok? <==>
      headers.PDict? && "Authorization" in headers.entries
      && headers.entries["Authorization"].PStr?
      && 2 <= |Split(headers.entries["Authorization"].s, ' ')|
    ensures r.Ok? ==> r.value == Split(headers.entries["Authorization"].s, ' ')[1]
  {
    var auth :- Get(headers, "Authorization");
    if !auth.PStr? then Raise(AttributeError, "object has no attribute 'split'")
    else
      var parts := Split(auth.s, ' ');
      if |parts| < 2 then Raise(IndexError, "list index out of range")
      else Ok(parts[1])
  }

  /** `url.replace("/ea/v2/", f"/ea/v2/{token}/")`. */
  function LogUrl(url: string, token: string): string
  {
    ReplaceAll(url, "/ea/v2/", "/ea/v2/" + token + "/")
  }

  /** A URL without "/ea/v2/" is logged as it is. */
  lemma LogUrlWithoutApiPath(url: string, token: string)
    requires forall i: nat | i < |url| :: !OccursAt(url, "/ea/v2/", i)
    ensures LogUrl(url, token) == url
  {
    ReplaceAllAbsent(url, "/ea/v2/", "/ea/v2/" + token + "/");
  }

  /** The token goes right after the first "/ea/v2/", and the rest is rewritten alike. */
  lemma LogUrlInsertsToken(host: string, path: string, token: string)
    requires forall i: nat | i < |host| :: !OccursAt(host + "/ea/v2/" + path, "/ea/v2/", i)
    ensures LogUrl(host + "/ea/v2/" + path, token)
         == host + "/ea/v2/" + token + "/" + LogUrl(path, token)
  {
    ReplaceAllFirst(host, "/ea/v2/", path, "/ea/v2/" + token + "/");
  }

  /** Everything `_to_json` does before the request goes out. */
  function Prepare(requestType: Py, url: Py, headers: Py, params: Py, jsonData: Py): (r: Result<Prepared>)
    ensures r.Ok? ==> requestType.PStr? && url.PStr?
    ensures r.Ok? ==> DictIfTruthy(headers) && DictIfTruthy(params) && DictIfTruthy(jsonData)
    ensures r.Ok? ==> BearerToken(headers).Ok?
    ensures r.Ok? ==> requestType.s == "get" || requestType.s == "post"
    ensures r.Ok? ==> r.value.req.verb == requestType.s && r.value.req.url == url.s
    ensures r.Ok? && requestType.s == "get" ==>
      r.value.req == Request("get", url.s, if Truthy(params) then params else PNone, PNone)
    ensures r.Ok? && requestType.s == "post" ==> r.value.req == Request("post", url.s, PNone, jsonData)
    ensures r.Ok? ==> r.value.logUrl == LogUrl(url.s, BearerToken(headers).value)
    ensures !requestType.PStr? || !url.PStr? ==> r.Fail? && r.error.kind == TypeError
    ensures requestType.PStr? && url.PStr? && !(DictIfTruthy(headers) && DictIfTruthy(params) && DictIfTruthy(jsonData))
            ==> r.Fail? && r.error.kind == TypeError
    ensures requestType.PStr? && url.PStr? && DictIfTruthy(headers) && DictIfTruthy(params)
            && DictIfTruthy(jsonData) && BearerToken(headers).Ok?
            && requestType.s != "get" && requestType.s != "post"
            ==> r.Fail? && r.error.kind == ValueError
  {
    if !requestType.PStr? then Raise(TypeError, "request_type should be a string dtype")
    else if !url.PStr? then Raise(TypeError, "url should be a string dtype")
    else if !DictIfTruthy(headers) then Raise(TypeError, "headers should be a dict dtype")
    else if !DictIfTruthy(params) then Raise(TypeError, "params should be a dict dtype")
    else if !DictIfTruthy(jsonData) then Raise(TypeError, "json_data should be a dict dtype")
    else
      var token :- BearerToken(headers);
      var logUrl := LogUrl(url.s, token);
      if requestType.s == "get" then
        Ok(Prepared(Request("get", url.s, if Truthy(params) then params else PNone, PNone), logUrl))
      else if requestType.s == "post" then
        Ok(Prepared(Request("post", url.s, PNone, jsonData), logUrl))
      else Raise(ValueError, "request_type is not in get, post")
  }

  /** A truthy "error" member. */
  predicate ErrorFlagged(body: Py)
    requires body.PDict?
  {
    "error" in body.entries && Truthy(body.entries["error"])
  }

  /** A "status" member that is a string lower-casing to "failed". */
  predicate StatusFailed(body: Py)
    requires body.PDict?
  {
    "status" in body.entries && body.entries["status"].PStr? && Lower(body.entries["status"].s) == "failed"
  }

  /** A "status" member present but not a string: `.lower()` does not exist. */
  predicate StatusUnreadable(body: Py)
    requires body.PDict?
  {
    "status" in body.entries && !body.entries["status"].PStr?
  }

  /**
   * The API-error predicate: a decoded reply is returned unchanged
   * unless it reports an error.
   */
  function CheckApiError(body: Py): (r: Result<Py>)
    ensures r.Ok? <==> body.PDict? && !ErrorFlagged(body) && !StatusFailed(body) && !StatusUnreadable(body)
    ensures r.Ok? ==> r.value == body
    ensures r.Fail? && r.error.kind == SystemError <==>
      body.PDict? && (ErrorFlagged(body) || StatusFailed(body))
    ensures r.Fail? ==> r.error.kind in {SystemError, AttributeError}
  {
    if !body.PDict? then Raise(AttributeError, "object has no attribute 'keys'")
    else if ErrorFlagged(body) then Raise(SystemError, "Error from Eulerian Technologies API")
    else if "status" in body.entries then
      var status := body.entries["status"];
      if !status.PStr? then Raise(AttributeError, "object has no attribute 'lower'")
      else if Lower(status.s) == "failed" then Raise(SystemError, "Error from Eulerian Technologies API")
      else Ok(body)
    else Ok(body)
  }

  /** `r.json()` followed by the API-error predicate. */
  function CheckReply(reply: Reply): (r: Result<Py>)
    ensures r.Ok? <==> reply.Json? && CheckApiError(reply.body).Ok?
    ensures r.Ok? ==> reply == Json(r.value)
    ensures reply.NotJson? ==> r.Fail? && r.error.kind == JsonDecodeError
  {
    match reply
    case NotJson(_) => Raise(JsonDecodeError, "Could not convert the reply as json")
    case Json(body) => CheckApiError(body)
  }

  /** `_to_json`, with `reply` the answer the server would give. */
  function ToJson(requestType: Py, url: Py, headers: Py, params: Py, jsonData: Py, reply: Reply): (r: Result<Py>)
    ensures Prepare(requestType, url, headers, params, jsonData).Fail? ==>
      r == Fail(Prepare(requestType, url, headers, params, jsonData).error)
    ensures Prepare(requestType, url, headers, params, jsonData).Ok? ==> r == CheckReply(reply)
    ensures r.Ok? ==> reply == Json(r.value)
  {
    var _ :- Prepare(requestType, url, headers, params, jsonData);
    CheckReply(reply)
  }

  /** An unsupported request type fails with ValueError whatever the server would answer. */
  lemma UnknownRequestTypeSendsNothing(requestType: string, url: string, headers: Py, params: Py,
                                       jsonData: Py, reply1: Reply, reply2: Reply)
    requires requestType != "get" && requestType != "post"
    ensures ToJson(PStr(requestType), PStr(url), headers, params, jsonData, reply1)
         == ToJson(PStr(requestType), PStr(url), headers, params, jsonData, reply2)
    ensures ToJson(PStr(requestType), PStr(url), headers, params, jsonData, reply1).Fail?
  {
  }

  /** Falsy `params` and `json_data` pass whatever their type. */
  lemma FalsyArgumentsAreNotTypeChecked(url: string, headers: Py, params: Py, jsonData: Py)
    requires headers.PDict? && BearerToken(headers).Ok?
    requires !Truthy(params) && !Truthy(jsonData)
    ensures Prepare(PStr("get"), PStr(url), headers, params, jsonData).Ok?
    ensures Prepare(PStr("get"), PStr(url), headers, params, jsonData).value.req.query == PNone
  {
  }

  /**
   * One exchange with the scripted server: the request is sent only
   * when `_to_json`'s checks pass, and then consumes one reply.
   */
  function Call(requestType: Py, url: Py, headers: Py, params: Py, jsonData: Py, replies: seq<Reply>): (o: Outcome<Py>)
    ensures Prepare(requestType, url, headers, params, jsonData).Fail? <==> o.trace == []
    ensures o.trace != [] ==> o.trace == [Send(Prepare(requestType, url, headers, params, jsonData).value.req)]
    ensures o.trace != [] && replies != [] ==>
      o.result == ToJson(requestType, url, headers, params, jsonData, replies[0]) && o.rest == replies[1..]
    ensures o.trace == [] ==> o.rest == replies
    ensures |o.rest| <= |replies|
    ensures o.result.Ok? ==> replies != [] && o.rest == replies[1..] && o.trace != []
  {
    match Prepare(requestType, url, headers, params, jsonData)
    case Fail(e) => Outcome(Fail(e), [], replies)
    case Ok(p) =>
      if |replies| == 0 then Outcome(Raise(NoReply, "no reply"), [Send(p.req)], [])
      else Outcome(CheckReply(replies[0]), [Send(p.req)], replies[1..])
  }

  /** `_is_skippable`: True exactly when the file exists and `override_file` is False. */
  function IsSkippable(path: Py, overrideFile: Py, files: set<string>): (r: Result<bool>)
    ensures !path.PStr? ==> r.Fail? && r.error.kind == TypeError
    ensures path.PStr? && !overrideFile.PBool? ==> r.Fail? && r.error.kind == TypeError
    ensures r.Ok? <==> path.PStr? && overrideFile.PBool?
    ensures r.Ok? ==> (r.value <==> path.s in files && !overrideFile.b)
  {
    if !path.PStr? then Raise(TypeError, "output_path2file should be a string type")
    else if !overrideFile.PBool? then Raise(TypeError, "override_file should be a string type")
    else Ok(path.s in files && !overrideFile.b)
  }
}
