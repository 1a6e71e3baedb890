/**
 * The job life cycle shared by the downloads: once a job is submitted,
 * sleep, ask for its status, and repeat until the status says the job
 * is finished.
 *
 * Datamining jobs (eanalytics_api_py/conn/_download_datamining.py and
 * eanalytics_api_py/conn.py) are finished when "jobrun_status" is
 * "COMPLETED"; warehouse jobs (eanalytics_api_py/conn/_download_edw.py)
 * when "status" is "Done", and the status then carries the download URL
 * at data[1]. The source polls without any bound; here every status
 * request consumes one reply of the script, so an exhausted script ends
 * the poll with `NoReply`.
 */
module JobPoll {
  import opened Wrappers
  import opened PyValue
  import opened Remote
  import JsonRequest
  import LegacyJsonRequest

  /** The request helper a caller goes through: `_to_json` or the older `__request_to_json`. */
  datatype Helper = Package | Older

  /** When a status reply says the job is finished, and what it then yields. */
  datatype Rule =
    | CompletedRule   // status_json["jobrun_status"] == "COMPLETED", yields the status
    | DoneRule        // status_json["status"] == "Done", yields status_json["data"][1]
  {
    /** The member the test reads. */
    function Key(): string
    {
      if this == CompletedRule then "jobrun_status" else "status"
    }

    /** The value meaning "finished". */
    function Finished(): Py
    {
      if this == CompletedRule then PStr("COMPLETED") else PStr("Done")
    }
  }

  /** What one status reply tells the loop. */
  datatype PollStep = Waiting | Ready(v: Py) | Stop(e: Error)

  /** `if not isinstance(status_waiting_seconds, int) or status_waiting_seconds < 5: ... = 5`. */
  function WaitSeconds(v: Py): (w: int)
    ensures w >= 5
    ensures IsInt(v) && IntOf(v) >= 5 ==> w == IntOf(v)
    ensures !IsInt(v) || IntOf(v) < 5 ==> w == 5
  {
    if !IsInt(v) || IntOf(v) < 5 then 5 else IntOf(v)
  }

  /** The test on a decoded status reply; a missing key stops the loop with its error. */
  function Classify(rule: Rule, body: Py): (s: PollStep)
    ensures rule == CompletedRule ==>
      (s.Ready? <==> Get(body, "jobrun_status") == Ok(PStr("COMPLETED")))
    ensures rule == CompletedRule && s.Ready? ==> s.v == body
    ensures rule == DoneRule && s.Ready? ==>
      Get(body, "status") == Ok(PStr("Done")) && Get(body, "data").Ok? && At(Get(body, "data").value, 1) == Ok(s.v)
    ensures s.Waiting? <==> Get(body, rule.Key()).Ok? && Get(body, rule.Key()).value != rule.Finished()
  {
    match Get(body, rule.Key())
    case Fail(e) => Stop(e)
    case Ok(status) =>
      if status != rule.Finished() then Waiting
      else if rule == CompletedRule then Ready(body)
      else
        match Get(body, "data")
        case Fail(e) => Stop(e)
        case Ok(data) =>
          match At(data, 1)
          case Fail(e) => Stop(e)
          case Ok(url) => Ready(url)
  }

  /** One status request through the caller's helper. */
  function StatusCall(h: Helper, url: string, headers: Py, params: Py, replies: seq<Reply>): (o: Outcome<Py>)
    ensures |o.rest| <= |replies|
    ensures o.result.Ok? ==> replies != [] && o.rest == replies[1..]
  {
    match h
    case Package => JsonRequest.Call(PStr("get"), PStr(url), headers, params, PNone, replies)
    case Older => LegacyJsonRequest.Call(PStr("get"), PStr(url), headers, params, PNone, replies)
  }

  /** The request a status call sends, when the helper's checks let it through. */
  function StatusRequest(h: Helper, url: string, headers: Py, params: Py): Result<Request>
  {
    match h
    case Package =>
      var p :- JsonRequest.Prepare(PStr("get"), PStr(url), headers, params, PNone);
      Ok(p.req)
    case Older => LegacyJsonRequest.Prepare(PStr("get"), PStr(url), headers, params, PNone)
  }

  /** One exchange with the scripted server, for a request already checked (or refused). */
  function Exchange(req: Result<Request>, replies: seq<Reply>): (o: Outcome<Py>)
    ensures |o.rest| <= |replies|
    ensures o.result.Ok? ==> replies != [] && o.rest == replies[1..]
  {
    match req
    case Fail(e) => Outcome(Fail(e), [], replies)
    case Ok(r) =>
      if |replies| == 0 then Outcome(Raise(NoReply, "no reply"), [Send(r)], [])
      else Outcome(JsonRequest.CheckReply(replies[0]), [Send(r)], replies[1..])
  }

  /** Both helpers make the status call as one exchange of their checked request. */
  lemma StatusCallIsExchange(h: Helper, url: string, headers: Py, params: Py, replies: seq<Reply>)
    ensures StatusCall(h, url, headers, params, replies) == Exchange(StatusRequest(h, url, headers, params), replies)
  {
    if h == Package {
      PackageCallIsExchange(url, headers, params, replies);
    } else {
      OlderCallIsExchange(url, headers, params, replies);
    }
  }

  lemma PackageCallIsExchange(url: string, headers: Py, params: Py, replies: seq<Reply>)
    ensures StatusCall(Package, url, headers, params, replies) == Exchange(StatusRequest(Package, url, headers, params), replies)
  {
    var p := JsonRequest.Prepare(PStr("get"), PStr(url), headers, params, PNone);
    if p.Fail? {
      assert StatusRequest(Package, url, headers, params) == Fail(p.error);
    }
  }

  lemma OlderCallIsExchange(url: string, headers: Py, params: Py, replies: seq<Reply>)
    ensures StatusCall(Older, url, headers, params, replies) == Exchange(StatusRequest(Older, url, headers, params), replies)
  {
  }

  /** The events of a step put in front of what follows it. */
  function After<T>(t: seq<Event>, o: Outcome<T>): Outcome<T>
  {
    Outcome(o.result, t + o.trace, o.rest)
  }

  /** What a reply tells the loop once the status request has been sent. */
  function ReplyStep(rule: Rule, reply: Reply): PollStep
  {
    match JsonRequest.CheckReply(reply)
    case Fail(e) => Stop(e)
    case Ok(body) => Classify(rule, body)
  }

  /**
   * The poll loop as a function of the script: each tick sleeps, sends
   * the status request and reads one reply.
   */
  function Polled(req: Result<Request>, rule: Rule, wait: int, replies: seq<Reply>): (o: Outcome<Py>)
    ensures |o.rest| <= |replies|
    ensures o.trace != [] && o.trace[0] == Sleep(wait)
    decreases |replies|
  {
    match req
    case Fail(e) => Outcome(Fail(e), [Sleep(wait)], replies)
    case Ok(r) =>
      if |replies| == 0 then Outcome(Raise(NoReply, "no reply"), [Sleep(wait), Send(r)], [])
      else
        var tick := [Sleep(wait), Send(r)];
        match ReplyStep(rule, replies[0])
        case Ready(v) => Outcome(Ok(v), tick, replies[1..])
        case Stop(e) => Outcome(Fail(e), tick, replies[1..])
        case Waiting => After(tick, Polled(req, rule, wait, replies[1..]))
  }

  /** The poll, told in terms of its first exchange. */
  lemma PolledAfterExchange(req: Result<Request>, rule: Rule, wait: int, replies: seq<Reply>)
    ensures var call := Exchange(req, replies);
      var tick := [Sleep(wait)] + call.trace;
      var o := Polled(req, rule, wait, replies);
      (call.result.Fail? ==> o == Outcome(Fail(call.result.error), tick, call.rest))
      && (call.result.Ok? && Classify(rule, call.result.value).Ready? ==>
            o == Outcome(Ok(Classify(rule, call.result.value).v), tick, call.rest))
      && (call.result.Ok? && Classify(rule, call.result.value).Stop? ==>
            o == Outcome(Fail(Classify(rule, call.result.value).e), tick, call.rest))
      && (call.result.Ok? && Classify(rule, call.result.value).Waiting? ==>
            o == After(tick, Polled(req, rule, wait, call.rest)))
  {
    if req.Ok? && replies != [] {
      assert [Sleep(wait)] + [Send(req.value)] == [Sleep(wait), Send(req.value)];
    }
  }

  /** Putting two steps' events in front, one after the other, puts them in front together. */
  lemma AfterAfter<T>(t: seq<Event>, u: seq<Event>, o: Outcome<T>)
    ensures After(t, After(u, o)) == After(t + u, o)
  {
    assert t + u + o.trace == t + (u + o.trace);
  }

  /** One status call through the caller's helper. */
  method CallStatus(h: Helper, url: string, headers: Py, params: Py, replies: seq<Reply>) returns (call: Outcome<Py>)
    ensures call == Exchange(StatusRequest(h, url, headers, params), replies)
  {
    call := StatusCall(h, url, headers, params, replies);
    StatusCallIsExchange(h, url, headers, params, replies);
  }

  /** `while not ready: time.sleep(...); status_json = ...; if <finished>: ready = True`. */
  method PollUntilReady(h: Helper, rule: Rule, url: string, headers: Py, params: Py, wait: int,
                        replies: seq<Reply>) returns (o: Outcome<Py>)
    ensures o == Polled(StatusRequest(h, url, headers, params), rule, wait, replies)
  {
    ghost var req := StatusRequest(h, url, headers, params);
    var trace: seq<Event> := [];
    var rest := replies;
    while true
      invariant After(trace, Polled(req, rule, wait, rest)) == Polled(req, rule, wait, replies)
      decreases |rest|
    {
      var call := CallStatus(h, url, headers, params, rest);
      PolledAfterExchange(req, rule, wait, rest);
      var tick := [Sleep(wait)] + call.trace;
      ghost var now := Polled(req, rule, wait, rest);
      if call.result.Fail? {
        assert now == Outcome(Fail(call.result.error), tick, call.rest);
        return Outcome(Fail(call.result.error), trace + tick, call.rest);
      }
      var step := Classify(rule, call.result.value);
      if step.Ready? {
        assert now == Outcome(Ok(step.v), tick, call.rest);
        return Outcome(Ok(step.v), trace + tick, call.rest);
      }
      if step.Stop? {
        assert now == Outcome(Fail(step.e), tick, call.rest);
        return Outcome(Fail(step.e), trace + tick, call.rest);
      }
      AfterAfter(trace, tick, Polled(req, rule, wait, call.rest));
      trace := trace + tick;
      rest := call.rest;
    }
  }

  // -----------------------------------------------------------------
  // What the loop guarantees
  // -----------------------------------------------------------------

  /** One tick of the loop, once the status request passes the helper's checks. */
  lemma PolledUnfold(r: Request, rule: Rule, wait: int, replies: seq<Reply>)
    requires replies != []
    ensures var tick := [Sleep(wait), Send(r)];
      var o := Polled(Ok(r), rule, wait, replies);
      (ReplyStep(rule, replies[0]).Ready? ==> o == Outcome(Ok(ReplyStep(rule, replies[0]).v), tick, replies[1..]))
      && (ReplyStep(rule, replies[0]).Stop? ==> o == Outcome(Fail(ReplyStep(rule, replies[0]).e), tick, replies[1..]))
      && (ReplyStep(rule, replies[0]).Waiting? ==> o == After(tick, Polled(Ok(r), rule, wait, replies[1..])))
  {
  }

  /** What the shorter poll says about replies[1..], said about the replies. */
  lemma WaitingShifted(rule: Rule, replies: seq<Reply>, m: nat)
    requires 1 <= m < |replies|
    requires ReplyStep(rule, replies[0]) == Waiting
    requires forall i | 0 <= i < m - 1 :: ReplyStep(rule, replies[1..][i]) == Waiting
    ensures forall i | 0 <= i < m :: ReplyStep(rule, replies[i]) == Waiting
    ensures replies[m] == replies[1..][m - 1] && replies[1..][m..] == replies[m + 1..]
  {
    forall i | 0 < i < m ensures ReplyStep(rule, replies[i]) == Waiting {
      assert replies[i] == replies[1..][i - 1];
    }
  }

  /**
   * A successful poll read n replies: the first n - 1 said "not yet",
   * the n-th said finished and gave the result.
   */
  lemma {:induction false} ReadyAfterWaiting(r: Request, rule: Rule, wait: int, replies: seq<Reply>)
    ensures var o := Polled(Ok(r), rule, wait, replies);
      var n := |replies| - |o.rest|;
      o.result.Ok? ==>
        1 <= n && o.rest == replies[n..]
        && (forall i | 0 <= i < n - 1 :: ReplyStep(rule, replies[i]) == Waiting)
        && ReplyStep(rule, replies[n - 1]) == Ready(o.result.value)
    decreases |replies|
  {
    var o := Polled(Ok(r), rule, wait, replies);
    if o.result.Ok? {
      assert replies != [];
      PolledUnfold(r, rule, wait, replies);
      if ReplyStep(rule, replies[0]).Waiting? {
        var tail := replies[1..];
        var later := Polled(Ok(r), rule, wait, tail);
        ReadyAfterWaiting(r, rule, wait, tail);
        WaitingShifted(rule, replies, |tail| - |later.rest|);
      }
    }
  }

  lemma SentTick(wait: int, req: Request)
    ensures Sent([Sleep(wait), Send(req)]) == [req]
  {
    var tick := [Sleep(wait), Send(req)];
    assert tick[1..] == [Send(req)];
    assert [Send(req)][1..] == [];
  }

  /**
   * Conversely, a script whose first n - 1 replies say "not yet" and
   * whose n-th says finished ends the poll after exactly n requests,
   * all of them the same status request.
   */
  lemma {:induction false} WaitingThenReady(r: Request, rule: Rule, wait: int, replies: seq<Reply>, n: nat, v: Py)
    requires 1 <= n <= |replies|
    requires forall i | 0 <= i < n - 1 :: ReplyStep(rule, replies[i]) == Waiting
    requires ReplyStep(rule, replies[n - 1]) == Ready(v)
    ensures Polled(Ok(r), rule, wait, replies).result == Ok(v)
    ensures Polled(Ok(r), rule, wait, replies).rest == replies[n..]
    ensures Sent(Polled(Ok(r), rule, wait, replies).trace) == seq(n, _ => r)
    decreases n
  {
    PolledUnfold(r, rule, wait, replies);
    SentTick(wait, r);
    if n > 1 {
      var tail := replies[1..];
      forall i | 0 <= i < n - 2 ensures ReplyStep(rule, tail[i]) == Waiting {
        assert tail[i] == replies[i + 1];
      }
      assert tail[n - 2] == replies[n - 1];
      WaitingThenReady(r, rule, wait, tail, n - 1, v);
      var later := Polled(Ok(r), rule, wait, tail);
      assert tail[n - 1..] == replies[n..];
      SentAppend([Sleep(wait), Send(r)], later.trace);
      ConsRepeat(r, n);
    } else {
      assert seq(1, _ => r) == [r];
    }
  }

  /** One more copy in front of n - 1 copies is n copies. */
  lemma ConsRepeat(r: Request, n: nat)
    requires n >= 1
    ensures [r] + seq(n - 1, _ => r) == seq(n, _ => r)
  {
    var l := [r] + seq(n - 1, _ => r);
    assert forall i | 0 <= i < n :: l[i] == r;
  }

  /** Every sleep of a trace lasts w seconds. */
  predicate SleepsLast(t: seq<Event>, w: int)
  {
    forall i | 0 <= i < |t| :: t[i].Sleep? ==> t[i].seconds == w
  }

  /** Two traces that only sleep `w` seconds at a time, one after the other. */
  lemma SleepsAppend(t1: seq<Event>, t2: seq<Event>, w: int)
    requires SleepsLast(t1, w) && SleepsLast(t2, w)
    ensures SleepsLast(t1 + t2, w)
  {
    forall i | |t1| <= i < |t1 + t2| ensures (t1 + t2)[i] == t2[i - |t1|] {
    }
  }

  /** Every tick sleeps the clamped wait, so never less than 5 seconds. */
  lemma {:induction false} SleepsAreClamped(req: Result<Request>, rule: Rule, waitArg: Py, replies: seq<Reply>)
    ensures SleepsLast(Polled(req, rule, WaitSeconds(waitArg), replies).trace, WaitSeconds(waitArg))
    ensures WaitSeconds(waitArg) >= 5
    decreases |replies|
  {
    var w := WaitSeconds(waitArg);
    if req.Ok? && replies != [] && ReplyStep(rule, replies[0]).Waiting? {
      var tick := [Sleep(w), Send(req.value)];
      PolledUnfold(req.value, rule, w, replies);
      SleepsAreClamped(req, rule, waitArg, replies[1..]);
      SleepsAppend(tick, Polled(req, rule, w, replies[1..]).trace, w);
    }
  }

  /** A failed datamining job ("ERROR") is not finished: the loop keeps asking. */
  lemma ErrorStatusKeepsPolling(body: map<string, Py>)
    requires "jobrun_status" in body && body["jobrun_status"] == PStr("ERROR")
    ensures Classify(CompletedRule, PDict(body)) == Waiting
  {
    assert PStr("ERROR") != PStr("COMPLETED");
  }
}
