/**
 The job poll loop: `GET /targets/{targetId}/jobs/{jobId}` is issued up to
 `limit` times. A response whose status is `pending`, `queued` or `running`
 (the in-flight statuses) is followed by a fixed delay and another attempt;
 any other status ends the loop at once. When the attempts are used up the
 loop reports a synthetic `failed` record built from the caller's job id.

 The remote server is a script: `responses(k)` is the response to the k-th
 request (counting from 0). The delay is a ghost counter, not time.
 */
module JobPolling {
  import opened JsValues

  /** The closed status vocabulary, folded into three classes. */
  datatype StatusClass = InFlight | Succeeded | Failed

  /** `nonTerminal.includes(status)` and `status === 'success'`, as a tagged variant. */
  function Classify(status: Js): (c: StatusClass)
    ensures c == InFlight <==> status == Str("pending") || status == Str("queued") || status == Str("running")
    ensures c == Succeeded <==> status == Str("success")
  {
    if status in [Str("pending"), Str("queued"), Str("running")] then InFlight
    else if status == Str("success") then Succeeded
    else Failed
  }

  predicate IsInFlight(res: Js) {
    Classify(Prop(res, "status")) == InFlight
  }

  /** What a finished job record carries besides its id and status. */
  datatype Payload = ResultField(result: Js) | ErrorField(error: Js)

  /** `{job_id, status, result}` or `{job_id, status, error}`. */
  datatype JobRecord = JobRecord(jobId: Js, status: Js, payload: Payload)

  /** The record built from the response that ended the loop. */
  function Finish(res: Js): (r: JobRecord)
    ensures r.jobId == Prop(res, "id") && r.status == Prop(res, "status")
    ensures r.payload.ResultField? <==> Classify(r.status) == Succeeded
    ensures r.payload.ResultField? ==> r.payload.result == Prop(res, "result")
    ensures r.payload.ErrorField? && Prop(res, "error") != Undefined && Prop(res, "error") != Null ==> r.payload.error == Prop(res, "error")
    ensures r.payload.ErrorField? && (Prop(res, "error") == Undefined || Prop(res, "error") == Null) ==> r.payload.error == res
  {
    var status := Prop(res, "status");
    if status == Str("success") then JobRecord(Prop(res, "id"), status, ResultField(Prop(res, "result")))
    else JobRecord(Prop(res, "id"), status, ErrorField(Coalesce(Prop(res, "error"), res)))
  }

  const PollingLimitMessage: string := "Polling limit reached"

  /** The synthetic record reported when every attempt came back in flight. */
  function LimitReached(jobId: Js): JobRecord {
    JobRecord(jobId, Str("failed"), ErrorField(Str(PollingLimitMessage)))
  }

  /**
   The index of the first response at or after `from` and below `limit` whose
   status is not in flight, if there is one.
   */
  function FirstTerminal(limit: int, responses: nat -> Js, from: nat): (r: Option<nat>)
    decreases limit - from
    ensures r.Some? ==> from <= r.value < limit && !IsInFlight(responses(r.value))
    ensures r.Some? ==> forall j :: from <= j < r.value ==> IsInFlight(responses(j))
    ensures r.None? ==> forall j :: from <= j < limit ==> IsInFlight(responses(j))
  {
    if from >= limit then None
    else if !IsInFlight(responses(from)) then Some(from)
    else FirstTerminal(limit, responses, from + 1)
  }

  /** The record `pollJob` resolves to. */
  function PollResult(jobId: Js, limit: int, responses: nat -> Js): JobRecord {
    match FirstTerminal(limit, responses, 0)
    case Some(k) => Finish(responses(k))
    case None => LimitReached(jobId)
  }

  /** How many GET requests `pollJob` issues. */
  function PollRequests(limit: int, responses: nat -> Js): nat {
    match FirstTerminal(limit, responses, 0)
    case Some(k) => k + 1
    case None => if limit > 0 then limit else 0
  }

  /** How many delays `pollJob` waits: one after every in-flight response. */
  ghost function PollDelays(limit: int, responses: nat -> Js): nat {
    match FirstTerminal(limit, responses, 0)
    case Some(k) => k
    case None => if limit > 0 then limit else 0
  }

  /** The loop as the node runs it. */
  method PollJob(jobId: Js, limit: int, responses: nat -> Js) returns (rec: JobRecord, requests: nat, ghost delays: nat)
    ensures rec == PollResult(jobId, limit, responses)
    ensures requests == PollRequests(limit, responses)
    ensures delays == PollDelays(limit, responses)
  {
    var attempts: nat := 0;
    requests, delays := 0, 0;
    while attempts < limit
      invariant requests == attempts && delays == attempts
      invariant attempts == 0 || attempts <= limit
      invariant forall j :: 0 <= j < attempts ==> IsInFlight(responses(j))
      decreases limit - attempts
    {
      var res := responses(attempts);
      requests := requests + 1;
      if Classify(Prop(res, "status")) != InFlight {
        PollStopsAtFirstTerminal(jobId, limit, responses, attempts);
        rec := Finish(res);
        return;
      }
      delays := delays + 1;
      attempts := attempts + 1;
    }
    PollExhausted(jobId, limit, responses);
    rec := LimitReached(jobId);
  }

  /** With a limit of zero or less, no request is made and the synthetic failure is reported. */
  lemma PollNonPositiveLimit(jobId: Js, limit: int, responses: nat -> Js)
    requires limit <= 0
    ensures PollRequests(limit, responses) == 0 && PollDelays(limit, responses) == 0
    ensures PollResult(jobId, limit, responses) == JobRecord(jobId, Str("failed"), ErrorField(Str("Polling limit reached")))
  {
  }

  /** The number of requests never exceeds the limit, and delays never exceed requests. */
  lemma PollRequestsBounded(limit: int, responses: nat -> Js)
    ensures PollRequests(limit, responses) <= (if limit > 0 then limit else 0)
    ensures PollDelays(limit, responses) <= PollRequests(limit, responses)
  {
  }

  /**
   When every response within the limit is in flight, exactly `limit`
   requests are made and the synthetic failure carries the caller's job id.
   */
  lemma PollExhausted(jobId: Js, limit: int, responses: nat -> Js)
    requires forall k :: 0 <= k < limit ==> IsInFlight(responses(k))
    ensures PollRequests(limit, responses) == (if limit > 0 then limit else 0)
    ensures PollDelays(limit, responses) == PollRequests(limit, responses)
    ensures PollResult(jobId, limit, responses) == LimitReached(jobId)
  {
  }

  /**
   The first response outside the in-flight set ends the loop: it is the last
   request, no delay follows it, and the record is built from it.
   */
  lemma PollStopsAtFirstTerminal(jobId: Js, limit: int, responses: nat -> Js, k: nat)
    requires k < limit
    requires forall j :: 0 <= j < k ==> IsInFlight(responses(j))
    requires !IsInFlight(responses(k))
    ensures PollRequests(limit, responses) == k + 1
    ensures PollDelays(limit, responses) == k
    ensures PollResult(jobId, limit, responses) == Finish(responses(k))
  {
  }

  /**
   A job reported as `pending`, then `running`, then `success`: with a limit
   of at least 3 it succeeds on the third request, after two delays, and the
   record is built from the third response.
   */
  lemma PollSucceedsOnThirdResponse(jobId: Js, limit: int, responses: nat -> Js)
    requires limit >= 3
    requires Prop(responses(0), "status") == Str("pending")
    requires Prop(responses(1), "status") == Str("running")
    requires Prop(responses(2), "status") == Str("success")
    ensures PollRequests(limit, responses) == 3
    ensures PollDelays(limit, responses) == 2
    ensures PollResult(jobId, limit, responses) == JobRecord(Prop(responses(2), "id"), Str("success"), ResultField(Prop(responses(2), "result")))
  {
    assert IsInFlight(responses(0)) && IsInFlight(responses(1));
    PollStopsAtFirstTerminal(jobId, limit, responses, 2);
  }
}
