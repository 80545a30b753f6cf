/**
 The node's `execute`: each input item is dispatched on its resource and
 operation (job `start`/`run`/`wait`, generic `request`), and the results are
 collected in item order. A failing item either aborts the batch or, when the
 host continues on failure, contributes an `{error}` record in its place.

 Every request an item issues is recorded, in order, so that what is sent
 (and what is not) can be stated. The remote server's answers are part of
 each item's input.
 */
module NodeExecute {
  import opened JsValues
  import opened Pairs
  import opened ParameterResolver
  import opened JobPolling
  import opened GenericRequest
  import OptionLoaders

  /** The node parameters of one item, as `getNodeParameter` returns them. */
  datatype ItemParams = ItemParams(
    resource: string,
    operation: string,
    targetId: string,
    apiName: string,
    jobId: string,
    parameterPairs: seq<Pair>,
    pollLimit: Option<int>,
    verb: string,
    url: string,
    responseFormat: string,
    queryPairs: seq<Pair>,
    headerPairs: seq<Pair>,
    bodyJson: string,
    simplify: bool)

  /** The full response of a generic request. */
  datatype HttpResponse = HttpResponse(body: Js, headers: Js, statusCode: Js)

  /**
   What the remote service answers to this item's requests: the declared
   parameter list of the API definition (`None` when `parameters` is not an
   array), the response to the start request, the response to each poll
   request by attempt, and the response to a generic request.
   */
  datatype Remote = Remote(
    definition: Option<seq<ParamDecl>>,
    startResponse: Js,
    jobResponses: nat -> Js,
    genericResponse: HttpResponse)

  datatype Item = Item(params: ItemParams, remote: Remote)

  /**
   The host: the credential's subdomain, `encodeURIComponent` and `JSON.parse`
   (both left uninterpreted), and the continue-on-failure switch.
   */
  datatype Host = Host(subdomain: string, encode: Js -> string, parse: string -> Option<Js>, continueOnFail: bool)

  /** A request issued to the remote service. */
  datatype Request =
    | Get(url: string)
    | StartJob(url: string, apiName: string, parameters: map<string, Js>)
    | Send(verb: string, url: string, qs: map<string, Js>, headers: map<string, Js>, body: Option<Js>)

  /** The `json` of an output item. */
  datatype OutJson =
    | Started(jobId: Js, status: Js)
    | Finished(record: JobRecord)
    | Http(body: Js, headers: Js, statusCode: Js)
    | ErrorRecord(message: string)

  datatype OutItem = OutItem(json: OutJson, pairedItem: nat)

  /** The outcome of one item (a result or the message of the error it threw) and its requests. */
  datatype ItemRun = ItemRun(outcome: Result<OutJson, string>, requests: seq<Request>)

  /** The error that aborts the batch, with the index of the offending item. */
  datatype BatchError = BatchError(itemIndex: nat, message: string)

  const UnsupportedOperation: string := "Unsupported operation"
  const UnsupportedResource: string := "Unsupported resource"

  /** `startResponse?.status || 'pending'` */
  function StartStatus(startResponse: Js): (s: Js)
    ensures Truthy(s)
    ensures Truthy(Prop(startResponse, "status")) ==> s == Prop(startResponse, "status")
    ensures !Truthy(Prop(startResponse, "status")) ==> s == Str("pending")
  {
    Or(Prop(startResponse, "status"), Str("pending"))
  }

  /** `advancedOptions.pollLimit ?? 300` */
  function PollLimit(p: ItemParams): int {
    if p.pollLimit.Some? then p.pollLimit.value else 300
  }

  function JobUrl(host: Host, targetId: string, jobId: Js): string {
    OptionLoaders.BaseUrl(host.subdomain) + "/targets/" + host.encode(Str(targetId)) + "/jobs/" + host.encode(jobId)
  }

  function DefinitionUrl(host: Host, apiName: string): string {
    OptionLoaders.BaseUrl(host.subdomain) + "/api/definitions/" + host.encode(Str(apiName))
  }

  function StartUrl(host: Host, targetId: string): string {
    OptionLoaders.BaseUrl(host.subdomain) + "/targets/" + host.encode(Str(targetId)) + "/jobs/"
  }

  /** The poll requests: the same GET, once per attempt. */
  function PollLog(host: Host, targetId: string, jobId: Js, limit: int, responses: nat -> Js): (log: seq<Request>)
    ensures |log| == PollRequests(limit, responses)
    ensures forall i :: 0 <= i < |log| ==> log[i] == Get(JobUrl(host, targetId, jobId))
  {
    seq(PollRequests(limit, responses), _ => Get(JobUrl(host, targetId, jobId)))
  }

  /** The job resource: whitelist check, parameter resolution, start, and polling. */
  function JobItem(p: ItemParams, remote: Remote, host: Host): ItemRun {
    if p.operation != "start" && p.operation != "run" && p.operation != "wait" then
      ItemRun(Err(UnsupportedOperation), [])
    else if p.operation == "start" || p.operation == "run" then
      var params := PairsToMap(p.parameterPairs);
      var expected := if remote.definition.Some? then remote.definition.value else [];
      var missing := Missing(params, expected);
      var definitionGet := Get(DefinitionUrl(host, p.apiName));
      if |missing| > 0 then
        ItemRun(Err(MissingMessage(missing)), [definitionGet])
      else
        var start := StartJob(StartUrl(host, p.targetId), p.apiName, Filled(params, expected));
        var jobId := Prop(remote.startResponse, "id");
        if p.operation == "start" then
          ItemRun(Ok(Started(jobId, StartStatus(remote.startResponse))), [definitionGet, start])
        else
          var limit := PollLimit(p);
          ItemRun(Ok(Finished(PollResult(jobId, limit, remote.jobResponses))),
                  [definitionGet, start] + PollLog(host, p.targetId, jobId, limit, remote.jobResponses))
    else
      var limit := PollLimit(p);
      ItemRun(Ok(Finished(PollResult(Str(p.jobId), limit, remote.jobResponses))),
              PollLog(host, p.targetId, Str(p.jobId), limit, remote.jobResponses))
  }

  /** The generic resource: URL, query, headers, body check, one request, response normalisation. */
  function GenericItem(p: ItemParams, remote: Remote, host: Host): ItemRun {
    if p.operation != "request" then ItemRun(Err(UnsupportedOperation), [])
    else
      match RequestBody(p.verb, p.bodyJson, host.parse)
      case Err(e) => ItemRun(Err(e), [])
      case Ok(body) =>
        var req := Send(p.verb, JoinUrl(OptionLoaders.BaseUrl(host.subdomain), p.url),
                        PairsToMap(p.queryPairs), PairsToMap(p.headerPairs), body);
        var res := remote.genericResponse;
        match NormalizeBody(p.responseFormat, p.simplify, res.body, host.parse)
        case Err(e) => ItemRun(Err(e), [req])
        case Ok(b) => ItemRun(Ok(Http(b, res.headers, res.statusCode)), [req])
  }

  /** One item of the batch. */
  function RunItem(item: Item, host: Host): ItemRun {
    if item.params.resource == "job" then JobItem(item.params, item.remote, host)
    else if item.params.resource == "generic" then GenericItem(item.params, item.remote, host)
    else ItemRun(Err(UnsupportedResource), [])
  }

  /** The output item for item `i`: its result, or its error record. */
  function OutputFor(item: Item, host: Host, i: nat): OutItem {
    match RunItem(item, host).outcome
    case Ok(json) => OutItem(json, i)
    case Err(e) => OutItem(ErrorRecord(e), i)
  }

  // ---------------------------------------------------------------- the imperative node

  method ProcessJob(p: ItemParams, remote: Remote, host: Host) returns (outcome: Result<OutJson, string>, requests: seq<Request>)
    ensures ItemRun(outcome, requests) == JobItem(p, remote, host)
  {
    if p.operation != "start" && p.operation != "run" && p.operation != "wait" {
      return Err(UnsupportedOperation), [];
    }
    if p.operation == "start" || p.operation == "run" {
      var params := BuildMap(p.parameterPairs);
      requests := [Get(DefinitionUrl(host, p.apiName))];
      var expected := if remote.definition.Some? then remote.definition.value else [];
      var filled, missing := ApplyDefaults(params, expected);
      if |missing| > 0 {
        return Err(MissingMessage(missing)), requests;
      }
      requests := requests + [StartJob(StartUrl(host, p.targetId), p.apiName, filled)];
      var jobId := Prop(remote.startResponse, "id");
      var status := Or(Prop(remote.startResponse, "status"), Str("pending"));
      if p.operation == "start" {
        return Ok(Started(jobId, status)), requests;
      }
      var limit := PollLimit(p);
      var rec, polls, delays := PollJob(jobId, limit, remote.jobResponses);
      requests := requests + seq(polls, _ => Get(JobUrl(host, p.targetId, jobId)));
      return Ok(Finished(rec)), requests;
    }
    var limit := PollLimit(p);
    var rec, polls, delays := PollJob(Str(p.jobId), limit, remote.jobResponses);
    return Ok(Finished(rec)), seq(polls, _ => Get(JobUrl(host, p.targetId, Str(p.jobId))));
  }

  method ProcessGeneric(p: ItemParams, remote: Remote, host: Host) returns (outcome: Result<OutJson, string>, requests: seq<Request>)
    ensures ItemRun(outcome, requests) == GenericItem(p, remote, host)
  {
    if p.operation != "request" {
      return Err(UnsupportedOperation), [];
    }
    var finalUrl := JoinUrl(OptionLoaders.BaseUrl(host.subdomain), p.url);
    var qs := BuildMap(p.queryPairs);
    var headers := BuildMap(p.headerPairs);
    var body := RequestBody(p.verb, p.bodyJson, host.parse);
    if body.Err? {
      return Err(body.error), [];
    }
    requests := [Send(p.verb, finalUrl, qs, headers, body.value)];
    var res := remote.genericResponse;
    var normalized := NormalizeBody(p.responseFormat, p.simplify, res.body, host.parse);
    if normalized.Err? {
      return Err(normalized.error), requests;
    }
    outcome := Ok(Http(normalized.value, res.headers, res.statusCode));
  }

  method ProcessItem(item: Item, host: Host) returns (outcome: Result<OutJson, string>, requests: seq<Request>)
    ensures ItemRun(outcome, requests) == RunItem(item, host)
  {
    if item.params.resource == "job" {
      outcome, requests := ProcessJob(item.params, item.remote, host);
    } else if item.params.resource == "generic" {
      outcome, requests := ProcessGeneric(item.params, item.remote, host);
    } else {
      outcome, requests := Err(UnsupportedResource), [];
    }
  }

  /** The requests of the first `n` items, in item order. */
  function BatchLog(items: seq<Item>, host: Host, n: nat): seq<Request>
    requires n <= |items|
  {
    if n == 0 then [] else BatchLog(items, host, n - 1) + RunItem(items[n - 1], host).requests
  }

  /** The outputs of the first `n` items, in item order. */
  function Outputs(items: seq<Item>, host: Host, n: nat): (outs: seq<OutItem>)
    requires n <= |items|
    ensures |outs| == n && forall j :: 0 <= j < n ==> outs[j] == OutputFor(items[j], host, j)
  {
    if n == 0 then [] else Outputs(items, host, n - 1) + [OutputFor(items[n - 1], host, n - 1)]
  }

  /**
   The item loop. With continue-on-failure every item yields exactly one
   output, in item order, paired with its index. Without it the batch
   succeeds exactly when every item does, and otherwise fails with the first
   failing item's index and message. The items run one after the other: the
   requests sent are those of every item up to the last one run, and an item
   that aborts the batch is the last to send anything.
   */
  method Execute(items: seq<Item>, host: Host) returns (r: Result<seq<OutItem>, BatchError>, sent: seq<Request>)
    ensures host.continueOnFail ==> r.Ok?
    ensures !host.continueOnFail ==> (r.Ok? <==> forall i :: 0 <= i < |items| ==> RunItem(items[i], host).outcome.Ok?)
    ensures r.Ok? ==> r.value == Outputs(items, host, |items|)
    ensures r.Err? ==> && r.error.itemIndex < |items|
                       && RunItem(items[r.error.itemIndex], host).outcome == Err(r.error.message)
                       && forall j :: 0 <= j < r.error.itemIndex ==> RunItem(items[j], host).outcome.Ok?
    ensures r.Ok? ==> sent == BatchLog(items, host, |items|)
    ensures r.Err? ==> sent == BatchLog(items, host, r.error.itemIndex + 1)
  {
    var returnData: seq<OutItem> := [];
    sent := [];
    for i := 0 to |items|
      invariant returnData == Outputs(items, host, i)
      invariant sent == BatchLog(items, host, i)
      invariant !host.continueOnFail ==> forall j :: 0 <= j < i ==> RunItem(items[j], host).outcome.Ok?
    {
      var outcome, requests := ProcessItem(items[i], host);
      sent := sent + requests;
      if outcome.Err? {
        if host.continueOnFail {
          returnData := returnData + [OutItem(ErrorRecord(outcome.error), i)];
          continue;
        }
        return Err(BatchError(i, outcome.error)), sent;
      }
      returnData := returnData + [OutItem(outcome.value, i)];
    }
    return Ok(returnData), sent;
  }

  // ---------------------------------------------------------------- properties of an item

  /**
   The operation whitelist: a job item whose operation is not `start`, `run`
   or `wait` (`getParams` among them) fails with "Unsupported operation"
   before any request, so the template branch is never reached.
   */
  lemma JobOperationWhitelist(item: Item, host: Host)
    requires item.params.resource == "job"
    requires !(item.params.operation in {"start", "run", "wait"})
    ensures RunItem(item, host) == ItemRun(Err(UnsupportedOperation), [])
  {
  }

  /** Any resource other than `job` and `generic` fails with "Unsupported resource" and sends nothing. */
  lemma UnknownResourceRejected(item: Item, host: Host)
    requires item.params.resource != "job" && item.params.resource != "generic"
    ensures RunItem(item, host) == ItemRun(Err(UnsupportedResource), [])
  {
  }

  /**
   `start`/`run`: the item fails exactly when some declared parameter is
   missing, naming all of them; then only the definition was fetched and no
   job was started. Otherwise the start request carries every declared name,
   the user's usable values unchanged.
   */
  lemma MissingParametersBlockStart(item: Item, host: Host)
    requires item.params.resource == "job"
    requires item.params.operation == "start" || item.params.operation == "run"
    ensures var p := item.params;
            var params := PairsToMap(p.parameterPairs);
            var expected := if item.remote.definition.Some? then item.remote.definition.value else [];
            var run := RunItem(item, host);
            && (run.outcome.Err? <==> Missing(params, expected) != [])
            && (run.outcome.Err? ==>
                  && run.outcome.error == MissingMessage(Missing(params, expected))
                  && run.requests == [Get(DefinitionUrl(host, p.apiName))])
            && (run.outcome.Ok? ==>
                  && |run.requests| >= 2 && run.requests[1].StartJob?
                  && (forall d :: d in expected ==> d.name in run.requests[1].parameters)
                  && (forall k :: Usable(params, k) ==> k in run.requests[1].parameters && run.requests[1].parameters[k] == params[k]))
  {
    var p := item.params;
    var params := PairsToMap(p.parameterPairs);
    var expected := if item.remote.definition.Some? then item.remote.definition.value else [];
    if Missing(params, expected) == [] {
      var filled := Filled(params, expected);
      forall d | d in expected ensures d.name in filled {
        var i :| 0 <= i < |expected| && expected[i] == d;
        ResolvedComplete(params, expected, i);
      }
      forall k | Usable(params, k) ensures k in filled && filled[k] == params[k] {
        UserValueKept(params, expected, |expected|, k);
      }
    }
  }

  /** `start` reports the job id and a truthy status, `pending` when the response has none. */
  lemma StartReportsStatus(item: Item, host: Host)
    requires item.params.resource == "job" && item.params.operation == "start"
    requires RunItem(item, host).outcome.Ok?
    ensures var json := RunItem(item, host).outcome.value;
            && json == Started(Prop(item.remote.startResponse, "id"), json.status)
            && Truthy(json.status)
            && (!Truthy(Prop(item.remote.startResponse, "status")) ==> json.status == Str("pending"))
  {
  }

  /** A start response whose status is `''` is reported as `pending`. */
  lemma EmptyStartStatusIsPending()
    ensures StartStatus(Obj([("id", Str("j1")), ("status", Str(""))])) == Str("pending")
  {
  }

  /** `wait` with a poll limit of zero or less sends nothing and reports the synthetic failure. */
  lemma WaitWithoutAttempts(item: Item, host: Host)
    requires item.params.resource == "job" && item.params.operation == "wait"
    requires item.params.pollLimit.Some? && item.params.pollLimit.value <= 0
    ensures RunItem(item, host) == ItemRun(Ok(Finished(LimitReached(Str(item.params.jobId)))), [])
  {
  }

  /**
   A write method with a non-blank body that does not parse fails with the
   JSON validation error, and no request is sent.
   */
  lemma MalformedBodySendsNothing(item: Item, host: Host)
    requires item.params.resource == "generic" && item.params.operation == "request"
    requires IsWriteMethod(item.params.verb) && !Blank(item.params.bodyJson)
    requires host.parse(item.params.bodyJson).None?
    ensures RunItem(item, host) == ItemRun(Err(InvalidBodyMessage), [])
  {
  }

  /** A request with a method other than POST, PUT, PATCH or DELETE does not depend on the body text. */
  lemma ReadOnlyRequestIgnoresBody(item: Item, host: Host, otherBody: string)
    requires item.params.resource == "generic"
    requires !IsWriteMethod(item.params.verb)
    ensures RunItem(item, host) == RunItem(Item(item.params.(bodyJson := otherBody), item.remote), host)
    ensures RunItem(item, host).requests == [] || RunItem(item, host).requests[0].body.None?
  {
  }
}
