# Legacy Use n8n node — a Dafny model

This project models the logic of the `LegacyUse` node for the n8n
workflow-automation host (`nodes/LegacyUse/LegacyUse.node.ts`). The node lets a
workflow start jobs on a remote "legacy-use" job-execution API, poll them to
completion, or send arbitrary authenticated requests to the same API. It
models these pieces:

- **Job polling** (`pollJob`), as a method with a loop over a scripted server.
  `responses(k)` is the answer to the k-th GET. The statuses `pending`, `queued`
  and `running` are in flight. `success` ends the loop with a result. Any other
  status ends it with an error. When the limit runs out, the loop reports a
  synthetic `failed` record built from the caller's job id. Delays are counted
  in a ghost out-parameter.
- **Parameter resolution** for `start`/`run`.
  - The key/value pairs become a dictionary: empty keys are skipped and later
    keys win.
  - A declared parameter with no usable value (absent, `''` or `undefined`)
    takes its declared default. Without a default, its name is recorded as
    missing.
  - One error names every missing parameter, before the start request is sent.
- **Start-status normalisation** (`status || 'pending'`).
- **The generic request builder**:
  - the URL join;
  - the query and header dictionaries;
  - the JSON body check for POST/PUT/PATCH/DELETE;
  - parsing of a string response body;
  - the recursive `simplifyObject` cap, with its quirks.
- **Dispatch and the batch loop.**
  - The operation whitelist, which makes the `getParams` branch unreachable.
  - `continueOnFail`: one `{error}` record per failing item, so there is exactly
    one output per input, in order.
  - Without `continueOnFail`, the batch aborts on the first failing item.
- **The option loaders**: API names, the chosen API's parameters and
  descriptions, and targets with `String(id)`.

Files, one module each:

- `js_values.dfy`: JavaScript values, truthiness, `?.`, `??`, `||`.
- `pairs.dfy`: the pair-to-dictionary builder.
- `params.dfy`: the default loop and the missing list.
- `poll.dfy`: `pollJob`.
- `generic.dfy`: the generic request pieces.
- `options.dfy`: `loadOptions`.
- `execute.dfy`: per-item dispatch and `execute`.

The remote service and the host are inputs. Each item carries the server's
answers (a `Remote`). `JSON.parse` and `encodeURIComponent` are uninterpreted
functions supplied by the `Host`. Every request an item issues is recorded in
order, so the model can state what is sent and what is not.

Two behaviours of the code are worth stating outright:

- The job parameters come only from the key/value pairs. No other source of
  parameters is merged over them.
- `simplifyObject` passes every array element through itself, so the numbers
  in `{a: [1..20], b: "x"}` become `{}` and the result is
  `{a: [{} x 10], b: "x"}` (`SimplifyNumberArrayExample`). An array with
  `null` or `undefined` among its first ten elements makes `Object.entries`
  throw, and the item fails (`SimplifyNullElementExample`).

## Model

| member | source | states |
|---|---|---|
| `Pairs.PairsToMap` | nodes/LegacyUse/LegacyUse.node.ts:346-351 | the keys are exactly the non-empty keys among the pairs, and each holds the value of its last occurrence |
| `Pairs.AddPairKeeps` | nodes/LegacyUse/LegacyUse.node.ts:347-350 | if the dictionary so far has exactly the non-empty keys of the earlier pairs, each with its last value, then after the next pair (skipped when its key is empty, otherwise written over any earlier value) the same holds for all pairs |
| `Pairs.BuildMap` | nodes/LegacyUse/LegacyUse.node.ts:347-350 | the imperative pair loop builds exactly `PairsToMap` of its pairs (also used for query and headers, lines 446-453) |
| `ParameterResolver.ApplyDefaults` | nodes/LegacyUse/LegacyUse.node.ts:360-370 | the default loop yields the filled dictionary and exactly the missing list the independent description `MissingAt` gives, in declaration order |
| `ParameterResolver.UsableIffFilledBefore` | nodes/LegacyUse/LegacyUse.node.ts:361-366 | the loop's `has` test at declaration i holds iff the user gave a usable value or an earlier declaration of that name brought a usable default |
| `ParameterResolver.UserValueKept` | nodes/LegacyUse/LegacyUse.node.ts:362-365 | a usable value the user supplied is never overwritten by a default |
| `ParameterResolver.UndeclaredUntouched` | nodes/LegacyUse/LegacyUse.node.ts:361-370 | a key no declaration names is neither added nor changed |
| `ParameterResolver.DefaultOrigin` | nodes/LegacyUse/LegacyUse.node.ts:363-366 | a name without a usable user value, once some declaration of it has a default, holds one of its declared defaults that is not `undefined` |
| `ParameterResolver.KeysGrow` | nodes/LegacyUse/LegacyUse.node.ts:361-370 | the loop only adds keys, never removes them |
| `ParameterResolver.NotMissingPresent` | nodes/LegacyUse/LegacyUse.node.ts:362-368 | a declaration not reported missing has its name among the submitted keys |
| `ParameterResolver.MissingMembers` | nodes/LegacyUse/LegacyUse.node.ts:360-371 | the missing list is empty iff no declaration is missing; it holds exactly the names of the missing declarations |
| `ParameterResolver.ResolvedComplete` | nodes/LegacyUse/LegacyUse.node.ts:360-373 | when nothing is missing, every declared name is submitted, with the user's usable value if any and otherwise a declared default of that name that is not `undefined`; no declared name is submitted as `undefined` |
| `ParameterResolver.MissingForDistinctNames` | nodes/LegacyUse/LegacyUse.node.ts:360-370 | with distinct declared names, the missing list is exactly the names with no usable value and an `undefined` default, in declaration order |
| `JobPolling.Classify` | nodes/LegacyUse/LegacyUse.node.ts:522-532 | in flight iff the status is `pending`, `queued` or `running`; success iff it is `success`; every other value, unknown strings included, is a failure |
| `JobPolling.Finish` | nodes/LegacyUse/LegacyUse.node.ts:530-536 | the terminal record carries the response's id and status; `result` on success, otherwise `error ?? whole response` |
| `JobPolling.FirstTerminal` | nodes/LegacyUse/LegacyUse.node.ts:523-536 | finds the first response below the limit whose status is not in flight, with every earlier one in flight; none exists iff all within the limit are in flight |
| `JobPolling.PollJob` | nodes/LegacyUse/LegacyUse.node.ts:521-542 | the loop returns `PollResult`, issues `PollRequests` GETs and waits `PollDelays` times |
| `JobPolling.PollNonPositiveLimit` | nodes/LegacyUse/LegacyUse.node.ts:521-542 | with `limit <= 0` no request and no delay happen, and the result is `{job_id: jobId, status: 'failed', error: 'Polling limit reached'}` |
| `JobPolling.PollRequestsBounded` | nodes/LegacyUse/LegacyUse.node.ts:523-540 | the number of requests never exceeds the limit, and delays never exceed requests |
| `JobPolling.PollExhausted` | nodes/LegacyUse/LegacyUse.node.ts:523-542 | when every response is in flight, exactly `limit` requests are made, each followed by a delay, then the synthetic failure with the caller's job id |
| `JobPolling.PollStopsAtFirstTerminal` | nodes/LegacyUse/LegacyUse.node.ts:530-539 | the first non-in-flight response is the last request, no delay follows it, and the record is built from it |
| `JobPolling.PollSucceedsOnThirdResponse` | nodes/LegacyUse/LegacyUse.node.ts:521-540 | responses `pending`, `running`, `success` with a limit of at least 3 give success after 3 requests and 2 delays, carrying the third response's id and result |
| `GenericRequest.JoinUrl` | nodes/LegacyUse/LegacyUse.node.ts:442-444 | an input matching `^https?://` (any case) is kept verbatim; otherwise the result is the base, one `/`, and the input without its leading slash |
| `GenericRequest.JoinUrlRelativeExample` | nodes/LegacyUse/LegacyUse.node.ts:442-444 | `targets/` on base `…/api` gives `…/api/targets/` |
| `GenericRequest.JoinUrlAbsoluteExample` | nodes/LegacyUse/LegacyUse.node.ts:442-443 | `HTTPS://other.example/x` is used verbatim, ignoring the base |
| `GenericRequest.RequestBody` | nodes/LegacyUse/LegacyUse.node.ts:462-470 | an error iff a write method has a non-blank body that does not parse; a body is sent iff a write method has a non-blank body that parses |
| `GenericRequest.ReadOnlyMethodIgnoresBody` | nodes/LegacyUse/LegacyUse.node.ts:462 | a method other than POST/PUT/PATCH/DELETE sends no body, whatever the body text |
| `GenericRequest.ParseResponseBody` | nodes/LegacyUse/LegacyUse.node.ts:474-479 | with `json`, a string body is replaced by its parse and kept when it does not parse; everything else passes through |
| `GenericRequest.Simplify` | nodes/LegacyUse/LegacyUse.node.ts:482-488 | a result has the simplified shape, keeps arrays as arrays, and at the top level keeps the first ten keys in order and every primitive field value; `null`/`undefined` throws (when it succeeds at all: `SimplifyOkIff`) |
| `GenericRequest.SimplifyOkIff` | nodes/LegacyUse/LegacyUse.node.ts:482-488 | simplification succeeds iff no `null`/`undefined` is reached: not at the top, not among the first ten elements of any array it reaches; `null` field values are kept, so `{a: null}` simplifies |
| `GenericRequest.SimplifyKeepsKeys` | nodes/LegacyUse/LegacyUse.node.ts:482-488 | at every depth: an array keeps its first ten elements in order, an object its first ten keys in order with primitive values unchanged, a number or boolean becomes `{}` and a string its index-keyed first ten characters |
| `GenericRequest.SimplifiedIsCapped` | nodes/LegacyUse/LegacyUse.node.ts:483-486 | the simplified shape has at most ten entries in every array and object at every depth |
| `GenericRequest.SimplifyFixpoint` | nodes/LegacyUse/LegacyUse.node.ts:482-488 | a value already of the simplified shape is left unchanged |
| `GenericRequest.SimplifyIdempotent` | nodes/LegacyUse/LegacyUse.node.ts:482-489 | simplifying twice equals simplifying once, and the result is capped at every depth |
| `GenericRequest.SimplifyNumberArrayExample` | nodes/LegacyUse/LegacyUse.node.ts:483-487 | `{a: [1..20], b: "x"}` becomes `{a: [{} x 10], b: "x"}` |
| `GenericRequest.SimplifyNullElementExample` | nodes/LegacyUse/LegacyUse.node.ts:483-484 | `[1, null]` makes the cap throw |
| `GenericRequest.NormalizeBody` | nodes/LegacyUse/LegacyUse.node.ts:474-489 | a `text` body passes through unchanged; the body changes only under `json` + `simplify` on an array or object, and then it is exactly `Simplify` of the parsed body, capped at ten entries and keeping keys, order and primitive values at every depth; the only failure is the null-to-object error, and it happens there iff the body has a `null`/`undefined` element the cap reaches |
| `OptionLoaders.GetApis` | nodes/LegacyUse/LegacyUse.node.ts:258-275 | one option per definition, with name = value = the API name, in order; no list gives none |
| `OptionLoaders.Describe` | nodes/LegacyUse/LegacyUse.node.ts:293 | no description iff neither description nor default; the description leads, and the default closes the text |
| `OptionLoaders.GetApiParameters` | nodes/LegacyUse/LegacyUse.node.ts:276-296 | an empty API name gives no options and no request; otherwise one GET of the definition, and one option per declared parameter |
| `OptionLoaders.NatToStringRoundTrip` | nodes/LegacyUse/LegacyUse.node.ts:311 | the decimal numeral of a natural number reads back as that number |
| `OptionLoaders.IntToString` | nodes/LegacyUse/LegacyUse.node.ts:311 | `String(id)` of an integer is a canonical numeral: digits after a `-` that is there iff the id is negative, no leading zero except in `0`, no `-0` |
| `OptionLoaders.CanonicalUnique` | nodes/LegacyUse/LegacyUse.node.ts:311 | two canonical numerals that read back as the same integer are the same string |
| `OptionLoaders.IntToStringRoundTrip` | nodes/LegacyUse/LegacyUse.node.ts:311 | `String(id)` of an integer id reads back as the same integer |
| `OptionLoaders.GetTargets` | nodes/LegacyUse/LegacyUse.node.ts:297-314 | one option per target, labelled by its name, valued by the string id or by the canonical numeral that reads back as the numeric id, which `CanonicalUnique` makes the one string `String(id)` gives |
| `NodeExecute.StartStatus` | nodes/LegacyUse/LegacyUse.node.ts:385-386 | the reported status is always truthy: the response's own status when truthy, otherwise `pending` |
| `NodeExecute.EmptyStartStatusIsPending` | nodes/LegacyUse/LegacyUse.node.ts:386 | a start response with status `''` is reported as `pending` |
| `NodeExecute.ProcessJob` | nodes/LegacyUse/LegacyUse.node.ts:333-413 | the job branch (whitelist, resolution, start, run/wait polling) produces exactly `JobItem`'s outcome and request log |
| `NodeExecute.ProcessGeneric` | nodes/LegacyUse/LegacyUse.node.ts:430-495 | the generic branch produces exactly `GenericItem`'s outcome and request log |
| `NodeExecute.ProcessItem` | nodes/LegacyUse/LegacyUse.node.ts:323-498 | one item's try block produces exactly `RunItem`'s outcome and request log |
| `NodeExecute.Outputs` | nodes/LegacyUse/LegacyUse.node.ts:318-508 | the outputs of the first n items are n entries, entry j being item j's result or error record paired with j |
| `NodeExecute.Execute` | nodes/LegacyUse/LegacyUse.node.ts:318-508 | continueOnFail gives one output per input, in order, paired with its index; otherwise success iff every item succeeds, else the first failing item's index and message; the requests sent are those of all items, or, on an abort, those up to and including the failing item, none after it |
| `NodeExecute.JobOperationWhitelist` | nodes/LegacyUse/LegacyUse.node.ts:333-336 | a job operation other than start/run/wait (`getParams` included) fails with "Unsupported operation" before any request, so lines 415-427 are unreachable |
| `NodeExecute.UnknownResourceRejected` | nodes/LegacyUse/LegacyUse.node.ts:498 | a resource other than job/generic fails with "Unsupported resource" and sends nothing |
| `NodeExecute.MissingParametersBlockStart` | nodes/LegacyUse/LegacyUse.node.ts:342-383 | start/run fails iff parameters are missing, with only the definition fetched; otherwise the start request carries every declared name and the user's usable values unchanged |
| `NodeExecute.StartReportsStatus` | nodes/LegacyUse/LegacyUse.node.ts:385-390 | `start` reports the response's id and a truthy status, `pending` when the response has none |
| `NodeExecute.WaitWithoutAttempts` | nodes/LegacyUse/LegacyUse.node.ts:403-411 | `wait` with a limit of zero or less sends nothing and reports the synthetic failure for the given job id |
| `NodeExecute.MalformedBodySendsNothing` | nodes/LegacyUse/LegacyUse.node.ts:462-473 | a write method whose non-blank body does not parse fails with the JSON validation error, and no request is sent |
| `NodeExecute.ReadOnlyRequestIgnoresBody` | nodes/LegacyUse/LegacyUse.node.ts:462-471 | for a method other than POST/PUT/PATCH/DELETE the outcome does not depend on the body text, and no body is sent |

## Left out

- Real HTTP, credentials and node parameters: the server's answers, the subdomain and each item's parameters are inputs.
- Transport errors are not modelled: every request gets a response. Neither are failures of `getCredentials`.
- The delay is not modelled as time. It is a ghost counter, and the `pollDelay` option, which only sets its length, is not part of an item.
- `JSON.parse` and `encodeURIComponent` are uninterpreted functions.
- Objects are assumed to have distinct keys, as parsed JSON and object literals do. Nothing in the model enforces this for the parse results or the server's answers. On a duplicated key, `Prop` reads the first occurrence where `JSON.parse` would have kept the last one. `Simplify` also keeps both entries, where the source's `simplified[k] = …` merges them.
- JavaScript numbers are modelled as integers: NaN, fractions and infinities are not modelled, nor their truthiness or comparisons with them (for example, a fractional `pollLimit`).
- Dictionaries are modelled as unordered maps. The order of the keys in the `params`, `qs` and `headers` objects is not modelled.
- The `__proto__` key is treated as an ordinary key. In the source, assigning to it changes an object's prototype instead of adding a property.
- Strings are sequences of Unicode characters. JavaScript indexes UTF-16 code units, which matters when `simplifyObject` splits a string with characters outside the Basic Multilingual Plane.
- Remote lists are read through their declared types: definitions as name/default records, targets as id/name records. A response of another shape is not modelled, for example a truthy non-array `res`, or a `null` element in it; in the source such a response throws.
- OptionLoaders.IntToString: writes every integer in plain decimal; JavaScript switches to exponent notation from 10^21 on.
- The `getParams` branch (lines 415-427) is not modelled. `NodeExecute.JobOperationWhitelist` proves it unreachable.
- `pairedItem` is `{item: i}` for results and a bare `i` for error records. Both are modelled as the index. The batch's single output branch `[returnData]` is modelled as the sequence itself.
- The property-panel `description` table, the credential declaration and the build script hold no logic and are not part of this model.
