# AWS Lambda helper: Dafny model

This project models the core of `js-helper-aws-lambda`, a small adapter over the AWS SDK
Lambda client. It covers two jobs:

- invoking another Lambda function;
- binding an API Gateway trigger event to the per-request context (the "instance") and
  returning the response through the gateway callback.

Modules, one per concern:

- `Wrappers`: the `Option` datatype. `None` stands for an absent JavaScript property or an
  argument that is null or undefined.
- `JsValue`: the JavaScript values the adapter inspects, JavaScript truthiness, and `Codec`.
  `Codec` holds the JSON helpers the adapter calls but does not define: the shared
  library's `stringToJSON`, and `JSON.stringify` in compact and two-space-indented form.
  They are function-valued parameters, so the model keeps them uninterpreted.
- `LambdaConfig`: the defaults from `config.js` and the mutable configuration store.
- `RequestInstance`: the `Instance` class, whose fields are the context entries the adapter
  writes (`auth`, `request`, `response`, `cleanup_locked`, `gateway_response_callback`,
  `aws`). It also holds the installed gateway closure. A ghost counter `clientsBuilt` counts
  SDK client constructions.
- `LambdaSpec`: the pure parts, each with the lemmas about it:
  - the Invoke request (`service_params`);
  - how the transport outcome is mapped to the callback and the error report;
  - the auth data taken from a trigger event;
  - the lazy client cache, as a function of the context.
- `AwsLambda`: the operations that change state, and the instance predicate.
  - `InitIfNot` and `Invoke` are proved against `LambdaSpec.InitAws`; `Invoke` also against
    `LambdaSpec.ServiceParams` and `LambdaSpec.Settle`.
  - `LoadLambdaArgsToInstance` is proved against `LambdaSpec.BoundAuth` and establishes
    `IsLambdaInstance`.
  - `Loader` states the merged configuration directly in terms of the old entries.
  - `ReturnResponseToLambdaCallback` calls the closure method
    `RequestInstance.Instance.GatewayResponseCallback` and states the resulting call and lock.
  - `TestScriptSequence` is the call sequence of the repository's test script.

Calls into code outside the adapter are not executed. They are recorded as values:

- a callback invocation is a `Call` record holding the callback and its argument list;
- a `logErrorForResearch` report is a `Report` record;
- what `invoke` does once the send settles is one ordered trace of `Effect`s, each a callback
  call or a report;
- the downstream service is a parameter `send` that maps the request to a `Transport`
  outcome (`Delivered` with an optional payload, or `Rejected` with an error).

`initIfNot` reads `CONFIG.MAX_RETRIES` (aws-lambda.js:288), but the defaults in
config.js:9-11 have no such key. So unless an override supplies one, the client is built
with `maxAttempts` undefined: see `AwsLambda.DefaultClientHasNoRetryCount`.

## Model

| member | source | states |
|---|---|---|
| `LambdaConfig.Defaults` | config.js:9-11 | The defaults are exactly KEY and SECRET (both empty) and REGION `us-east-1`. No MAX_RETRIES key. |
| `AwsLambda.Loader` | aws-lambda.js:33-35 | An absent override leaves the store unchanged. A present one overwrites exactly its own keys and keeps every other entry. |
| `LambdaSpec.ServiceParams` | aws-lambda.js:83-96 | The request always carries the given function name, the indented serialisation of the arguments and `LogType` `None`. `InvocationType` is `Event` or `RequestResponse`, and it is `RequestResponse` exactly when `synchronous` is truthy. |
| `LambdaSpec.ReportedParamsRecoverRequest` | aws-lambda.js:122-127 | The object serialised into the failure report has exactly the four request keys. The whole request, function name included, can be read back from it unchanged. |
| `LambdaSpec.Settle` | aws-lambda.js:103-131 | The callback is called exactly once. A delivered non-empty payload P gives the trace `cb(null, stringToJSON(P))`. An empty or missing payload gives the trace `cb(null, null)` and nothing else. A rejection with E gives the trace: one report carrying E and the header plus the serialised request, then `cb(E)` alone. |
| `LambdaSpec.SettleAsWritten` | aws-lambda.js:101-132 | With the source's `.then(...).catch(...)` chaining, the trace equals `Settle`'s when the callback returns normally or the send was rejected. When the callback throws E inside the success handler, `Settle`'s trace is followed by a report of E and a second call `cb(E)`, so the callback is called twice. |
| `LambdaSpec.ThrowingCallbackIsCalledTwice` | aws-lambda.js:103-131 | Counterexample: an empty asynchronous response whose callback throws gives the calls `cb(null, null)` and then `cb(err)`. The corrected settlement makes only the first call. |
| `LambdaSpec.BoundAuth` | aws-lambda.js:177-221 | A null event leaves all three auth fields null. `token` is set (truthy) exactly when `authorizationToken` is present and truthy, and then equals it; otherwise it is null. The same holds for `method_id` and `methodArn`. `custom_data` is `stringToJSON(stringKey)` when the authorizer's `stringKey` is present and non-empty; otherwise it is null. |
| `LambdaSpec.BoundAuthExamples` | aws-lambda.js:204-221 | For the `abc`/`arn:1` event, token and method id are copied. A flattened `{"k":1}` authorizer string is parsed into `custom_data`. Falsy or empty fields leave the auth unset. |
| `LambdaSpec.InitAws` | aws-lambda.js:261-291 | Afterwards `aws` exists and `aws.lambda` holds a client. If a client was already there, nothing changes. Otherwise exactly one client is built from the configuration snapshot and stored under `lambda`, and every other `aws` entry is kept. |
| `LambdaSpec.InitAwsIdempotent` | aws-lambda.js:264-271 | A second initialisation changes nothing, even under a different configuration. |
| `LambdaSpec.InitAwsEachBuildsAtMostOne` | aws-lambda.js:261-291 | Any non-empty run of invocations on one context ends as the first initialisation left it. At most one client is built, from the first invocation's configuration. None is built if one was already cached. |
| `AwsLambda.DefaultClientHasNoRetryCount` | aws-lambda.js:282-290 | A client built from the defaults has region `us-east-1`, empty credentials and an undefined retry count. |
| `AwsLambda.InitIfNot` | aws-lambda.js:261-293 | The context's `aws` entry and client count become `InitAws` of their old values. No other field changes. |
| `AwsLambda.Invoke` | aws-lambda.js:76-134 | The client cache is initialised as `InitAws` says. The request sent is `ServiceParams` of the arguments. The effects, in order, are `Settle`'s trace for the outcome of sending that request: one call of `cb`, preceded by one report on failure. |
| `AwsLambda.IsLambdaInstance` | aws-lambda.js:145-158 | False exactly when `request` is undefined, null or `false`. True for any object request. Because the comparison with `false` is strict, the only other falsy requests it accepts are `0` and `""`. |
| `AwsLambda.LoadLambdaArgsToInstance` | aws-lambda.js:171-226 | Whatever the event, `request` and `response` become `{}`, `cleanup_locked` becomes true and the gateway closure wrapping `response_callback` is installed. `auth` becomes `BoundAuth` of the event. The instance then passes `isLambdaInstance`. |
| `RequestInstance.Instance.GatewayResponseCallback` | aws-lambda.js:190-193 | Calling the installed closure forwards its argument list unchanged to the original response callback. It then unlocks cleanup. |
| `AwsLambda.ReturnResponseToLambdaCallback` | aws-lambda.js:237-245 | Requires an installed closure, since the source calls it unguarded. Calls the original response callback with `(null, response)`, unlocks cleanup and returns true. |
| `AwsLambda.TestScriptSequence` | _test/test.js:8-84 | After the loader's override with an account key, secret and region, the first invoke on a fresh context builds the client with exactly those settings and no retry count. An asynchronous invoke sends an `Event` request and calls its callback once. Binding a null event locks cleanup and leaves the auth unset. Returning `{a:2, b:"hello"}` calls the original callback with `(null, {a:2, b:"hello"})` and unlocks cleanup. The instance then counts as a Lambda instance. |

## Findings

| source | as written | input that shows it | evidently intended | confidence | as-written member | corrected member |
|---|---|---|---|---|---|---|
| aws-lambda.js:103-131 | `send(...).then(onSuccess).catch(onError)`: the error handler also catches an exception thrown by `cb` inside the success handler | transport delivers an empty payload and `cb(null, null)` throws `err` | only transport failures reach the error handler, and `cb` is called once per invocation: the report labels every caught error `Cause: AWS Lambda` (line 124) | not executed; medium | `LambdaSpec.SettleAsWritten`, `LambdaSpec.ThrowingCallbackIsCalledTwice` | `LambdaSpec.Settle` (used by `AwsLambda.Invoke`) |

## Left out

- The AWS SDK: loading `@aws-sdk/client-lambda`, the `LambdaClient` constructor's behaviour and `send(new InvokeCommand(...))`. The client is a record of its construction settings, and the service is the `send` parameter. The `logger: Lib.Debug` option is not recorded.
- Promise and async sequencing. The transport outcome is one given value, and there is no concurrency.
- `Lib.Debug.timingAuditLog` markers and the logger wiring: side-channel logging with no effect on control flow.
- The internals of `Lib.Utils.stringToJSON` and of `JSON.stringify`: they are uninterpreted `Codec` functions. The key order of the serialised request is not modelled.
- `Lib.Utils.isEmpty` on the payload is modelled as "missing or the empty string". The SDK's byte-array payload is modelled as a string.
- The wiring of the shared libraries in `loader` (`Lib.Utils`, `Lib.Debug`, `Lib.Instance`). Only its configuration override is modelled. The override is a well-typed map; a non-object override is not modelled.
- The instance manager that creates and tears down contexts. `Instance`'s constructor stands for a freshly handed-over context, and `time_ms` is not modelled.
- The unused `request_context` parameter of `loadLambdaArgsToInstance`.
- JavaScript faults: `requestContext` or `authorizer` not being objects, `instance.aws` present but null, and `stringKey` of a non-string type. Event fields are well-typed optional records, and `stringKey` is an optional string. Calling the dispatcher before binding is a precondition, not a fault path.
- A callback that throws inside the gateway closure would leave cleanup locked. Callbacks other than the one in the finding are assumed to return.
- The gateway closure captures its instance. Copying the closure onto another context is not modelled.
- `JSON.stringify(undefined, null, 2)` returns `undefined`, which leaves `Payload` absent. The `Codec` serialiser always returns a string, so this case is not modelled.
- JavaScript numbers are integers here. NaN and -0 (both falsy) are not modelled.
- `AwsLambda.Invoke`: uses the corrected settlement (see Findings). It agrees with the code exactly when the callback does not throw, as `LambdaSpec.SettleAsWritten` states.
