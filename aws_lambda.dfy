/**
  The adapter's operations on the shared state: the loader's configuration override,
  the lazy client initialiser, `invoke`, the event binding, the response dispatch and
  the instance predicate.
 */
module AwsLambda {
  import opened Wrappers
  import opened JsValue
  import opened LambdaConfig
  import opened RequestInstance
  import opened LambdaSpec

  /** The loader's override: a present custom configuration is merged key by key over the store. */
  method Loader(config: Config, custom: Option<map<string, Value>>)
    modifies config
    ensures custom.None? ==> config.entries == old(config.entries)
    ensures custom.Some? ==> config.entries.Keys == old(config.entries).Keys + custom.value.Keys
    ensures custom.Some? ==> forall k :: k in custom.value ==> config.entries[k] == custom.value[k]
    ensures custom.Some? ==>
      forall k :: k in old(config.entries) && k !in custom.value ==> config.entries[k] == old(config.entries)[k]
  {
    if custom.Some? {
      config.entries := config.entries + custom.value;
    }
  }

  /** `_Lambda.initIfNot`: create `instance.aws` if absent, then build a client only if none is cached. */
  method InitIfNot(instance: Instance, config: Config)
    modifies instance`aws, instance`clientsBuilt
    ensures instance.Aws() == InitAws(old(instance.Aws()), config.entries)
  {
    if instance.aws.None? {
      instance.aws := Some(map[]);
    }
    var aws := instance.aws.value;
    if "lambda" in aws && aws["lambda"] != NullSlot {
      return;
    }
    instance.aws := Some(aws["lambda" := Client(ClientFromConfig(config.entries))]);
    instance.clientsBuilt := instance.clientsBuilt + 1;
  }

  /**
    A client built before any override gets the default region and empty credentials, and no
    retry count: the default configuration has no `MAX_RETRIES` entry.
   */
  lemma DefaultClientHasNoRetryCount()
    ensures ClientFromConfig(Defaults()) == LambdaClient(Str("us-east-1"), Str(""), Str(""), Undefined)
  {
  }

  /**
    `Lambda.invoke`: initialise the client, build the request, send it through `send` (the
    downstream service), and settle: one call of `cb`, preceded by one report on failure.
   */
  method Invoke(
    instance: Instance, config: Config, cb: CallbackRef,
    lambdaFunctionName: string, functionArgs: Value, synchronous: Value,
    send: InvokeParams -> Transport, codec: Codec)
    returns (sent: InvokeParams, effects: seq<Effect>)
    modifies instance`aws, instance`clientsBuilt
    ensures instance.Aws() == InitAws(old(instance.Aws()), config.entries)
    ensures sent == ServiceParams(lambdaFunctionName, functionArgs, synchronous, codec)
    ensures effects == Settle(send(sent), sent, cb, codec)
  {
    InitIfNot(instance, config);
    sent := ServiceParams(lambdaFunctionName, functionArgs, synchronous, codec);
    effects := Settle(send(sent), sent, cb, codec);
  }

  /** `Lambda.isLambdaInstance`: the request data is present and is not the sentinel `false`. */
  function IsLambdaInstance(instance: Instance): (b: bool)
    reads instance
    ensures !b <==> instance.request == Undefined || instance.request == Null || instance.request == Bool(false)
    ensures instance.request.Obj? ==> b
    ensures b && !Truthy(instance.request) ==> instance.request == Num(0) || instance.request == Str("")
  {
    !IsNullOrUndefined(instance.request) && instance.request != Bool(false)
  }

  /**
    `Lambda.loadLambdaArgsToInstance`: reset auth, request and response, lock cleanup and
    install the response closure whatever the event; then copy the auth fields a present
    event carries, each under its own guard.
   */
  method LoadLambdaArgsToInstance(instance: Instance, event: Option<Event>, responseCallback: CallbackRef, codec: Codec)
    modifies instance`auth, instance`request, instance`response, instance`cleanupLocked, instance`gatewayResponseCallback
    ensures instance.auth == Some(BoundAuth(event, codec))
    ensures instance.request == EmptyObject && instance.response == EmptyObject
    ensures instance.cleanupLocked
    ensures instance.gatewayResponseCallback == Some(Gateway(responseCallback))
    ensures IsLambdaInstance(instance)
  {
    instance.auth := Some(UnsetAuth);
    instance.request := EmptyObject;
    instance.response := EmptyObject;
    instance.cleanupLocked := true;
    instance.gatewayResponseCallback := Some(Gateway(responseCallback));

    if event.None? {
      return;
    }
    var e := event.value;

    if e.authorizationToken.Some? && Truthy(e.authorizationToken.value) {
      instance.auth := Some(instance.auth.value.(token := e.authorizationToken.value));
    }

    if e.methodArn.Some? && Truthy(e.methodArn.value) {
      instance.auth := Some(instance.auth.value.(methodId := e.methodArn.value));
    }

    if && e.requestContext.Some?
       && e.requestContext.value.authorizer.Some?
       && e.requestContext.value.authorizer.value.stringKey.Some?
       && |e.requestContext.value.authorizer.value.stringKey.value| > 0
    {
      var key := e.requestContext.value.authorizer.value.stringKey.value;
      instance.auth := Some(instance.auth.value.(customData := codec.stringToJson(key)));
    }
  }

  /**
    `Lambda.returnResponseToLambdaCallback`: call the installed closure with `(null, response)`
    and report success. The source does not check that the closure was installed.
   */
  method ReturnResponseToLambdaCallback(instance: Instance, response: Value) returns (ok: bool, call: Call)
    requires instance.gatewayResponseCallback.Some?
    modifies instance`cleanupLocked
    ensures ok
    ensures call == Call(instance.gatewayResponseCallback.value.responseCallback, [Null, response])
    ensures !instance.cleanupLocked
  {
    call := instance.GatewayResponseCallback([Null, response]);
    ok := true;
  }

  /**
    The call sequence of the repository's test script on a fresh context: the loader's
    override with the account's key, secret and region, an asynchronous invoke, a binding
    with no event, a response returned, and the instance check.
   */
  method TestScriptSequence(
    codec: Codec, send: InvokeParams -> Transport, testOutput: CallbackRef, lambdaName: string,
    key: Value, secret: Value, region: Value)
    returns (sent: InvokeParams, invokeCalls: seq<Call>, lambdaSlot: Slot, lockedAfterBind: bool,
             auth: Option<Auth>, responseCall: Call, lockedAfterReturn: bool, bound: bool)
    ensures sent.functionName == lambdaName && sent.invocationType == "Event" && sent.logType == "None"
    ensures |invokeCalls| == 1 && invokeCalls[0].callback == testOutput
    ensures lambdaSlot == Client(LambdaClient(region, key, secret, Undefined))
    ensures lockedAfterBind && auth == Some(UnsetAuth)
    ensures responseCall == Call(testOutput, [Null, Obj(map["a" := Num(2), "b" := Str("hello")])])
    ensures !lockedAfterReturn && bound
  {
    var config := new Config();
    Loader(config, Some(map["KEY" := key, "SECRET" := secret, "REGION" := region]));
    var instance := new Instance(Undefined);
    var effects;
    sent, effects := Invoke(instance, config, testOutput, lambdaName, EmptyObject, Bool(false), send, codec);
    invokeCalls := Calls(effects);
    lambdaSlot := instance.aws.value["lambda"];

    LoadLambdaArgsToInstance(instance, None, testOutput, codec);
    lockedAfterBind := instance.cleanupLocked;
    auth := instance.auth;

    var ok;
    ok, responseCall := ReturnResponseToLambdaCallback(instance, Obj(map["a" := Num(2), "b" := Str("hello")]));
    lockedAfterReturn := instance.cleanupLocked;
    bound := IsLambdaInstance(instance);
  }

}
