/**
  The per-request context ("instance") the adapter reads and writes, and the records
  stored in it. Only the fields this adapter touches are modelled; the context itself is
  created and torn down by an external instance manager.
 */
module RequestInstance {
  import opened Wrappers
  import opened JsValue

  /** `instance.auth`: three fields, each null until a guarded copy from the event sets it. */
  datatype Auth = Auth(token: Value, methodId: Value, customData: Value)

  const UnsetAuth: Auth := Auth(Null, Null, Null)

  /** An opaque reference to a caller-supplied callback function. */
  datatype CallbackRef = CallbackRef(id: nat)

  /** One invocation of a callback together with the argument list it received. */
  datatype Call = Call(callback: CallbackRef, args: seq<Value>)

  /** The closure installed as `instance.gateway_response_callback`, wrapping the original callback. */
  datatype Gateway = Gateway(responseCallback: CallbackRef)

  /** The SDK client handle, recorded by the settings it was constructed with. */
  datatype LambdaClient = LambdaClient(
    region: Value,
    accessKeyId: Value,
    secretAccessKey: Value,
    maxAttempts: Value)

  /** A value stored under a key of `instance.aws`: null, this adapter's client, or another library's client. */
  datatype Slot = NullSlot | Client(client: LambdaClient) | Foreign(tag: string)

  /** The part of the context owned by the lazy client initialiser, with the count of clients built. */
  datatype AwsState = AwsState(aws: Option<map<string, Slot>>, clientsBuilt: nat)

  class Instance {
    /** `instance.request`: absent, the sentinel `false`, or the request data. */
    var request: Value
    /** `instance.response`. */
    var response: Value
    /** `instance.auth`, absent before the event is bound. */
    var auth: Option<Auth>
    /** `instance.cleanup_locked`: true while the response has not been returned yet. */
    var cleanupLocked: bool
    /** `instance.gateway_response_callback`, absent before the event is bound. */
    var gatewayResponseCallback: Option<Gateway>
    /** `instance.aws`, the map of cached SDK clients, absent until first use. */
    var aws: Option<map<string, Slot>>
    /** How many Lambda clients have been constructed for this context. */
    ghost var clientsBuilt: nat

    /** A context as handed over by the instance manager: nothing bound, no clients. */
    constructor (request: Value)
      ensures this.request == request && response == Undefined
      ensures auth == None && !cleanupLocked && gatewayResponseCallback == None
      ensures aws == None && clientsBuilt == 0
    {
      this.request := request;
      response := Undefined;
      auth := None;
      cleanupLocked := false;
      gatewayResponseCallback := None;
      aws := None;
      clientsBuilt := 0;
    }

    ghost function Aws(): AwsState
      reads this
    {
      AwsState(aws, clientsBuilt)
    }

    /**
      Calling the installed `gateway_response_callback(...args)`: the argument list goes
      unchanged to the original response callback, after which cleanup is unlocked.
      The closure is called without any guard, so it must have been installed.
     */
    method GatewayResponseCallback(args: seq<Value>) returns (call: Call)
      requires gatewayResponseCallback.Some?
      modifies this`cleanupLocked
      ensures call == Call(gatewayResponseCallback.value.responseCallback, args)
      ensures !cleanupLocked
    {
      call := Call(gatewayResponseCallback.value.responseCallback, args);
      cleanupLocked := false;
    }
  }

}
