/** The module-level configuration store of the adapter (config.js), overridable by the loader. */
module LambdaConfig {
  import opened JsValue

  /** The defaults: empty credentials and the US East (N. Virginia) region; no retry count. */
  function Defaults(): (m: map<string, Value>)
    ensures m.Keys == {"KEY", "SECRET", "REGION"}
    ensures Get(m, "REGION") == Str("us-east-1")
    ensures Get(m, "KEY") == Str("") && Get(m, "SECRET") == Str("")
    ensures Get(m, "MAX_RETRIES") == Undefined
  {
    map["KEY" := Str(""), "SECRET" := Str(""), "REGION" := Str("us-east-1")]
  }

  /** The shared, mutable configuration object. */
  class Config {
    var entries: map<string, Value>

    constructor ()
      ensures entries == Defaults()
    {
      entries := Defaults();
    }
  }

}
