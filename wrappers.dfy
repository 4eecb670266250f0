/** Small value types shared by the model: optional values, results with the
    errors the builder can raise, and opaque JSON values for the parts of the
    stub configuration and of the options that the builder only passes along. */
module Wrappers {

  /** A JavaScript value that may be `undefined`. */
  datatype Option<+T> = None | Some(value: T)

  /** The outcome of a step that may throw. */
  datatype Result<+T> = Ok(value: T) | Err(error: Error)

  /** The failures that reach the builder's single error boundary. */
  datatype Error =
    | MissingStubsConfigFile      // the explicit `throw` when `stubsConfigFile` is falsy
    | NotAnArray                  // TypeError: `data.map` on a loaded config that is not an array
    | EntryNullish                // TypeError: destructuring a `null` or `undefined` stub entry
    | ResponseUndefined           // TypeError: reading `file` of a stub entry without `response`
    | DevServerTargetUndefined    // TypeError: calling `split` on an undefined `devServerTarget`
    | Raised(message: string)     // raised by a collaborator: `require`, Stubby or the Architect

  /** An opaque JSON value: request matchers, extra response fields, TLS options. */
  datatype Json =
    | Null
    | Bool(b: bool)
    | Num(n: int)
    | Str(s: string)
    | Arr(items: seq<Json>)
    | Obj(fields: map<string, Json>)

  /** JavaScript truthiness of an optional string: `undefined` and `""` are falsy. */
  predicate Truthy(s: Option<string>)
  {
    s.Some? && s.value != ""
  }
}
