/** Values that flow between callers, the interceptor and the HTTP transports. */
module Http {

  datatype Option<+T> = None | Some(value: T)

  /** A request configuration. The interceptor never looks inside it except for the
      per-request opt-out flag; everything else is whatever the transport needs. */
  datatype Config = Config(url: string, headers: map<string, string>, ignoreAuthModule: bool)

  /** A transport response. A failed one (a "rejection") keeps the config that produced it. */
  datatype Response = Response(config: Config, status: int, data: string)

  /** What the promise of an issued request eventually delivers. */
  datatype Outcome = Success(response: Response) | Failure(response: Response)

  /** A transformation applied to a config before it is retried. Total: it cannot throw. */
  type Updater = Config -> Config

  /** The updater used when the caller gives none: the config is retried as it was. */
  function Identity(config: Config): Config { config }

  /** JavaScript truthiness of an optional string argument: undefined and "" are falsy. */
  predicate Truthy(reason: Option<string>) {
    reason.Some? && reason.value != ""
  }
}
