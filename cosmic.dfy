/**
 * `lib/cosmic.ts`: the start-up check on the CMS credentials and the
 * `hasStatus` classifier for caught errors.
 */
module Cosmic {
  import opened Wrappers
  import opened Js

  /** The process environment, as the variables that are set. */
  type Environment = map<string, string>

  /** The configuration the shared CMS client is built from. */
  datatype ClientConfig = ClientConfig(
    bucketSlug: string,
    readKey: string,
    writeKey: Option<string>,
    apiEnvironment: string)

  /** Module initialisation either yields the client configuration or throws this message. */
  datatype Init = Configured(config: ClientConfig) | InitError(message: string)

  /** `!process.env.X`: the variable is unset or empty. */
  predicate Missing(env: Environment, name: string) {
    name !in env || env[name] == ""
  }

  /**
   * Loading the module throws unless the bucket slug and the read key are both
   * set and non-empty; the write key is passed through whether or not it is set.
   */
  function Initialise(env: Environment): (r: Init)
    ensures r.InitError? <==> Missing(env, "COSMIC_BUCKET_SLUG") || Missing(env, "COSMIC_READ_KEY")
    ensures r.InitError? ==> r.message == "Missing required Cosmic environment variables"
    ensures r.Configured? ==>
      && r.config.bucketSlug == env["COSMIC_BUCKET_SLUG"] && r.config.bucketSlug != ""
      && r.config.readKey == env["COSMIC_READ_KEY"] && r.config.readKey != ""
      && r.config.writeKey == (if "COSMIC_WRITE_KEY" in env then Some(env["COSMIC_WRITE_KEY"]) else None)
      && r.config.apiEnvironment == "staging"
  {
    if Missing(env, "COSMIC_BUCKET_SLUG") || Missing(env, "COSMIC_READ_KEY") then
      InitError("Missing required Cosmic environment variables")
    else
      Configured(ClientConfig(
        env["COSMIC_BUCKET_SLUG"],
        env["COSMIC_READ_KEY"],
        if "COSMIC_WRITE_KEY" in env then Some(env["COSMIC_WRITE_KEY"]) else None,
        "staging"))
  }

  /** The write key is optional: whether it is set never decides whether start-up succeeds. */
  lemma WriteKeyOptional(env: Environment, writeKey: string)
    ensures Initialise(env).Configured? <==> Initialise(env["COSMIC_WRITE_KEY" := writeKey]).Configured?
    ensures Initialise(env).Configured? <==> Initialise(env - {"COSMIC_WRITE_KEY"}).Configured?
  {
  }

  /**
   * `hasStatus(error)`: `typeof error === 'object' && error !== null &&
   * 'status' in error && typeof error.status === 'number'`.
   */
  predicate HasStatus(error: Value) {
    error.Object? && "status" in error.props && error.props["status"].Num?
  }

  /** The error's numeric status, for an error that `HasStatus` accepts. */
  function Status(error: Value): int
    requires HasStatus(error)
  {
    error.props["status"].n
  }

  /** `hasStatus(error) && error.status === 404`: the not-found classification used by every getter. */
  predicate IsNotFound(error: Value) {
    HasStatus(error) && Status(error) == 404
  }

  /**
   * What `hasStatus` accepts and refuses: `null`, `undefined` and every
   * primitive are refused; an object is accepted exactly when it has a
   * `status` property holding a number.
   */
  lemma HasStatusClassifies(error: Value)
    ensures !error.Object? ==> !HasStatus(error)
    ensures error.Object? ==> (HasStatus(error) <==> Member(error, "status").value.Num?)
  {
  }
}
