/**
 * Application settings: the `APP_ENV` validator, the environment predicates
 * and the log level chosen for each environment. The remaining fields of the
 * settings class are loaded by pydantic from the process environment and are
 * not part of this model.
 */
module Settings {
  import opened Wrappers

  /** The environment used when `APP_ENV` is not set. */
  const DefaultAppEnv: string := "development"

  /** The accepted environments, in the order the error message lists them. */
  const ValidEnvs: seq<string> := ["development", "staging", "production"]

  /** `", ".join(items)`. */
  function Join(items: seq<string>, sep: string): (r: string)
    ensures items == [] ==> r == ""
    ensures |items| == 1 ==> r == items[0]
    decreases |items|
  {
    if items == [] then ""
    else if |items| == 1 then items[0]
    else items[0] + sep + Join(items[1..], sep)
  }

  /** The message of the `ValueError` raised for an unknown environment. */
  const InvalidEnvMessage: string := "APP_ENV deve ser um de: " + Join(ValidEnvs, ", ")

  /** The message lists the accepted environments, comma-separated, in order. */
  lemma InvalidEnvMessageText()
    ensures InvalidEnvMessage == "APP_ENV deve ser um de: " + "development, staging, production"
  {
    assert ValidEnvs[1..][1..] == ["production"];
    assert Join(ValidEnvs[1..], ", ") == "staging, production";
  }

  /** `validate_environment`: the value is kept as it is when accepted, `ValueError` otherwise. */
  function ValidateEnvironment(v: string): (r: Result<string, string>)
    ensures r.Success? <==> v == "development" || v == "staging" || v == "production"
    ensures r.Success? ==> r.value == v
    ensures r.Failure? ==> r.error == InvalidEnvMessage
  {
    if v !in ValidEnvs then Failure(InvalidEnvMessage)
    else Success(v)
  }

  predicate IsDevelopment(env: string) { env == "development" }
  predicate IsStaging(env: string) { env == "staging" }
  predicate IsProduction(env: string) { env == "production" }

  /** An accepted environment satisfies exactly one of the three predicates. */
  lemma ExactlyOneEnvironment(env: string)
    requires ValidateEnvironment(env).Success?
    ensures IsDevelopment(env) || IsStaging(env) || IsProduction(env)
    ensures !(IsDevelopment(env) && IsStaging(env))
    ensures !(IsDevelopment(env) && IsProduction(env))
    ensures !(IsStaging(env) && IsProduction(env))
  {
  }

  /** The default environment passes the validator unchanged. */
  lemma DefaultEnvironmentIsValid()
    ensures ValidateEnvironment(DefaultAppEnv) == Success("development")
  {
  }

  /**
   * `get_log_level`: debug output in development only. Staging and every
   * other environment, production included, log at INFO.
   */
  function LogLevel(env: string): (r: string)
    ensures r == "DEBUG" <==> IsDevelopment(env)
    ensures r == "INFO" <==> !IsDevelopment(env)
  {
    if IsDevelopment(env) then "DEBUG"
    else if IsStaging(env) then "INFO"
    else "INFO"
  }
}
