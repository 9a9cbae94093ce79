/** `get_env_var`: the backend's one way of reading its configuration from the environment. */
module EnvVar {
  import opened Common

  /** The process ends through `sys.exit(status)` after printing `message` to stderr. */
  datatype Exit = Exit(status: int, message: string)

  function MissingMessage(key: string): string {
    "ERROR: Missing environment variables " + key + ", exiting..."
  }

  /**
   * `get_env_var(key, default)`: the environment's value when the key is set (even to the empty
   * string), else the default when one is given, else exit with status 1.
   */
  function GetEnvVar(env: map<string, string>, key: string, default: Option<string>): (r: Result<string, Exit>)
    ensures r.Success? <==> key in env || default.Some?
    ensures key in env ==> r.value == env[key]
    ensures key !in env && default.Some? ==> r.value == default.value
    ensures r.Failure? ==> r.error == Exit(1, MissingMessage(key))
  {
    if key in env then Success(env[key])
    else if default.Some? then Success(default.value)
    else Failure(Exit(1, MissingMessage(key)))
  }

  /** A set value wins over the default, and the empty string counts as set. */
  lemma SetValueWinsOverDefault(env: map<string, string>, key: string, default: string)
    requires key in env
    ensures GetEnvVar(env, key, Some(default)) == Success(env[key])
    ensures env[key] == "" ==> GetEnvVar(env, key, Some(default)) == Success("")
  {
  }

  /** Only a variable that is unset and has no default stops the process. */
  lemma ExitOnlyWhenUnsetWithoutDefault(env: map<string, string>, key: string, default: Option<string>)
    ensures GetEnvVar(env, key, default).Failure? <==> key !in env && default.None?
  {
  }
}
