/**
  Server configuration read from the environment. The environment is a
  parameter: a map from variable name to value, where an unset variable is
  simply absent (Go's `os.Getenv` reports it as the empty string).
 */
module Config {

  type Env = map<string, string>

  /** The environment value for `key` when it is set and non-empty, else `fallback`. */
  function GetEnv(env: Env, key: string, fallback: string): (r: string)
    ensures key in env && env[key] != "" ==> r == env[key]
    ensures key !in env || env[key] == "" ==> r == fallback
  {
    if key in env && env[key] != "" then env[key] else fallback
  }

  /** A non-empty default guarantees a non-empty setting, whatever the environment holds. */
  lemma GetEnvNeverEmpty(env: Env, key: string, fallback: string)
    requires fallback != ""
    ensures GetEnv(env, key, fallback) != ""
  {
  }

  /** Host and port of the listening server; the timeouts are not part of this model. */
  datatype ServerConfig = ServerConfig(host: string, port: string)

  function LoadConfig(env: Env): (c: ServerConfig)
    ensures c.host != "" && c.port != ""
    ensures "SERVER_HOST" !in env || env["SERVER_HOST"] == "" ==> c.host == "0.0.0.0"
    ensures "SERVER_PORT" !in env || env["SERVER_PORT"] == "" ==> c.port == "8080"
    ensures "SERVER_PORT" in env && env["SERVER_PORT"] != "" ==> c.port == env["SERVER_PORT"]
    ensures "SERVER_HOST" in env && env["SERVER_HOST"] != "" ==> c.host == env["SERVER_HOST"]
  {
    ServerConfig(GetEnv(env, "SERVER_HOST", "0.0.0.0"), GetEnv(env, "SERVER_PORT", "8080"))
  }
}
