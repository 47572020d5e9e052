/** Vocabulary shared by the gateway and the identity service models. */
module Common {

  /** A value that may be absent: an unset header, a missing JSON field, a claim not in the payload. */
  datatype Option<+T> = None | Some(value: T)

  /** `process.env[key] || fallback`: an unset or empty variable yields the fallback. */
  function EnvOr(env: map<string, string>, key: string, fallback: string): string
  {
    if key in env && env[key] != "" then env[key] else fallback
  }

  /** `s.startsWith(p)` */
  predicate StartsWith(s: string, p: string)
  {
    |p| <= |s| && s[..|p|] == p
  }
}
