/** The values exchanged with the `auth` package: `auth.FromEnv` and
    `auth.FromConfig` each return a mode and an error. Their internals are
    not part of this model; the resolver only routes their results. */
module Auth {
  import opened Wrappers
  import opened ConfigValue

  /** An `auth.AuthMode`; `NoMode` is the nil interface. */
  datatype AuthMode = NoMode | Mode(description: string)

  /** The error half: `auth.ErrNoAuth` is the one the resolver tests for. */
  datatype AuthError = ErrNoAuth | Malformed(message: string)

  /** The pair `(AuthMode, error)` returned by `FromEnv` and `FromConfig`. */
  datatype AuthResult = AuthResult(mode: AuthMode, err: Option<AuthError>)

  /** A failed string type assertion on the "auth" entry leaves the
      string's zero value, so a non-string `auth` entry reaches
      `FromConfig` as the empty string. */
  function AuthStringOf(v: Value): (s: string)
    ensures v.Str? ==> s == v.s
    ensures !v.Str? ==> s == ""
  {
    match v
    case Str(t) => t
    case _ => ""
  }
}
