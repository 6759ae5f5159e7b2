/** The two guards in front of the protected routes and the configuration
    fallbacks. Token verification itself is outside the model: a handler
    receives what verification yielded, `None` for a missing or invalid token. */
module Access {
  import opened Records

  /** The bearer-token guard: a request without verified claims is refused. */
  function Authenticate(auth: Option<Claims>): (f: Option<Failure>)
    ensures f.None? <==> auth.Some?
    ensures f.Some? ==> f.value == Unauthenticated
  {
    if auth.None? then Some(Unauthenticated) else None
  }

  /** The bearer-token guard followed by the admin guard: only verified claims
      whose admin flag is set get through. */
  function AdminGate(auth: Option<Claims>): (f: Option<Failure>)
    ensures f.None? <==> auth.Some? && auth.value.isAdmin
    ensures auth.None? ==> f == Some(Unauthenticated)
    ensures auth.Some? && !auth.value.isAdmin ==> f == Some(AdminsOnly)
  {
    match Authenticate(auth)
    case Some(failure) => Some(failure)
    case None => if auth.value.isAdmin then None else Some(AdminsOnly)
  }

  /** `value || fallback` on an environment variable: an unset or empty
      variable yields the fallback. */
  function EnvOr(value: Option<string>, fallback: string): (s: string)
    ensures value.Some? && value.value != "" ==> s == value.value
    ensures value.None? || value.value == "" ==> s == fallback
  {
    if value.Some? && value.value != "" then value.value else fallback
  }
}
