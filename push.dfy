/**
 * The push request, the tenant default and the mapping of a thrown push
 * failure to the message the action reports.
 */
module Push {
  import opened Payload

  const PushPath: string := "/loki/api/v1/push"
  /** Loki's own tenant when multi-tenancy is off. */
  const DefaultTenant: string := "fake"
  const UnknownErrorMessage: string := "An unknown error occurred"

  /** One authenticated POST of the payload. */
  datatype Request = Request(url: string, tenant: string, username: string, password: string, body: LogPushPayload)

  /** What a failed POST throws: an `Error` object with its message, or any other value. */
  datatype Thrown = ErrorObject(message: string) | OtherThrown

  /** The outcome of the transport call: the response data, or what it threw. */
  datatype PostResult = Accepted(data: string) | Threw(thrown: Thrown)

  /** JavaScript's `value || fallback` on strings: the empty string is falsy. */
  function OrElse(value: string, fallback: string): (r: string)
    ensures value != "" ==> r == value
    ensures value == "" ==> r == fallback
  {
    if value == "" then fallback else value
  }

  /** The tenant header value: the configured tenant, or `fake` when none is configured. */
  function EffectiveTenant(tenant: string): (t: string)
    ensures t != ""
    ensures tenant != "" ==> t == tenant
    ensures tenant == "" ==> t == DefaultTenant
  {
    OrElse(tenant, DefaultTenant)
  }

  /** The header says `fake` exactly when the tenant is unset or is itself `fake`. */
  lemma EffectiveTenantIsFake(tenant: string)
    ensures EffectiveTenant(tenant) == DefaultTenant <==> tenant == "" || tenant == DefaultTenant
  {
  }

  /** Defaulting an already defaulted tenant changes nothing. */
  lemma EffectiveTenantIdempotent(tenant: string)
    ensures EffectiveTenant(EffectiveTenant(tenant)) == EffectiveTenant(tenant)
  {
  }

  /** The push endpoint: the configured address followed by the push path. */
  function PushUrl(address: string): (u: string)
    ensures |u| == |address| + |PushPath|
    ensures u[..|address|] == address && u[|address|..] == PushPath
  {
    address + PushPath
  }

  /** The text the action fails with when the POST throws. */
  function FailureMessage(thrown: Thrown): (m: string)
    ensures thrown.ErrorObject? ==> m == thrown.message
    ensures thrown.OtherThrown? ==> m == UnknownErrorMessage
  {
    match thrown
    case ErrorObject(message) => message
    case OtherThrown => UnknownErrorMessage
  }
}
