/** The CORS origin decision of the reusable middleware. */
module Cors {
  import opened JsValues

  /** The origins the middleware lets through besides requests without one. */
  const ACCEPTED_ORIGINS: seq<string> := [
    "http://localhost:3000",
    "http://localhost:3001",
    "http://localhost:5000",
    "http://localhost:8080"
  ]

  /** What the origin callback reports: `callback(null, true)` or
      `callback(new Error(message))`. */
  datatype Verdict = Allow | Deny(message: string)

  const DENIED_MESSAGE: string := "No permitido por CORS"

  /** The shared rule: an origin in `accepted`, or an absent or empty one. */
  function Decide(accepted: seq<string>, origin: Option<string>): Verdict
  {
    if (origin.Some? && origin.value in accepted) || !Truthy(origin) then Allow
    else Deny(DENIED_MESSAGE)
  }

  /** The `origin` callback built by `corsMiddleware({ acceptedOrigins })`.
      The option is read but never used: the module constant decides. */
  function CorsOrigin(acceptedOrigins: seq<string>, origin: Option<string>): (v: Verdict)
    ensures v == Allow <==>
      || origin == None
      || origin == Some("")
      || origin == Some("http://localhost:3000")
      || origin == Some("http://localhost:3001")
      || origin == Some("http://localhost:5000")
      || origin == Some("http://localhost:8080")
    ensures v != Allow ==> v == Deny("No permitido por CORS")
  {
    Decide(ACCEPTED_ORIGINS, origin)
  }

  /** Configuring the middleware with another list changes nothing. */
  lemma OptionIgnored(a: seq<string>, b: seq<string>, origin: Option<string>)
    ensures CorsOrigin(a, origin) == CorsOrigin(b, origin)
  {
  }

  /** Matching is exact: a different spelling of an accepted origin is denied. */
  lemma MatchIsCaseSensitive(acceptedOrigins: seq<string>)
    ensures CorsOrigin(acceptedOrigins, Some("HTTP://LOCALHOST:3000")).Deny?
    ensures CorsOrigin(acceptedOrigins, Some("http://localhost:3000/")).Deny?
  {
  }
}
