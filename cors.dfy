/** The CORS origin check of the backend (backend/src/index.ts). */
module Cors {
  import opened Wrappers

  const DEFAULT_ORIGIN := "http://localhost:3000"
  const SECOND_ORIGIN := "http://localhost:3001"
  const REJECTION := "Not allowed by CORS"

  /** `allowedOrigins`: the configured origin (default port 3000) and port 3001. */
  function AllowedOrigins(corsOrigin: Option<string>): (r: seq<string>)
    ensures |r| == 2 && r[1] == SECOND_ORIGIN
    ensures corsOrigin.None? || corsOrigin.value == "" ==> r[0] == DEFAULT_ORIGIN
    ensures corsOrigin.Some? && corsOrigin.value != "" ==> r[0] == corsOrigin.value
  {
    [if corsOrigin.None? || corsOrigin.value == "" then DEFAULT_ORIGIN else corsOrigin.value, SECOND_ORIGIN]
  }

  /** What the `origin` callback reports: allowed, or an error. */
  datatype Verdict = Allowed | Rejected(message: string)

  /**
   * The `origin` callback: a request without an origin (or with an empty one)
   * passes, as does an origin equal to a listed one; every other origin is
   * rejected with an error.
   */
  function CheckOrigin(allowed: seq<string>, origin: Option<string>): (v: Verdict)
    ensures v.Allowed? <==> origin.None? || origin.value == "" || origin.value in allowed
    ensures v.Rejected? ==> v.message == REJECTION
  {
    if origin.None? || origin.value == "" || origin.value in allowed then Allowed
    else Rejected(REJECTION)
  }

  /** With no configuration exactly the two local development origins pass. */
  lemma DefaultAllowsOnlyLocalhost(origin: string)
    requires origin != ""
    ensures CheckOrigin(AllowedOrigins(None), Some(origin)).Allowed? <==>
      origin == DEFAULT_ORIGIN || origin == SECOND_ORIGIN
  {
  }

  /** The match is exact: extending an allowed origin does not pass. */
  lemma ExtensionIsRejected(suffix: string)
    requires suffix != ""
    ensures CheckOrigin(AllowedOrigins(None), Some(DEFAULT_ORIGIN + suffix)) == Rejected(REJECTION)
  {
    assert |DEFAULT_ORIGIN + suffix| > |DEFAULT_ORIGIN|;
  }
}
