/** Choice of the `Access-Control-Allow-Origin` value (`getCorsOrigin`). */
module Cors {
  import opened Common

  /** `ALLOWED_ORIGINS`, in the order the configuration lists them. */
  const AllowedOrigins: seq<string> := [
    "https://bf.memorykeep.cloud",
    "https://memorykeep.cloud",
    "http://localhost:5173",
    "http://localhost:8888"
  ]

  /** The request's `Origin` header (`$_SERVER['HTTP_ORIGIN'] ?? ''`) is echoed
      when it is allow-listed; anything else gets the first allowed origin.
      None of the allowed origins is a numeric string, so PHP's loose
      `in_array` comparison coincides with string equality here. */
  function CorsOrigin(origin: Option<string>): (r: string)
    ensures r in AllowedOrigins
    ensures r == origin.GetOr("") <==> origin.GetOr("") in AllowedOrigins
    ensures origin.GetOr("") !in AllowedOrigins ==> r == AllowedOrigins[0]
  {
    var o := origin.GetOr("");
    if o in AllowedOrigins then o else AllowedOrigins[0]
  }

  /** Requests without an `Origin` header get the default origin. */
  lemma MissingOriginGetsDefault()
    ensures CorsOrigin(None) == "https://bf.memorykeep.cloud"
  {
  }
}
