/** The API-key check on the mutating routes: header `x-api-key` against a
    configured key. */
module Auth {
  import opened Wrappers
  import opened Http

  const DefaultApiKey: string := "secret-api-key"

  /** `process.env.API_KEY || 'secret-api-key'`: an unset or empty variable
      falls back to the default. */
  function ConfiguredKey(env: Option<string>): (k: string)
    ensures k != ""
    ensures env.Some? && env.value != "" ==> k == env.value
    ensures env == None || env == Some("") ==> k == DefaultApiKey
  {
    if env.Some? && env.value != "" then env.value else DefaultApiKey
  }

  /** The middleware either answers itself or calls `next`. */
  datatype Decision = Reject(response: Response) | Proceed

  /** `auth`: a missing or empty key is 401, a different key is 403, the
      configured key proceeds. */
  function Check(header: Option<string>, apiKey: string): (d: Decision)
    ensures header == None || header == Some("") ==>
      d == Reject(Response(401, ErrorMessage("Missing API key")))
    ensures header.Some? && header.value != "" && header.value != apiKey ==>
      d == Reject(Response(403, ErrorMessage("Invalid API key")))
    ensures d.Proceed? <==> header.Some? && header.value != "" && header.value == apiKey
  {
    if header == None || header.value == "" then
      Reject(Response(401, ErrorMessage("Missing API key")))
    else if header.value != apiKey then
      Reject(Response(403, ErrorMessage("Invalid API key")))
    else
      Proceed
  }

  /** A request without a key is never told that its key is wrong, and with
      the configured key (never empty) a request proceeds exactly when it
      sends that key. */
  lemma MissingBeforeInvalid(header: Option<string>, env: Option<string>)
    ensures header == None ==> Check(header, ConfiguredKey(env)).response.status == 401
    ensures Check(header, ConfiguredKey(env)).Proceed? <==> header == Some(ConfiguredKey(env))
    ensures Check(header, ConfiguredKey(env)).Reject? ==>
      Check(header, ConfiguredKey(env)).response.status in {401, 403}
  {
  }
}
