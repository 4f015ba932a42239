/** The API-key filter in front of the migration endpoint, as a decision: answer the request with a
    status code and a text, or let it through to the action. */
module ApiKeyGate {
  import opened Guards

  /** The request header that carries the key. */
  const HeaderName := "x-api-key"

  const ConfigurationError := "Server configuration error."
  const KeyMissing := "API Key is missing."
  const KeyInvalid := "Invalid API Key."

  /** The filter's one effect: a result that short-circuits the action, or the call to `next`. */
  datatype Decision = Respond(statusCode: nat, content: string) | Proceed

  /** The request may go through: a key is configured and the header carries exactly that key. */
  predicate Authorized(configured: Option<string>, header: Option<string>) {
    configured.Some? && configured.value != "" && header == configured
  }

  /** OnActionExecutionAsync on the configured key (None for null) and the value of the `x-api-key`
      header (None when the request does not carry it). */
  function Authorize(configured: Option<string>, header: Option<string>): (d: Decision)
    ensures d.Proceed? <==> Authorized(configured, header)
    ensures configured.None? || configured.value == "" ==> d == Respond(500, ConfigurationError)
    ensures configured.Some? && configured.value != "" && header.None? ==> d == Respond(403, KeyMissing)
    ensures configured.Some? && configured.value != "" && header.Some? && header != configured
            ==> d == Respond(403, KeyInvalid)
  {
    if configured.None? || configured.value == "" then Respond(500, ConfigurationError)
    else if header.None? then Respond(403, KeyMissing)
    else if header.value != configured.value then Respond(403, KeyInvalid)
    else Proceed
  }

  /** A refusal is either the server's fault (500, whatever the request holds) or the client's
      (403, only when a key is configured); the two never overlap. */
  lemma RefusalIsServerOrClient(configured: Option<string>, header: Option<string>)
    ensures var d := Authorize(configured, header);
            d.Respond? ==> (d.statusCode == 500 <==> configured.None? || configured.value == "")
                           && (d.statusCode == 500 || d.statusCode == 403)
  {
  }

  /** Without a configured key nothing gets through, not even a request whose header is empty. */
  lemma UnconfiguredRefusesEverything(header: Option<string>)
    ensures Authorize(None, header) == Respond(500, ConfigurationError)
    ensures Authorize(Some(""), header) == Respond(500, ConfigurationError)
  {
  }
}
