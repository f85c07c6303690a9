/**
 * The response envelope and the failure taxonomy: AbstractRestApiRequestHandler.createJsonHeaders,
 * buildResponse and the catch clauses of processApiGatewayRequest. Status codes are those of
 * section 15 of RFC 9110.
 */
module Responses {
  import opened Wrappers
  import opened ApiTypes

  const AllowHeaders := "Content-Type,X-Amz-Date,Authorization,X-Api-Key"
  const Found: nat := 302
  const InternalServerError := "Internal Server Error"

  /** The four headers every envelope starts from. */
  function CanonicalHeaders(): (h: map<string, string>) {
    map[
      "Access-Control-Allow-Headers" := AllowHeaders,
      "Access-Control-Allow-Methods" := "*",
      "Access-Control-Allow-Origin" := "*",
      "Content-Type" := "application/json"]
  }

  /** The JSON of an object whose one field is `message` (ApiMessageResponse, ApiResponseError). */
  function MessageJson(message: string): Json {
    JObject(map["message" := JString(message)])
  }

  /** Gson's rendering of a response object that carries a body. */
  function ToJson(resp: ApiResponse): Json
    requires !resp.Redirect?
  {
    match resp
    case Message(m) => MessageJson(m)
    case MapBody(entries) => JObject(entries)
    case ResponseError(m) => MessageJson(m)
    case Other(j) => j
  }

  /** The envelope answers with a Location header instead of a body. */
  predicate SetsLocation(status: nat, resp: ApiResponse) {
    resp.Redirect? || (status == Found && resp.Message?)
  }

  function LocationOf(resp: ApiResponse): string
    requires resp.Redirect? || resp.Message?
  {
    if resp.Redirect? then resp.redirectUri else resp.message
  }

  /**
   * buildResponse: a redirect, or a 302 with a message, gets the canonical headers plus
   * Location and no body (the overrides are dropped); any other response gets its JSON
   * as the body and the overrides merged over the canonical headers.
   */
  function ResponseEnvelope(status: nat, overrides: map<string, string>, resp: ApiResponse): (env: Envelope)
    ensures env.statusCode == status
    ensures env.body.None? <==> SetsLocation(status, resp)
    ensures SetsLocation(status, resp) ==>
              env.headers == CanonicalHeaders()["Location" := LocationOf(resp)]
    ensures !SetsLocation(status, resp) ==>
              env.headers == CanonicalHeaders() + overrides && env.body == Some(ToJson(resp))
  {
    if resp.Redirect? then
      Envelope(status, CanonicalHeaders()["Location" := resp.redirectUri], None)
    else if status == Found && resp.Message? then
      Envelope(status, CanonicalHeaders()["Location" := resp.message], None)
    else if resp.MapBody? then
      Envelope(status, CanonicalHeaders() + overrides, Some(JObject(resp.entries)))
    else
      Envelope(status, CanonicalHeaders() + overrides, Some(ToJson(resp)))
  }

  /**
   * Every canonical header survives unless an override of the same name replaces it,
   * and overrides appear exactly when there is a body.
   */
  lemma EnvelopeHeaders(status: nat, overrides: map<string, string>, resp: ApiResponse, k: string)
    ensures var env := ResponseEnvelope(status, overrides, resp);
      && (k in CanonicalHeaders() && k !in overrides ==> k in env.headers && env.headers[k] == CanonicalHeaders()[k])
      && (env.body.Some? && k in overrides ==> k in env.headers && env.headers[k] == overrides[k])
      && (env.body.None? ==> env.headers.Keys == CanonicalHeaders().Keys + {"Location"})
  {
  }

  /** An instance of ResponseEnvelope's body clause, kept as documentation: a map response's body is its map as a JSON object. */
  lemma MapBodyRoundTrip(status: nat, overrides: map<string, string>, entries: map<string, Json>)
    ensures ResponseEnvelope(status, overrides, MapBody(entries)).body == Some(JObject(entries))
    ensures ResponseEnvelope(status, overrides, MapBody(entries)).body.value.fields == entries
  {
  }

  /** The status code each exception class is answered with. */
  function StatusOf(f: Failure): (code: nat)
    ensures 400 <= code <= 501
    ensures code == 500 <==> f.Unclassified?
  {
    match f
    case NotFound(_) => 404
    case TooManyRequests(_) => 429
    case Bad(_) => 400
    case IllegalArgument(_) => 400
    case DateTime(_) => 400
    case Forbidden(_) => 403
    case Unauthorized(_) => 401
    case NotImplemented(_) => 501
    case Unclassified(_) => 500
  }

  /** The message the caller is shown: its own for a classified failure, a fixed one otherwise. */
  function ClientMessage(f: Failure): string {
    if f.Unclassified? then InternalServerError else f.message
  }

  /** The envelope a caught failure becomes: its status, no overrides, an ApiResponseError body. */
  function ErrorEnvelope(f: Failure): (env: Envelope)
    ensures env.statusCode == StatusOf(f)
    ensures env.headers == CanonicalHeaders()
    ensures env.body == Some(MessageJson(ClientMessage(f)))
  {
    ResponseEnvelope(StatusOf(f), map[], ResponseError(ClientMessage(f)))
  }

  /** The status mapping of the catch clauses, case by case. */
  lemma ErrorStatusTable(m: string)
    ensures ErrorEnvelope(NotFound(m)).statusCode == 404
    ensures ErrorEnvelope(TooManyRequests(m)).statusCode == 429
    ensures ErrorEnvelope(Bad(m)).statusCode == 400
    ensures ErrorEnvelope(IllegalArgument(m)).statusCode == 400
    ensures ErrorEnvelope(DateTime(m)).statusCode == 400
    ensures ErrorEnvelope(Forbidden(m)).statusCode == 403
    ensures ErrorEnvelope(Unauthorized(m)).statusCode == 401
    ensures ErrorEnvelope(NotImplemented(m)).statusCode == 501
    ensures ErrorEnvelope(Unclassified(m)).statusCode == 500
  {
  }

  /**
   * An unclassified failure's envelope does not depend on its message: the original
   * text can never reach the caller.
   */
  lemma UnclassifiedNeverLeaks(m1: string, m2: string)
    ensures ErrorEnvelope(Unclassified(m1)) == ErrorEnvelope(Unclassified(m2))
    ensures ErrorEnvelope(Unclassified(m1)).body == Some(MessageJson(InternalServerError))
  {
  }

  /** A classified failure keeps its own message and is never answered with 500. */
  lemma ClassifiedKeepsMessage(f: Failure)
    requires !f.Unclassified?
    ensures ErrorEnvelope(f).body == Some(MessageJson(f.message))
    ensures ErrorEnvelope(f).statusCode != 500
  {
  }
}
