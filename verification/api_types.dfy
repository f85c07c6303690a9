/**
 * The values the REST request dispatcher reads and produces: the inbound event, the
 * caller's authorizer flags, the typed failures handlers may throw, handler responses
 * and the outbound envelope.
 */
module ApiTypes {
  import opened Wrappers

  /** A JSON value: the tree Gson serialises an object to. */
  datatype Json =
    | JNull
    | JBool(b: bool)
    | JNumber(n: int)
    | JString(s: string)
    | JArray(items: seq<Json>)
    | JObject(fields: map<string, Json>)

  /** The caller's capabilities and tenant, as derived from the authorizer claims. */
  datatype Authorizer = Authorizer(
    callerAssumeRole: bool,
    callerIamUser: bool,
    userAdmin: bool,
    userReadAccess: bool,
    userWriteAccess: bool,
    siteId: Option<string>)

  /** An inbound API Gateway event; every reference field may be null. */
  datatype Event = Event(
    httpMethod: Option<string>,
    resource: Option<string>,
    path: Option<string>,
    headers: Option<map<string, string>>,
    pathParameters: Option<map<string, string>>,
    queryStringParameters: Option<map<string, string>>,
    body: Option<string>,
    isBase64Encoded: Option<bool>,
    authorizer: Authorizer)

  /** The query parameter `name`, or null when it or the whole query map is absent. */
  function QueryStringParameter(event: Event, name: string): (v: Option<string>)
    ensures v.Some? <==> event.queryStringParameters.Some? && name in event.queryStringParameters.value
    ensures v.Some? ==> v.value == event.queryStringParameters.value[name]
  {
    match event.queryStringParameters
    case None => None
    case Some(q) => if name in q then Some(q[name]) else None
  }

  /** One record of a queued-message batch: its event source and its other fields. */
  datatype Record = Record(eventSource: Option<string>, payload: Json)

  /** The inbound text, as parsed once as an event (null when the text is "null") and once as a batch. */
  datatype Input = Input(event: Option<Event>, records: seq<Record>)

  /**
   * What a handler or the dispatcher itself may throw. The first eight are the
   * exception classes the dispatcher catches by name; `Unclassified` is any other
   * exception, including a NullPointerException inside the dispatcher.
   */
  datatype Failure =
    | NotFound(message: string)
    | TooManyRequests(message: string)
    | Bad(message: string)
    | IllegalArgument(message: string)
    | DateTime(message: string)
    | Forbidden(message: string)
    | Unauthorized(message: string)
    | NotImplemented(message: string)
    | Unclassified(message: string)

  /** The response object a handler returns, by its runtime class. */
  datatype ApiResponse =
    | Redirect(redirectUri: string)      // ApiRedirectResponse
    | Message(message: string)           // ApiMessageResponse
    | MapBody(entries: map<string, Json>) // ApiMapResponse
    | ResponseError(message: string)     // ApiResponseError
    | Other(json: Json)                  // any other response object, as Gson renders it

  /** What a handler method returns: a status code, header overrides and a response object. */
  datatype HandlerResponse = HandlerResponse(status: nat, headers: map<string, string>, response: ApiResponse)

  /** The HTTP verbs a handler has one method each for. */
  datatype Verb = Get | Delete | Head | Options | Patch | Post | Put

  /**
   * A registered handler: what each verb method does with an event (a returned
   * response, possibly null, or a thrown failure), and which methods it calls read-only.
   */
  datatype Handler = Handler(
    call: (Verb, Event) -> Result<Option<HandlerResponse>, Failure>,
    isReadonly: string -> bool)

  /** The JSON object written back: status code, headers and an optional body. */
  datatype Envelope = Envelope(statusCode: nat, headers: map<string, string>, body: Option<Json>)
}
