/**
 * The web-notify step run after the handler: AbstractRestApiRequestHandler.getBodyAsString
 * and the decision and payload of processResponse.
 */
module WebNotify {
  import opened Wrappers
  import opened ApiTypes

  const BodyRequired := "request body is required"

  /**
   * getBodyAsString: the body, Base64-decoded (basic alphabet, section 4 of RFC 4648) and
   * read as UTF-8 when the event says it is encoded. A null or empty result is a Bad
   * request; a malformed encoding is the decoder's IllegalArgumentException.
   */
  function GetBodyAsString(decodeBase64: string -> Result<string, string>, event: Event)
    : (r: Result<string, Failure>)
    ensures r.Ok? ==> r.value != [] && event.body.Some?
    ensures r.Ok? && event.isBase64Encoded == Some(true) ==> decodeBase64(event.body.value).Ok?
    ensures r.Ok? ==> r.value == (if event.isBase64Encoded == Some(true)
                                  then decodeBase64(event.body.value).value else event.body.value)
    ensures event.body.None? ==> r == Err(Bad(BodyRequired))
    ensures event.body == Some([]) && event.isBase64Encoded != Some(true) ==> r == Err(Bad(BodyRequired))
    ensures r.Err? ==> r.error == Bad(BodyRequired)
                       || (event.isBase64Encoded == Some(true) && decodeBase64(event.body.value).Err?
                           && r.error == IllegalArgument(decodeBase64(event.body.value).error))
    ensures event.body.Some? && event.isBase64Encoded == Some(true) && decodeBase64(event.body.value).Err? ==>
              r == Err(IllegalArgument(decodeBase64(event.body.value).error))
    ensures event.body.Some? && event.isBase64Encoded == Some(true) && decodeBase64(event.body.value).Ok? ==>
              var text := decodeBase64(event.body.value).value;
              r == if text == [] then Err(Bad(BodyRequired)) else Ok(text)
    ensures event.body.Some? && event.isBase64Encoded != Some(true) ==>
              r == if event.body.value == [] then Err(Bad(BodyRequired)) else Ok(event.body.value)
  {
    if event.body.None? then Err(Bad(BodyRequired))
    else
      var body :-
        if event.isBase64Encoded == Some(true) then
          match decodeBase64(event.body.value)
          case Ok(text) => Ok(text)
          case Err(why) => Err(IllegalArgument(why))
        else Ok(event.body.value);
      if body == [] then Err(Bad(BodyRequired)) else Ok(body)
  }

  /** The query asks for notification: `webnotify` is exactly "true". */
  predicate NotifyRequested(event: Event) {
    QueryStringParameter(event, "webnotify") == Some("true")
  }

  /** OK, CREATED or ACCEPTED. */
  predicate NotifyStatus(status: nat) {
    status == 200 || status == 201 || status == 202
  }

  /** The message sent: siteId and documentId when present, and the body as `message`. */
  function Payload(siteId: Option<string>, documentId: Option<string>, message: string): (m: map<string, string>)
    ensures "message" in m && m["message"] == message
    ensures "siteId" in m <==> siteId.Some?
    ensures siteId.Some? ==> m["siteId"] == siteId.value
    ensures "documentId" in m <==> documentId.Some?
    ensures documentId.Some? ==> m["documentId"] == documentId.value
    ensures m.Keys <= {"siteId", "documentId", "message"}
  {
    var withSite := if siteId.Some? then map["siteId" := siteId.value] else map[];
    var withDoc := if documentId.Some? then withSite["documentId" := documentId.value] else withSite;
    withDoc["message" := message]
  }

  function Lookup(m: map<string, string>, key: string): Option<string> {
    if key in m then Some(m[key]) else None
  }

  /**
   * processResponse, as a value: the message to send (if any), or what it throws. A null
   * response or null path parameters are dereferenced only when a notification is due.
   */
  function Notification(decodeBase64: string -> Result<string, string>, event: Event, resp: Option<HandlerResponse>)
    : (r: Result<Option<map<string, string>>, Failure>)
    ensures !NotifyRequested(event) ==> r == Ok(None)
    ensures NotifyRequested(event) && resp.Some? && !NotifyStatus(resp.value.status) ==> r == Ok(None)
    ensures NotifyRequested(event) && resp.None? ==> r.Err? && r.error.Unclassified?
    ensures NotifyRequested(event) && resp.Some? && NotifyStatus(resp.value.status) ==>
              match GetBodyAsString(decodeBase64, event)
              case Err(f) => r == Err(f)
              case Ok(body) =>
                if event.pathParameters.None? then r.Err? && r.error.Unclassified?
                else r == Ok(Some(Payload(event.authorizer.siteId,
                                          Lookup(event.pathParameters.value, "documentId"), body)))
  {
    if !NotifyRequested(event) then Ok(None)
    else if resp.None? then Err(Unclassified("NullPointerException"))
    else if !NotifyStatus(resp.value.status) then Ok(None)
    else
      var siteId := event.authorizer.siteId;
      var body :- GetBodyAsString(decodeBase64, event);
      if event.pathParameters.None? then Err(Unclassified("NullPointerException"))
      else
        var documentId := Lookup(event.pathParameters.value, "documentId");
        Ok(Some(Payload(siteId, documentId, body)))
  }

  /**
   * Exactly one message is produced when notification is requested, the response is
   * OK/CREATED/ACCEPTED and the body is readable; and then its `message` is the body.
   */
  lemma NotifiesExactlyWhen(decodeBase64: string -> Result<string, string>, event: Event, resp: Option<HandlerResponse>)
    ensures var r := Notification(decodeBase64, event, resp);
      (r.Ok? && r.value.Some?) <==>
        (NotifyRequested(event) && resp.Some? && NotifyStatus(resp.value.status)
         && GetBodyAsString(decodeBase64, event).Ok? && event.pathParameters.Some?)
    ensures var r := Notification(decodeBase64, event, resp);
      r.Ok? && r.value.Some? ==> r.value.value["message"] == GetBodyAsString(decodeBase64, event).value
  {
  }

  /** A notify-eligible success without a body is a Bad request. */
  lemma MissingBodyIsBad(decodeBase64: string -> Result<string, string>, event: Event, resp: HandlerResponse)
    requires NotifyRequested(event) && NotifyStatus(resp.status) && event.body.None?
    ensures Notification(decodeBase64, event, Some(resp)) == Err(Bad(BodyRequired))
  {
  }
}
