/**
 * The entry point of AbstractRestApiRequestHandler: classify the inbound event, route,
 * check access, call the handler, notify, and answer with exactly one envelope; or drain
 * a queued-message batch.
 */
module Dispatcher {
  import opened Wrappers
  import opened ApiTypes
  import opened Routing
  import opened AccessPolicy
  import opened Responses
  import opened WebNotify
  import opened Batch

  const InvalidRequest := "Invalid Request"
  const AccessDenied := "Access Denied"
  const NullPointer := "NullPointerException"

  /** isEmpty: a non-null event with neither headers nor path is read as a batch instead. */
  predicate IsEmpty(event: Option<Event>) {
    event.Some? && event.value.headers.None? && event.value.path.None?
  }

  /** The access gate: "options" is never checked; every other method needs HasAccess to grant it. */
  predicate Permitted(httpMethod: string, e: Event, handler: Handler) {
    !IsCheckAccess(httpMethod) || HasAccess(httpMethod, e.path, handler, e.authorizer) == Ok(true)
  }

  /**
   * The part of processRequest before the handler runs: the handler found and the
   * lower-cased method, or the NotFound/Forbidden (or null-path) failure.
   */
  function Route(urlMap: map<string, Handler>, event: Option<Event>): (r: Result<(Handler, string), Failure>)
    ensures event.None? || event.value.httpMethod.None? ==> r == Err(NotFound(InvalidRequest))
    ensures r.Ok? ==> event.Some? && event.value.httpMethod.Some?
    ensures r.Ok? ==> r.value.1 == ToLower(event.value.httpMethod.value)
    ensures r.Ok? ==> FindRequestHandler(urlMap, r.value.1, event.value.resource) == Ok(r.value.0)
    ensures event.Some? && event.value.httpMethod.Some? ==>
              var m := ToLower(event.value.httpMethod.value);
              var found := FindRequestHandler(urlMap, m, event.value.resource);
              && (r.Ok? <==> found.Ok? && Permitted(m, event.value, found.value))
              && (found.Err? ==> r == Err(found.error))
              && (found.Ok? && IsCheckAccess(m) ==>
                    match HasAccess(m, event.value.path, found.value, event.value.authorizer)
                    case Err(f) => r == Err(f)
                    case Ok(granted) => !granted ==> r == Err(Forbidden(AccessDenied)))
  {
    if event.None? || event.value.httpMethod.None? then Err(NotFound(InvalidRequest))
    else
      var e := event.value;
      var httpMethod := ToLower(e.httpMethod.value);
      var handler :- FindRequestHandler(urlMap, httpMethod, e.resource);
      if IsCheckAccess(httpMethod) then
        var access :- HasAccess(httpMethod, e.path, handler, e.authorizer);
        if access then Ok((handler, httpMethod)) else Err(Forbidden(AccessDenied))
      else Ok((handler, httpMethod))
  }

  /**
   * processRequest: a null event or method, a failed lookup, a failed or refused access
   * check each throw; a found and permitted request runs the verb method of its
   * lower-cased method.
   */
  function ProcessRequest(urlMap: map<string, Handler>, event: Option<Event>)
    : (r: Result<Option<HandlerResponse>, Failure>)
    ensures event.None? || event.value.httpMethod.None? ==> r == Err(NotFound(InvalidRequest))
    ensures event.Some? && event.value.httpMethod.Some? ==>
              var m := ToLower(event.value.httpMethod.value);
              var found := FindRequestHandler(urlMap, m, event.value.resource);
              && (found.Err? ==> r == Err(found.error))
              && (found.Ok? && Permitted(m, event.value, found.value) ==>
                    r == CallHandlerMethod(m, event.value, found.value))
              && (found.Ok? && IsCheckAccess(m) ==>
                    match HasAccess(m, event.value.path, found.value, event.value.authorizer)
                    case Err(f) => r == Err(f)
                    case Ok(granted) => !granted ==> r == Err(Forbidden(AccessDenied)))
  {
    var (handler, httpMethod) :- Route(urlMap, event);
    CallHandlerMethod(httpMethod, event.value, handler)
  }

  /** What one interactive request does: the verb method run (if any), the message sent (if any), the envelope. */
  datatype Trace = Trace(invoked: Option<Verb>, notification: Option<map<string, string>>, envelope: Envelope)

  /**
   * processApiGatewayRequest as a value. A message is sent only after a verb method ran
   * and returned OK, CREATED or ACCEPTED, and then the envelope carries that status.
   */
  function Dispatch(urlMap: map<string, Handler>, decodeBase64: string -> Result<string, string>, event: Option<Event>)
    : (t: Trace)
    ensures t.notification.Some? ==> t.invoked.Some? && NotifyStatus(t.envelope.statusCode)
    ensures t.invoked.None? ==> t.notification.None?
    ensures ProcessRequest(urlMap, event).Err? ==>
              t.envelope == ErrorEnvelope(ProcessRequest(urlMap, event).error) && t.notification.None?
    ensures ProcessRequest(urlMap, event) == Ok(None) ==>
              t.envelope == ErrorEnvelope(Unclassified(NullPointer)) && t.notification.None?
    ensures ProcessRequest(urlMap, event).Ok? && ProcessRequest(urlMap, event).value.Some? ==>
              var o := ProcessRequest(urlMap, event).value.value;
              match Notification(decodeBase64, event.value, Some(o))
              case Err(f) => t.envelope == ErrorEnvelope(f) && t.notification.None?
              case Ok(message) =>
                t.envelope == ResponseEnvelope(o.status, o.headers, o.response) && t.notification == message
  {
    match Route(urlMap, event)
    case Err(f) => Trace(None, None, ErrorEnvelope(f))
    case Ok((handler, httpMethod)) =>
      var e := event.value;
      var invoked := ParseVerb(httpMethod);
      match CallHandlerMethod(httpMethod, e, handler)
      case Err(f) => Trace(invoked, None, ErrorEnvelope(f))
      case Ok(returned) =>
        match Notification(decodeBase64, e, returned)
        case Err(f) => Trace(invoked, None, ErrorEnvelope(f))
        case Ok(sent) =>
          if returned.None? then Trace(invoked, sent, ErrorEnvelope(Unclassified(NullPointer)))
          else Trace(invoked, sent, ResponseEnvelope(returned.value.status, returned.value.headers, returned.value.response))
  }

  /**
   * An ordinary success without `webnotify`: the envelope is the handler's own response
   * and nothing is sent.
   */
  lemma PlainSuccessIsHandlerEnvelope(urlMap: map<string, Handler>, decodeBase64: string -> Result<string, string>,
                                      e: Event, o: HandlerResponse)
    requires ProcessRequest(urlMap, Some(e)) == Ok(Some(o)) && !NotifyRequested(e)
    ensures Dispatch(urlMap, decodeBase64, Some(e)).envelope == ResponseEnvelope(o.status, o.headers, o.response)
    ensures Dispatch(urlMap, decodeBase64, Some(e)).notification.None?
  {
  }

  /** A null event, or one without an HTTP method, is a 404 "Invalid Request" and runs nothing. */
  lemma InvalidRequestIsNotFound(urlMap: map<string, Handler>, decodeBase64: string -> Result<string, string>, event: Option<Event>)
    requires event.None? || event.value.httpMethod.None?
    ensures event.None? ==> !IsEmpty(event)
    ensures Dispatch(urlMap, decodeBase64, event) == Trace(None, None, ErrorEnvelope(NotFound(InvalidRequest)))
    ensures Dispatch(urlMap, decodeBase64, event).envelope.statusCode == 404
  {
  }

  /** An unregistered resource is a 404 whose message names the resource, and runs nothing. */
  lemma UnregisteredResourceIsNotFound(urlMap: map<string, Handler>, decodeBase64: string -> Result<string, string>, e: Event)
    requires e.httpMethod.Some? && ToLower(e.httpMethod.value) != "options"
    requires e.resource.None? || e.resource.value !in urlMap
    ensures Dispatch(urlMap, decodeBase64, Some(e))
            == Trace(None, None, ErrorEnvelope(NotFound(JavaString(e.resource) + " not found")))
  {
  }

  /**
   * A denied request is a 403 "Access Denied": no verb method runs and nothing is sent.
   */
  lemma DeniedRequestIsForbidden(urlMap: map<string, Handler>, decodeBase64: string -> Result<string, string>, e: Event)
    requires e.httpMethod.Some?
    requires var m := ToLower(e.httpMethod.value);
      && IsCheckAccess(m)
      && FindRequestHandler(urlMap, m, e.resource).Ok?
      && HasAccess(m, e.path, FindRequestHandler(urlMap, m, e.resource).value, e.authorizer) == Ok(false)
    ensures Dispatch(urlMap, decodeBase64, Some(e)) == Trace(None, None, ErrorEnvelope(Forbidden(AccessDenied)))
    ensures Dispatch(urlMap, decodeBase64, Some(e)).envelope.statusCode == 403
  {
  }

  /**
   * "options" is never access-checked: whenever the registry has the "options" key, its
   * options method runs, whatever the caller's flags, the resource and even a null path.
   */
  lemma OptionsSkipsAccessCheck(urlMap: map<string, Handler>, decodeBase64: string -> Result<string, string>, e: Event)
    requires e.httpMethod.Some? && ToLower(e.httpMethod.value) == "options"
    requires "options" in urlMap
    ensures Dispatch(urlMap, decodeBase64, Some(e)).invoked == Some(Options)
  {
    assert ParseVerb("options") == Some(Options);
  }

  /**
   * A verb outside the seven, on a registered resource the caller may use, runs no verb
   * method, sends nothing and is answered 500 "Internal Server Error".
   */
  lemma UnknownVerbIsServerError(urlMap: map<string, Handler>, decodeBase64: string -> Result<string, string>, e: Event)
    requires Route(urlMap, Some(e)).Ok?
    requires Route(urlMap, Some(e)).value.1 !in {"get", "delete", "head", "options", "patch", "post", "put"}
    ensures Dispatch(urlMap, decodeBase64, Some(e)) == Trace(None, None, ErrorEnvelope(Unclassified(NullPointer)))
    ensures Dispatch(urlMap, decodeBase64, Some(e)).envelope.statusCode == 500
    ensures Dispatch(urlMap, decodeBase64, Some(e)).envelope.body == Some(MessageJson(InternalServerError))
  {
  }

  /** A failure thrown by the verb method becomes its mapped envelope, and nothing is sent. */
  lemma HandlerFailureIsMapped(urlMap: map<string, Handler>, decodeBase64: string -> Result<string, string>, e: Event)
    requires ProcessRequest(urlMap, Some(e)).Err?
    ensures Dispatch(urlMap, decodeBase64, Some(e)).envelope == ErrorEnvelope(ProcessRequest(urlMap, Some(e)).error)
    ensures Dispatch(urlMap, decodeBase64, Some(e)).notification.None?
  {
  }

  /**
   * Exactly one message is sent when the verb method returns OK, CREATED or ACCEPTED,
   * `webnotify` is "true", the body is readable and path parameters exist; it carries the
   * body as `message`, and the envelope is then the handler's own response.
   */
  lemma NotifiesExactlyWhen(urlMap: map<string, Handler>, decodeBase64: string -> Result<string, string>, e: Event)
    ensures var t := Dispatch(urlMap, decodeBase64, Some(e));
      var p := ProcessRequest(urlMap, Some(e));
      t.notification.Some? <==>
        (p.Ok? && p.value.Some? && NotifyRequested(e) && NotifyStatus(p.value.value.status)
         && GetBodyAsString(decodeBase64, e).Ok? && e.pathParameters.Some?)
    ensures var t := Dispatch(urlMap, decodeBase64, Some(e));
      var p := ProcessRequest(urlMap, Some(e));
      t.notification.Some? ==>
        && t.notification.value["message"] == GetBodyAsString(decodeBase64, e).value
        && t.envelope == ResponseEnvelope(p.value.value.status, p.value.value.headers, p.value.value.response)
  {
    WebNotify.NotifiesExactlyWhen(decodeBase64, e, if ProcessRequest(urlMap, Some(e)).Ok? then ProcessRequest(urlMap, Some(e)).value else None);
  }

  /** A notify-eligible success without a body is turned into a 400 and sends nothing. */
  lemma NotifyWithoutBodyIsBadRequest(urlMap: map<string, Handler>, decodeBase64: string -> Result<string, string>, e: Event)
    requires ProcessRequest(urlMap, Some(e)).Ok? && ProcessRequest(urlMap, Some(e)).value.Some?
    requires NotifyStatus(ProcessRequest(urlMap, Some(e)).value.value.status)
    requires NotifyRequested(e) && e.body.None?
    ensures Dispatch(urlMap, decodeBase64, Some(e)).envelope == ErrorEnvelope(Bad(BodyRequired))
    ensures Dispatch(urlMap, decodeBase64, Some(e)).envelope.statusCode == 400
    ensures Dispatch(urlMap, decodeBase64, Some(e)).notification.None?
  {
    MissingBodyIsBad(decodeBase64, e, ProcessRequest(urlMap, Some(e)).value.value);
  }

  /** The result of one invocation: an envelope, a drained batch, or a batch ended by an exception. */
  datatype Invocation = Responded(envelope: Envelope) | Drained | Aborted

  /**
   * The request handler. Its registry, Base64 decoder and queue-record handler are fixed
   * at construction; what it changes is the record of messages sent to the web-notify
   * queue and of records handed to handleSqsRequest.
   */
  class RestApiRequestHandler {
    const urlMap: map<string, Handler>
    const decodeBase64: string -> Result<string, string>
    /** handleSqsRequest: false when it throws on the record. */
    const handleSqs: Record -> bool
    /** The messages sent to the web-notify queue, oldest first. */
    var sent: seq<map<string, string>>
    /** The records handed to handleSqsRequest, oldest first. */
    var sqsHandled: seq<Record>

    constructor (urlMap: map<string, Handler>, decodeBase64: string -> Result<string, string>, handleSqs: Record -> bool)
      ensures this.urlMap == urlMap && this.decodeBase64 == decodeBase64 && this.handleSqs == handleSqs
      ensures sent == [] && sqsHandled == []
    {
      this.urlMap := urlMap;
      this.decodeBase64 := decodeBase64;
      this.handleSqs := handleSqs;
      sent := [];
      sqsHandled := [];
    }

    /** createJsonHeaders: the four canonical headers. */
    method CreateJsonHeaders() returns (headers: map<string, string>)
      ensures headers.Keys == {"Access-Control-Allow-Headers", "Access-Control-Allow-Methods",
                               "Access-Control-Allow-Origin", "Content-Type"}
      ensures headers == CanonicalHeaders()
    {
      headers := map[];
      headers := headers["Access-Control-Allow-Headers" := AllowHeaders];
      headers := headers["Access-Control-Allow-Methods" := "*"];
      headers := headers["Access-Control-Allow-Origin" := "*"];
      headers := headers["Content-Type" := "application/json"];
    }

    /** buildResponse: the envelope for a status, header overrides and a response object. */
    method BuildResponse(status: nat, headers: map<string, string>, apiResponse: ApiResponse) returns (env: Envelope)
      ensures env == ResponseEnvelope(status, headers, apiResponse)
      ensures env.statusCode == status
      ensures env.body.None? <==> SetsLocation(status, apiResponse)
    {
      var jsonheaders := CreateJsonHeaders();
      var body: Option<Json> := None;
      if apiResponse.Redirect? {
        jsonheaders := jsonheaders["Location" := apiResponse.redirectUri];
      } else if status == Found && apiResponse.Message? {
        jsonheaders := jsonheaders["Location" := apiResponse.message];
      } else if apiResponse.MapBody? {
        body := Some(JObject(apiResponse.entries));
        jsonheaders := jsonheaders + headers;
      } else {
        body := Some(ToJson(apiResponse));
        jsonheaders := jsonheaders + headers;
      }
      env := Envelope(status, jsonheaders, body);
    }

    /** processResponse: send the web-notify message when one is due, or throw. */
    method ProcessResponse(event: Event, resp: Option<HandlerResponse>) returns (r: Result<(), Failure>)
      modifies this`sent
      ensures var n := Notification(decodeBase64, event, resp);
        && (n.Err? ==> r == Err(n.error) && sent == old(sent))
        && (n.Ok? && n.value.None? ==> r.Ok? && sent == old(sent))
        && (n.Ok? && n.value.Some? ==> r.Ok? && sent == old(sent) + [n.value.value])
    {
      r := Ok(());
      var webnotify := QueryStringParameter(event, "webnotify");
      if webnotify == Some("true") {
        if resp.None? {
          r := Err(Unclassified(NullPointer));
          return;
        }
        var status := resp.value.status;
        if status == 200 || status == 201 || status == 202 {
          var siteId := event.authorizer.siteId;
          var body := GetBodyAsString(decodeBase64, event);
          if body.Err? {
            r := Err(body.error);
            return;
          }
          if event.pathParameters.None? {
            r := Err(Unclassified(NullPointer));
            return;
          }
          var documentId := Lookup(event.pathParameters.value, "documentId");
          var m: map<string, string> := map[];
          if siteId.Some? {
            m := m["siteId" := siteId.value];
          }
          if documentId.Some? {
            m := m["documentId" := documentId.value];
          }
          m := m["message" := body.value];
          assert m == Payload(siteId, documentId, body.value);
          sent := sent + [m];
        }
      }
    }

    /** processApiGatewayRequest: exactly one envelope, and the message of Dispatch sent if any. */
    method ProcessApiGatewayRequest(event: Option<Event>) returns (env: Envelope)
      modifies this`sent
      ensures var t := Dispatch(urlMap, decodeBase64, event);
        env == t.envelope && sent == old(sent) + (if t.notification.Some? then [t.notification.value] else [])
    {
      var outcome: Result<HandlerResponse, Failure>;
      var processed := ProcessRequest(urlMap, event);
      if processed.Err? {
        outcome := Err(processed.error);
      } else {
        var returned := processed.value;
        var notified := ProcessResponse(event.value, returned);
        if notified.Err? {
          outcome := Err(notified.error);
        } else if returned.None? {
          outcome := Err(Unclassified(NullPointer));
        } else {
          outcome := Ok(returned.value);
        }
      }
      match outcome {
        case Ok(o) =>
          env := BuildResponse(o.status, o.headers, o.response);
        case Err(f) =>
          env := BuildResponse(StatusOf(f), map[], ResponseError(ClientMessage(f)));
      }
    }

    /**
     * handleRequest: an event with headers or a path (or a null event) is answered with
     * one envelope; otherwise the batch's queue records go to handleSqsRequest in order,
     * and the first one that throws ends the invocation.
     */
    method HandleRequest(input: Input) returns (result: Invocation)
      modifies this
      ensures !IsEmpty(input.event) ==>
        var t := Dispatch(urlMap, decodeBase64, input.event);
        && result == Responded(t.envelope)
        && sent == old(sent) + (if t.notification.Some? then [t.notification.value] else [])
        && sqsHandled == old(sqsHandled)
      ensures IsEmpty(input.event) ==>
        && result == (if BatchAborts(input.records, handleSqs) then Aborted else Drained)
        && sqsHandled == old(sqsHandled) + BatchCalls(input.records, handleSqs)
        && sent == old(sent)
    {
      if !IsEmpty(input.event) {
        var env := ProcessApiGatewayRequest(input.event);
        result := Responded(env);
      } else {
        result := HandleRecords(input.records);
      }
    }

    /** The loop of handleRequest over a batch's records. */
    method HandleRecords(records: seq<Record>) returns (result: Invocation)
      modifies this`sqsHandled
      ensures result == (if BatchAborts(records, handleSqs) then Aborted else Drained)
      ensures sqsHandled == old(sqsHandled) + BatchCalls(records, handleSqs)
    {
      var i := 0;
      while i < |records|
        invariant 0 <= i <= |records|
        invariant old(sqsHandled) + BatchCalls(records, handleSqs) == sqsHandled + BatchCalls(records[i..], handleSqs)
        invariant BatchAborts(records, handleSqs) == BatchAborts(records[i..], handleSqs)
      {
        var record := records[i];
        assert records[i..][0] == record && records[i..][1..] == records[i + 1..];
        BatchStep(records[i..], handleSqs);
        if record.eventSource == Some(SqsSource) {
          sqsHandled := sqsHandled + [record];
          if !handleSqs(record) {
            result := Aborted;
            return;
          }
        }
        i := i + 1;
      }
      result := Drained;
    }
  }
}
