# FormKiQ REST request dispatcher: a Dafny model

This project models the request dispatcher of FormKiQ's Lambda functions,
`AbstractRestApiRequestHandler`, and the `SearchQuery` object that its search handlers
validate.

Each invocation receives one raw event and does one of two things:

- **Interactive request.** The event has headers or a path, or it is null. The dispatcher
  lower-cases the HTTP method and looks up a handler in the URL map. The key is the
  resource, or the literal `"options"` for the options method. Every method except
  `options` then goes through the access policy. The matching verb method runs. When the
  query asks for it (`webnotify=true`), a web-notify message goes to a queue. Last, the
  outcome becomes exactly one envelope: `statusCode`, `headers` and an optional `body`.
- **Queued-message batch.** Otherwise the event is read as a batch. The records whose
  event source is `aws:sqs` go to `handleSqsRequest` in input order. An exception from
  `handleSqsRequest` ends the batch.

Exceptions are sorted into a fixed taxonomy. Each kind maps to a status code from section
15 of RFC 9110. Any unclassified exception becomes a 500 whose message is the fixed text
"Internal Server Error".

Files, one module each:

- `wrappers.dfy` (`Wrappers`): `Option` stands for nullable references and `Result` for
  thrown exceptions.
- `api_types.dfy` (`ApiTypes`): the event, authorizer flags, records, failure kinds,
  response objects, handlers and the envelope.
- `routing.dfy` (`Routing`): lower-casing, the verb switch, handler lookup.
- `access_policy.dfy` (`AccessPolicy`): `hasAccess`, `isPublicUrl`, `isCheckAccess`.
- `responses.dfy` (`Responses`): canonical headers, envelope construction, the
  status mapping.
- `web_notify.dfy` (`WebNotify`): reading the body and the notification decision.
- `batch.dfy` (`Batch`): which records `handleRequest` hands on, and when the batch aborts.
- `dispatcher.dfy` (`Dispatcher`): request processing as one pure function, `Dispatch`,
  and the class `RestApiRequestHandler`. Its methods build the headers and the envelope,
  send the notification and loop over the batch. Each method is proved equal to the
  pure specification.
- `search_query.dfy` (`SearchQueries`): the class `SearchQuery` with its fluent setters
  and validator.

Collaborators are parameters of the class, fixed at construction:

- the URL map of handlers; each handler is a total function from verb and event to a
  returned response (possibly null) or a thrown failure, plus its `isReadonly` predicate;
- the Base64-then-UTF-8 body decoder;
- whether `handleSqsRequest` throws on a record.

The SQS send is modelled as an append to the field `sent`. The records handed to
`handleSqsRequest` are appended to the field `sqsHandled`.

Null handling follows the code. A null event is not "empty", so it takes the interactive
path and gets a 404 "Invalid Request". A null path is dereferenced only when no role flag
grants access, and then it becomes a 500. A verb outside the seven known ones gives a null
response, which is later dereferenced and becomes a 500. A null resource produces the
message "null not found", as Java's string concatenation does.

## Model

| member | source | states |
|---|---|---|
| `Routing.ToLower` | fkq-lambda-core/src/main/java/com/formkiq/aws/services/lambda/AbstractRestApiRequestHandler.java:410 | The method string keeps its length. Each upper-case ASCII letter becomes its lower-case partner, no upper-case ASCII letter is left, and every other character is kept. |
| `Routing.ParseVerb` | fkq-lambda-core/src/main/java/com/formkiq/aws/services/lambda/AbstractRestApiRequestHandler.java:117-147 | A verb is selected exactly when the method is one of get, delete, head, options, patch, post, put; the selected verb's name is that method. |
| `Routing.ParseVerbName` | fkq-lambda-core/src/main/java/com/formkiq/aws/services/lambda/AbstractRestApiRequestHandler.java:117-147 | Each verb's name selects that verb again, so every handler method can be reached. |
| `Routing.FindRequestHandler` | fkq-lambda-core/src/main/java/com/formkiq/aws/services/lambda/AbstractRestApiRequestHandler.java:174-184 | For "options" the lookup succeeds exactly when the key "options" is registered, for other methods exactly when the resource is registered; the handler is the one under that key; otherwise NotFound with the message resource + " not found". |
| `Routing.OptionsIgnoresResource` | fkq-lambda-core/src/main/java/com/formkiq/aws/services/lambda/AbstractRestApiRequestHandler.java:177 | For "options", whether the lookup succeeds and which handler it returns do not depend on the resource. The NotFound message still names the resource. |
| `Routing.CallHandlerMethod` | fkq-lambda-core/src/main/java/com/formkiq/aws/services/lambda/AbstractRestApiRequestHandler.java:110-150 | A method outside the seven verbs calls nothing and yields a null response; otherwise the outcome is that verb method's. |
| `ApiTypes.QueryStringParameter` | fkq-lambda-core/src/main/java/com/formkiq/aws/services/lambda/AbstractRestApiRequestHandler.java:431 | The parameter is present exactly when the query map exists and holds the name, and then it is the stored value. |
| `AccessPolicy.HasAccess` | fkq-lambda-core/src/main/java/com/formkiq/aws/services/lambda/AbstractRestApiRequestHandler.java:282-299 | With a path, access is granted exactly when assumeRole, iamUser, admin, the path starts with "/public/", read-only-with-read-access, or write access; with a null path a role flag grants access and otherwise the call throws an unclassified failure. |
| `AccessPolicy.WriteAccessSuffices` | fkq-lambda-core/src/main/java/com/formkiq/aws/services/lambda/AbstractRestApiRequestHandler.java:292-295 | Write access alone grants every method on every path. |
| `AccessPolicy.ReadAccessAloneInsufficient` | fkq-lambda-core/src/main/java/com/formkiq/aws/services/lambda/AbstractRestApiRequestHandler.java:285-298 | Read access alone never grants a method the handler does not call read-only, off the public prefix. |
| `AccessPolicy.PrivilegedAlwaysAllowed` | fkq-lambda-core/src/main/java/com/formkiq/aws/services/lambda/AbstractRestApiRequestHandler.java:287-290 | An assumed role, an IAM user or an admin is granted access for every method and path, including a null path. |
| `AccessPolicy.PublicPathAlwaysAllowed` | fkq-lambda-core/src/main/java/com/formkiq/aws/services/lambda/AbstractRestApiRequestHandler.java:326-328 | A path under "/public/" is granted whatever the caller's flags. |
| `Responses.ResponseEnvelope` | fkq-lambda-core/src/main/java/com/formkiq/aws/services/lambda/AbstractRestApiRequestHandler.java:74-98 | The envelope carries the given status. It has no body exactly for a redirect or a 302 with a message, and then its headers are the canonical four plus Location, with the overrides dropped. Every other response has its JSON as the body and the overrides merged over the canonical headers. |
| `Responses.EnvelopeHeaders` | fkq-lambda-core/src/main/java/com/formkiq/aws/services/lambda/AbstractRestApiRequestHandler.java:78-95 | A canonical header survives unless an override of the same name replaces it. Overrides win whenever there is a body. A body-less envelope has exactly the canonical keys plus Location. |
| `Responses.MapBodyRoundTrip` | fkq-lambda-core/src/main/java/com/formkiq/aws/services/lambda/AbstractRestApiRequestHandler.java:87-89 | A map response's body is that map as a JSON object. This is an instance of ResponseEnvelope's body clause, kept as documentation. |
| `Responses.StatusOf` | fkq-lambda-core/src/main/java/com/formkiq/aws/services/lambda/AbstractRestApiRequestHandler.java:365-388 | Every failure maps to a status between 400 and 501, and to 500 exactly when it is unclassified. |
| `Responses.ErrorEnvelope` | fkq-lambda-core/src/main/java/com/formkiq/aws/services/lambda/AbstractRestApiRequestHandler.java:365-388 | A caught failure becomes its mapped status with exactly the canonical headers (empty overrides) and a body whose message is the caller-safe message. |
| `Responses.ErrorStatusTable` | fkq-lambda-core/src/main/java/com/formkiq/aws/services/lambda/AbstractRestApiRequestHandler.java:365-388 | NotFound 404, TooManyRequests 429, Bad/IllegalArgument/DateTime 400, Forbidden 403, Unauthorized 401, NotImplemented 501, anything else 500. |
| `Responses.UnclassifiedNeverLeaks` | fkq-lambda-core/src/main/java/com/formkiq/aws/services/lambda/AbstractRestApiRequestHandler.java:383-388 | An unclassified failure's envelope is the same whatever its message; its body says "Internal Server Error". |
| `Responses.ClassifiedKeepsMessage` | fkq-lambda-core/src/main/java/com/formkiq/aws/services/lambda/AbstractRestApiRequestHandler.java:365-382 | A classified failure's body carries its own message, and its status is never 500. |
| `WebNotify.GetBodyAsString` | fkq-lambda-core/src/main/java/com/formkiq/aws/services/lambda/AbstractRestApiRequestHandler.java:219-235 | A returned body is non-empty and is the raw body, or its decoding when the event says Base64. A present body that is non-empty after optional decoding is returned as that text. A null body, or one empty after optional decoding, throws Bad "request body is required". A malformed encoding throws IllegalArgumentException with the decoder's message. |
| `WebNotify.Payload` | fkq-lambda-core/src/main/java/com/formkiq/aws/services/lambda/AbstractRestApiRequestHandler.java:440-453 | The message always has `message` set to the body. It has `siteId` and `documentId` exactly when they are non-null, and no other key. |
| `WebNotify.Notification` | fkq-lambda-core/src/main/java/com/formkiq/aws/services/lambda/AbstractRestApiRequestHandler.java:428-463 | Nothing is sent unless `webnotify` is "true". With it, a null response throws, a status other than OK/CREATED/ACCEPTED sends nothing, a body failure propagates, null path parameters throw, and otherwise the payload is sent. |
| `WebNotify.NotifiesExactlyWhen` | fkq-lambda-core/src/main/java/com/formkiq/aws/services/lambda/AbstractRestApiRequestHandler.java:431-461 | A message is produced exactly when webnotify is "true", the response is OK/CREATED/ACCEPTED, the body is readable and path parameters exist. Its `message` is the decoded body. |
| `WebNotify.MissingBodyIsBad` | fkq-lambda-core/src/main/java/com/formkiq/aws/services/lambda/AbstractRestApiRequestHandler.java:436-441 | A notify-eligible response with a null body throws Bad "request body is required". |
| `Batch.SqsRecords` | fkq-lambda-core/src/main/java/com/formkiq/aws/services/lambda/AbstractRestApiRequestHandler.java:258-262 | The selected records are exactly the batch records whose source is "aws:sqs". |
| `Batch.SqsRecordsAppend` | fkq-lambda-core/src/main/java/com/formkiq/aws/services/lambda/AbstractRestApiRequestHandler.java:258-262 | Selection distributes over concatenation, so input order is kept. |
| `Batch.BatchCallsPrefix` | fkq-lambda-core/src/main/java/com/formkiq/aws/services/lambda/AbstractRestApiRequestHandler.java:257-263 | The records the loop hands on are a prefix of the selected records. |
| `Batch.BatchAbortsIff` | fkq-lambda-core/src/main/java/com/formkiq/aws/services/lambda/AbstractRestApiRequestHandler.java:257-263 | The batch aborts exactly when handleSqsRequest throws on some "aws:sqs" record. |
| `Batch.BatchWithoutFailure` | fkq-lambda-core/src/main/java/com/formkiq/aws/services/lambda/AbstractRestApiRequestHandler.java:257-263 | When no call throws, the records handed on are exactly the "aws:sqs" records in input order, and the batch does not abort. |
| `Batch.BatchStopsAtFirstFailure` | fkq-lambda-core/src/main/java/com/formkiq/aws/services/lambda/AbstractRestApiRequestHandler.java:257-263 | When the k-th record is the first to fail, the records handed on are the "aws:sqs" records up to and including it, and the batch aborts. |
| `Dispatcher.Route` | fkq-lambda-core/src/main/java/com/formkiq/aws/services/lambda/AbstractRestApiRequestHandler.java:402-416 | A null event or null method gives NotFound "Invalid Request". A request with a method is routed exactly when the lookup under its lower-cased method succeeds and the method is "options" or HasAccess grants it; it is routed to the handler found. A lookup failure is thrown as is, a HasAccess failure is thrown as is, and a refusal is Forbidden "Access Denied". |
| `Dispatcher.ProcessRequest` | fkq-lambda-core/src/main/java/com/formkiq/aws/services/lambda/AbstractRestApiRequestHandler.java:402-419 | A null event or method throws NotFound "Invalid Request". A lookup failure, a HasAccess failure and a refusal (Forbidden "Access Denied") are thrown before any verb method runs. A found request that is "options" or granted access has the outcome of the verb method of its lower-cased method. |
| `Dispatcher.Dispatch` | fkq-lambda-core/src/main/java/com/formkiq/aws/services/lambda/AbstractRestApiRequestHandler.java:352-389 | A processRequest failure becomes its error envelope, and a null response becomes a 500, both with nothing sent. For a non-null response, a processResponse failure becomes its error envelope with nothing sent. Otherwise the envelope is built from the response's status, headers and body, and exactly the decided message is sent. A message is sent only after a verb method ran with OK/CREATED/ACCEPTED. |
| `Dispatcher.PlainSuccessIsHandlerEnvelope` | fkq-lambda-core/src/main/java/com/formkiq/aws/services/lambda/AbstractRestApiRequestHandler.java:358-363 | A verb method that returns a response, without `webnotify`, is answered with the envelope built from that response's status, headers and body, and nothing is sent. |
| `Dispatcher.InvalidRequestIsNotFound` | fkq-lambda-core/src/main/java/com/formkiq/aws/services/lambda/AbstractRestApiRequestHandler.java:406-408 | A null event is not "empty". A null event or a null method is answered 404 "Invalid Request", with no handler run and nothing sent. |
| `Dispatcher.UnregisteredResourceIsNotFound` | fkq-lambda-core/src/main/java/com/formkiq/aws/services/lambda/AbstractRestApiRequestHandler.java:410-412 | An unregistered resource is answered 404 with resource + " not found", with no handler run and nothing sent. |
| `Dispatcher.DeniedRequestIsForbidden` | fkq-lambda-core/src/main/java/com/formkiq/aws/services/lambda/AbstractRestApiRequestHandler.java:414-416 | A denied request is answered 403 "Access Denied", with no handler method run and nothing sent. |
| `Dispatcher.OptionsSkipsAccessCheck` | fkq-lambda-core/src/main/java/com/formkiq/aws/services/lambda/AbstractRestApiRequestHandler.java:307-309 | With "options" registered, an options request always runs the options method, whatever the flags, resource or path. |
| `Dispatcher.UnknownVerbIsServerError` | fkq-lambda-core/src/main/java/com/formkiq/aws/services/lambda/AbstractRestApiRequestHandler.java:358-388 | A routed request whose method is not one of the seven verbs runs nothing and sends nothing. It is answered 500 "Internal Server Error". |
| `Dispatcher.HandlerFailureIsMapped` | fkq-lambda-core/src/main/java/com/formkiq/aws/services/lambda/AbstractRestApiRequestHandler.java:358-388 | A failure from routing or the verb method becomes its mapped error envelope, and nothing is sent. |
| `Dispatcher.NotifiesExactlyWhen` | fkq-lambda-core/src/main/java/com/formkiq/aws/services/lambda/AbstractRestApiRequestHandler.java:358-363 | A message is sent exactly when the verb method returns OK/CREATED/ACCEPTED, webnotify is "true", the body is readable and path parameters exist. The message carries the body, and the envelope is the handler's own response. |
| `Dispatcher.NotifyWithoutBodyIsBadRequest` | fkq-lambda-core/src/main/java/com/formkiq/aws/services/lambda/AbstractRestApiRequestHandler.java:360-373 | A notify-eligible success without a body is answered 400 "request body is required", and nothing is sent. |
| `Dispatcher.RestApiRequestHandler.constructor` | fkq-lambda-core/src/main/java/com/formkiq/aws/services/lambda/AbstractRestApiRequestHandler.java:206-241 | The handler holds the given URL map, decoder and queue-record handler, and has sent nothing and handled no record. |
| `Dispatcher.RestApiRequestHandler.CreateJsonHeaders` | fkq-lambda-core/src/main/java/com/formkiq/aws/services/lambda/AbstractRestApiRequestHandler.java:157-164 | The result has exactly the four keys Access-Control-Allow-Headers, -Methods, -Origin and Content-Type, with the canonical values. |
| `Dispatcher.RestApiRequestHandler.BuildResponse` | fkq-lambda-core/src/main/java/com/formkiq/aws/services/lambda/AbstractRestApiRequestHandler.java:74-98 | The map-building code yields exactly the specified envelope. |
| `Dispatcher.RestApiRequestHandler.ProcessResponse` | fkq-lambda-core/src/main/java/com/formkiq/aws/services/lambda/AbstractRestApiRequestHandler.java:428-463 | The method throws exactly what the notification decision throws, and then sends nothing. Otherwise it appends exactly the decided message, if any, to the sent messages. |
| `Dispatcher.RestApiRequestHandler.ProcessApiGatewayRequest` | fkq-lambda-core/src/main/java/com/formkiq/aws/services/lambda/AbstractRestApiRequestHandler.java:352-389 | The try/catch code returns the envelope of Dispatch and sends exactly its message, if any. |
| `Dispatcher.RestApiRequestHandler.HandleRequest` | fkq-lambda-core/src/main/java/com/formkiq/aws/services/lambda/AbstractRestApiRequestHandler.java:243-264 | A non-empty event (including a null one) is answered with Dispatch's envelope and handles no record. An empty event hands the batch's records on as the batch specification says, sends nothing, and fails exactly when the batch aborts. |
| `Dispatcher.RestApiRequestHandler.HandleRecords` | fkq-lambda-core/src/main/java/com/formkiq/aws/services/lambda/AbstractRestApiRequestHandler.java:257-262 | The loop appends exactly the batch calls to the handled records, and ends Aborted exactly when the batch aborts. |
| `SearchQueries.SearchQuery.constructor` | dynamodb-documents/src/main/java/com/formkiq/stacks/dynamodb/SearchQuery.java:40-41 | A new query has a null tag and null document ids. |
| `SearchQueries.SearchQuery.DocumentIds` | dynamodb-documents/src/main/java/com/formkiq/stacks/dynamodb/SearchQuery.java:47-49 | The accessor returns the stored ids and changes nothing. |
| `SearchQueries.SearchQuery.DocumentsIds` | dynamodb-documents/src/main/java/com/formkiq/stacks/dynamodb/SearchQuery.java:56-59 | The setter stores the ids, leaves the tag unchanged, and returns the same object. |
| `SearchQueries.SearchQuery.Tag` | dynamodb-documents/src/main/java/com/formkiq/stacks/dynamodb/SearchQuery.java:80-82 | The accessor returns the stored criteria and changes nothing. |
| `SearchQueries.SearchQuery.SetTag` | dynamodb-documents/src/main/java/com/formkiq/stacks/dynamodb/SearchQuery.java:90-93 | The setter stores the criteria, leaves the ids unchanged, and returns the same object. |
| `SearchQueries.SearchQuery.IsValid` | dynamodb-documents/src/main/java/com/formkiq/stacks/dynamodb/SearchQuery.java:61-73 | With a null tag it throws IllegalArgumentException "'tag' attribute is required.". Otherwise it throws exactly what the criteria's own validation throws, adding no condition. |
| `SearchQueries.BuildAndValidate` | dynamodb-documents/src/main/java/com/formkiq/stacks/dynamodb/SearchQuery.java:56-93 | A query built with the fluent setters validates as its criteria do, whatever its ids, and is rejected when no criteria were set. |
| `SearchQueries.MissingTagIsBadRequest` | fkq-lambda-core/src/main/java/com/formkiq/aws/services/lambda/AbstractRestApiRequestHandler.java:371-373 | The validator's failure is answered 400 and carries its message. This is an instance of ErrorStatusTable and ClassifiedKeepsMessage, kept as documentation. |

## Left out

- Stream I/O and logging (`IoUtils.toUtf8String`, `writeJson`, `logError`, debug logging). The envelope is returned as a value instead of being written to the output stream.
- Gson. Parsing the input text is a given: `Input` holds the text parsed as an event and as a batch. Serialisation is modelled as a JSON value: the envelope body is the `Json` tree Gson would write, not its text. So the double encoding of `body` as a JSON string is not modelled.
- Base64 and UTF-8 decoding of the body are one parameter of the handler, `decodeBase64`. An `Err` result stands for the decoder's IllegalArgumentException and carries its message.
- The SQS client and the web-notify queue URL. A send is an append to `sent` and never fails. A send failure, which the code would turn into a 500, is not modelled.
- `ApiAuthorizer`'s derivation of the flags and siteId from the claims: the event carries the derived values. The model also takes its construction to tolerate a null event, so a null event reaches the 404 "Invalid Request".
- The concrete `ApiGatewayRequestHandler` implementations and `handleSqsRequest` bodies. They are given as functions. A handler's response is taken to have a non-null status and non-null header overrides.
- `ApiResponseStatus` is a plain status code. `ApiRedirectResponse`, `ApiMessageResponse`, `ApiMapResponse` and `ApiResponseError` are taken as unrelated classes. `ApiMessageResponse` and `ApiResponseError` serialise to an object with one `message` field.
- `ApiGatewayRequestEvent.getQueryStringParameter` is taken to return null when the query map is null.
- `LambdaInputRecords.getRecords()` is taken never to be null. Record fields other than the event source are opaque.
- `Routing.ToLower`: does not model locale-dependent or non-ASCII lower-casing, because only ASCII method names are routed.
- `SearchTagCriteria` keeps only its key. Its `isValid` is the function passed to `SearchQuery.IsValid`. `documentIds` is an ordered sequence rather than a Java `Collection`.
- Exceptions whose `getMessage()` is null. The code then builds `new ApiResponseError(null)`, but every modelled failure carries a string message.
- Null elements of the batch's `Records` list. The code would throw a NullPointerException on `record.getEventSource()` and end the batch; the model's record list has no null element.
- The concurrency, cancellation and search-index synchroniser described for the wider system. They are not part of these two files.
