/**
 * Handler lookup and per-verb dispatch: AbstractRestApiRequestHandler.findRequestHandler
 * and callHandlerMethod, plus the lower-casing of the HTTP method.
 */
module Routing {
  import opened Wrappers
  import opened ApiTypes

  /** ASCII lower-casing of one character. */
  function LowerChar(c: char): char {
    if 'A' <= c <= 'Z' then (c as int + 32) as char else c
  }

  /** String.toLowerCase restricted to ASCII letters. */
  function ToLower(s: string): (r: string)
    ensures |r| == |s|
    ensures forall i :: 0 <= i < |r| ==> !('A' <= r[i] <= 'Z')
    ensures forall i :: 0 <= i < |s| && !('A' <= s[i] <= 'Z') ==> r[i] == s[i]
    ensures forall i :: 0 <= i < |s| && 'A' <= s[i] <= 'Z' ==> r[i] == (s[i] as int + 32) as char
  {
    seq(|s|, i requires 0 <= i < |s| => LowerChar(s[i]))
  }

  /** The lower-case name the dispatcher's switch uses for a verb. */
  function VerbName(v: Verb): string {
    match v
    case Get => "get"
    case Delete => "delete"
    case Head => "head"
    case Options => "options"
    case Patch => "patch"
    case Post => "post"
    case Put => "put"
  }

  /** The switch of callHandlerMethod: which verb method a method string selects, if any. */
  function ParseVerb(httpMethod: string): (v: Option<Verb>)
    ensures v.Some? <==> httpMethod in {"get", "delete", "head", "options", "patch", "post", "put"}
    ensures v.Some? ==> VerbName(v.value) == httpMethod
  {
    match httpMethod
    case "get" => Some(Get)
    case "delete" => Some(Delete)
    case "head" => Some(Head)
    case "options" => Some(Options)
    case "patch" => Some(Patch)
    case "post" => Some(Post)
    case "put" => Some(Put)
    case _ => None
  }

  /** Every verb's name selects that verb again. */
  lemma ParseVerbName(v: Verb)
    ensures ParseVerb(VerbName(v)) == Some(v)
  {
    match v
    case Get =>
    case Delete =>
    case Head =>
    case Options =>
    case Patch =>
    case Post =>
    case Put =>
  }

  /** Java's rendering of a possibly-null string in a concatenation. */
  function JavaString(s: Option<string>): string {
    if s.Some? then s.value else "null"
  }

  /** The registry key looked up: the literal "options" for that method, the resource otherwise. */
  function LookupKey(httpMethod: string, resource: Option<string>): Option<string> {
    if httpMethod == "options" then Some("options") else resource
  }

  /** findRequestHandler: the handler under the lookup key, or NotFound naming the resource. */
  function FindRequestHandler(urlMap: map<string, Handler>, httpMethod: string, resource: Option<string>)
    : (r: Result<Handler, Failure>)
    ensures httpMethod == "options" ==> (r.Ok? <==> "options" in urlMap)
    ensures httpMethod != "options" ==> (r.Ok? <==> resource.Some? && resource.value in urlMap)
    ensures r.Ok? && httpMethod == "options" ==> r.value == urlMap["options"]
    ensures r.Ok? && httpMethod != "options" ==> r.value == urlMap[resource.value]
    ensures r.Err? ==> r.error == NotFound(JavaString(resource) + " not found")
  {
    var key := LookupKey(httpMethod, resource);
    if key.Some? && key.value in urlMap then Ok(urlMap[key.value])
    else Err(NotFound(JavaString(resource) + " not found"))
  }

  /** For "options" the resource plays no part in the lookup. */
  lemma OptionsIgnoresResource(urlMap: map<string, Handler>, r1: Option<string>, r2: Option<string>)
    ensures FindRequestHandler(urlMap, "options", r1).Ok? == FindRequestHandler(urlMap, "options", r2).Ok?
    ensures FindRequestHandler(urlMap, "options", r1).Ok? ==>
              FindRequestHandler(urlMap, "options", r1).value == FindRequestHandler(urlMap, "options", r2).value
  {
  }

  /**
   * callHandlerMethod: the selected verb method's outcome; a method string outside the
   * seven verbs calls nothing and yields a null response.
   */
  function CallHandlerMethod(httpMethod: string, event: Event, handler: Handler)
    : (r: Result<Option<HandlerResponse>, Failure>)
    ensures httpMethod !in {"get", "delete", "head", "options", "patch", "post", "put"} ==> r == Ok(None)
    ensures forall v: Verb :: VerbName(v) == httpMethod ==> r == handler.call(v, event)
  {
    match ParseVerb(httpMethod)
    case None => Ok(None)
    case Some(v) => handler.call(v, event)
  }
}
