/**
 * The relay route's request handling: from the raw body text and the result
 * of parsing it as JSON to one of three answers — a 400 with a validation
 * error, a 500 with the fault's message, or the message list handed on to
 * the provider.
 */
module ChatRoute {

  /** A value `JSON.parse` can return. Objects are keyed by member name (a repeated name keeps its last value). */
  datatype Json =
    | JNull
    | JBool(b: bool)
    | JNumber(n: real)
    | JString(s: string)
    | JArray(items: seq<Json>)
    | JObject(members: map<string, Json>)

  /** What `JSON.parse(body)` did: threw a SyntaxError carrying a message, or returned a value. */
  datatype Parse = SyntaxError(message: string) | Parsed(value: Json)

  /** A property read that may find nothing (`undefined`). */
  datatype Property = Undefined | Defined(value: Json)

  /** The route's answer. */
  datatype Reply =
    | BadRequest(error: string)
    | ServerError(error: string, details: string)
    | Forward(messages: seq<Json>)

  const EmptyBodyError: string := "Request body is empty"
  const NotArrayError: string := "Messages must be an array"
  const ProcessError: string := "Failed to process request"

  /** The TypeError message a JavaScript engine (V8's wording) gives for `const { messages } = null`. */
  const NullDestructureMessage: string :=
    "Cannot destructure property 'messages' of 'JSON.parse(...)' as it is null."

  /** The HTTP status the route answers with (the forwarded stream is sent with 200). */
  function Status(r: Reply): int {
    match r
    case BadRequest(_) => 400
    case ServerError(_, _) => 500
    case Forward(_) => 200
  }

  /**
   * `const { messages } = v` for a non-null parsed value: an object's own member,
   * and `undefined` for every other value, since neither arrays nor primitives
   * have a `messages` property.
   */
  function MessagesOf(v: Json): Property
    requires v != JNull
  {
    match v
    case JObject(members) => if "messages" in members then Defined(members["messages"]) else Undefined
    case _ => Undefined
  }

  /** JavaScript truthiness of a property value. */
  predicate Truthy(p: Property) {
    match p
    case Undefined => false
    case Defined(JNull) => false
    case Defined(JBool(b)) => b
    case Defined(JNumber(n)) => n != 0.0
    case Defined(JString(s)) => s != ""
    case Defined(JArray(_)) => true
    case Defined(JObject(_)) => true
  }

  /**
   * `!messages || !Array.isArray(messages)`. Every array is truthy, so the
   * falsiness test never decides anything: the check rejects exactly the non-arrays.
   */
  predicate RejectsMessages(p: Property): (b: bool)
    ensures b <==> !(p.Defined? && p.value.JArray?)
  {
    !Truthy(p) || !(p.Defined? && p.value.JArray?)
  }

  /** Whether the parse produced an object whose `messages` member is an array. */
  predicate HasMessageArray(parsed: Parse) {
    parsed.Parsed? && parsed.value.JObject? && "messages" in parsed.value.members
    && parsed.value.members["messages"].JArray?
  }

  /**
   * `POST(req)`, given the body text and what parsing it gave. The empty-body
   * test comes first, so for an empty body the parse result plays no part.
   */
  function Post(body: string, parsed: Parse): (r: Reply)
    // line 9: an empty body is refused before anything is parsed
    ensures body == "" ==> r == BadRequest(EmptyBodyError)
    // lines 20, 39-50: a parse failure becomes a 500 carrying its message
    ensures body != "" && parsed.SyntaxError? ==> r == ServerError(ProcessError, parsed.message)
    // line 20: destructuring a parsed `null` throws, which is also a 500
    ensures body != "" && parsed == Parsed(JNull) ==> r == ServerError(ProcessError, NullDestructureMessage)
    // lines 23-31: every other non-empty body without a `messages` array is a 400
    ensures body != "" && parsed.Parsed? && parsed.value != JNull && !HasMessageArray(parsed)
            ==> r == BadRequest(NotArrayError)
    // lines 33-36: the list goes to the provider exactly when it is an array, unchanged
    ensures r.Forward? <==> body != "" && HasMessageArray(parsed)
    ensures r.Forward? ==> r.messages == parsed.value.members["messages"].items
    // the three outcomes carry only the route's fixed error texts
    ensures r.BadRequest? ==> r.error == EmptyBodyError || r.error == NotArrayError
    ensures r.ServerError? ==> r.error == ProcessError
    // the status table: 200 for a forwarded list, 500 only for a fault, 400 for the rest
    ensures Status(r) == 200 <==> body != "" && HasMessageArray(parsed)
    ensures Status(r) == 500 <==> body != "" && (parsed.SyntaxError? || parsed == Parsed(JNull))
    ensures Status(r) == 400 <==> body == "" || (parsed.Parsed? && parsed.value != JNull && !HasMessageArray(parsed))
  {
    if body == "" then BadRequest(EmptyBodyError)
    else
      match parsed
      case SyntaxError(message) => ServerError(ProcessError, message)
      case Parsed(v) =>
        if v == JNull then ServerError(ProcessError, NullDestructureMessage)
        else
          var messages := MessagesOf(v);
          if RejectsMessages(messages) then BadRequest(NotArrayError)
          else Forward(messages.value.items)
  }

  /** An empty `messages` array passes validation and is forwarded as the empty list. */
  lemma EmptyArrayForwarded(body: string)
    requires body != ""
    ensures Post(body, Parsed(JObject(map["messages" := JArray([])]))) == Forward([])
  {
  }

  /** A body that parses to a number, string or boolean is refused as a 400, not a 500. */
  lemma PrimitiveIsBadRequest(body: string, v: Json)
    requires body != "" && (v.JNumber? || v.JString? || v.JBool?)
    ensures Status(Post(body, Parsed(v))) == 400
  {
  }
}
