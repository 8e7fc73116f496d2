/** The POST /api/generate-itinerary handler of server/index.js as a pure
    function of the request body, the configured API key, the upstream
    chat-completion service and the JSON parser.

    The three steps are taken in order: validation (400), the mock fallback
    when no key is configured (200 with the mock document), and the live
    call whose parsed completion content is returned unchanged (200), any
    failure inside the live path being reported as 500. */
module ItineraryHandler {
  import opened JsValue
  import MockItinerary

  /** An HTTP response: the status and the JSON value handed to `res.json`. */
  datatype Response = Response(status: int, body: Json)

  /** What one request comes to: a response written to the client, or an
      error thrown where nothing catches it, so that the handler's promise
      is rejected and no response is ever written. */
  datatype Reply = Sent(response: Response) | Unhandled(error: string)

  const MissingFieldsMessage: string := "destination, startDate, and endDate are required"
  const UpstreamErrorMessage: string := "OpenAI API error"
  const ModelName: string := "gpt-3.5-turbo"
  const SystemInstruction: string := "You are a travel planner. Return ONLY valid JSON itinerary."

  /** The five request fields, as the handler's destructuring pattern
      binds them: three required ones and two optional ones that default to
      the empty string. */
  datatype Fields = Fields(destination: Json, startDate: Json, endDate: Json, interests: Json, budget: Json)

  /** Destructuring reads five own properties of the body; only `interests`
      and `budget` have defaults, and a default replaces `undefined` alone.
      The body is never nullish: under Express 4, express.json() always
      leaves an object or an array in `req.body`. */
  function Destructure(body: Json): (f: Fields)
    requires !Nullish(body)
    ensures f.destination == Get(body, "destination")
    ensures f.startDate == Get(body, "startDate")
    ensures f.endDate == Get(body, "endDate")
    ensures f.interests == WithDefault(Get(body, "interests"), Str(""))
    ensures f.budget == WithDefault(Get(body, "budget"), Str(""))
    ensures f.interests == Str("") <==> Get(body, "interests") in {Undefined, Str("")}
    ensures f.budget == Str("") <==> Get(body, "budget") in {Undefined, Str("")}
    ensures f.interests != Undefined && f.budget != Undefined
  {
    Fields(Get(body, "destination"), Get(body, "startDate"), Get(body, "endDate"),
           WithDefault(Get(body, "interests"), Str("")), WithDefault(Get(body, "budget"), Str("")))
  }

  /** None of the three required fields is falsy. */
  predicate RequiredPresent(f: Fields) {
    Truthy(f.destination) && Truthy(f.startDate) && Truthy(f.endDate)
  }

  /** The API key from the environment is truthy: set, and not empty. */
  predicate KeyConfigured(apiKey: Option<string>) {
    apiKey.Some? && apiKey.value != ""
  }

  // ----- the live path: payload, completion text, errors -----

  datatype Message = Message(role: string, content: string)

  /** The chat-completion request body; the sampling temperature is left out. */
  datatype Payload = Payload(model: string, messages: seq<Message>)

  /** What the upstream call produced: the decoded reply envelope, or the
      message of the error that the fetch or the decoding of its reply threw. */
  datatype UpstreamOutcome = Replied(envelope: Json) | Failed(message: string)

  /** The user-role line: the five fields, each converted to a string, in a
      fixed template. A field that cannot be converted makes the template
      literal throw. */
  function UserMessage(f: Fields): (r: Result<string, string>)
    ensures r.Success? <==> Printable(f.destination) && Printable(f.startDate) && Printable(f.endDate)
                            && Printable(f.interests) && Printable(f.budget)
    ensures r.Failure? ==> r.error == "Cannot convert object to primitive value"
  {
    if Printable(f.destination) && Printable(f.startDate) && Printable(f.endDate)
       && Printable(f.interests) && Printable(f.budget)
    then Success("Destination: " + ToStr(f.destination) + ", Start: " + ToStr(f.startDate)
                 + ", End: " + ToStr(f.endDate) + ", Interests: " + ToStr(f.interests)
                 + ", Budget: " + ToStr(f.budget))
    else Failure(ConvertErrorMessage)
  }

  function BuildPayload(f: Fields): (r: Result<Payload, string>)
    ensures r.Success? <==> UserMessage(f).Success?
    ensures r.Success? ==>
      && r.value.model == ModelName
      && r.value.messages == [Message("system", SystemInstruction), Message("user", UserMessage(f).value)]
    ensures r.Failure? ==> r.error == UserMessage(f).error
  {
    match UserMessage(f)
    case Success(text) => Success(Payload(ModelName, [Message("system", SystemInstruction), Message("user", text)]))
    case Failure(m) => Failure(m)
  }

  /** The content of the first completion's message, read through optional
      chaining from an envelope that is not nullish. */
  function Content(data: Json): (r: Json)
    requires !Nullish(data)
  {
    GetOptional(GetOptional(GetOptional(Get(data, "choices"), "0"), "message"), "content")
  }

  /** The message of the TypeError that reading `choices` of a nullish
      envelope throws, as V8 words it. */
  function ChoicesReadError(data: Json): (r: string) {
    if data.Null? then "Cannot read properties of null (reading 'choices')"
    else "Cannot read properties of undefined (reading 'choices')"
  }

  /** The completion text: the content when it is truthy, the empty string
      otherwise; or the TypeError raised on a nullish envelope. */
  function CompletionText(data: Json): (r: Result<Json, string>)
    ensures Nullish(data) <==> r.Failure?
    ensures !Nullish(data) && Truthy(Content(data)) ==> r == Success(Content(data))
    ensures !Nullish(data) && !Truthy(Content(data)) ==> r == Success(Str(""))
  {
    if Nullish(data) then Failure(ChoicesReadError(data))
    else
      var c := Content(data);
      Success(if Truthy(c) then c else Str(""))
  }

  /** The catch block's response. */
  function ErrorResponse(details: string): (r: Response)
    ensures r.status == 500
    ensures r.body.Obj? && |r.body.fields| == 2
    ensures Get(r.body, "error") == Str("OpenAI API error") && Get(r.body, "details") == Str(details)
  {
    var fields := [("error", Str(UpstreamErrorMessage)), ("details", Str(details))];
    assert fields[1].0 != "error" by { assert fields[1].0[0] != "error"[0]; }
    assert fields[..1] == [("error", Str(UpstreamErrorMessage))];
    assert LookupField(fields, "error") == LookupField(fields[..1], "error") == Str(UpstreamErrorMessage);
    Response(500, Obj(fields))
  }

  /** The try block of the live path: build the payload, call upstream,
      extract the completion text, convert it to a string and parse it.
      Whatever is thrown on the way is answered by ErrorResponse. */
  function LiveResponse(f: Fields, upstream: Payload -> UpstreamOutcome,
                        parse: string -> Result<Json, string>): (r: Response)
    ensures r.status == 200 || r.status == 500
    ensures r.status == 500 ==> exists m :: r == ErrorResponse(m)
  {
    match BuildPayload(f)
    case Failure(m) => ErrorResponse(m)
    case Success(payload) =>
      match upstream(payload)
      case Failed(m) => ErrorResponse(m)
      case Replied(data) =>
        match CompletionText(data)
        case Failure(m) => ErrorResponse(m)
        case Success(text) =>
          match ConvertToString(text)
          case Failure(m) => ErrorResponse(m)
          case Success(t) =>
            match parse(t)
            case Failure(m) => ErrorResponse(m)
            case Success(v) => Response(200, v)
  }

  /** The whole handler. Only the mock path can throw outside the try
      block: when the title cannot convert the destination to a string. */
  function Handle(body: Json, apiKey: Option<string>, upstream: Payload -> UpstreamOutcome,
                  parse: string -> Result<Json, string>): (r: Reply)
    requires !Nullish(body)
    ensures r.Unhandled? <==>
      RequiredPresent(Destructure(body)) && !KeyConfigured(apiKey) && !Printable(Get(body, "destination"))
    ensures r.Sent? ==> r.response.status in {200, 400, 500}
  {
    var f := Destructure(body);
    if !RequiredPresent(f) then
      Sent(Response(400, Obj([("error", Str(MissingFieldsMessage))])))
    else if !KeyConfigured(apiKey) then
      match MockItinerary.Generate(f.destination, f.startDate, f.endDate)
      case Success(it) => Sent(Response(200, MockItinerary.ToJson(it)))
      case Failure(m) => Unhandled(m)
    else
      Sent(LiveResponse(f, upstream, parse))
  }

  // ----- validation -----

  /** The response is 400 exactly when a required field is falsy, and then
      its body is the fixed error object, whatever the key, the upstream
      and the parser are. */
  lemma RejectsMissingFields(body: Json, apiKey: Option<string>, upstream: Payload -> UpstreamOutcome,
                             parse: string -> Result<Json, string>)
    requires !Nullish(body)
    ensures (Handle(body, apiKey, upstream, parse).Sent? && Handle(body, apiKey, upstream, parse).response.status == 400)
            <==> !RequiredPresent(Destructure(body))
    ensures !RequiredPresent(Destructure(body)) ==>
      Handle(body, apiKey, upstream, parse) ==
        Sent(Response(400, Obj([("error", Str("destination, startDate, and endDate are required"))])))
  {
  }

  /** Any falsy value in a required slot is rejected: a missing field, an
      explicit null, an empty string, 0 and false. */
  lemma {:induction false} RejectsFalsyDestination(fields: seq<(string, Json)>, v: Json, apiKey: Option<string>,
                                                   upstream: Payload -> UpstreamOutcome, parse: string -> Result<Json, string>)
    requires v in {Undefined, Null, Str(""), Num(0), Bool(false)}
    requires forall i :: 0 <= i < |fields| ==> fields[i].0 != "destination"
    ensures Handle(Obj(fields + [("destination", v)]), apiKey, upstream, parse) ==
      Sent(Response(400, Obj([("error", Str(MissingFieldsMessage))])))
    ensures Handle(Obj(fields), apiKey, upstream, parse) ==
      Sent(Response(400, Obj([("error", Str(MissingFieldsMessage))])))
  {
    LookupFieldSpec(fields, "destination");
    var fs := fields + [("destination", v)];
    assert fs[|fs| - 1] == ("destination", v);
  }

  // ----- mock path -----

  /** With the required fields present and no key configured, the response
      is 200 with the mock document built from the three required fields;
      a destination that cannot be converted to a string leaves the request
      unanswered. */
  lemma MockWhenNoKey(body: Json, apiKey: Option<string>, upstream: Payload -> UpstreamOutcome,
                      parse: string -> Result<Json, string>)
    requires !Nullish(body)
    requires RequiredPresent(Destructure(body)) && !KeyConfigured(apiKey)
    ensures Printable(Get(body, "destination")) ==>
      Handle(body, apiKey, upstream, parse) ==
        Sent(Response(200, MockItinerary.ToJson(
          MockItinerary.Generate(Get(body, "destination"), Get(body, "startDate"), Get(body, "endDate")).value)))
    ensures !Printable(Get(body, "destination")) ==>
      Handle(body, apiKey, upstream, parse) == Unhandled("Cannot convert object to primitive value")
  {
  }

  /** No key means an absent key or the empty string; any other string is
      a key. */
  lemma NoKeyMeansAbsentOrEmpty(apiKey: Option<string>)
    ensures !KeyConfigured(apiKey) <==> apiKey == None || apiKey == Some("")
  {
  }

  /** On the mock path the response body, read as a JSON object, echoes the
      request's destination and dates and fixes the rest. */
  lemma MockResponseFields(body: Json, apiKey: Option<string>, upstream: Payload -> UpstreamOutcome,
                           parse: string -> Result<Json, string>)
    requires !Nullish(body)
    requires RequiredPresent(Destructure(body)) && !KeyConfigured(apiKey)
    requires Printable(Get(body, "destination"))
    ensures Handle(body, apiKey, upstream, parse).Sent?
    ensures Handle(body, apiKey, upstream, parse).response.status == 200
    ensures var doc := Handle(body, apiKey, upstream, parse).response.body;
      && Get(doc, "destination") == Get(body, "destination")
      && Get(doc, "startDate") == Get(body, "startDate")
      && Get(doc, "endDate") == Get(body, "endDate")
      && Get(doc, "title") == Str("Mock Itinerary for " + ToStr(Get(body, "destination")))
      && Get(doc, "days") == Num(3)
      && Get(doc, "budget") == Str("Medium")
      && Get(doc, "items").Arr? && |Get(doc, "items").elems| == 3
      && Get(Get(doc, "items").elems[0], "date") == Get(body, "startDate")
      && Get(Get(doc, "items").elems[1], "date") == Str("2025-11-09")
      && Get(Get(doc, "items").elems[2], "date") == Get(body, "endDate")
  {
    var f := Destructure(body);
    var it := MockItinerary.Generate(f.destination, f.startDate, f.endDate).value;
    MockItinerary.ToJsonFields(it);
    MockItinerary.DayPlanJsonFields(it.items[0]);
    MockItinerary.DayPlanJsonFields(it.items[1]);
    MockItinerary.DayPlanJsonFields(it.items[2]);
  }

  /** The body of a request whose destination is an object with its own
      `toString` key. */
  function ObjectDestinationBody(): (r: Json) {
    Obj([("destination", Obj([("toString", Num(1))])), ("startDate", Str("a")), ("endDate", Str("b"))])
  }

  /** As written, such a request with no key configured throws while the
      mock title is built, outside the try block: no response is written. */
  lemma ObjectDestinationUnanswered(upstream: Payload -> UpstreamOutcome, parse: string -> Result<Json, string>)
    ensures Handle(ObjectDestinationBody(), None, upstream, parse) == Unhandled("Cannot convert object to primitive value")
  {
    var fs := ObjectDestinationBody().fields;
    MockItinerary.LookupLastBinding(fs, 0);
    MockItinerary.LookupLastBinding(fs, 1);
    MockItinerary.LookupLastBinding(fs, 2);
    assert Obj([("toString", Num(1))]).fields[0].0 == "toString";
  }

  /** The handler with the conversion error of the mock path caught and
      answered like the live path's errors, so that every request is
      answered. */
  function HandleCorrected(body: Json, apiKey: Option<string>, upstream: Payload -> UpstreamOutcome,
                           parse: string -> Result<Json, string>): (r: Response)
    requires !Nullish(body)
    ensures r.status in {200, 400, 500}
  {
    var f := Destructure(body);
    if !RequiredPresent(f) then
      Response(400, Obj([("error", Str(MissingFieldsMessage))]))
    else if !KeyConfigured(apiKey) then
      match MockItinerary.Generate(f.destination, f.startDate, f.endDate)
      case Success(it) => Response(200, MockItinerary.ToJson(it))
      case Failure(m) => ErrorResponse(m)
    else
      LiveResponse(f, upstream, parse)
  }

  /** The corrected handler answers every request with 200, 400 or 500,
      gives the response the handler as written gives whenever that one
      answers, and answers the request the written one leaves hanging with
      the 500 error object. */
  lemma CorrectedAlwaysAnswers(body: Json, apiKey: Option<string>, upstream: Payload -> UpstreamOutcome,
                               parse: string -> Result<Json, string>)
    requires !Nullish(body)
    ensures HandleCorrected(body, apiKey, upstream, parse).status in {200, 400, 500}
    ensures Handle(body, apiKey, upstream, parse).Sent? ==>
      HandleCorrected(body, apiKey, upstream, parse) == Handle(body, apiKey, upstream, parse).response
    ensures Handle(body, apiKey, upstream, parse).Unhandled? ==>
      HandleCorrected(body, apiKey, upstream, parse) == ErrorResponse("Cannot convert object to primitive value")
  {
  }

  /** On the mock path `interests` and `budget` have no effect: two bodies
      that agree on the required fields get the same reply. */
  lemma MockIgnoresOptionalFields(body1: Json, body2: Json, apiKey: Option<string>,
                                  upstream: Payload -> UpstreamOutcome, parse: string -> Result<Json, string>)
    requires !Nullish(body1) && !Nullish(body2)
    requires Get(body1, "destination") == Get(body2, "destination")
    requires Get(body1, "startDate") == Get(body2, "startDate")
    requires Get(body1, "endDate") == Get(body2, "endDate")
    requires !KeyConfigured(apiKey)
    ensures Handle(body1, apiKey, upstream, parse) == Handle(body2, apiKey, upstream, parse)
  {
  }

  /** The upstream service and the parser are consulted only on the live
      path: off it, replacing them changes nothing. */
  lemma UpstreamOnlyWhenLive(body: Json, apiKey: Option<string>,
                             upstream1: Payload -> UpstreamOutcome, parse1: string -> Result<Json, string>,
                             upstream2: Payload -> UpstreamOutcome, parse2: string -> Result<Json, string>)
    requires !Nullish(body)
    requires !(RequiredPresent(Destructure(body)) && KeyConfigured(apiKey))
    ensures Handle(body, apiKey, upstream1, parse1) == Handle(body, apiKey, upstream2, parse2)
  {
  }

  // ----- properties of the live path -----

  /** How an optional field that is absent, null or a string appears in the
      user message. */
  function OptionalText(v: Json): (r: string)
    requires v.Undefined? || v.Null? || v.Str?
  {
    match v
    case Undefined => ""
    case Null => "null"
    case Str(s) => s
  }

  /** For string destination and dates, and optional fields each absent,
      null or a string, the user message is the fixed template with the
      values filled in: an absent field contributes nothing, an explicit
      null contributes "null". */
  lemma UserMessageOfStrings(body: Json, d: string, s: string, e: string)
    requires !Nullish(body)
    requires Get(body, "destination") == Str(d) && Get(body, "startDate") == Str(s) && Get(body, "endDate") == Str(e)
    requires var i := Get(body, "interests"); i.Undefined? || i.Null? || i.Str?
    requires var b := Get(body, "budget"); b.Undefined? || b.Null? || b.Str?
    ensures UserMessage(Destructure(body)) ==
      Success("Destination: " + d + ", Start: " + s + ", End: " + e
              + ", Interests: " + OptionalText(Get(body, "interests"))
              + ", Budget: " + OptionalText(Get(body, "budget")))
  {
  }

  /** A field that cannot be converted to a string makes building the
      payload throw inside the try block: 500, and upstream is not called. */
  lemma PromptConversionFailureIs500(body: Json, apiKey: Option<string>, upstream: Payload -> UpstreamOutcome,
                                     parse: string -> Result<Json, string>)
    requires !Nullish(body)
    requires RequiredPresent(Destructure(body)) && KeyConfigured(apiKey)
    requires var f := Destructure(body);
      !Printable(f.destination) || !Printable(f.startDate) || !Printable(f.endDate)
      || !Printable(f.interests) || !Printable(f.budget)
    ensures Handle(body, apiKey, upstream, parse) == Sent(ErrorResponse("Cannot convert object to primitive value"))
  {
  }

  /** When the envelope holds a non-empty string at
      `choices[0].message.content` and it parses to `v`, the response is
      200 with `v` itself: nothing is added or removed. */
  lemma LivePassThrough(body: Json, apiKey: Option<string>, upstream: Payload -> UpstreamOutcome,
                        parse: string -> Result<Json, string>, choices: seq<Json>, message: Json, text: string, v: Json)
    requires !Nullish(body)
    requires RequiredPresent(Destructure(body)) && KeyConfigured(apiKey)
    requires var p := BuildPayload(Destructure(body));
      p.Success? && upstream(p.value).Replied? && !Nullish(upstream(p.value).envelope)
      && Get(upstream(p.value).envelope, "choices") == Arr(choices)
    requires |choices| > 0 && !Nullish(choices[0]) && Get(choices[0], "message") == message
    requires !Nullish(message) && Get(message, "content") == Str(text) && text != ""
    requires parse(text) == Success(v)
    ensures Handle(body, apiKey, upstream, parse) == Sent(Response(200, v))
  {
    GetArrayElement(choices, 0);
  }

  /** Truthy content that is not a string is converted to a string before
      parsing; one that cannot be converted gives 500. */
  lemma ContentConversion(body: Json, apiKey: Option<string>, upstream: Payload -> UpstreamOutcome,
                          parse: string -> Result<Json, string>)
    requires !Nullish(body)
    requires RequiredPresent(Destructure(body)) && KeyConfigured(apiKey)
    requires var p := BuildPayload(Destructure(body));
      p.Success? && upstream(p.value).Replied? && !Nullish(upstream(p.value).envelope)
      && Truthy(Content(upstream(p.value).envelope))
    ensures var c := Content(upstream(BuildPayload(Destructure(body)).value).envelope);
      && (Printable(c) && parse(ToStr(c)).Success? ==>
            Handle(body, apiKey, upstream, parse) == Sent(Response(200, parse(ToStr(c)).value)))
      && (!Printable(c) ==>
            Handle(body, apiKey, upstream, parse) == Sent(ErrorResponse("Cannot convert object to primitive value")))
  {
  }

  /** A failed upstream call is reported as 500 with its message. */
  lemma UpstreamFailureIs500(body: Json, apiKey: Option<string>, upstream: Payload -> UpstreamOutcome,
                             parse: string -> Result<Json, string>, m: string)
    requires !Nullish(body)
    requires RequiredPresent(Destructure(body)) && KeyConfigured(apiKey)
    requires var p := BuildPayload(Destructure(body)); p.Success? && upstream(p.value) == Failed(m)
    ensures Handle(body, apiKey, upstream, parse) ==
      Sent(Response(500, Obj([("error", Str("OpenAI API error")), ("details", Str(m))])))
  {
  }

  /** Completion content that does not parse is reported exactly like a
      failed call, with the parser's message. */
  lemma ParseFailureIs500(body: Json, apiKey: Option<string>, upstream: Payload -> UpstreamOutcome,
                          parse: string -> Result<Json, string>, text: string, m: string)
    requires !Nullish(body)
    requires RequiredPresent(Destructure(body)) && KeyConfigured(apiKey)
    requires var p := BuildPayload(Destructure(body));
      p.Success? && upstream(p.value).Replied? && !Nullish(upstream(p.value).envelope)
      && Content(upstream(p.value).envelope) == Str(text) && text != ""
    requires parse(text) == Failure(m)
    ensures Handle(body, apiKey, upstream, parse) == Sent(ErrorResponse(m))
  {
  }

  /** An envelope without `choices` (such as the error object the service
      returns with a non-2xx status), or with a falsy content anywhere down
      the chain, hands the empty string to the parser; since "" is not
      JSON, the response is 500 with the parser's message. */
  lemma MissingContentIs500(body: Json, apiKey: Option<string>, upstream: Payload -> UpstreamOutcome,
                            parse: string -> Result<Json, string>, m: string)
    requires !Nullish(body)
    requires RequiredPresent(Destructure(body)) && KeyConfigured(apiKey)
    requires var p := BuildPayload(Destructure(body));
      p.Success? && upstream(p.value).Replied? && !Nullish(upstream(p.value).envelope)
      && !Truthy(Content(upstream(p.value).envelope))
    requires parse("") == Failure(m)
    ensures Handle(body, apiKey, upstream, parse) == Sent(ErrorResponse(m))
  {
  }

  /** An object envelope with no `choices` key has falsy content. */
  lemma {:induction false} NoChoicesNoContent(fields: seq<(string, Json)>)
    requires forall i :: 0 <= i < |fields| ==> fields[i].0 != "choices"
    ensures !Truthy(Content(Obj(fields)))
  {
    LookupFieldSpec(fields, "choices");
  }

  /** Every other missing link of the chain also gives falsy content: an
      empty `choices` array, a first choice without `message`, and a message
      without `content`. */
  lemma {:induction false} MissingLinkNoContent(data: Json, choices: seq<Json>,
                                                c: seq<(string, Json)>, m: seq<(string, Json)>)
    requires !Nullish(data) && Get(data, "choices") == Arr(choices)
    ensures choices == [] ==> !Truthy(Content(data))
    ensures |choices| > 0 && choices[0] == Obj(c) && (forall i :: 0 <= i < |c| ==> c[i].0 != "message") ==>
              !Truthy(Content(data))
    ensures |choices| > 0 && !Nullish(choices[0]) && Get(choices[0], "message") == Obj(m)
            && (forall i :: 0 <= i < |m| ==> m[i].0 != "content") ==>
              !Truthy(Content(data))
  {
    ArrayIndexOfNumeral(0);
    assert NatToString(0) == "0";
    if |choices| > 0 {
      GetArrayElement(choices, 0);
    }
    LookupFieldSpec(c, "message");
    LookupFieldSpec(m, "content");
  }

  /** A `null` envelope makes reading `choices` throw a TypeError, which is
      caught and reported as 500. */
  lemma NullEnvelopeIs500(body: Json, apiKey: Option<string>, upstream: Payload -> UpstreamOutcome,
                          parse: string -> Result<Json, string>)
    requires !Nullish(body)
    requires RequiredPresent(Destructure(body)) && KeyConfigured(apiKey)
    requires var p := BuildPayload(Destructure(body)); p.Success? && upstream(p.value) == Replied(Null)
    ensures Handle(body, apiKey, upstream, parse) ==
      Sent(ErrorResponse("Cannot read properties of null (reading 'choices')"))
  {
  }

  /** Every request is answered with 200, 400 or 500, except a mock-path
      request whose destination cannot be converted to a string; a 500
      happens only on the live path and carries the error object; a live
      200 carries a parsed value. */
  lemma ResponseKinds(body: Json, apiKey: Option<string>, upstream: Payload -> UpstreamOutcome,
                      parse: string -> Result<Json, string>)
    requires !Nullish(body)
    ensures var r := Handle(body, apiKey, upstream, parse);
      && (r.Unhandled? ==> !KeyConfigured(apiKey) && RequiredPresent(Destructure(body)))
      && (r.Sent? ==> r.response.status in {200, 400, 500})
      && (r.Sent? && r.response.status == 500 ==>
            RequiredPresent(Destructure(body)) && KeyConfigured(apiKey) && exists m :: r.response == ErrorResponse(m))
      && (r.Sent? && r.response.status == 200 && !KeyConfigured(apiKey) ==> RequiredPresent(Destructure(body)))
      && (r.Sent? && r.response.status == 200 && KeyConfigured(apiKey) ==> exists t :: parse(t) == Success(r.response.body))
  {
  }
}
