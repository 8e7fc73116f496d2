# AI Travel Planner backend: the itinerary request handler

The backend has one endpoint that does any work: `POST /api/generate-itinerary`,
in `server/index.js`. It reads `destination`, `startDate` and `endDate` from the
request body, plus `interests` and `budget`, which are optional and default to
`""`. It answers in one of three ways:

- 400 with a fixed error object when a required field is falsy;
- 200 with a fixed three-day mock itinerary when the process has no API key;
- otherwise it calls a chat-completion service. It answers 200 with the JSON
  parsed out of the first completion's content. Any failure on the way gives 500.

This project models that handler and `generateMockItinerary` as pure Dafny
functions, and proves the handler's behaviour as lemmas.

- `js_value.dfy` (module `JsValue`): the JavaScript values the handler deals in.
  This covers truthiness (`!x`), own-property lookup (`o.p`, `o?.[0]`),
  optional chaining, destructuring defaults, and the ToString conversion used by
  template literals and by `JSON.parse`.
- `mock_itinerary.dfy` (module `MockItinerary`): the mock document, both as a
  typed itinerary and as the JSON object the response carries.
- `itinerary_handler.dfy` (module `ItineraryHandler`): the handler
  `Handle(body, apiKey, upstream, parse)`.
  - `apiKey` is the value of `OPENAI_API_KEY` (`None` when unset).
  - `upstream` maps the chat payload to the call's outcome: the decoded reply
    envelope, or the message of the error that `fetch` or `resp.json()` threw.
  - `parse` stands for `JSON.parse` on a string.

Some behaviour of the code is kept exactly, even where a reader might expect
otherwise:

- Day 2 of the mock is dated `"2025-11-09"`, whatever dates the request gives.
- The mock's `budget` is `"Medium"`, whatever budget the caller sent.
- A destructuring default replaces only `undefined`. An explicit `null` interest
  reaches the prompt as the text `null`.
- The completion content goes through `|| ""`. Missing or falsy content hands
  the empty string to the parser.
- A non-string content is converted to a string before parsing.
- A `null` reply envelope makes `data.choices` throw a TypeError, which the
  handler reports as 500.
- Interpolating an object that has an own `toString` key throws a TypeError
  ("Cannot convert object to primitive value"). Inside the `try` block this is
  a 500. On the mock path the throw happens outside the `try`, so the request
  gets no response at all (see "## Findings"). `Handle` returns a `Reply`:
  `Sent(response)`, or `Unhandled(error)` for that case.

Two further places where the model keeps what the code does rather than what
a caller might assume:

- The optional fields default only when absent (`undefined`). An explicit
  `null` does not get the default.
- The 500 body's `details` is whatever message the error carried. The model
  does not promise it is non-empty.

## Model

| member | source | states |
|---|---|---|
| `JsValue.Truthy` | server/index.js:50 | JavaScript truthiness; `JsValue.FalsyValues` states which values are falsy |
| `JsValue.FalsyValues` | server/index.js:50 | the falsy values are exactly `undefined`, `null`, `false`, `0` and `""` |
| `JsValue.NatToStringRoundTrip` | server/index.js:66 | the decimal numeral used when a number is interpolated reads back as the same number, is all digits and has no leading zero |
| `JsValue.NatToString` | server/index.js:15 | the decimal numeral of a non-negative integer, never empty; `JsValue.NatToStringRoundTrip` states that it reads back |
| `JsValue.IntToString` | server/index.js:66 | Number-to-string for integers: a minus sign before negatives; `JsValue.ToStrFacts` states it |
| `JsValue.ArrayIndex` | server/index.js:81 | a property key that selects an array element is the canonical numeral of that index |
| `JsValue.ArrayIndexOfNumeral` | server/index.js:81 | the key `"0"` (any index's numeral) selects that index |
| `JsValue.LookupField` | server/index.js:48 | own-property read on an object; `JsValue.LookupFieldSpec` states it |
| `JsValue.Get` | server/index.js:48 | own-property read; `JsValue.LookupFieldSpec` and `JsValue.GetArrayElement` state what it returns |
| `JsValue.GetArrayElement` | server/index.js:81 | `arr[i]` yields element `i` when it exists |
| `JsValue.LookupFieldSpec` | server/index.js:48 | reading an absent property gives `undefined`; a present one gives the value of its last binding |
| `JsValue.GetOptional` | server/index.js:81 | `x?.[k]` is `undefined` when `x` is `null` or `undefined`, and is the plain read `x[k]` otherwise |
| `JsValue.WithDefault` | server/index.js:48 | a destructuring default replaces `undefined` and nothing else |
| `JsValue.ToStr` | server/index.js:15 | the text a value converts to; `JsValue.ToStrFacts`, `JsValue.ToStrArray` and `JsValue.ConvertToString` state it |
| `JsValue.ToStrFacts` | server/index.js:15 | template-literal conversion: strings unchanged, booleans and integers as text, `null` and `undefined` by name, null array elements empty |
| `JsValue.JoinFrom` | server/index.js:66 | Array `join` with "," inside ToString; `JsValue.JoinFromAppend` and `JsValue.ToStrArray` state it |
| `JsValue.ElementText` | server/index.js:66 | one element's text inside `join`, empty for `null` and `undefined`; `JsValue.ToStrArray` and `JsValue.ToStrFacts` state it |
| `JsValue.JoinFromAppend` | server/index.js:66 | joining the elements from `i` on, with one more element at the end, appends a comma and that element's text |
| `JsValue.ToStrArray` | server/index.js:66 | an empty array converts to ""; one element to its text; appending `x` to a non-empty array appends "," and the text of `x` ("" when `x` is nullish) |
| `JsValue.Printable` | server/index.js:15 | whether conversion succeeds; `JsValue.PrintableFacts` states it |
| `JsValue.PrintableFacts` | server/index.js:15 | values other than objects and arrays always convert; a convertible object has no own `toString`; examples: `{valueOf: 1}` converts, `{toString: 1}` does not, nor does an array holding `{toString: null}` |
| `JsValue.PrintableRules` | server/index.js:15 | for any object, binding `valueOf` keeps it convertible and binding `toString` makes it fail, also as the last element of any array; one failing element makes an array fail |
| `JsValue.ConvertToString` | server/index.js:66 | the conversion succeeds exactly for printable values, with their text; otherwise it throws "Cannot convert object to primitive value" |
| `MockItinerary.Document` | server/index.js:14-44 | the object literal with its fixed strings; `MockItinerary.EchoesInputs`, `MockItinerary.DayShapes` and `MockItinerary.OnlyEchoesVary` state it |
| `MockItinerary.Generate` | server/index.js:13-45 | succeeds exactly when the destination converts to a string, and otherwise throws the conversion error |
| `MockItinerary.EchoesInputs` | server/index.js:14-20 | the mock echoes destination, startDate and endDate; title is "Mock Itinerary for " + destination; days is 3; budget is "Medium" |
| `MockItinerary.DayShapes` | server/index.js:21-43 | three days numbered 1, 2, 3; day 1 is startDate, day 3 is endDate, day 2 is "2025-11-09"; 3 highlights each; meals of 3, 3 and 2 |
| `MockItinerary.OnlyEchoesVary` | server/index.js:13-45 | any two mock documents are equal once the echoed slots are blanked; equal inputs give equal documents |
| `MockItinerary.StringsJson` | server/index.js:25-26 | a list of strings renders as an array of the same length holding those strings in order |
| `MockItinerary.DayPlanJson` | server/index.js:22-28 | a day as a JSON object; `MockItinerary.DayPlanJsonFields` states its properties |
| `MockItinerary.ItemsJson` | server/index.js:21-43 | the day list renders as an array of the same length, day by day |
| `MockItinerary.ToJson` | server/index.js:14-44 | the document as a JSON object; `MockItinerary.ToJsonFields` states its properties |
| `MockItinerary.LookupLastBinding` | server/index.js:14-44 | in an object literal, a key not repeated later reads back as the value written beside it |
| `MockItinerary.ToJsonFields` | server/index.js:14-21 | each top-level property of the rendered document reads back as the itinerary's field |
| `MockItinerary.DayPlanJsonFields` | server/index.js:22-28 | each property of a rendered day reads back as the day's field |
| `MockItinerary.ParisExample` | server/index.js:13-45 | Paris, 2025-11-08 to 2025-11-10: title "Mock Itinerary for Paris"; the three dates 2025-11-08, 2025-11-09, 2025-11-10 |
| `ItineraryHandler.Handle` | server/index.js:47-88 | the request goes unanswered exactly when the required fields are present, no key is set and the destination cannot be converted; every response is 200, 400 or 500 |
| `ItineraryHandler.Destructure` | server/index.js:48 | each field is the body's property; `interests` and `budget` default to `""` only when `undefined`, so they are `""` exactly when absent or sent as `""` and never `undefined` |
| `ItineraryHandler.RequiredPresent` | server/index.js:50 | the three-field falsiness test; `ItineraryHandler.RejectsMissingFields` and `ItineraryHandler.RejectsFalsyDestination` state it |
| `ItineraryHandler.KeyConfigured` | server/index.js:55 | the key test; `ItineraryHandler.NoKeyMeansAbsentOrEmpty` states it |
| `ItineraryHandler.NoKeyMeansAbsentOrEmpty` | server/index.js:55 | "no key" means unset or the empty string |
| `ItineraryHandler.RejectsMissingFields` | server/index.js:50-52 | status is 400 if and only if a required field is falsy; the body is then exactly the fixed error object |
| `ItineraryHandler.RejectsFalsyDestination` | server/index.js:48-52 | a missing destination, or one that is null, "", 0 or false, is rejected with 400 |
| `ItineraryHandler.MockWhenNoKey` | server/index.js:55-58 | required fields present and no key: status 200 with the mock built from the three required fields, or no response when the destination cannot be converted |
| `ItineraryHandler.MockResponseFields` | server/index.js:57 | the mock response body, read as JSON, echoes the request's destination and dates; it fixes days, budget, the item count and the day-2 date |
| `ItineraryHandler.ObjectDestinationUnanswered` | server/index.js:15 | a destination object with its own `toString`, with no key set, leaves the request unanswered |
| `ItineraryHandler.HandleCorrected` | server/index.js:47-88 | the handler with the mock path's conversion error answered by the 500 error object: every request gets 200, 400 or 500 |
| `ItineraryHandler.CorrectedAlwaysAnswers` | server/index.js:47-88 | the corrected handler answers every request with 200, 400 or 500, agrees with the handler wherever that one answers, and answers the unanswered case with the 500 error object |
| `ItineraryHandler.MockIgnoresOptionalFields` | server/index.js:48-58 | with no key, bodies that agree on the three required fields get the same reply, whatever their interests and budget |
| `ItineraryHandler.UpstreamOnlyWhenLive` | server/index.js:50-58 | off the live path, the upstream service and the parser have no effect on the reply |
| `ItineraryHandler.UserMessage` | server/index.js:66 | the user message is built exactly when all five fields convert to strings, and otherwise throws the conversion error |
| `ItineraryHandler.UserMessageOfStrings` | server/index.js:48-66 | the user message is "Destination: d, Start: s, End: e, Interests: i, Budget: b"; absent optional fields contribute "", an explicit null contributes "null" |
| `ItineraryHandler.BuildPayload` | server/index.js:62-69 | the payload names model "gpt-3.5-turbo" and holds the system instruction and then the user message; it fails exactly when the user message does |
| `ItineraryHandler.Content` | server/index.js:81 | `choices[0].message.content` through optional chaining; `ItineraryHandler.CompletionText`, `ItineraryHandler.NoChoicesNoContent` and `ItineraryHandler.MissingLinkNoContent` state it |
| `ItineraryHandler.CompletionText` | server/index.js:81 | fails exactly on a nullish envelope; otherwise it is the content when that is truthy and "" when it is not |
| `ItineraryHandler.ErrorResponse` | server/index.js:86 | status 500, body `{error: "OpenAI API error", details: m}` with the error's message |
| `ItineraryHandler.LiveResponse` | server/index.js:61-87 | the live path answers 200 or 500, and every 500 is the error object |
| `ItineraryHandler.PromptConversionFailureIs500` | server/index.js:66 | a field that cannot be converted for the prompt gives 500 with the conversion error |
| `ItineraryHandler.LivePassThrough` | server/index.js:80-83 | a non-empty string at `choices[0].message.content` that parses to v gives status 200 with body v unchanged |
| `ItineraryHandler.ContentConversion` | server/index.js:81-83 | truthy non-string content is parsed from its text, and content that cannot be converted gives 500 |
| `ItineraryHandler.UpstreamFailureIs500` | server/index.js:84-86 | a failed upstream call with message m gives 500 with `{error: "OpenAI API error", details: m}` |
| `ItineraryHandler.ParseFailureIs500` | server/index.js:82-86 | content that does not parse gives the same 500 shape, with the parser's message |
| `ItineraryHandler.MissingContentIs500` | server/index.js:81-86 | falsy or missing content hands "" to the parser; its rejection gives 500 |
| `ItineraryHandler.NoChoicesNoContent` | server/index.js:81 | an envelope object without `choices` has falsy content |
| `ItineraryHandler.MissingLinkNoContent` | server/index.js:81 | an empty `choices` array, a first choice without `message`, and a message without `content` each give falsy content |
| `ItineraryHandler.ChoicesReadError` | server/index.js:81 | the TypeError text for reading `choices` of `null` or `undefined`; `ItineraryHandler.NullEnvelopeIs500` states it |
| `ItineraryHandler.NullEnvelopeIs500` | server/index.js:80-86 | a `null` envelope gives 500 with the TypeError raised by reading `choices` |
| `ItineraryHandler.ResponseKinds` | server/index.js:47-88 | only a mock-path request goes unanswered; every response is 200, 400 or 500; a 500 happens only on the live path and carries the error object; a live 200 carries a parsed value |

## Left out

- Server plumbing is not modelled: the Express bootstrap, `cors()`, `express.json()`,
  `dotenv`, `app.listen` and the port default (server/index.js:2-9, 90-91).
- The `GET /` health route (server/index.js:11) is a literal response with no logic.
- The outbound `fetch` is not modelled: its URL, its headers (including the
  bearer token) and `resp.json()`. They are I/O. The `upstream` parameter stands
  for their combined outcome. It receives the payload but not the key.
- `JSON.parse` is the `parse` parameter. The model has no JSON grammar.
- `JSON.stringify` is not modelled: not of the payload, and not of the response
  body. A response body is the value handed to `res.json`.
- The model name is a constant in the payload. The sampling temperature (0.6)
  is left out: there are no floating-point semantics to model.
- `console.log` and `console.error` are logging side effects.
- `async`/`await` is not modelled. The handler keeps no state between
  requests, so one request in sequence is exact.
- Numbers are integers. Fractional values, `NaN`, `-0`, and the exponent
  notation JavaScript uses for magnitudes of 10^21 and above are not modelled.
- `JsValue.ToStr`: prints every digit of an integer. JavaScript numbers are
  doubles, so above 2^53 JavaScript prints the shortest digits that round-trip
  and pads with zeros. For 2^60 it gives "1152921504606847000"; the model gives
  "1152921504606846976". Integers up to 2^53 print the same in both.
- `JsValue.ToStrFacts`: `ToStr(Num(n)) == NatToString(n)` holds in JavaScript
  only up to 2^53, for the same reason.
- `JsValue.IntToString`: exact decimal for every integer, including ones that
  a double cannot hold or that JavaScript prints rounded.
- An object converts to "[object Object]" unless it has an own `toString` key,
  which makes the conversion throw. The model does not run user-defined
  `toString` or `valueOf` functions, since a request body holds only JSON.
  An own `valueOf` key alone changes nothing.
- Property lookup sees own properties, plus `length` of strings and arrays. The
  prototype chain is not modelled. None of the keys the handler reads names an
  inherited property.
- Strings are sequences of Dafny characters, not UTF-16 code units.
- `details` models an error that carries a string `message`. A thrown non-Error
  value, which would leave `details` undefined, is not modelled.
- `ItineraryHandler.Handle`: requires a body that is neither `null` nor
  `undefined`. This assumes Express 4, where `express.json()` (body-parser 1.x)
  always leaves an object or an array in `req.body`. Under Express 5, `req.body`
  can be `undefined`, and destructuring it would throw.
- `ItineraryHandler.MissingContentIs500`: assumes the parser rejects the empty
  string. `JSON.parse("")` always throws, but the parser here is a parameter.

## Findings

| source | as written | input that shows it | evidently intended | confidence | as-written member | corrected member |
|---|---|---|---|---|---|---|
| server/index.js:15 | on the mock path, the title's conversion of the destination runs outside the `try` block, so its TypeError rejects the handler's promise and no response is written | body `{"destination":{"toString":1},"startDate":"a","endDate":"b"}` with `OPENAI_API_KEY` unset | every request is answered; a conversion error gets the 500 error object, as on the live path | not executed | `ItineraryHandler.ObjectDestinationUnanswered` | `ItineraryHandler.HandleCorrected` |

Under Node's default setting since version 15, such an unhandled rejection
also ends the server process. All other lemmas describe the handler as written (`ItineraryHandler.Handle`).
`ItineraryHandler.CorrectedAlwaysAnswers` shows that `HandleCorrected` gives the
same response as `Handle` wherever `Handle` answers.
