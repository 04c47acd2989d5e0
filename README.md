# Startup idea validator: form logic and analysis client

This project models the logic of a small browser front end. The front end collects a startup
idea in four text fields, sends it to a generative-AI endpoint, and receives back a structured
`IdeaAnalysis`. The analysis holds a summary, a viability score, a SWOT analysis, competitors,
market insights and recommendations. Three pieces of logic are modelled and proved:

- **The idea form** (`IdeaForm`, file `idea_form.dfy`). The class `IdeaFormState` holds the
  form's state: `formData`, the `errors` map and the `loading` flag. Its methods are the
  component's handlers:
  - `ValidateForm` runs the four independent field checks.
  - `HandleInputChange` replaces one field and clears that field's error.
  - `HandleSubmit` validates first. Only a valid form raises `loading`, calls `analyzeIdea`
    and hands a successful result to `onSubmit`. `loading` is lowered again on success and on
    failure.

  A ghost `effects` log records the calls to `analyzeIdea` and `onSubmit`. The class
  invariant `Consistent()` says that every error on display is the one validation would report
  for the current text.
- **The response shape check** (`AiService.IsValidAnalysis`). The parsed payload is a JSON
  value (`JsValue.Json`). The check is evaluated conjunct by conjunct, in JavaScript's order, to
  a three-valued `Verdict`. The third value, `Threw`, is needed because reading a property of
  `null` raises a TypeError. The check is proved equal to a declarative description of the
  accepted payloads (`WellShaped`). Its exact boundaries are proved as lemmas.
- **The error pipeline of `analyzeIdea`** (`AiService.AnalyzeIdea`). The API key is an
  optional parameter. The network exchange is an input: either `fetch` rejected, or a reply
  with a status and the result of `response.json()`. `JSON.parse` is a function parameter.
  The result records the request sent, if any, and either the parsed analysis or the error
  thrown.

The fixed analyses of the offline mock provider (`AiService.GetMockAnalysis`) and of the
sample data (`MockData.MockAnalysis`) are proved to pass the same shape check as a real reply.

Supporting modules:

- `JsText` models JavaScript `trim`, `length` (in UTF-16 code units) and decimal rendering.
- `JsValue` models JSON values, truthiness, property access with and without `?.`, and
  `JSON.stringify` of strings, with a reader of JSON string literals to invert it.
- `AnalysisTypes` holds the `IdeaAnalysis` record of `src/types.ts` with its JSON encoding and
  decoding.

The model follows the code on two points where a reader might expect otherwise:

- The minimum length of the idea is checked on the untrimmed text (`idea.length`), not on the
  trimmed text.
- A JSON parse failure and a shape failure produce one and the same message. They are not two
  separate error kinds.

## Model

| member | source | states |
|---|---|---|
| `JsText.TrimEmptyIffBlank` | src/components/IdeaForm.tsx:34 | `!s.trim()` holds exactly when every character of `s` is ECMAScript whitespace or a line terminator |
| `JsText.TrimSpec` | src/components/IdeaForm.tsx:34 | the trimmed text is a slice of the input that neither starts nor ends with whitespace, and everything cut off before and after it is whitespace |
| `JsText.Utf16Length` | src/components/IdeaForm.tsx:37 | `idea.length` counts UTF-16 code units: between `|s|` and `2|s|`, and equal to `|s|` exactly when no character lies outside the Basic Multilingual Plane |
| `JsText.DecimalRoundTrip` | src/services/aiService.ts:94 | the decimal rendering of the status in the template literal reads back as the status |
| `AnalysisTypes.DecodeEncode` | src/types.ts:1-16 | every `IdeaAnalysis` record is read back unchanged from its JSON form |
| `AiService.EveryCompetitor` | src/services/aiService.ts:177-181 | `competitors.every(...)` passes exactly when every entry passes; otherwise its verdict is that of the first failing entry, every entry before which passes |
| `AiService.AcceptedIffWellShaped` | src/services/aiService.ts:164-185 | the check accepts exactly the payloads that are objects with a string `ideaSummary`, a number `viabilityScore` in [0, 100], an object `swotAnalysis` whose four lists are arrays, an array `competitors` of objects with string `name` and `description`, and array `marketInsights` and `recommendations` |
| `AiService.EncodedAcceptedIff` | src/services/aiService.ts:164-185 | the JSON form of a record is accepted exactly when its score lies in [0, 100] |
| `AiService.ScoreBoundsInclusive` | src/services/aiService.ts:168-170 | changing only the score of an accepted payload keeps it accepted exactly when the new score is in the closed range [0, 100] |
| `AiService.BadCompetitorRejects` | src/services/aiService.ts:176-181 | one competitor entry that fails its check rejects the whole payload |
| `AiService.EmptyCompetitorsAccepted` | src/services/aiService.ts:176-181 | an empty competitor list is accepted wherever a list of good entries is |
| `AiService.MissingCompetitorsRejected` | src/services/aiService.ts:176 | a payload without `competitors` is never accepted, so the field is not defaulted to an empty list |
| `AiService.ListElementsUnchecked` | src/services/aiService.ts:182-183 | any array in place of `marketInsights` or `recommendations` keeps an accepted payload accepted |
| `AiService.SwotElementsUnchecked` | src/services/aiService.ts:171-175 | any array in place of one of the four SWOT lists keeps an accepted payload accepted |
| `AiService.AcceptedPayloadNeedNotBeTyped` | src/services/aiService.ts:164-185 | an accepted payload need not be an `IdeaAnalysis`: numbers as strengths pass the check but decode to no record |
| `AiService.NullProbesThrow` | src/services/aiService.ts:166-181 | a `null` payload, or a `null` competitor in an otherwise accepted payload, makes the check throw instead of answering |
| `AiService.HttpError` | src/services/aiService.ts:90-96 | a failed status throws the body's `error.message` when it is a non-empty string, the message `Failed to analyze idea. Status: <status>` when the message is missing, empty or otherwise falsy, and an error built from the value when the value is truthy but not a string |
| `AiService.ParseAnalysis` | src/services/aiService.ts:105-117 | the parsed value is returned unchanged exactly when it parses and passes the check; a parse failure, a rejected shape and a throwing check all give the one message `Failed to parse the analysis response. Please try again.` |
| `AiService.AnalyzeIdea` | src/services/aiService.ts:33-122 | a request is sent exactly when the key is present and non-empty; without a key the call fails with the configuration message; the request carries the key and the serialized idea; a successful result always passes the shape check |
| `AiService.AnalyzeSucceedsIff` | src/services/aiService.ts:90-113 | a call succeeds with `v` exactly when the key is present, the reply is ok and JSON, the first candidate's text is truthy, it parses to `v`, and `v` passes the check |
| `AiService.NoRequestWithoutKey` | src/services/aiService.ts:34-38 | with an undefined or empty key the result is the configuration error and no request, whatever the network would have answered |
| `AiService.StatusMessageCarriesStatus` | src/services/aiService.ts:94 | the fallback message is `Failed to analyze idea. Status: ` followed by digits that read back as the status |
| `AiService.QuotaExceededMessage` | src/services/aiService.ts:90-96 | an HTTP 500 whose body is `{"error":{"message":"quota exceeded"}}` fails with exactly `quota exceeded` |
| `AiService.UnreadableErrorBody` | src/services/aiService.ts:91-95 | a failed status whose body is not JSON fails with the status message |
| `AiService.SingleCandidateReply` | src/services/aiService.ts:98-104 | for a reply with one candidate holding one part, a missing or empty text, or an empty candidate list, fails with `No response content received from Gemini.`; any other text goes to the parser |
| `AiService.CandidateTextReadsFirst` | src/services/aiService.ts:99 | for any number of candidates and parts, the text read is that of the first part of the first candidate; later candidates and parts are never looked at |
| `AiService.CandidateTextMissingLinks` | src/services/aiService.ts:99 | a missing `candidates`, an empty candidate list, a missing `content`, a missing `parts` or an empty part list each make the text read `undefined` |
| `AiService.FirstOfSeveralIsRead` | src/services/aiService.ts:98-113 | with two candidates, the first having parts `A` and `B`, the text `A` is the one parsed |
| `AiService.OkReplyOutcome` | src/services/aiService.ts:98-113 | for an ok reply, a `null` body fails on reading `candidates`; any falsy text (missing, `null`, `false`, `0`, empty) fails with the no-content message; any truthy text goes to the parser |
| `AiService.ErrorStatusFails` | src/services/aiService.ts:90-96 | whatever the body, a status outside 200-299 fails with the error `HttpError` derives from that status and body |
| `AiService.ReplyRoundTrip` | src/services/aiService.ts:98-113 | a reply carrying a record's JSON form with an in-range score yields exactly that object, from which the record is read back unchanged |
| `AiService.OutOfRangeScoreFails` | src/services/aiService.ts:106-117 | the same reply with a score of 150 fails with the parse-failure message |
| `AiService.GetMockAnalysis` | src/services/aiService.ts:187-209 | the mock provider's analysis passes the shape check; its score is 75, each list has two entries and there is one competitor |
| `MockData.MockAnalysisAccepted` | src/services/mockData.ts:3-61 | the sample analysis passes the client's shape check |
| `MockData.MockAnalysisContents` | src/services/mockData.ts:5-60 | the sample's score is 85, within [0, 100]; each SWOT list has four entries; the competitors are Buffer, Hootsuite and Later in that order, each with a non-empty description; there are five insights and six recommendations |
| `IdeaForm.WithValue` | src/components/IdeaForm.tsx:93-94 | a change sets the named field to the new text and leaves the other three fields as they were |
| `IdeaForm.NoErrorsIffValid` | src/components/IdeaForm.tsx:30-58 | validation reports no error exactly when all four fields are non-blank and the idea is at least 20 code units long |
| `IdeaForm.IdeaRule` | src/components/IdeaForm.tsx:34-40 | a blank idea gets only `Please describe your startup idea`; a non-blank idea shorter than 20 gets the `more detailed description` message; otherwise the idea has no error |
| `IdeaForm.RequiredFieldRule` | src/components/IdeaForm.tsx:42-55 | target market, value proposition and business model each have an error exactly when blank after trimming |
| `IdeaForm.UntrimmedLengthCounts` | src/components/IdeaForm.tsx:37-39 | one letter followed by nineteen spaces passes the length rule, though it trims to one character |
| `IdeaForm.FieldErrorIsLocal` | src/components/IdeaForm.tsx:34-55 | the checks are independent: changing one field never changes another field's error |
| `IdeaForm.IdeaFormState.constructor` | src/components/IdeaForm.tsx:20-28 | the form starts with four empty fields, no errors and `loading` false |
| `IdeaForm.IdeaFormState.ValidateForm` | src/components/IdeaForm.tsx:30-59 | after validation the stored errors are exactly those of the failing fields, and the result is true exactly when there are none, that is, when the form is valid |
| `IdeaForm.IdeaFormState.HandleInputChange` | src/components/IdeaForm.tsx:93-99 | only the named field changes; its error is removed only if one was shown, and every other error stays; the stored errors remain consistent with the new text |
| `IdeaForm.StringifyRoundTrip` | src/components/IdeaForm.tsx:75 | the payload `JSON.stringify(formData)` reads back, as JSON, as exactly the form it was made from |
| `IdeaForm.ReadWrittenMembers` | src/components/IdeaForm.tsx:75 | string members written one after another under their keys, as `JSON.stringify` writes an object, read back as the values written, in order |
| `IdeaForm.StringifyInjective` | src/components/IdeaForm.tsx:75 | different forms are sent as different payloads |
| `JsValue.ReadQuoted` | src/components/IdeaForm.tsx:75 | `JSON.stringify` of a string, escapes included, reads back as that string, whatever text follows it |
| `IdeaForm.IdeaFormState.HandleSubmit` | src/components/IdeaForm.tsx:61-91 | an invalid form changes neither `loading` nor the calls made; a valid form calls `analyzeIdea` once with the serialized form while `loading` is true, calls `onSubmit` only with a successful result (which passes the shape check), and ends with `loading` false on success and on failure |
| `IdeaForm.SubmitEmptyForm` | src/components/IdeaForm.tsx:22-71 | submitting the form in its initial state is blocked and sends nothing |

## Left out

- Rendering: all JSX, styling and animation of the form, the result view and the page, and the disabled state of the submit button while `loading` is true.
- PDF export of a result. It is a call into a foreign library followed by a timer.
- The network and the text-to-JSON parser. They are the inputs `exchange` and `parse` of `AnalyzeIdea`. The fixed parts of the request body are not modelled: the system instruction, the generation settings with the response schema and temperature, and the safety settings. The `ideaAnalysisSchema` constant is data sent to the remote service and is not modelled.
- Toast notifications, console logging, `e.preventDefault()`, and the logging-only warning about a missing OpenAI key.
- The artificial delay of the mock provider. Asynchronous scheduling in general, and React's batching of state updates: the handlers run as sequential steps.
- The environment lookup of the API key. It is the parameter `apiKey`.
- JavaScript number semantics. Scores are reals. An infinite parse result, such as that of `1e400`, is represented by a real outside every range the client tests, so it fails the score test just as the infinity does. NaN cannot come out of a JSON parse. Float rounding is not modelled.
- AiService.HttpError: when `error.message` is truthy but not a string, the thrown error is `Coerced(value)`; the text JavaScript's string conversion would give it is not modelled.
- AiService.AnalyzeIdea: the outer `catch` is modelled as rethrowing unchanged. Everything that can be thrown inside it is an `Error`, so its `An unexpected error occurred` branch cannot be reached and is not modelled.
- JsValue.Get: indexing a string counts code points, not UTF-16 code units. Every property the client reads after such an index is undefined on a string, so no result depends on this.
- JsValue.Get: the property names used are not array indices or built-in members of arrays and strings, so they are read only from objects.
- IdeaForm.ParseForm reads only the layout `JSON.stringify` gives a form (members in declaration order, no whitespace). It is not a general JSON parser; it is the inverse that shows the payload loses nothing.
- JsValue.Quote: lone surrogates cannot occur, because Dafny characters are Unicode scalar values.
- IdeaForm.IdeaFormState.HandleInputChange: `[field]: undefined` is modelled by removing the key. Every reader of the map only tests whether an entry is truthy, so the two behave the same.
