/**
 * The analysis client: the local shape check of a parsed response (`isValidAnalysis`), the
 * chain of guards that turns one exchange with the generative-AI endpoint into an analysis or
 * an error (`analyzeIdea`), and the fixed result of the offline mock provider
 * (`getMockAnalysis`). The network exchange and `JSON.parse` are inputs.
 */
module AiService {
  import opened Wrappers
  import opened JsText
  import opened JsValue
  import opened AnalysisTypes

  // ---------------------------------------------------------------------------------------
  // isValidAnalysis
  // ---------------------------------------------------------------------------------------

  /**
   * The outcome of evaluating the shape check. The check is one short-circuit conjunction, so
   * it either answers, or throws a TypeError when it reads a property of `null` (the payload
   * itself, its `swotAnalysis`, or a competitor, all of which pass `typeof x === "object"`).
   */
  datatype Verdict = Accepted | Rejected | Threw

  /** `v.name` on a value already known not to be `null`. */
  function Prop(v: Json, name: string): Option<Json>
    requires !v.JNull?
  {
    Get(v, Name(name))
  }

  /** `typeof v === "number" && v >= 0 && v <= 100`. */
  predicate ScoreInRange(v: Option<Json>) {
    TypeofNumber(v) && v.value.n >= 0.0 && v.value.n <= 100.0
  }

  /** The callback given to `competitors.every`. */
  function CompetitorVerdict(c: Json): Verdict {
    if !TypeofObject(Some(c)) then Rejected
    else if c.JNull? then Threw
    else if TypeofString(Prop(c, "name")) && TypeofString(Prop(c, "description")) then Accepted
    else Rejected
  }

  /** `every` stops at the first element whose callback does not return true. */
  function EveryCompetitor(cs: seq<Json>): (r: Verdict)
    ensures r == Accepted <==> forall i :: 0 <= i < |cs| ==> CompetitorVerdict(cs[i]) == Accepted
    ensures r != Accepted ==> exists i :: 0 <= i < |cs| && r == CompetitorVerdict(cs[i])
                                         && forall j :: 0 <= j < i ==> CompetitorVerdict(cs[j]) == Accepted
  {
    if cs == [] then Accepted
    else if CompetitorVerdict(cs[0]) != Accepted then CompetitorVerdict(cs[0])
    else
      var rest := EveryCompetitor(cs[1..]);
      assert forall i :: 1 <= i < |cs| ==> cs[i] == cs[1..][i - 1];
      rest
  }

  /** `isValidAnalysis(analysis)`, conjunct by conjunct in evaluation order. */
  function IsValidAnalysis(analysis: Json): Verdict {
    if !TypeofObject(Some(analysis)) then Rejected
    else if analysis.JNull? then Threw
    else if !TypeofString(Prop(analysis, "ideaSummary")) then Rejected
    else if !ScoreInRange(Prop(analysis, "viabilityScore")) then Rejected
    else
      var swot := Prop(analysis, "swotAnalysis");
      if !TypeofObject(swot) then Rejected
      else if swot.value.JNull? then Threw
      else if !(IsArray(Prop(swot.value, "strengths")) && IsArray(Prop(swot.value, "weaknesses"))
                && IsArray(Prop(swot.value, "opportunities")) && IsArray(Prop(swot.value, "threats")))
      then Rejected
      else
        var competitors := Prop(analysis, "competitors");
        if !IsArray(competitors) then Rejected
        else if EveryCompetitor(competitors.value.elems) != Accepted
        then EveryCompetitor(competitors.value.elems)
        else if IsArray(Prop(analysis, "marketInsights")) && IsArray(Prop(analysis, "recommendations"))
        then Accepted
        else Rejected
  }

  // The accepted payloads, stated field by field without evaluation order.

  predicate StringField(v: Json, name: string) {
    Field(v, name).Some? && Field(v, name).value.JString?
  }

  predicate ArrayField(v: Json, name: string) {
    Field(v, name).Some? && Field(v, name).value.JArray?
  }

  /** A competitor entry: an object with a string `name` and a string `description`. */
  predicate CompetitorShaped(c: Json) {
    StringField(c, "name") && StringField(c, "description")
  }

  /** The SWOT object: its four lists are arrays, whatever their elements. */
  predicate SwotShaped(w: Json) {
    ArrayField(w, "strengths") && ArrayField(w, "weaknesses")
    && ArrayField(w, "opportunities") && ArrayField(w, "threats")
  }

  /** The payloads the client accepts as an `IdeaAnalysis`. */
  predicate WellShaped(v: Json) {
    && StringField(v, "ideaSummary")
    && Field(v, "viabilityScore").Some? && Field(v, "viabilityScore").value.JNumber?
    && 0.0 <= Field(v, "viabilityScore").value.n <= 100.0
    && Field(v, "swotAnalysis").Some? && SwotShaped(Field(v, "swotAnalysis").value)
    && ArrayField(v, "competitors")
    && (forall i :: 0 <= i < |Field(v, "competitors").value.elems| ==>
          CompetitorShaped(Field(v, "competitors").value.elems[i]))
    && ArrayField(v, "marketInsights") && ArrayField(v, "recommendations")
  }

  /** On anything but `null`, reading a named property is a lookup among an object's fields. */
  lemma PropIsField(v: Json, name: string)
    requires !v.JNull?
    ensures Prop(v, name) == Field(v, name)
  {
  }

  lemma CompetitorVerdictShaped(c: Json)
    ensures CompetitorVerdict(c) == Accepted <==> CompetitorShaped(c)
  {
    if !c.JNull? {
      PropIsField(c, "name");
      PropIsField(c, "description");
    }
  }

  /** The shape check accepts exactly the well-shaped payloads. */
  lemma AcceptedIffWellShaped(v: Json)
    ensures IsValidAnalysis(v) == Accepted <==> WellShaped(v)
  {
    if !v.JNull? {
      PropIsField(v, "ideaSummary");
      PropIsField(v, "viabilityScore");
      PropIsField(v, "swotAnalysis");
      PropIsField(v, "competitors");
      PropIsField(v, "marketInsights");
      PropIsField(v, "recommendations");
      var swot := Field(v, "swotAnalysis");
      if swot.Some? && !swot.value.JNull? {
        PropIsField(swot.value, "strengths");
        PropIsField(swot.value, "weaknesses");
        PropIsField(swot.value, "opportunities");
        PropIsField(swot.value, "threats");
      }
      var cs := Field(v, "competitors");
      if cs.Some? && cs.value.JArray? {
        forall i | 0 <= i < |cs.value.elems|
          ensures CompetitorVerdict(cs.value.elems[i]) == Accepted <==> CompetitorShaped(cs.value.elems[i])
        {
          CompetitorVerdictShaped(cs.value.elems[i]);
        }
      }
    }
  }

  /** A payload with field `name` set to `x`, the other fields kept. */
  function WithField(v: Json, name: string, x: Json): (r: Json)
    requires v.JObject?
    ensures Field(r, name) == Some(x)
    ensures forall other :: other != name ==> Field(r, other) == Field(v, other)
  {
    JObject(v.fields[name := x])
  }

  lemma EncodedWellShapedIff(a: IdeaAnalysis)
    ensures WellShaped(Encode(a)) <==> 0.0 <= a.viabilityScore <= 100.0
  {
    var v := Encode(a);
    EncodeFields(a);
    EncodeSwotFields(a.swotAnalysis);
    assert SwotShaped(EncodeSwot(a.swotAnalysis));
    var cs := CompetitorElems(a.competitors);
    forall i | 0 <= i < |cs| ensures CompetitorShaped(cs[i]) {
      assert cs[i] == EncodeCompetitor(a.competitors[i]);
    }
  }

  /** A record's JSON form is accepted exactly when its score lies in [0, 100]. */
  lemma EncodedAcceptedIff(a: IdeaAnalysis)
    ensures IsValidAnalysis(Encode(a)) == Accepted <==> 0.0 <= a.viabilityScore <= 100.0
  {
    EncodedWellShapedIff(a);
    AcceptedIffWellShaped(Encode(a));
  }

  /** The range check on `viabilityScore` is inclusive at both ends: 0 and 100 pass, 150 fails. */
  lemma ScoreBoundsInclusive(v: Json, x: real)
    requires IsValidAnalysis(v) == Accepted
    ensures IsValidAnalysis(WithField(v, "viabilityScore", JNumber(x))) == Accepted
            <==> 0.0 <= x <= 100.0
  {
    AcceptedIffWellShaped(v);
    AcceptedIffWellShaped(WithField(v, "viabilityScore", JNumber(x)));
  }

  /** A single competitor entry that fails its check makes the whole payload fail. */
  lemma BadCompetitorRejects(v: Json, i: nat)
    requires ArrayField(v, "competitors") && i < |Field(v, "competitors").value.elems|
    requires CompetitorVerdict(Field(v, "competitors").value.elems[i]) != Accepted
    ensures IsValidAnalysis(v) != Accepted
  {
    AcceptedIffWellShaped(v);
    CompetitorVerdictShaped(Field(v, "competitors").value.elems[i]);
  }

  /** An empty competitor list passes wherever a list of good entries does. */
  lemma EmptyCompetitorsAccepted(v: Json)
    requires IsValidAnalysis(v) == Accepted
    ensures IsValidAnalysis(WithField(v, "competitors", JArray([]))) == Accepted
  {
    AcceptedIffWellShaped(v);
    AcceptedIffWellShaped(WithField(v, "competitors", JArray([])));
  }

  /** A payload without `competitors` fails; it is never read as an empty list. */
  lemma MissingCompetitorsRejected(v: Json)
    requires v.JObject?
    ensures IsValidAnalysis(JObject(v.fields - {"competitors"})) != Accepted
  {
    var w := JObject(v.fields - {"competitors"});
    AcceptedIffWellShaped(w);
    assert Field(w, "competitors") == None;
  }

  /** The elements of `marketInsights` and `recommendations` are not checked: any array passes. */
  lemma ListElementsUnchecked(v: Json, name: string, es: seq<Json>)
    requires IsValidAnalysis(v) == Accepted
    requires name == "marketInsights" || name == "recommendations"
    ensures IsValidAnalysis(WithField(v, name, JArray(es))) == Accepted
  {
    AcceptedIffWellShaped(v);
    AcceptedIffWellShaped(WithField(v, name, JArray(es)));
  }

  /** The elements of the four SWOT lists are not checked either. */
  lemma SwotElementsUnchecked(v: Json, list: string, es: seq<Json>)
    requires IsValidAnalysis(v) == Accepted
    requires list == "strengths" || list == "weaknesses" || list == "opportunities" || list == "threats"
    ensures Field(v, "swotAnalysis").value.JObject?
    ensures IsValidAnalysis(WithField(v, "swotAnalysis",
              WithField(Field(v, "swotAnalysis").value, list, JArray(es)))) == Accepted
  {
    AcceptedIffWellShaped(v);
    var w := WithField(Field(v, "swotAnalysis").value, list, JArray(es));
    var u := WithField(v, "swotAnalysis", w);
    assert SwotShaped(w);
    AcceptedIffWellShaped(u);
  }

  /**
   * Hence an accepted payload need not be an `IdeaAnalysis`: numbers in place of the strengths
   * pass the check, yet no record has this JSON form.
   */
  lemma AcceptedPayloadNeedNotBeTyped(a: IdeaAnalysis)
    requires 0.0 <= a.viabilityScore <= 100.0
    ensures var v := WithField(Encode(a), "swotAnalysis",
                      WithField(EncodeSwot(a.swotAnalysis), "strengths", JArray([JNumber(1.0)])));
            IsValidAnalysis(v) == Accepted && Decode(v) == None
  {
    EncodedAcceptedIff(a);
    EncodeFields(a);
    SwotElementsUnchecked(Encode(a), "strengths", [JNumber(1.0)]);
    var w := WithField(EncodeSwot(a.swotAnalysis), "strengths", JArray([JNumber(1.0)]));
    assert DecodeStringArray(Field(w, "strengths")) == None;
  }

  /** Probing a `null` payload, or a `null` competitor, throws rather than answering. */
  lemma NullProbesThrow(v: Json)
    requires IsValidAnalysis(v) == Accepted
    ensures IsValidAnalysis(JNull) == Threw
    ensures IsValidAnalysis(WithField(v, "competitors", JArray([JNull]))) == Threw
  {
    var u := WithField(v, "competitors", JArray([JNull]));
    AcceptedIffWellShaped(v);
    PropIsField(v, "ideaSummary");
    PropIsField(v, "viabilityScore");
    PropIsField(v, "swotAnalysis");
    PropIsField(u, "ideaSummary");
    PropIsField(u, "viabilityScore");
    PropIsField(u, "swotAnalysis");
    PropIsField(u, "competitors");
    assert EveryCompetitor([JNull]) == Threw;
  }

  // ---------------------------------------------------------------------------------------
  // analyzeIdea
  // ---------------------------------------------------------------------------------------

  const KeyMissingMessage: string :=
    "Gemini API key is not configured. Please check your .env file and ensure the development server is restarted."
  const NoContentMessage: string := "No response content received from Gemini."
  const ParseFailedMessage: string := "Failed to parse the analysis response. Please try again."
  const StatusMessagePrefix: string := "Failed to analyze idea. Status: "
  const Endpoint: string :=
    "https://generativelanguage.googleapis.com/v1beta/models/gemini-1.5-flash:generateContent?key="
  const PromptPrefix: string :=
    "Analyze this startup idea provided as a JSON string and provide detailed feedback. The startup idea is: "

  /** The fallback message for a failed HTTP status. */
  function StatusMessage(status: nat): string {
    StatusMessagePrefix + Decimal(status)
  }

  /**
   * What one exchange with the endpoint produced: either `fetch` rejected, or a reply with its
   * status and the outcome of `response.json()` on it (`None` when the body is not JSON).
   */
  datatype Exchange = FetchRejected | Reply(status: nat, body: Option<Json>)

  /** The parts of the request that vary between calls; the rest of the body is a fixed literal. */
  datatype Request = Request(url: string, prompt: string)

  /** The error a failed call throws. */
  datatype AnalysisError =
    | Message(text: string)  // `new Error(text)` thrown by the client
    | Coerced(value: Json)   // `new Error(value)` for a truthy non-string `error.message`
    | FetchFailed            // the TypeError `fetch` rejects with
    | BodyNotJson            // the SyntaxError of `response.json()` on a successful reply
    | NullData               // the TypeError of reading `candidates` of a `null` body

  /** One call: the request it issued, if any, and what it resolved or rejected with. */
  datatype Call = Call(request: Option<Request>, result: Result<Json, AnalysisError>)

  /** `!apiKey`: the key is undefined or empty. */
  predicate KeyMissing(apiKey: Option<string>) {
    apiKey.None? || apiKey.value == ""
  }

  /** `response.ok`. */
  predicate StatusOk(status: nat) {
    200 <= status <= 299
  }

  /** `errorData.error.message`, read without the runtime's property semantics. */
  function ErrorBodyMessage(errorData: Option<Json>): Option<Json> {
    if errorData.None? then None
    else
      var e := Field(errorData.value, "error");
      if e.None? then None else Field(e.value, "message")
  }

  /** The error thrown for a reply whose status is not ok: `errorData?.error?.message || fallback`. */
  function HttpError(status: nat, errorData: Option<Json>): (e: AnalysisError)
    ensures var m := ErrorBodyMessage(errorData);
            m.Some? && m.value.JString? && m.value.s != "" ==> e == Message(m.value.s)
    ensures !Truthy(ErrorBodyMessage(errorData)) ==> e == Message(StatusMessage(status))
    ensures Truthy(ErrorBodyMessage(errorData)) && !ErrorBodyMessage(errorData).value.JString?
            ==> e == Coerced(ErrorBodyMessage(errorData).value)
  {
    var m := OptGet(OptGet(errorData, Name("error")), Name("message"));
    assert m == ErrorBodyMessage(errorData) by {
      var e := OptGet(errorData, Name("error"));
      if errorData.Some? && !errorData.value.JNull? {
        PropIsField(errorData.value, "error");
        if e.Some? && !e.value.JNull? { PropIsField(e.value, "message"); }
      }
    }
    if Truthy(m) then (if m.value.JString? then Message(m.value.s) else Coerced(m.value))
    else Message(StatusMessage(status))
  }

  /** `data.candidates?.[0]?.content?.parts?.[0]?.text`, or the TypeError when `data` is `null`. */
  function CandidateText(data: Json): Result<Option<Json>, AnalysisError> {
    if data.JNull? then Failure(NullData)
    else
      var candidate := OptGet(Get(data, Name("candidates")), Index(0));
      var part := OptGet(OptGet(OptGet(candidate, Name("content")), Name("parts")), Index(0));
      Success(OptGet(part, Name("text")))
  }

  /**
   * The inner `try`: `JSON.parse(message)`, then the shape check. A parse failure, a rejected
   * shape and a TypeError thrown by the check all end in the same catch, which throws one
   * message.
   */
  function ParseAnalysis(message: Json, parse: Json -> Option<Json>): (r: Result<Json, AnalysisError>)
    ensures r.Success? <==> parse(message).Some? && IsValidAnalysis(parse(message).value) == Accepted
    ensures r.Success? ==> r.value == parse(message).value
    ensures r.Failure? ==> r.error == Message(ParseFailedMessage)
  {
    match parse(message)
    case None => Failure(Message(ParseFailedMessage))
    case Some(analysis) =>
      if IsValidAnalysis(analysis) == Accepted then Success(analysis)
      else Failure(Message(ParseFailedMessage))
  }

  /** Everything after the request is sent; the outer catch rethrows every error unchanged. */
  function HandleExchange(exchange: Exchange, parse: Json -> Option<Json>): Result<Json, AnalysisError> {
    match exchange
    case FetchRejected => Failure(FetchFailed)
    case Reply(status, body) =>
      if !StatusOk(status) then Failure(HttpError(status, body))
      else if body.None? then Failure(BodyNotJson)
      else match CandidateText(body.value)
        case Failure(e) => Failure(e)
        case Success(message) =>
          if !Truthy(message) then Failure(Message(NoContentMessage))
          else ParseAnalysis(message.value, parse)
  }

  /**
   * `analyzeIdea(ideaFormDataJson)` with the configured key `apiKey`, the exchange the request
   * led to, and `JSON.parse` as `parse`.
   */
  function AnalyzeIdea(ideaFormDataJson: string, apiKey: Option<string>, exchange: Exchange,
                       parse: Json -> Option<Json>): (c: Call)
    ensures c.request.None? <==> KeyMissing(apiKey)
    ensures KeyMissing(apiKey) ==> c.result == Failure(Message(KeyMissingMessage))
    ensures c.request.Some? ==> c.request.value.url == Endpoint + apiKey.value
                                && c.request.value.prompt == PromptPrefix + ideaFormDataJson
    ensures c.result.Success? ==> IsValidAnalysis(c.result.value) == Accepted
  {
    if KeyMissing(apiKey) then Call(None, Failure(Message(KeyMissingMessage)))
    else
      Call(Some(Request(Endpoint + apiKey.value, PromptPrefix + ideaFormDataJson)),
           HandleExchange(exchange, parse))
  }

  /** A call succeeds exactly when every guard passes, and then yields the parsed object itself. */
  lemma AnalyzeSucceedsIff(json: string, apiKey: Option<string>, exchange: Exchange,
                           parse: Json -> Option<Json>, v: Json)
    ensures AnalyzeIdea(json, apiKey, exchange, parse).result == Success(v) <==>
            && !KeyMissing(apiKey)
            && exchange.Reply? && StatusOk(exchange.status) && exchange.body.Some?
            && CandidateText(exchange.body.value).Success?
            && Truthy(CandidateText(exchange.body.value).value)
            && parse(CandidateText(exchange.body.value).value.value) == Some(v)
            && IsValidAnalysis(v) == Accepted
  {
    if !KeyMissing(apiKey) && exchange.Reply? && StatusOk(exchange.status) && exchange.body.Some? {
      var t := CandidateText(exchange.body.value);
      if t.Success? && Truthy(t.value) {
        var r := ParseAnalysis(t.value.value, parse);
        assert r.Success? ==> r.value == parse(t.value.value).value;
      }
    }
  }

  /** Without a key (undefined or empty) nothing is sent and the exchange plays no part. */
  lemma NoRequestWithoutKey(json: string, apiKey: Option<string>, e1: Exchange, e2: Exchange,
                            p1: Json -> Option<Json>, p2: Json -> Option<Json>)
    requires apiKey.None? || apiKey == Some("")
    ensures AnalyzeIdea(json, apiKey, e1, p1) == AnalyzeIdea(json, apiKey, e2, p2)
            == Call(None, Failure(Message(KeyMissingMessage)))
  {
  }

  /** The fallback message ends in the decimal status, which reads back as the status. */
  lemma StatusMessageCarriesStatus(status: nat)
    ensures |StatusMessage(status)| > |StatusMessagePrefix|
    ensures StatusMessage(status)[..|StatusMessagePrefix|] == StatusMessagePrefix
    ensures ParseDecimal(StatusMessage(status)[|StatusMessagePrefix|..]) == status
  {
    assert StatusMessage(status)[|StatusMessagePrefix|..] == Decimal(status);
    DecimalRoundTrip(status);
  }

  /** An HTTP 500 whose body is `{"error":{"message":"quota exceeded"}}` fails with "quota exceeded". */
  lemma QuotaExceededMessage(json: string, apiKey: string, parse: Json -> Option<Json>)
    requires apiKey != ""
    ensures var body := JObject(map["error" := JObject(map["message" := JString("quota exceeded")])]);
            AnalyzeIdea(json, Some(apiKey), Reply(500, Some(body)), parse).result
            == Failure(Message("quota exceeded"))
  {
    var body := JObject(map["error" := JObject(map["message" := JString("quota exceeded")])]);
    assert ErrorBodyMessage(Some(body)) == Some(JString("quota exceeded"));
  }

  /** A failed status whose body is not JSON falls back to the status message. */
  lemma UnreadableErrorBody(json: string, apiKey: string, status: nat, parse: Json -> Option<Json>)
    requires apiKey != "" && !StatusOk(status)
    ensures AnalyzeIdea(json, Some(apiKey), Reply(status, None), parse).result
            == Failure(Message(StatusMessage(status)))
  {
  }

  /**
   * Whatever else a reply holds, the text read is that of the first part of the first
   * candidate: later candidates and later parts are never looked at.
   */
  lemma CandidateTextReadsFirst(data: Json, cs: seq<Json>, ps: seq<Json>)
    requires data.JObject? && "candidates" in data.fields && data.fields["candidates"] == JArray(cs)
    requires |cs| > 0 && cs[0].JObject? && "content" in cs[0].fields
    requires cs[0].fields["content"].JObject? && "parts" in cs[0].fields["content"].fields
    requires cs[0].fields["content"].fields["parts"] == JArray(ps)
    requires |ps| > 0 && ps[0].JObject?
    ensures CandidateText(data)
            == Success(if "text" in ps[0].fields then Some(ps[0].fields["text"]) else None)
  {
    var content := cs[0].fields["content"];
    assert Get(data, Name("candidates")) == Some(JArray(cs));
    assert OptGet(Some(JArray(cs)), Index(0)) == Some(cs[0]);
    assert Get(cs[0], Name("content")) == Some(content);
    assert Get(content, Name("parts")) == Some(JArray(ps));
    assert OptGet(Some(JArray(ps)), Index(0)) == Some(ps[0]);
  }

  /**
   * Every link of `candidates?.[0]?.content?.parts?.[0]?.text` may be missing: then the text
   * read is `undefined`.
   */
  lemma CandidateTextMissingLinks(data: Json, cs: seq<Json>, ps: seq<Json>)
    requires data.JObject?
    ensures "candidates" !in data.fields ==> CandidateText(data) == Success(None)
    ensures "candidates" in data.fields && data.fields["candidates"] == JArray([])
            ==> CandidateText(data) == Success(None)
    ensures "candidates" in data.fields && data.fields["candidates"] == JArray(cs) && |cs| > 0
            && cs[0].JObject? && "content" !in cs[0].fields
            ==> CandidateText(data) == Success(None)
    ensures "candidates" in data.fields && data.fields["candidates"] == JArray(cs) && |cs| > 0
            && cs[0].JObject? && "content" in cs[0].fields && cs[0].fields["content"].JObject?
            && "parts" !in cs[0].fields["content"].fields
            ==> CandidateText(data) == Success(None)
    ensures "candidates" in data.fields && data.fields["candidates"] == JArray(cs) && |cs| > 0
            && cs[0].JObject? && "content" in cs[0].fields && cs[0].fields["content"].JObject?
            && "parts" in cs[0].fields["content"].fields
            && cs[0].fields["content"].fields["parts"] == JArray([])
            ==> CandidateText(data) == Success(None)
  {
  }

  /**
   * An ok reply with a body: `null` fails on reading `candidates`; a falsy text (missing,
   * `null`, `false`, `0` or empty) is no content; any other text goes to the parser.
   */
  lemma OkReplyOutcome(json: string, apiKey: string, status: nat, body: Json,
                       parse: Json -> Option<Json>)
    requires apiKey != "" && StatusOk(status)
    ensures body.JNull? ==> AnalyzeIdea(json, Some(apiKey), Reply(status, Some(body)), parse).result
                            == Failure(NullData)
    ensures !body.JNull? && !Truthy(CandidateText(body).value)
            ==> AnalyzeIdea(json, Some(apiKey), Reply(status, Some(body)), parse).result
                == Failure(Message(NoContentMessage))
    ensures !body.JNull? && Truthy(CandidateText(body).value)
            ==> AnalyzeIdea(json, Some(apiKey), Reply(status, Some(body)), parse).result
                == ParseAnalysis(CandidateText(body).value.value, parse)
  {
  }

  /** With two candidates of which the first has two parts, the first part's text is parsed. */
  lemma FirstOfSeveralIsRead(json: string, apiKey: string, status: nat, parse: Json -> Option<Json>)
    requires apiKey != "" && StatusOk(status)
    ensures var c0 := JObject(map["content" := JObject(map["parts" := JArray([
                        JObject(map["text" := JString("A")]), JObject(map["text" := JString("B")])])])]);
            var c1 := JObject(map["content" := JObject(map["parts" := JArray([
                        JObject(map["text" := JString("C")])])])]);
            var body := JObject(map["candidates" := JArray([c0, c1])]);
            AnalyzeIdea(json, Some(apiKey), Reply(status, Some(body)), parse).result
            == ParseAnalysis(JString("A"), parse)
  {
    var p0 := JObject(map["text" := JString("A")]);
    var ps := [p0, JObject(map["text" := JString("B")])];
    var c0 := JObject(map["content" := JObject(map["parts" := JArray(ps)])]);
    var c1 := JObject(map["content" := JObject(map["parts" := JArray([
                JObject(map["text" := JString("C")])])])]);
    var body := JObject(map["candidates" := JArray([c0, c1])]);
    CandidateTextReadsFirst(body, [c0, c1], ps);
    OkReplyOutcome(json, apiKey, status, body, parse);
  }

  /** A status outside 200-299 fails with the error read from the body, whatever the body. */
  lemma ErrorStatusFails(json: string, apiKey: string, status: nat, body: Option<Json>,
                         parse: Json -> Option<Json>)
    requires apiKey != "" && !StatusOk(status)
    ensures AnalyzeIdea(json, Some(apiKey), Reply(status, body), parse).result
            == Failure(HttpError(status, body))
  {
  }

  /** The reply the endpoint sends: one candidate whose one part carries `text`, if any. */
  function GeminiReply(text: Option<string>): Json {
    var part := if text.Some? then JObject(map["text" := JString(text.value)]) else JObject(map[]);
    var content := JObject(map["role" := JString("model"), "parts" := JArray([part])]);
    JObject(map["candidates" := JArray([JObject(map["content" := content])])])
  }

  /**
   * For the usual reply, one candidate holding one part: a missing or empty text, or no
   * candidate at all, is reported as no content; any other text goes to the parser.
   */
  lemma SingleCandidateReply(json: string, apiKey: string, status: nat, text: Option<string>,
                                parse: Json -> Option<Json>)
    requires apiKey != "" && StatusOk(status)
    ensures AnalyzeIdea(json, Some(apiKey), Reply(status, Some(GeminiReply(text))), parse).result
            == if text.None? || text.value == "" then Failure(Message(NoContentMessage))
               else ParseAnalysis(JString(text.value), parse)
    ensures AnalyzeIdea(json, Some(apiKey), Reply(status, Some(JObject(map["candidates" := JArray([])]))),
                        parse).result == Failure(Message(NoContentMessage))
  {
    var reply := GeminiReply(text);
    var candidate := reply.fields["candidates"].elems[0];
    var content := candidate.fields["content"];
    var part := content.fields["parts"].elems[0];
    assert Get(reply, Name("candidates")) == Some(JArray([candidate]));
    assert Get(candidate, Name("content")) == Some(content);
    assert Get(content, Name("parts")) == Some(JArray([part]));
    assert text.Some? ==> Get(part, Name("text")) == Some(JString(text.value));
    assert text.None? ==> Get(part, Name("text")) == None;
  }

  /**
   * A reply carrying a record's JSON form, with an in-range score, yields that very object,
   * from which the record is read back unchanged.
   */
  lemma ReplyRoundTrip(json: string, apiKey: string, status: nat, text: string,
                       parse: Json -> Option<Json>, a: IdeaAnalysis)
    requires apiKey != "" && StatusOk(status) && text != ""
    requires parse(JString(text)) == Some(Encode(a))
    requires 0.0 <= a.viabilityScore <= 100.0
    ensures AnalyzeIdea(json, Some(apiKey), Reply(status, Some(GeminiReply(Some(text)))), parse).result
            == Success(Encode(a))
    ensures Decode(AnalyzeIdea(json, Some(apiKey), Reply(status, Some(GeminiReply(Some(text)))), parse)
                   .result.value) == Some(a)
  {
    SingleCandidateReply(json, apiKey, status, Some(text), parse);
    EncodedAcceptedIff(a);
    DecodeEncode(a);
  }

  /** The same reply with a score of 150 is turned into the parse-failure message. */
  lemma OutOfRangeScoreFails(json: string, apiKey: string, status: nat, text: string,
                             parse: Json -> Option<Json>, a: IdeaAnalysis)
    requires apiKey != "" && StatusOk(status) && text != ""
    requires parse(JString(text)) == Some(Encode(a))
    requires a.viabilityScore == 150.0
    ensures AnalyzeIdea(json, Some(apiKey), Reply(status, Some(GeminiReply(Some(text)))), parse).result
            == Failure(Message(ParseFailedMessage))
  {
    SingleCandidateReply(json, apiKey, status, Some(text), parse);
    EncodedAcceptedIff(a);
  }

  // ---------------------------------------------------------------------------------------
  // getMockAnalysis
  // ---------------------------------------------------------------------------------------

  /** The fixed result of the offline mock provider (its one-second delay is not modelled). */
  function GetMockAnalysis(): (a: IdeaAnalysis)
    ensures IsValidAnalysis(Encode(a)) == Accepted
    ensures a.viabilityScore == 75.0
    ensures |a.swotAnalysis.strengths| == |a.swotAnalysis.weaknesses| == 2
    ensures |a.swotAnalysis.opportunities| == |a.swotAnalysis.threats| == 2
    ensures |a.competitors| == 1 && |a.marketInsights| == |a.recommendations| == 2
  {
    var a := IdeaAnalysis(
      "This is a mock analysis of your startup idea. It includes strengths, weaknesses, opportunities, and threats.",
      75.0,
      Swot(["Mock strength 1", "Mock strength 2"],
           ["Mock weakness 1", "Mock weakness 2"],
           ["Mock opportunity 1", "Mock opportunity 2"],
           ["Mock threat 1", "Mock threat 2"]),
      [Competitor("Mock Competitor 1", "Description of mock competitor 1")],
      ["Mock market insight 1", "Mock market insight 2"],
      ["Mock recommendation 1", "Mock recommendation 2"]);
    EncodedAcceptedIff(a);
    a
  }
}
