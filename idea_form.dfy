/**
 * The idea form's state and logic: the four text fields, the per-field error messages, the
 * `loading` flag, and the three handlers that change them (`validateForm`,
 * `handleInputChange` and `handleSubmit`). Rendering is not modelled.
 */
module IdeaForm {
  import opened Wrappers
  import opened JsText
  import opened JsValue
  import AiService

  /** The keys of `IdeaFormData`. */
  datatype Field = Idea | TargetMarket | UniqueValueProposition | BusinessModel

  datatype FormData = FormData(
    idea: string,
    targetMarket: string,
    uniqueValueProposition: string,
    businessModel: string)

  const EmptyForm := FormData("", "", "", "")

  /** `formData[field]`. */
  function Value(f: FormData, field: Field): string {
    match field
    case Idea => f.idea
    case TargetMarket => f.targetMarket
    case UniqueValueProposition => f.uniqueValueProposition
    case BusinessModel => f.businessModel
  }

  /** `{ ...f, [field]: v }`: one field replaced, the other three kept. */
  function WithValue(f: FormData, field: Field, v: string): (g: FormData)
    ensures Value(g, field) == v
    ensures forall other :: other != field ==> Value(g, other) == Value(f, other)
  {
    match field
    case Idea => f.(idea := v)
    case TargetMarket => f.(targetMarket := v)
    case UniqueValueProposition => f.(uniqueValueProposition := v)
    case BusinessModel => f.(businessModel := v)
  }

  const IdeaMissing: string := "Please describe your startup idea"
  const IdeaTooShort: string := "Please provide a more detailed description of your idea"
  const TargetMarketMissing: string := "Please specify your target market"
  const ValuePropositionMissing: string := "Please explain your unique value proposition"
  const BusinessModelMissing: string := "Please describe your business model"

  /** The minimum `idea.length`, in UTF-16 code units of the untrimmed text. */
  const MinIdeaLength: nat := 20

  /**
   * The error validation reports for one field, if any. A blank idea gets only the "describe"
   * message (the length rule is the `else` branch), and the length rule reads the untrimmed text.
   */
  function FieldError(f: FormData, field: Field): Option<string> {
    match field
    case Idea =>
      if Trim(f.idea) == "" then Some(IdeaMissing)
      else if Utf16Length(f.idea) < MinIdeaLength then Some(IdeaTooShort)
      else None
    case TargetMarket => if Trim(f.targetMarket) == "" then Some(TargetMarketMissing) else None
    case UniqueValueProposition =>
      if Trim(f.uniqueValueProposition) == "" then Some(ValuePropositionMissing) else None
    case BusinessModel => if Trim(f.businessModel) == "" then Some(BusinessModelMissing) else None
  }

  /** The error map validation stores: one entry per failing field, holding its message. */
  function ErrorsFor(f: FormData): map<Field, string> {
    map field | FieldError(f, field).Some? :: FieldError(f, field).value
  }

  /** `m` holds exactly the errors of the fields in `done`, as validation reports them. */
  ghost predicate ErrorsAgree(m: map<Field, string>, f: FormData, done: set<Field>) {
    && m.Keys <= done
    && forall field :: field in done ==>
         (field in m <==> FieldError(f, field).Some?)
         && (field in m ==> m[field] == FieldError(f, field).value)
  }

  /** Once every field has been checked, the map built is the one validation reports. */
  lemma ErrorsAgreeAll(m: map<Field, string>, f: FormData)
    requires ErrorsAgree(m, f, {Idea, TargetMarket, UniqueValueProposition, BusinessModel})
    ensures m == ErrorsFor(f)
  {
    forall field
      ensures field in m <==> field in ErrorsFor(f)
    {
      match field
      case Idea =>
      case TargetMarket =>
      case UniqueValueProposition =>
      case BusinessModel =>
    }
  }

  /** The form's invariant: four non-blank fields and an idea of at least 20 code units. */
  predicate FormValid(f: FormData) {
    && !Blank(f.idea) && Utf16Length(f.idea) >= MinIdeaLength
    && !Blank(f.targetMarket) && !Blank(f.uniqueValueProposition) && !Blank(f.businessModel)
  }

  /** Validation reports no error exactly when the data satisfies the form's invariant. */
  lemma NoErrorsIffValid(f: FormData)
    ensures ErrorsFor(f) == map[] <==> FormValid(f)
  {
    TrimEmptyIffBlank(f.idea);
    TrimEmptyIffBlank(f.targetMarket);
    TrimEmptyIffBlank(f.uniqueValueProposition);
    TrimEmptyIffBlank(f.businessModel);
    if ErrorsFor(f) != map[] {
      var field :| field in ErrorsFor(f);
      assert FieldError(f, field).Some?;
    } else {
      assert Idea !in ErrorsFor(f) && TargetMarket !in ErrorsFor(f);
      assert UniqueValueProposition !in ErrorsFor(f) && BusinessModel !in ErrorsFor(f);
      assert FieldError(f, Idea).None? && FieldError(f, TargetMarket).None?;
      assert FieldError(f, UniqueValueProposition).None? && FieldError(f, BusinessModel).None?;
    }
  }

  /** The three outcomes of the idea rule. */
  lemma IdeaRule(f: FormData)
    ensures Blank(f.idea) ==> Idea in ErrorsFor(f) && ErrorsFor(f)[Idea] == IdeaMissing
    ensures !Blank(f.idea) && Utf16Length(f.idea) < MinIdeaLength
            ==> Idea in ErrorsFor(f) && ErrorsFor(f)[Idea] == IdeaTooShort
    ensures !Blank(f.idea) && Utf16Length(f.idea) >= MinIdeaLength ==> Idea !in ErrorsFor(f)
  {
    TrimEmptyIffBlank(f.idea);
  }

  /** Each of the other three fields fails exactly when it is blank. */
  lemma RequiredFieldRule(f: FormData, field: Field)
    requires field != Idea
    ensures field in ErrorsFor(f) <==> Blank(Value(f, field))
  {
    TrimEmptyIffBlank(Value(f, field));
  }

  /**
   * The length rule reads the untrimmed text: one letter padded with nineteen spaces passes,
   * though it trims to a single character.
   */
  lemma UntrimmedLengthCounts(f: FormData)
    requires f.idea == "x" + "                   "
    ensures |Trim(f.idea)| == 1
    ensures Idea !in ErrorsFor(f)
  {
    var s := f.idea;
    assert |s| == 20 && !IsWhitespace(s[0]);
    assert forall i :: 1 <= i < |s| ==> IsWhitespace(s[i]);
    assert TrimStart(s) == s;
    var t := TrimEnd(s);
    TrimEndSpec(s);
    assert |t| == 1;
    assert Trim(s) != "";
    assert Utf16Length(s) >= 20;
  }

  /** A field's error depends on that field alone. */
  lemma FieldErrorIsLocal(f: FormData, field: Field, v: string, other: Field)
    requires other != field
    ensures FieldError(WithValue(f, field, v), other) == FieldError(f, other)
  {
    var g := WithValue(f, field, v);
    assert Value(g, other) == Value(f, other);
  }

  /** What `JSON.stringify` writes before each member's value: its key, in declaration order. */
  const MemberLeads: seq<string> :=
    ["{\"idea\":", ",\"targetMarket\":", ",\"uniqueValueProposition\":", ",\"businessModel\":"]

  /** The form's values, in declaration order. */
  function Values(f: FormData): seq<string> {
    [f.idea, f.targetMarket, f.uniqueValueProposition, f.businessModel]
  }

  /** An object whose string members follow `leads`, closed by `}`. */
  function WriteMembers(leads: seq<string>, vs: seq<string>): string
    requires |leads| == |vs|
  {
    if leads == [] then "}" else leads[0] + Quote(vs[0]) + WriteMembers(leads[1..], vs[1..])
  }

  /** `JSON.stringify(formData)`: the four fields in declaration order. */
  function Stringify(f: FormData): string {
    WriteMembers(MemberLeads, Values(f))
  }

  /**
   * Reads one string member written as `lead` followed by a JSON string literal: the string
   * and the text after the literal.
   */
  function ReadMember(lead: string, s: string): Option<(string, string)> {
    var open := lead + "\"";
    if open <= s then ReadString(s[|open|..]) else None
  }

  /** Reads the members `leads` announce, in order, and then the closing `}`. */
  function ReadMembers(leads: seq<string>, s: string): Option<seq<string>> {
    if leads == [] then (if s == "}" then Some([]) else None)
    else match ReadMember(leads[0], s)
      case None => None
      case Some((v, rest)) =>
        match ReadMembers(leads[1..], rest)
        case None => None
        case Some(vs) => Some([v] + vs)
  }

  /** Reads back a form in the layout `JSON.stringify` gives it; `None` for any other text. */
  function ParseForm(s: string): Option<FormData> {
    match ReadMembers(MemberLeads, s)
    case Some(vs) =>
      if |vs| == 4 then Some(FormData(vs[0], vs[1], vs[2], vs[3])) else None
    case None => None
  }

  lemma ReadMemberQuoted(lead: string, v: string, rest: string)
    ensures ReadMember(lead, lead + Quote(v) + rest) == Some((v, rest))
  {
    var s := lead + Quote(v) + rest;
    var open := lead + "\"";
    assert s == open + (EscapeString(v) + "\"" + rest);
    assert s[|open|..] == EscapeString(v) + "\"" + rest;
    ReadQuoted(v, rest);
  }

  /** Members written under any keys read back as the values written. */
  lemma {:induction false} ReadWrittenMembers(leads: seq<string>, vs: seq<string>)
    requires |leads| == |vs|
    ensures ReadMembers(leads, WriteMembers(leads, vs)) == Some(vs)
  {
    if leads != [] {
      var rest := WriteMembers(leads[1..], vs[1..]);
      ReadMemberQuoted(leads[0], vs[0], rest);
      ReadWrittenMembers(leads[1..], vs[1..]);
      assert [vs[0]] + vs[1..] == vs;
    }
  }

  /** The payload sent for analysis reads back as the form it was made from. */
  lemma StringifyRoundTrip(f: FormData)
    ensures ParseForm(Stringify(f)) == Some(f)
  {
    ReadWrittenMembers(MemberLeads, Values(f));
  }

  /** Different forms are sent as different payloads. */
  lemma StringifyInjective(f: FormData, g: FormData)
    ensures Stringify(f) == Stringify(g) ==> f == g
  {
    StringifyRoundTrip(f);
    StringifyRoundTrip(g);
  }

  /** A call the form makes to its collaborators. */
  datatype Effect =
    | AnalyzeCalled(payload: string, loadingAtCall: bool)  // `analyzeIdea(payload)`
    | SubmitCalled(analysis: Json)                        // `onSubmit(analysis)`

  /** How one submission ended. */
  datatype SubmitOutcome =
    | Blocked                                  // validation failed; nothing was sent
    | Submitted(analysis: Json)                // the analysis was handed to `onSubmit`
    | Failed(error: AiService.AnalysisError)   // the call threw

  class IdeaFormState {
    var formData: FormData
    var errors: map<Field, string>
    var loading: bool
    /** The calls made to `analyzeIdea` and `onSubmit`, in order. */
    ghost var effects: seq<Effect>

    /** Every error on display is what validation would report for the current data. */
    ghost predicate Consistent()
      reads this
    {
      forall field :: field in errors ==> FieldError(formData, field) == Some(errors[field])
    }

    constructor ()
      ensures formData == EmptyForm && errors == map[] && !loading && effects == []
      ensures Consistent()
    {
      formData := EmptyForm;
      errors := map[];
      loading := false;
      effects := [];
    }

    /** `validateForm`: four independent checks, all stored at once. */
    method ValidateForm() returns (isValid: bool)
      modifies this`errors
      ensures errors == ErrorsFor(formData)
      ensures isValid <==> errors == map[]
      ensures isValid <==> FormValid(formData)
      ensures Consistent()
    {
      var newErrors: map<Field, string> := map[];
      isValid := true;

      if Trim(formData.idea) == "" {
        newErrors := newErrors[Idea := IdeaMissing];
        isValid := false;
      } else if Utf16Length(formData.idea) < MinIdeaLength {
        newErrors := newErrors[Idea := IdeaTooShort];
        isValid := false;
      }
      assert ErrorsAgree(newErrors, formData, {Idea});

      if Trim(formData.targetMarket) == "" {
        newErrors := newErrors[TargetMarket := TargetMarketMissing];
        isValid := false;
      }
      assert ErrorsAgree(newErrors, formData, {Idea, TargetMarket});

      if Trim(formData.uniqueValueProposition) == "" {
        newErrors := newErrors[UniqueValueProposition := ValuePropositionMissing];
        isValid := false;
      }
      assert ErrorsAgree(newErrors, formData, {Idea, TargetMarket, UniqueValueProposition});

      if Trim(formData.businessModel) == "" {
        newErrors := newErrors[BusinessModel := BusinessModelMissing];
        isValid := false;
      }

      ErrorsAgreeAll(newErrors, formData);
      errors := newErrors;
      NoErrorsIffValid(formData);
      TrimEmptyIffBlank(formData.idea);
      TrimEmptyIffBlank(formData.targetMarket);
      TrimEmptyIffBlank(formData.uniqueValueProposition);
      TrimEmptyIffBlank(formData.businessModel);
    }

    /** `handleInputChange`: store the new text and clear that field's error, if it shows one. */
    method HandleInputChange(field: Field, value: string)
      requires Consistent()
      modifies this`formData, this`errors
      ensures formData == WithValue(old(formData), field, value)
      ensures errors == if field in old(errors) && old(errors)[field] != ""
                        then old(errors) - {field} else old(errors)
      ensures Consistent()
    {
      formData := WithValue(formData, field, value);
      if field in errors && errors[field] != "" {
        errors := errors - {field};
      }
      forall other | other in errors
        ensures FieldError(formData, other) == Some(errors[other])
      {
        if other == field {
          // an error left in place would be an empty message, which validation never stores
          assert false;
        }
        FieldErrorIsLocal(old(formData), field, value, other);
      }
    }

    /**
     * `handleSubmit`: validate; when valid, raise `loading`, call `analyzeIdea` on the
     * serialized form, hand a successful result to `onSubmit`, and lower `loading` whatever
     * the call did. `apiKey`, `exchange` and `parse` are what `analyzeIdea` depends on.
     */
    method HandleSubmit(apiKey: Option<string>, exchange: AiService.Exchange,
                        parse: Json -> Option<Json>) returns (outcome: SubmitOutcome)
      modifies this`errors, this`loading, this`effects
      ensures errors == ErrorsFor(formData) && Consistent()
      ensures outcome.Blocked? <==> !FormValid(formData)
      ensures outcome.Blocked? ==> loading == old(loading) && effects == old(effects)
      ensures !outcome.Blocked? ==> !loading
      ensures var call := AiService.AnalyzeIdea(Stringify(formData), apiKey, exchange, parse);
              !outcome.Blocked? ==>
                && outcome == (if call.result.Success? then Submitted(call.result.value)
                               else Failed(call.result.error))
                && effects == old(effects) + [AnalyzeCalled(Stringify(formData), true)]
                              + (if call.result.Success? then [SubmitCalled(call.result.value)] else [])
      ensures outcome.Submitted? ==> AiService.IsValidAnalysis(outcome.analysis) == AiService.Accepted
    {
      var isValid := ValidateForm();
      if !isValid {
        return Blocked;
      }

      loading := true;
      var payload := Stringify(formData);
      effects := effects + [AnalyzeCalled(payload, loading)];
      var call := AiService.AnalyzeIdea(payload, apiKey, exchange, parse);
      if call.result.Success? {
        effects := effects + [SubmitCalled(call.result.value)];
        outcome := Submitted(call.result.value);
      } else {
        outcome := Failed(call.result.error);
      }
      loading := false;
    }
  }

  /** A form submitted from its initial state is blocked and sends nothing. */
  method SubmitEmptyForm(apiKey: Option<string>, exchange: AiService.Exchange,
                         parse: Json -> Option<Json>) returns (outcome: SubmitOutcome)
    ensures outcome == Blocked
  {
    var form := new IdeaFormState();
    IdeaRule(form.formData);
    outcome := form.HandleSubmit(apiKey, exchange, parse);
    assert form.effects == [];
  }
}
