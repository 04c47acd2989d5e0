/**
 * The `IdeaAnalysis` record the client promises to return, and its JSON form: `Encode` is the
 * object a well-behaved service sends for a record, `Decode` reads a record back from a parsed
 * value whose every field has the declared type.
 */
module AnalysisTypes {
  import opened Wrappers
  import opened JsValue

  datatype Swot = Swot(
    strengths: seq<string>,
    weaknesses: seq<string>,
    opportunities: seq<string>,
    threats: seq<string>)

  datatype Competitor = Competitor(name: string, description: string)

  datatype IdeaAnalysis = IdeaAnalysis(
    ideaSummary: string,
    viabilityScore: real,
    swotAnalysis: Swot,
    competitors: seq<Competitor>,
    marketInsights: seq<string>,
    recommendations: seq<string>)

  /** A JSON array of strings. */
  function StringElems(xs: seq<string>): (es: seq<Json>)
    ensures |es| == |xs|
    ensures forall i :: 0 <= i < |xs| ==> es[i] == JString(xs[i])
  {
    if xs == [] then [] else [JString(xs[0])] + StringElems(xs[1..])
  }

  function EncodeCompetitor(c: Competitor): Json {
    JObject(map["name" := JString(c.name), "description" := JString(c.description)])
  }

  function CompetitorElems(cs: seq<Competitor>): (es: seq<Json>)
    ensures |es| == |cs|
    ensures forall i :: 0 <= i < |cs| ==> es[i] == EncodeCompetitor(cs[i])
  {
    if cs == [] then [] else [EncodeCompetitor(cs[0])] + CompetitorElems(cs[1..])
  }

  function EncodeSwot(w: Swot): Json {
    JObject(map[
      "strengths" := JArray(StringElems(w.strengths)),
      "weaknesses" := JArray(StringElems(w.weaknesses)),
      "opportunities" := JArray(StringElems(w.opportunities)),
      "threats" := JArray(StringElems(w.threats))])
  }

  /** The JSON object for a record, with exactly the six fields of the interface. */
  function Encode(a: IdeaAnalysis): Json {
    JObject(map[
      "ideaSummary" := JString(a.ideaSummary),
      "viabilityScore" := JNumber(a.viabilityScore),
      "swotAnalysis" := EncodeSwot(a.swotAnalysis),
      "competitors" := JArray(CompetitorElems(a.competitors)),
      "marketInsights" := JArray(StringElems(a.marketInsights)),
      "recommendations" := JArray(StringElems(a.recommendations))])
  }

  /** The strings of an array whose elements are all strings. */
  function DecodeStrings(es: seq<Json>): (r: Option<seq<string>>)
    ensures r.Some? <==> forall i :: 0 <= i < |es| ==> es[i].JString?
    ensures r.Some? ==> |r.value| == |es|
  {
    if es == [] then Some([])
    else match DecodeStrings(es[1..])
      case Some(rest) => if es[0].JString? then Some([es[0].s] + rest) else None
      case None => None
  }

  /** Field `name` of `v` when `v` is an object that has it. */
  function Field(v: Json, name: string): Option<Json> {
    if v.JObject? && name in v.fields then Some(v.fields[name]) else None
  }

  function DecodeStringArray(v: Option<Json>): Option<seq<string>> {
    if v.Some? && v.value.JArray? then DecodeStrings(v.value.elems) else None
  }

  function DecodeCompetitor(v: Json): Option<Competitor> {
    var name := Field(v, "name");
    var description := Field(v, "description");
    if name.Some? && name.value.JString? && description.Some? && description.value.JString?
    then Some(Competitor(name.value.s, description.value.s))
    else None
  }

  function DecodeCompetitors(es: seq<Json>): Option<seq<Competitor>> {
    if es == [] then Some([])
    else match (DecodeCompetitor(es[0]), DecodeCompetitors(es[1..]))
      case (Some(c), Some(rest)) => Some([c] + rest)
      case _ => None
  }

  function DecodeSwot(v: Option<Json>): Option<Swot> {
    if v.None? then None
    else
      var s := DecodeStringArray(Field(v.value, "strengths"));
      var w := DecodeStringArray(Field(v.value, "weaknesses"));
      var o := DecodeStringArray(Field(v.value, "opportunities"));
      var t := DecodeStringArray(Field(v.value, "threats"));
      if s.Some? && w.Some? && o.Some? && t.Some? then Some(Swot(s.value, w.value, o.value, t.value))
      else None
  }

  /** The record held by a parsed value whose fields all have their declared types. */
  function Decode(v: Json): Option<IdeaAnalysis> {
    var summary := Field(v, "ideaSummary");
    var score := Field(v, "viabilityScore");
    var swot := DecodeSwot(Field(v, "swotAnalysis"));
    var competitors := Field(v, "competitors");
    var cs := if competitors.Some? && competitors.value.JArray?
              then DecodeCompetitors(competitors.value.elems) else None;
    var insights := DecodeStringArray(Field(v, "marketInsights"));
    var recommendations := DecodeStringArray(Field(v, "recommendations"));
    if summary.Some? && summary.value.JString? && score.Some? && score.value.JNumber?
       && swot.Some? && cs.Some? && insights.Some? && recommendations.Some?
    then Some(IdeaAnalysis(summary.value.s, score.value.n, swot.value, cs.value,
                           insights.value, recommendations.value))
    else None
  }

  lemma {:induction false} StringsRoundTrip(xs: seq<string>)
    ensures DecodeStrings(StringElems(xs)) == Some(xs)
  {
    if xs != [] {
      var es := StringElems(xs);
      StringsRoundTrip(xs[1..]);
      assert es[1..] == StringElems(xs[1..]);
      assert es[0] == JString(xs[0]);
      assert [xs[0]] + xs[1..] == xs;
    }
  }

  lemma {:induction false} CompetitorsRoundTrip(cs: seq<Competitor>)
    ensures DecodeCompetitors(CompetitorElems(cs)) == Some(cs)
  {
    if cs != [] {
      var es := CompetitorElems(cs);
      CompetitorsRoundTrip(cs[1..]);
      assert es[1..] == CompetitorElems(cs[1..]);
      assert DecodeCompetitor(es[0]) == Some(cs[0]);
      assert [cs[0]] + cs[1..] == cs;
    }
  }

  /** The four lists of the encoded SWOT object hold the record's lists. */
  lemma EncodeSwotFields(w: Swot)
    ensures Field(EncodeSwot(w), "strengths") == Some(JArray(StringElems(w.strengths)))
    ensures Field(EncodeSwot(w), "weaknesses") == Some(JArray(StringElems(w.weaknesses)))
    ensures Field(EncodeSwot(w), "opportunities") == Some(JArray(StringElems(w.opportunities)))
    ensures Field(EncodeSwot(w), "threats") == Some(JArray(StringElems(w.threats)))
  {
  }

  lemma SwotRoundTrip(w: Swot)
    ensures DecodeSwot(Some(EncodeSwot(w))) == Some(w)
  {
    EncodeSwotFields(w);
    StringsRoundTrip(w.strengths);
    StringsRoundTrip(w.weaknesses);
    StringsRoundTrip(w.opportunities);
    StringsRoundTrip(w.threats);
  }

  /** The six fields of the encoded object hold the record's fields. */
  lemma EncodeFields(a: IdeaAnalysis)
    ensures Field(Encode(a), "ideaSummary") == Some(JString(a.ideaSummary))
    ensures Field(Encode(a), "viabilityScore") == Some(JNumber(a.viabilityScore))
    ensures Field(Encode(a), "swotAnalysis") == Some(EncodeSwot(a.swotAnalysis))
    ensures Field(Encode(a), "competitors") == Some(JArray(CompetitorElems(a.competitors)))
    ensures Field(Encode(a), "marketInsights") == Some(JArray(StringElems(a.marketInsights)))
    ensures Field(Encode(a), "recommendations") == Some(JArray(StringElems(a.recommendations)))
  {
  }

  /** Every record survives the trip through its JSON form unchanged. */
  lemma DecodeEncode(a: IdeaAnalysis)
    ensures Decode(Encode(a)) == Some(a)
  {
    EncodeFields(a);
    SwotRoundTrip(a.swotAnalysis);
    StringsRoundTrip(a.marketInsights);
    StringsRoundTrip(a.recommendations);
    CompetitorsRoundTrip(a.competitors);
  }
}
