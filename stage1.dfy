/**
 * Stage 1 of a turn: the emotion label from the classifier, the arousal
 * bucket derived from it, and the disclosure fields from the extractor,
 * assembled into one five-field analysis record.
 */
module Stage1Analyzer {
  import opened Wrappers
  import opened Js

  /** One entry of the classifier's ranked output. */
  datatype Ranked = Ranked(name: string, score: real)

  datatype Emotion = Emotion(name: string, confidence: real)

  datatype Arousal = High | Medium | Low

  /** The stored record: exactly these five fields; the classifier's confidence is not one of them. */
  datatype Analysis = Analysis(
    emotionLabel: string,
    arousalLevel: Arousal,
    disclosureLevel: Json,
    distressScore: Json,
    helpIntent: Json)

  /**
   * The external calls of Stage 1. `classify` is the classifier request
   * (its reply is a list of ranked lists), `extract` the extraction
   * completion (its reply text), `parse` is `JSON.parse` (None when it throws).
   */
  datatype Analyzers = Analyzers(
    classify: string -> Result<seq<seq<Ranked>>, Error>,
    extract: string -> Result<string, Error>,
    parse: string -> Option<Json>)

  const HighArousalLabels: seq<string> := ["anger", "fear"]
  const LowArousalLabels: seq<string> := ["sadness", "guilt", "shame", "neutral"]

  function ArousalText(a: Arousal): string {
    match a
    case High => "high"
    case Medium => "medium"
    case Low => "low"
  }

  /** The three-bucket arousal table; total, unknown labels are medium. */
  function EstimateArousal(emotion: string): (r: Arousal)
    ensures r == High <==> emotion == "anger" || emotion == "fear"
    ensures r == Low <==> emotion == "sadness" || emotion == "guilt" || emotion == "shame" || emotion == "neutral"
    ensures r == Medium <==> emotion !in HighArousalLabels + LowArousalLabels
  {
    if emotion in HighArousalLabels then High
    else if emotion in LowArousalLabels then Low
    else Medium
  }

  /** The first entry of the first ranked list, lower-cased; a missing entry throws. */
  function AnalyzeEmotion(reply: Result<seq<seq<Ranked>>, Error>): (r: Result<Emotion, Error>)
    ensures reply.Failure? ==> r == Failure(reply.error)
    ensures reply.Success? && (reply.value == [] || reply.value[0] == []) ==> r == Failure(TypeError)
    ensures reply.Success? && reply.value != [] && reply.value[0] != [] ==> r.Success?
    ensures r.Success? ==>
      && reply.Success? && reply.value != [] && reply.value[0] != []
      && r.value.name == ToLower(reply.value[0][0].name)
      && r.value.confidence == reply.value[0][0].score
      && IsLower(r.value.name)
  {
    match reply
    case Failure(e) => Failure(e)
    case Success(lists) =>
      if lists == [] || lists[0] == [] then Failure(TypeError)
      else
        var top := lists[0][0];
        ToLowerIsLowerAndIdempotent(top.name);
        Success(Emotion(ToLower(top.name), top.score))
  }

  /** What the extractor step yields when its reply is not valid JSON. */
  const FallbackDisclosure: Json := Obj(map[
    "disclosure_level" := Str("unknown"),
    "distress_score" := Num(0.0),
    "help_intent" := Bool(false)])

  /**
   * The parsed extractor reply; a parse failure is caught and replaced by
   * the fallback, a failure of the request itself is not.
   */
  function AnalyzeDisclosure(reply: Result<string, Error>, parse: string -> Option<Json>): (r: Result<Json, Error>)
    ensures reply.Failure? ==> r == Failure(reply.error)
    ensures reply.Success? && parse(reply.value).None? ==> r == Success(FallbackDisclosure)
    ensures reply.Success? && parse(reply.value).Some? ==> r == Success(parse(reply.value).value)
  {
    match reply
    case Failure(e) => Failure(e)
    case Success(content) =>
      match parse(content)
      case Some(v) => Success(v)
      case None => Success(FallbackDisclosure)
  }

  /** The invariant every assembled record satisfies: its arousal is the table entry of its (lower-case) label. */
  predicate Coherent(a: Analysis) {
    IsLower(a.emotionLabel) && a.arousalLevel == EstimateArousal(a.emotionLabel)
  }

  /** The record assembly of `analyzeStage1`: classifier, arousal table, extractor, five fields. */
  function AnalyzeStage1(text: string, an: Analyzers): (r: Result<Analysis, Error>)
    ensures r.Success? ==> Coherent(r.value)
    ensures AnalyzeEmotion(an.classify(text)).Failure? ==> r == Failure(AnalyzeEmotion(an.classify(text)).error)
    ensures r.Success? <==>
      && AnalyzeEmotion(an.classify(text)).Success?
      && AnalyzeDisclosure(an.extract(text), an.parse).Success?
      && !AnalyzeDisclosure(an.extract(text), an.parse).value.Undefined?
      && !AnalyzeDisclosure(an.extract(text), an.parse).value.Null?
    ensures r.Success? ==>
      var disc := AnalyzeDisclosure(an.extract(text), an.parse).value;
      && r.value.emotionLabel == AnalyzeEmotion(an.classify(text)).value.name
      && r.value.disclosureLevel == GetProp(disc, "disclosure_level").value
      && r.value.distressScore == GetProp(disc, "distress_score").value
      && r.value.helpIntent == GetProp(disc, "help_intent").value
  {
    var emo :- AnalyzeEmotion(an.classify(text));
    var arousal := EstimateArousal(emo.name);
    var disc :- AnalyzeDisclosure(an.extract(text), an.parse);
    // the first read throws on `null`/`undefined`; after it the other two cannot
    var level :- GetProp(disc, "disclosure_level");
    Success(Analysis(emo.name, arousal, level,
      GetProp(disc, "distress_score").value, GetProp(disc, "help_intent").value))
  }

  /** The `/analyze` route of either variant: the Stage-1 record, or a 500. */
  datatype AnalyzeResponse = Analyzed(record: Analysis) | AnalysisFailed

  function AnalyzeRoute(text: string, an: Analyzers): (r: AnalyzeResponse)
    ensures r.Analyzed? <==> AnalyzeStage1(text, an).Success?
    ensures r.Analyzed? ==> r.record == AnalyzeStage1(text, an).value && Coherent(r.record)
  {
    match AnalyzeStage1(text, an)
    case Success(a) => Analyzed(a)
    case Failure(_) => AnalysisFailed
  }

  // ---------------------------------------------------------------------
  // Properties of Stage 1

  /** A classifier label in any letter case gets the arousal of its lower-case form ("Anger" is high). */
  lemma {:induction false} CapitalisedLabelsUseLowerCaseTable(name: string, an: Analyzers, text: string)
    requires an.classify(text).Success? && an.classify(text).value != [] && an.classify(text).value[0] != []
    requires an.classify(text).value[0][0].name == name
    requires AnalyzeStage1(text, an).Success?
    ensures AnalyzeStage1(text, an).value.arousalLevel == EstimateArousal(ToLower(name))
    ensures ToLower(name) == "anger" ==> AnalyzeStage1(text, an).value.arousalLevel == High
  {
  }

  lemma AngerInTitleCaseIsHigh()
    ensures EstimateArousal(ToLower("Anger")) == High
  {
    var r := ToLower("Anger");
    assert forall i :: 0 <= i < 5 ==> r[i] == "anger"[i];
    assert r == "anger";
  }

  /** An unparsable extractor reply yields exactly the fallback disclosure fields and no error. */
  lemma UnparsableExtractionFallsBack(text: string, an: Analyzers)
    requires AnalyzeEmotion(an.classify(text)).Success?
    requires an.extract(text).Success? && an.parse(an.extract(text).value).None?
    ensures AnalyzeStage1(text, an).Success?
    ensures AnalyzeStage1(text, an).value.disclosureLevel == Str("unknown")
    ensures AnalyzeStage1(text, an).value.distressScore == Num(0.0)
    ensures AnalyzeStage1(text, an).value.helpIntent == Bool(false)
  {
  }

  /** Failures of the two requests themselves are rethrown unchanged. */
  lemma RequestFailuresAreRethrown(text: string, an: Analyzers)
    ensures an.classify(text).Failure? ==> AnalyzeStage1(text, an) == Failure(an.classify(text).error)
    ensures AnalyzeEmotion(an.classify(text)).Success? && an.extract(text).Failure? ==>
      AnalyzeStage1(text, an) == Failure(an.extract(text).error)
  {
  }

  /** A reply that parses to `null` is not caught by the fallback: reading its fields throws. */
  lemma NullExtractionThrows(text: string, an: Analyzers)
    requires AnalyzeEmotion(an.classify(text)).Success?
    requires an.extract(text).Success? && an.parse(an.extract(text).value) == Some(Null)
    ensures AnalyzeStage1(text, an) == Failure(TypeError)
  {
  }

  /** Disclosure fields are copied without validation, and a missing one is stored as `undefined`. */
  lemma DisclosureFieldsAreNotValidated(text: string, an: Analyzers, fields: map<string, Json>)
    requires AnalyzeEmotion(an.classify(text)).Success?
    requires an.extract(text).Success? && an.parse(an.extract(text).value) == Some(Obj(fields))
    ensures AnalyzeStage1(text, an).Success?
    ensures "disclosure_level" in fields ==> AnalyzeStage1(text, an).value.disclosureLevel == fields["disclosure_level"]
    ensures "disclosure_level" !in fields ==> AnalyzeStage1(text, an).value.disclosureLevel == Undefined
    ensures "help_intent" in fields ==> AnalyzeStage1(text, an).value.helpIntent == fields["help_intent"]
    ensures "help_intent" !in fields ==> AnalyzeStage1(text, an).value.helpIntent == Undefined
    ensures "distress_score" in fields ==> AnalyzeStage1(text, an).value.distressScore == fields["distress_score"]
    ensures "distress_score" !in fields ==> AnalyzeStage1(text, an).value.distressScore == Undefined
  {
  }

  /** The record does not depend on the classifier's score: `emotion_confidence` is dropped. */
  lemma ConfidenceIsDropped(text: string, an: Analyzers, an': Analyzers)
    requires an.extract == an'.extract && an.parse == an'.parse
    requires an.classify(text).Success? && an'.classify(text).Success?
    requires |an.classify(text).value| > 0 && |an'.classify(text).value| > 0
    requires |an.classify(text).value[0]| > 0 && |an'.classify(text).value[0]| > 0
    requires an.classify(text).value[0][0].name == an'.classify(text).value[0][0].name
    ensures AnalyzeStage1(text, an) == AnalyzeStage1(text, an')
  {
  }
}
