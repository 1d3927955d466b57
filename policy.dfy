/**
 * The two analysis-conditioned reply policies. Their turn handlers differ
 * only by the data in this table: the conversation's `aiType`, the sampling
 * temperature, the system prompt, and which analysis fields are written into
 * the context message.
 */
module Policy {
  import opened Js
  import opened Stage1Analyzer

  datatype Variant = Companion | NonCompanion

  /** The analysis fields that can appear in a context message. */
  datatype Field = EmotionField | ArousalField | DisclosureField | DistressField | HelpIntentField

  /** The system prompt of a policy; its wording is a constant of the route and is not reproduced here. */
  datatype SystemPrompt = CompanionRules | NonCompanionRules

  datatype PolicyEntry = PolicyEntry(
    aiType: string,
    model: string,
    temperature: real,
    prompt: SystemPrompt,
    fields: seq<Field>)

  /** What is sent to the reply generator. */
  datatype GenerationRequest = GenerationRequest(
    model: string,
    temperature: real,
    system: SystemPrompt,
    user: string)

  const GenerationModel := "gpt-4o-mini"

  /** The variant table. */
  function PolicyOf(v: Variant): PolicyEntry {
    match v
    case Companion =>
      PolicyEntry("companion", GenerationModel, 0.8, CompanionRules,
                  [EmotionField, ArousalField, DisclosureField, DistressField, HelpIntentField])
    case NonCompanion =>
      PolicyEntry("non-companion", GenerationModel, 0.2, NonCompanionRules,
                  [EmotionField, ArousalField, DisclosureField])
  }

  function AiType(v: Variant): string { PolicyOf(v).aiType }

  function FieldLabel(f: Field): string {
    match f
    case EmotionField => "User emotion: "
    case ArousalField => "Arousal: "
    case DisclosureField => "Disclosure: "
    case DistressField => "Distress: "
    case HelpIntentField => "HelpIntent: "
  }

  function FieldValue(f: Field, a: Analysis, numberText: real -> string): string {
    match f
    case EmotionField => a.emotionLabel
    case ArousalField => ArousalText(a.arousalLevel)
    case DisclosureField => Render(a.disclosureLevel, numberText)
    case DistressField => Render(a.distressScore, numberText)
    case HelpIntentField => Render(a.helpIntent, numberText)
  }

  function Item(f: Field, a: Analysis, numberText: real -> string): string {
    FieldLabel(f) + FieldValue(f, a, numberText)
  }

  /** `Name: value` pairs joined by ", ". */
  function Interpolate(fs: seq<Field>, a: Analysis, numberText: real -> string): string {
    if fs == [] then ""
    else if |fs| == 1 then Item(fs[0], a, numberText)
    else Item(fs[0], a, numberText) + ", " + Interpolate(fs[1..], a, numberText)
  }

  /** The user-role message sent to the generator: the selected fields, then the verbatim utterance. */
  function ContextMessage(v: Variant, a: Analysis, text: string, numberText: real -> string): string {
    Interpolate(PolicyOf(v).fields, a, numberText) + ".\nUser said: \"" + text + "\""
  }

  function BuildRequest(v: Variant, a: Analysis, text: string, numberText: real -> string): (r: GenerationRequest)
    ensures r.model == "gpt-4o-mini"
    ensures r.temperature == (if v.Companion? then 0.8 else 0.2)
    ensures r.system == (if v.Companion? then CompanionRules else NonCompanionRules)
    ensures r.user == ContextMessage(v, a, text, numberText)
  {
    var p := PolicyOf(v);
    GenerationRequest(p.model, p.temperature, p.prompt, ContextMessage(v, a, text, numberText))
  }

  // ---------------------------------------------------------------------
  // Properties of the table

  /** The two policies write different `aiType` values, so a conversation row tells which route created it. */
  lemma AiTypesAreDistinct()
    ensures AiType(Companion) == "companion" && AiType(NonCompanion) == "non-companion"
    ensures AiType(Companion) != AiType(NonCompanion)
  {
  }

  lemma InterpolateCons(f: Field, fs: seq<Field>, a: Analysis, nt: real -> string)
    requires fs != []
    ensures Interpolate([f] + fs, a, nt) == Item(f, a, nt) + ", " + Interpolate(fs, a, nt)
  {
    assert ([f] + fs)[1..] == fs;
  }

  /** Five `label + value` items joined by ", ", from the innermost join outwards. */
  lemma JoinFive(l0: string, l1: string, l2: string, l3: string, l4: string,
                 v0: string, v1: string, v2: string, v3: string, v4: string,
                 j0: string, j1: string, j2: string, j3: string)
    requires j3 == (l3 + v3) + ", " + (l4 + v4)
    requires j2 == (l2 + v2) + ", " + j3
    requires j1 == (l1 + v1) + ", " + j2
    requires j0 == (l0 + v0) + ", " + j1
    ensures j0 == l0 + v0 + ", " + l1 + v1 + ", " + l2 + v2 + ", " + l3 + v3 + ", " + l4 + v4
  {
  }

  /** Three `label + value` items joined by ", ". */
  lemma JoinThree(l0: string, l1: string, l2: string, v0: string, v1: string, v2: string, j0: string, j1: string)
    requires j1 == (l1 + v1) + ", " + (l2 + v2)
    requires j0 == (l0 + v0) + ", " + j1
    ensures j0 == l0 + v0 + ", " + l1 + v1 + ", " + l2 + v2
  {
  }

  /** The companion context message: emotion, arousal, disclosure, distress, help intent, then the text. */
  lemma CompanionContextLayout(a: Analysis, text: string, nt: real -> string)
    ensures ContextMessage(Companion, a, text, nt) ==
      "User emotion: " + a.emotionLabel
      + ", " + "Arousal: " + ArousalText(a.arousalLevel)
      + ", " + "Disclosure: " + Render(a.disclosureLevel, nt)
      + ", " + "Distress: " + Render(a.distressScore, nt)
      + ", " + "HelpIntent: " + Render(a.helpIntent, nt)
      + ".\nUser said: \"" + text + "\""
  {
    CompanionItems(a, nt);
  }

  lemma CompanionItems(a: Analysis, nt: real -> string)
    ensures Interpolate(PolicyOf(Companion).fields, a, nt) ==
      "User emotion: " + a.emotionLabel
      + ", " + "Arousal: " + ArousalText(a.arousalLevel)
      + ", " + "Disclosure: " + Render(a.disclosureLevel, nt)
      + ", " + "Distress: " + Render(a.distressScore, nt)
      + ", " + "HelpIntent: " + Render(a.helpIntent, nt)
  {
    var h := [HelpIntentField];
    var s := [DistressField] + h;
    var d := [DisclosureField] + s;
    var r := [ArousalField] + d;
    var e := [EmotionField] + r;
    assert PolicyOf(Companion).fields == e;
    assert Interpolate(h, a, nt) == "HelpIntent: " + Render(a.helpIntent, nt);
    InterpolateCons(DistressField, h, a, nt);
    InterpolateCons(DisclosureField, s, a, nt);
    InterpolateCons(ArousalField, d, a, nt);
    InterpolateCons(EmotionField, r, a, nt);
    JoinFive("User emotion: ", "Arousal: ", "Disclosure: ", "Distress: ", "HelpIntent: ",
      a.emotionLabel, ArousalText(a.arousalLevel), Render(a.disclosureLevel, nt),
      Render(a.distressScore, nt), Render(a.helpIntent, nt),
      Interpolate(e, a, nt), Interpolate(r, a, nt), Interpolate(d, a, nt), Interpolate(s, a, nt));
  }

  /** The non-companion context message: emotion, arousal and disclosure only, then the text. */
  lemma NonCompanionContextLayout(a: Analysis, text: string, nt: real -> string)
    ensures ContextMessage(NonCompanion, a, text, nt) ==
      "User emotion: " + a.emotionLabel
      + ", " + "Arousal: " + ArousalText(a.arousalLevel)
      + ", " + "Disclosure: " + Render(a.disclosureLevel, nt)
      + ".\nUser said: \"" + text + "\""
  {
    var d := [DisclosureField];
    var r := [ArousalField] + d;
    var e := [EmotionField] + r;
    assert PolicyOf(NonCompanion).fields == e;
    InterpolateCons(ArousalField, d, a, nt);
    InterpolateCons(EmotionField, r, a, nt);
    JoinThree("User emotion: ", "Arousal: ", "Disclosure: ",
      a.emotionLabel, ArousalText(a.arousalLevel), Render(a.disclosureLevel, nt),
      Interpolate(e, a, nt), Interpolate(r, a, nt));
  }

  /** Distress and help intent never reach the non-companion generator. */
  lemma NonCompanionIgnoresDistress(a: Analysis, b: Analysis, text: string, nt: real -> string)
    requires a.emotionLabel == b.emotionLabel && a.arousalLevel == b.arousalLevel
    requires a.disclosureLevel == b.disclosureLevel
    ensures BuildRequest(NonCompanion, a, text, nt) == BuildRequest(NonCompanion, b, text, nt)
  {
    NonCompanionContextLayout(a, text, nt);
    NonCompanionContextLayout(b, text, nt);
  }

  /** Every context message ends with the utterance, verbatim, between double quotes. */
  lemma ContextEndsWithUtterance(v: Variant, a: Analysis, text: string, nt: real -> string)
    ensures var m := ContextMessage(v, a, text, nt);
      |m| >= |text| + 15 && m[|m| - |text| - 1 .. |m| - 1] == text
      && m[|m| - |text| - 15 .. |m| - |text| - 1] == ".\nUser said: \""
      && m[|m| - 1] == '"'
  {
    var lead := Interpolate(PolicyOf(v).fields, a, nt);
    var said := ".\nUser said: \"";
    var m := ContextMessage(v, a, text, nt);
    assert |said| == 14;
    assert m == lead + said + text + "\"";
    assert m[|lead| .. |lead| + 14] == said;
    assert m[|lead| + 14 .. |lead| + 14 + |text|] == text;
  }
}
