/** The remote-analysis client: prompt construction, the single remote call
    with its never-raise error handling, and the one-retry policy of
    `analyze_match`. */
module Llm {
  import opened Values

  /** One text part of a request. */
  datatype Part = Part(text: string)

  /** The request payload. Its list of parts is extended in place when a
      prompt is refined. */
  class Content {
    var parts: seq<Part>

    constructor (parts: seq<Part>)
      ensures this.parts == parts
    {
      this.parts := parts;
    }
  }

  /** What the remote service does with one request. */
  datatype RemoteOutcome =
    | GenAiError        // client, API or function-call error of the SDK
    | UnexpectedError   // network failure, a reply without candidates, ...
    | Reply(text: string)

  /** Everything `_call_llm_api` depends on but that lies outside this
      model: the `GEMINI_API_KEY` lookup, the remote model (its answer to
      the n-th call, n counted from 0, given the parts sent), `json.loads`
      of the extracted region (None for a decode error), and `str()` of a
      dict, used when a previous response is quoted back to the model. */
  datatype Runtime = Runtime(
    apiKey: Option<string>,
    generate: (nat, seq<Part>) -> RemoteOutcome,
    loads: string -> Option<Dict>,
    showDict: Dict -> string)

  // ---------------------------------------------------------------------
  // Prompt construction

  const Persona := "You are an advanced AI specializing in CV analysis."

  /** `repr()` of a plain key, as the instruction f-string writes it. */
  function Quoted(key: string): string
  {
    "'" + key + "'"
  }

  /** The instruction text around the three quoted schema keys. */
  const IntroNote :=
    "Identify *all* significant skill gaps, even if there are many. Do not omit any important gaps. "
    + "Evaluate the candidate\U{2019}s CV against the job description and provide the results in JSON format with "
    + "the following keys:\n- "
  const ScoreNote := " (integer, 0-100)\n- "
  const GapsNote := " (list of dictionaries, each with " + Quoted("category") + " and " + Quoted("gap") + " keys)\n- "
  const RecommendationsNote :=
    " (list of strings)\n\nUse structured reasoning before generating the JSON. Ensure the JSON is valid and parsable."

  const Instructions :=
    IntroNote + Quoted("match_score") + ScoreNote + Quoted("skill_gaps") + GapsNote
    + Quoted("recommendations") + RecommendationsNote

  const CvLabel := "CV Text: \n"
  const RoleLabel := "Role Description: \n"

  /** The keys the instructions ask the model for. */
  const PromptSchemaKeys: set<string> := {"match_score", "skill_gaps", "recommendations"}

  /** `t` occurs in `s` starting at position `i`. */
  predicate OccursAt(t: string, s: string, i: int)
  {
    0 <= i <= |s| - |t| && s[i..i + |t|] == t
  }

  /** In the text `a + x + b + y + c + z + d`, each of `x`, `y` and `z`
      occurs right after what precedes it. */
  lemma PiecesOccur(a: string, x: string, b: string, y: string, c: string, z: string, d: string)
    ensures var s := a + x + b + y + c + z + d;
            && OccursAt(x, s, |a|)
            && OccursAt(y, s, |a + x + b|)
            && OccursAt(z, s, |a + x + b + y + c|)
  {
    var s := a + x + b + y + c + z + d;
    assert s == a + x + (b + y + c + z + d);
    assert s == (a + x + b) + y + (c + z + d);
    assert s == (a + x + b + y + c) + z + d;
  }

  /** Each key the prompt's schema asks for appears, quoted, in the
      instructions. */
  lemma InstructionsNameSchemaKeys()
    ensures forall k :: k in PromptSchemaKeys ==> exists i :: OccursAt(Quoted(k), Instructions, i)
  {
    PiecesOccur(IntroNote, Quoted("match_score"), ScoreNote, Quoted("skill_gaps"), GapsNote,
                Quoted("recommendations"), RecommendationsNote);
  }

  /** `_generate_prompt`: persona, instructions, then the CV text and the
      role text, each behind its label and embedded verbatim. */
  function GeneratePrompt(cvText: string, roleText: string): (parts: seq<Part>)
    ensures |parts| == 4
    ensures parts[0].text == Persona && parts[1].text == Instructions
    ensures |parts[2].text| == |CvLabel| + |cvText|
    ensures parts[2].text[..|CvLabel|] == CvLabel && parts[2].text[|CvLabel|..] == cvText
    ensures |parts[3].text| == |RoleLabel| + |roleText|
    ensures parts[3].text[..|RoleLabel|] == RoleLabel && parts[3].text[|RoleLabel|..] == roleText
  {
    [Part(Persona), Part(Instructions), Part(CvLabel + cvText), Part(RoleLabel + roleText)]
  }

  /** Different inputs never produce the same prompt: both texts can be read
      back from it. */
  lemma GeneratePromptInjective(cv1: string, role1: string, cv2: string, role2: string)
    requires GeneratePrompt(cv1, role1) == GeneratePrompt(cv2, role2)
    ensures cv1 == cv2 && role1 == role2
  {
    var p1, p2 := GeneratePrompt(cv1, role1), GeneratePrompt(cv2, role2);
    assert cv1 == p1[2].text[|CvLabel|..] == p2[2].text[|CvLabel|..] == cv2;
    assert role1 == p1[3].text[|RoleLabel|..] == p2[3].text[|RoleLabel|..] == role2;
  }

  const EnsureFieldsNote := "\nEnsure all required fields are included."
  const PreviousLabel := "\nPrevious response: "

  /** `str(response)` of the previous response. */
  function ShowResponse(response: Option<Dict>, rt: Runtime): string
  {
    match response
    case None => "None"
    case Some(d) => rt.showDict(d)
  }

  /** The two parts a refinement appends to the original request. */
  function RefinementParts(response: Option<Dict>, rt: Runtime): (extra: seq<Part>)
    ensures |extra| == 2 && extra[0].text == EnsureFieldsNote
    ensures extra[1].text == PreviousLabel + ShowResponse(response, rt)
  {
    [Part(EnsureFieldsNote), Part(PreviousLabel + ShowResponse(response, rt))]
  }

  /** `_refine_prompt`: a deep copy of the request with the two refinement
      parts appended to it; the original request is left as it was. */
  method RefinePrompt(prompt: Content, response: Option<Dict>, rt: Runtime) returns (refined: Content)
    ensures fresh(refined)
    ensures refined.parts == prompt.parts + RefinementParts(response, rt)
    ensures unchanged(prompt)
  {
    refined := new Content(prompt.parts);
    refined.parts := refined.parts + [Part(EnsureFieldsNote)];
    refined.parts := refined.parts + [Part(PreviousLabel + ShowResponse(response, rt))];
  }

  // ---------------------------------------------------------------------
  // Locating the JSON object in the reply

  /** The position of the first occurrence of `c` in `s`. */
  function FirstIndex(s: string, c: char): (r: Option<nat>)
    ensures r.None? <==> c !in s
    ensures r.Some? ==> r.value < |s| && s[r.value] == c && c !in s[..r.value]
  {
    if s == [] then None
    else if s[0] == c then Some(0)
    else
      match FirstIndex(s[1..], c)
      case None => None
      case Some(i) =>
        assert s[..i + 1] == [s[0]] + s[1..][..i];
        Some(i + 1)
  }

  /** The position of the last occurrence of `c` in `s`. */
  function LastIndex(s: string, c: char): (r: Option<nat>)
    ensures r.None? <==> c !in s
    ensures r.Some? ==> r.value < |s| && s[r.value] == c && c !in s[r.value + 1..]
  {
    if s == [] then None
    else if s[|s| - 1] == c then Some(|s| - 1)
    else
      var front := s[..|s| - 1];
      assert s == front + [s[|s| - 1]];
      match LastIndex(front, c)
      case None => None
      case Some(j) =>
        assert s[j + 1..] == front[j + 1..] + [s[|s| - 1]];
        Some(j)
  }

  /** The regular-expression search `{.*}` with DOTALL: from the first `{`
      to the last `}`, both included; nothing when no `}` follows a `{`. */
  function ExtractJsonRegion(text: string): (r: Option<string>)
    ensures r.Some? <==> exists i, j :: 0 <= i < j < |text| && text[i] == '{' && text[j] == '}'
    ensures r.Some? ==> |r.value| >= 2 && r.value[0] == '{' && r.value[|r.value| - 1] == '}'
  {
    match FirstIndex(text, '{')
    case None => None
    case Some(i) =>
      match LastIndex(text, '}')
      case None => None
      case Some(j) =>
        if i < j then Some(text[i..j + 1])
        else
          assert forall k :: 0 <= k < i ==> text[..i][k] == text[k];
          assert forall k :: j < k < |text| ==> text[j + 1..][k - j - 1] == text[k];
          None
  }

  /** The match is exactly the span from the first `{` to the last `}`. */
  lemma ExtractJsonRegionSpan(text: string, i: nat, j: nat)
    requires i < j < |text| && text[i] == '{' && text[j] == '}'
    requires '{' !in text[..i] && '}' !in text[j + 1..]
    ensures ExtractJsonRegion(text) == Some(text[i..j + 1])
  {
    var fi := FirstIndex(text, '{');
    var lj := LastIndex(text, '}');
    assert forall k :: 0 <= k < i ==> text[..i][k] == text[k];
    assert forall k :: j < k < |text| ==> text[j + 1..][k - j - 1] == text[k];
    assert forall k :: 0 <= k < fi.value ==> text[..fi.value][k] == text[k];
    assert forall k :: lj.value < k < |text| ==> text[lj.value + 1..][k - lj.value - 1] == text[k];
  }

  // ---------------------------------------------------------------------
  // The remote call

  /** `_call_llm_api`: the n-th call of an analysis. A missing key, an SDK
      or other remote error, a reply without a `{...}` region and a region
      that does not decode all give None: the call never raises. */
  function CallLlmApi(rt: Runtime, n: nat, parts: seq<Part>): (r: Option<Dict>)
    ensures (rt.apiKey.None? || rt.apiKey == Some("")) ==> r.None?
    ensures !rt.generate(n, parts).Reply? ==> r.None?
    ensures r.Some? ==> ExtractJsonRegion(rt.generate(n, parts).text).Some?
                        && r == rt.loads(ExtractJsonRegion(rt.generate(n, parts).text).value)
    ensures rt.apiKey.Some? && rt.apiKey.value != "" && rt.generate(n, parts).Reply?
            && ExtractJsonRegion(rt.generate(n, parts).text).Some? ==>
              r == rt.loads(ExtractJsonRegion(rt.generate(n, parts).text).value)
  {
    if rt.apiKey.None? || rt.apiKey.value == "" then None
    else
      match rt.generate(n, parts)
      case Reply(text) =>
        (match ExtractJsonRegion(text)
         case None => None
         case Some(region) => rt.loads(region))
      case _ => None
  }

  // ---------------------------------------------------------------------
  // The retry policy

  /** The keys the completeness check of `analyze_match` looks for. It
      spells the second one `skill_gap`, while the prompt asks for
      `skill_gaps`. */
  const RetryCheckKeys: set<string> := {"match_score", "skill_gap", "recommendations"}

  /** What `analyze_match` does with the first response. */
  datatype Verdict = Accept | Retry | Fails(error: Exception)

  /** Python truthiness of the response and the two checks of
      `analyze_match`, in their order; `len` raises on an unsized value. */
  function Assess(response: Option<Dict>): (v: Verdict)
    ensures v.Fails? ==> v.error == TypeError
    ensures v != Retry ==> response.Some? && RetryCheckKeys <= response.value.Keys
    ensures v == Accept <==>
      && response.Some? && RetryCheckKeys <= response.value.Keys
      && Len(response.value["skill_gap"]).Some?
      && (Len(response.value["skill_gap"]).value == 0
          || (Len(response.value["recommendations"]).Some? && Len(response.value["recommendations"]).value > 0))
  {
    if response.None? || response.value == map[] || !(RetryCheckKeys <= response.value.Keys) then Retry
    else
      match Len(response.value["skill_gap"])
      case None => Fails(TypeError)
      case Some(gaps) =>
        if gaps > 0 then
          match Len(response.value["recommendations"])
          case None => Fails(TypeError)
          case Some(recs) => if recs == 0 then Retry else Accept
        else Accept
  }

  /** A first response is refined and re-sent exactly when it is missing,
      lacks a checked key, or reports gaps with no recommendations. */
  lemma AssessRetryIff(response: Option<Dict>)
    ensures Assess(response) == Retry <==>
      || response.None?
      || !(RetryCheckKeys <= response.value.Keys)
      || (Len(response.value["skill_gap"]).Some? && Len(response.value["skill_gap"]).value > 0
          && Len(response.value["recommendations"]) == Some(0))
  {
  }

  /** The result of one analysis: what `analyze_match` returned or raised,
      and the prompts sent to the model, in order. */
  datatype MatchRun = MatchRun(outcome: Outcome<Option<Dict>>, prompts: seq<seq<Part>>)

  /** The response to the first request of an analysis. */
  function FirstResponse(cvText: string, roleText: string, rt: Runtime): Option<Dict>
  {
    CallLlmApi(rt, 0, GeneratePrompt(cvText, roleText))
  }

  /** The behaviour of `analyze_match`: one call, at most one more. */
  function Analysis(cvText: string, roleText: string, rt: Runtime): (run: MatchRun)
    ensures 1 <= |run.prompts| <= 2
    ensures run.prompts[0] == GeneratePrompt(cvText, roleText)
    ensures |run.prompts| == 2 <==> Assess(FirstResponse(cvText, roleText, rt)) == Retry
  {
    var prompt := GeneratePrompt(cvText, roleText);
    var first := CallLlmApi(rt, 0, prompt);
    match Assess(first)
    case Accept => MatchRun(Returned(first), [prompt])
    case Fails(e) => MatchRun(Raised(e), [prompt])
    case Retry =>
      var refined := prompt + RefinementParts(first, rt);
      MatchRun(Returned(CallLlmApi(rt, 1, refined)), [prompt, refined])
  }

  /** `analyze_match`, step by step as the source does it. */
  method AnalyzeMatch(cvText: string, roleText: string, rt: Runtime) returns (run: MatchRun)
    ensures run == Analysis(cvText, roleText, rt)
  {
    var prompt := new Content(GeneratePrompt(cvText, roleText));
    var response := CallLlmApi(rt, 0, prompt.parts);
    var sent := [prompt.parts];

    if response.None? || response.value == map[] || !(RetryCheckKeys <= response.value.Keys) {
      var refined := RefinePrompt(prompt, response, rt);
      response := CallLlmApi(rt, 1, refined.parts);
      return MatchRun(Returned(response), sent + [refined.parts]);
    }

    var gaps := Len(response.value["skill_gap"]);
    if gaps.None? {
      return MatchRun(Raised(TypeError), sent);
    }
    if gaps.value > 0 {
      var recs := Len(response.value["recommendations"]);
      if recs.None? {
        return MatchRun(Raised(TypeError), sent);
      }
      if recs.value == 0 {
        var refined := RefinePrompt(prompt, response, rt);
        response := CallLlmApi(rt, 1, refined.parts);
        return MatchRun(Returned(response), sent + [refined.parts]);
      }
    }

    return MatchRun(Returned(response), sent);
  }

  /** A missing or incomplete first response is refined and re-sent once,
      and the second response is returned whatever it is. */
  lemma IncompleteResponseRetriedOnce(cvText: string, roleText: string, rt: Runtime)
    requires var first := FirstResponse(cvText, roleText, rt);
             first.None? || !(RetryCheckKeys <= first.value.Keys)
    ensures var run := Analysis(cvText, roleText, rt);
            && |run.prompts| == 2
            && run.prompts[1] == run.prompts[0] + RefinementParts(FirstResponse(cvText, roleText, rt), rt)
            && run.outcome == Returned(CallLlmApi(rt, 1, run.prompts[1]))
  {
  }

  /** A complete response that reports gaps but no recommendations is
      refined and re-sent once, and the second response is returned. */
  lemma GapsWithoutRecommendationsRetriedOnce(cvText: string, roleText: string, rt: Runtime)
    requires var first := FirstResponse(cvText, roleText, rt);
             && first.Some? && RetryCheckKeys <= first.value.Keys
             && Len(first.value["skill_gap"]).Some? && Len(first.value["skill_gap"]).value > 0
             && Len(first.value["recommendations"]) == Some(0)
    ensures var run := Analysis(cvText, roleText, rt);
            && |run.prompts| == 2
            && run.prompts[1] == run.prompts[0] + RefinementParts(FirstResponse(cvText, roleText, rt), rt)
            && run.outcome == Returned(CallLlmApi(rt, 1, run.prompts[1]))
  {
  }

  /** Any other complete response is returned unchanged after one call. */
  lemma ConsistentResponseReturnedUnchanged(cvText: string, roleText: string, rt: Runtime)
    requires var first := FirstResponse(cvText, roleText, rt);
             && first.Some? && RetryCheckKeys <= first.value.Keys
             && (|| Len(first.value["skill_gap"]) == Some(0)
                 || (Len(first.value["skill_gap"]).Some?
                     && Len(first.value["recommendations"]).Some?
                     && Len(first.value["recommendations"]).value > 0))
    ensures var run := Analysis(cvText, roleText, rt);
            |run.prompts| == 1 && run.outcome == Returned(FirstResponse(cvText, roleText, rt))
  {
  }

  /** A `skill_gap` value that `len` rejects, or a `recommendations` value
      it rejects after a non-empty `skill_gap`, raises after one call. */
  lemma UnsizedFieldRaises(cvText: string, roleText: string, rt: Runtime)
    requires var first := FirstResponse(cvText, roleText, rt);
             && first.Some? && RetryCheckKeys <= first.value.Keys
             && (|| Len(first.value["skill_gap"]).None?
                 || (Len(first.value["skill_gap"]).Some? && Len(first.value["skill_gap"]).value > 0
                     && Len(first.value["recommendations"]).None?))
    ensures var run := Analysis(cvText, roleText, rt);
            |run.prompts| == 1 && run.outcome == Raised(TypeError)
  {
  }

  /** A first response with the keys the prompt asks for, `skill_gaps`
      among them but no `skill_gap`, is always refined and re-sent. */
  lemma SchemaConformingResponseRetried(cvText: string, roleText: string, rt: Runtime)
    requires var first := FirstResponse(cvText, roleText, rt);
             first.Some? && first.value.Keys == PromptSchemaKeys
    ensures |Analysis(cvText, roleText, rt).prompts| == 2
  {
    assert "skill_gap" !in PromptSchemaKeys;
  }

  /** The keys the prompt asks for never pass the completeness check. */
  lemma PromptSchemaFailsCheck(d: Dict)
    requires d.Keys == PromptSchemaKeys
    ensures Assess(Some(d)) == Retry
  {
    assert "skill_gap" !in d.Keys;
  }
}
