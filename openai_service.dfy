/**
  The deep resume analysis (services/openAiService.js): the truncated texts
  the prompt embeds, the canonical error report, the chain of strategies
  that carves a JSON text out of the model's reply, and the outcomes of
  analyzeResume once the reply is known.
*/
module OpenAiService {
  import opened Json
  import opened Text

  /** Character budgets for the two texts interpolated into the prompt. */
  const ResumeBudget: nat := 15000
  const JobDescriptionBudget: nat := 3000

  /** `s.substring(0, n)`: the first min(|s|, n) characters; the rest is dropped. */
  function Prefix(s: string, n: nat): (r: string)
    ensures |r| == if |s| <= n then |s| else n
    ensures r + s[|r|..] == s
  {
    if |s| <= n then s else s[..n]
  }

  /** The two texts the analysis prompt interpolates. The instruction
      template around them is not part of this model. */
  datatype PromptInputs = PromptInputs(resumeText: string, jobDescription: string)

  function AnalysisPromptInputs(resumeText: string, jobDescription: string): (r: PromptInputs)
    ensures |r.resumeText| == if |resumeText| <= ResumeBudget then |resumeText| else ResumeBudget
    ensures r.resumeText == resumeText[..|r.resumeText|]
    ensures |r.jobDescription| == if |jobDescription| <= JobDescriptionBudget then |jobDescription| else JobDescriptionBudget
    ensures r.jobDescription == jobDescription[..|r.jobDescription|]
  {
    var resume := Prefix(resumeText, ResumeBudget);
    var job := Prefix(jobDescription, JobDescriptionBudget);
    assert resumeText == resume + resumeText[|resume|..];
    assert jobDescription == job + jobDescription[|job|..];
    PromptInputs(resume, job)
  }

  // ---------------------------------------------------------------- error report

  /** `createErrorResponse(message, details)`: the report returned in place
      of an analysis. A caller that omits `details` passes "". */
  function ErrorResponse(message: string, details: string): (r: Json)
    ensures r.JObj? && Keys(r) == ErrorKeys
  {
    JObj(ErrorMembers(message, details))
  }

  /** An error report is a value a program can hold: no key is repeated. */
  lemma ErrorResponseWellFormed(message: string, details: string)
    ensures WellFormed(ErrorResponse(message, details))
  {
    var ms := ErrorMembers(message, details);
    ErrorMembersDistinct(message, details);
    ErrorMembersInOrder(message, details);
    ErrorValuesWellFormed(message, details);
    ObjectWellFormed(ms);
  }

  lemma ErrorMembersInOrder(message: string, details: string)
    ensures PropertyOrder(ErrorMembers(message, details))
  {
    var ms := ErrorMembers(message, details);
    ErrorKeysPlain();
    assert forall i :: 0 <= i < |ErrorKeys| ==> ms[i].0 == ErrorKeys[i];
    NoIndexKeysInOrder(ms);
  }

  lemma ErrorValuesWellFormed(message: string, details: string)
    ensures forall i :: 0 <= i < |ErrorMembers(message, details)| ==> WellFormed(ErrorMembers(message, details)[i].1)
  {
    var ms := ErrorMembers(message, details);
    SkillsWellFormed();
    RecruiterTipsWellFormed();
    assert forall i :: 0 <= i < |ms| && i != 4 && i != 11 ==> !ms[i].1.JObj?;
  }

  lemma SkillsWellFormed()
    ensures WellFormed(JObj([("TechnicalSkills", JObj([])), ("SoftSkills", JObj([]))]))
  {
    var skills := [("TechnicalSkills", JObj([])), ("SoftSkills", JObj([]))];
    NoIndexKeysInOrder(skills);
    ObjectWellFormed(skills);
  }

  lemma RecruiterTipsWellFormed()
    ensures WellFormed(JObj(RecruiterTips()))
  {
    var tips := RecruiterTips();
    assert DistinctKeys(tips);
    NoIndexKeysInOrder(tips);
    assert forall i :: 0 <= i < |tips| ==> WellFormed(tips[i].1);
    ObjectWellFormed(tips);
  }

  function ErrorMembers(message: string, details: string): seq<(string, Json)>
  {
    [
      ("error", JBool(true)),
      ("message", JStr(message)),
      ("details", JStr(details)),
      ("Job Title Match", JStr("Error")),
      ("Skills", JObj([("TechnicalSkills", JObj([])), ("SoftSkills", JObj([]))])),
      ("Suggested Skills", JArr([])),
      ("Matched Projects And Internships", JArr([])),
      ("Rephrased Projects And Internships", JArr([])),
      ("Resume Improvement Suggestions", JArr([JStr("Please try again with a valid resume and job description")])),
      ("Grammatical Check", JStr("Analysis failed")),
      ("Project Title Description Check", JArr([])),
      ("Recruiter Tips", JObj(RecruiterTips())),
      ("JScore", JNum(0)),
      ("GScore", JNum(0))
    ]
  }

  function RecruiterTips(): seq<(string, Json)>
  {
    [
      ("Suggestions", JArr([JStr("Please retry the analysis")])),
      ("Word Count", JStr("Analysis failed")),
      ("wordsToAvoid", JObj([]))
    ]
  }

  /** What a caller reads from an error report: the error flag, the message
      and details it was given and the "Error" title match. */
  lemma ErrorResponseIdentifies(message: string, details: string)
    ensures Get(ErrorResponse(message, details), "error") == Some(JBool(true))
    ensures Get(ErrorResponse(message, details), "Job Title Match") == Some(JStr("Error"))
  {
    var ms := ErrorMembers(message, details);
    ErrorMembersDistinct(message, details);
    LookupDistinct(ms, 0);
    LookupDistinct(ms, 3);
  }

  /** It carries the message and details it was given. */
  lemma ErrorResponseCarriesMessage(message: string, details: string)
    ensures Get(ErrorResponse(message, details), "message") == Some(JStr(message))
    ensures Get(ErrorResponse(message, details), "details") == Some(JStr(details))
  {
    var ms := ErrorMembers(message, details);
    ErrorMembersDistinct(message, details);
    LookupDistinct(ms, 1);
    LookupDistinct(ms, 2);
  }

  /** An error report scores zero on both scales. */
  lemma ErrorResponseScoresZero(message: string, details: string)
    ensures Get(ErrorResponse(message, details), "JScore") == Some(JNum(0))
    ensures Get(ErrorResponse(message, details), "GScore") == Some(JNum(0))
  {
    var ms := ErrorMembers(message, details);
    ErrorMembersDistinct(message, details);
    LookupDistinct(ms, 12);
    LookupDistinct(ms, 13);
  }

  /** An error report lists no suggested skills and no projects. */
  lemma ErrorResponseListsNothing(message: string, details: string)
    ensures Get(ErrorResponse(message, details), "Suggested Skills") == Some(JArr([]))
    ensures Get(ErrorResponse(message, details), "Matched Projects And Internships") == Some(JArr([]))
    ensures Get(ErrorResponse(message, details), "Rephrased Projects And Internships") == Some(JArr([]))
    ensures Get(ErrorResponse(message, details), "Project Title Description Check") == Some(JArr([]))
  {
    var ms := ErrorMembers(message, details);
    ErrorMembersDistinct(message, details);
    LookupDistinct(ms, 5);
    LookupDistinct(ms, 6);
    LookupDistinct(ms, 7);
    LookupDistinct(ms, 10);
  }

  /** Its skill maps are empty. */
  lemma ErrorResponseSkillsEmpty(message: string, details: string)
    ensures Get(ErrorResponse(message, details), "Skills") == Some(JObj([("TechnicalSkills", JObj([])), ("SoftSkills", JObj([]))]))
  {
    var ms := ErrorMembers(message, details);
    ErrorMembersDistinct(message, details);
    LookupDistinct(ms, 4);
  }

  /** Its recruiter tips name no words to avoid. */
  lemma ErrorResponseTipsEmpty(message: string, details: string)
    ensures Get(ErrorResponse(message, details), "Recruiter Tips") == Some(JObj(RecruiterTips()))
    ensures Get(JObj(RecruiterTips()), "wordsToAvoid") == Some(JObj([]))
  {
    var ms := ErrorMembers(message, details);
    ErrorMembersDistinct(message, details);
    LookupDistinct(ms, 11);
    assert DistinctKeys(RecruiterTips());
    LookupDistinct(RecruiterTips(), 2);
  }

  /** The keys of an error report, in order. */
  const ErrorKeys: seq<string> :=
    ["error", "message", "details", "Job Title Match", "Skills", "Suggested Skills",
     "Matched Projects And Internships", "Rephrased Projects And Internships",
     "Resume Improvement Suggestions", "Grammatical Check", "Project Title Description Check",
     "Recruiter Tips", "JScore", "GScore"]

  /** No key of an error report is repeated. */
  /** No key of the error report is an array index. */
  lemma ErrorKeysPlain()
    ensures forall i :: 0 <= i < |ErrorKeys| ==> !IsIndexKey(ErrorKeys[i])
  {
    assert forall i :: 0 <= i < |ErrorKeys| ==> |ErrorKeys[i]| > 0 && !('0' <= ErrorKeys[i][0] <= '9');
  }

  lemma ErrorKeysDistinct()
    ensures forall i, j :: 0 <= i < j < |ErrorKeys| ==> ErrorKeys[i] != ErrorKeys[j]
  {
  }

  lemma ErrorMembersDistinct(message: string, details: string)
    ensures DistinctKeys(ErrorMembers(message, details))
  {
    ErrorKeysDistinct();
    assert forall i :: 0 <= i < |ErrorKeys| ==> ErrorMembers(message, details)[i].0 == ErrorKeys[i];
  }

  // ---------------------------------------------------------------- carving

  const TitleMarker := "\"Job Title Match\""

  /** The first strategy: the trimmed body of a ```json fence. */
  function FencedStrategy(content: string): (r: Option<string>)
    ensures r.Some? ==> FindFirst(content, "```json", 0).Some?
    ensures r.Some? ==> r.value != "" && !IsSpace(r.value[0]) && !IsSpace(r.value[|r.value| - 1])
  {
    JsonFenceBody(content)
  }

  /** The second strategy: from the first `{` to the first `}` after it. */
  function DirectStrategy(content: string): (r: Option<string>)
    ensures r.None? <==> !exists i, j :: 0 <= i < j < |content| && content[i] == '{' && content[j] == '}'
    ensures r.Some? ==> |r.value| >= 2 && r.value[0] == '{' && r.value[|r.value| - 1] == '}'
    ensures r.Some? ==> forall k :: 0 <= k < |r.value| - 1 ==> r.value[k] != '}'
    ensures r.Some? ==>
              FirstBraceSpan(content).Some? &&
              var (lo, hi) := FirstBraceSpan(content).value; r.value == content[lo..hi]
  {
    match FirstBraceSpan(content)
    case None => None
    case Some((lo, hi)) => Some(content[lo..hi])
  }

  /** The third strategy: from one character before the "Job Title Match"
      key (index 0 when the key opens the text, as `substring` clamps a
      negative start) to the last `}` after that point, or to the end with a
      `}` appended when there is none. */
  function MarkerStrategy(content: string): (r: Option<string>)
    ensures r.None? <==> FindFirst(content, TitleMarker, 0).None?
    ensures r.Some? ==> |r.value| > 0 && r.value[|r.value| - 1] == '}'
    ensures r.Some? ==>
              var i := FindFirst(content, TitleMarker, 0).value;
              var start := if i == 0 then 0 else i - 1;
              || (start + |r.value| <= |content| && r.value == content[start..start + |r.value|]
                  && forall k :: start + |r.value| <= k < |content| ==> content[k] != '}')
              || (r.value == content[start..] + "}"
                  && forall k :: start <= k < |content| ==> content[k] != '}')
  {
    match FindFirst(content, TitleMarker, 0)
    case None => None
    case Some(i) =>
      var start := if i == 0 then 0 else i - 1;
      var part := content[start..];
      match LastIndexOf(part, '}')
      case Some(e) =>
        assert part[..e + 1] == content[start..start + e + 1];
        Some(part[..e + 1])
      case None => Some(part + "}")
  }

  /** `extractRelevantJSON`: the first strategy that finds something wins;
      when none does, the serialised error report. It never throws. */
  function ExtractRelevantJson(content: string): (r: string)
    ensures FencedStrategy(content).Some? ==> r == FencedStrategy(content).value
    ensures FencedStrategy(content).None? && DirectStrategy(content).Some? ==>
              r == DirectStrategy(content).value
    ensures FencedStrategy(content).None? && DirectStrategy(content).None? && MarkerStrategy(content).Some? ==>
              r == MarkerStrategy(content).value
    ensures FencedStrategy(content).None? && DirectStrategy(content).None? && MarkerStrategy(content).None? ==>
              r == Stringify(ErrorResponse("No JSON found in response", ""))
  {
    match FencedStrategy(content)
    case Some(body) => body
    case None =>
      match DirectStrategy(content)
      case Some(span) => span
      case None =>
        match MarkerStrategy(content)
        case Some(slice) => slice
        case None => Stringify(ErrorResponse("No JSON found in response", ""))
  }

  // ---------------------------------------------------------------- analyzeResume

  /** `analyzeResume` once the client's answer to the prompt built from
      AnalysisPromptInputs is known. It never rejects: every failure becomes
      an error report. */
  function AnalyzeResume(reply: Completion, parse: string -> Option<Json>): (r: Json)
    ensures reply.ClientError? ==> r == ErrorResponse("AI service error", reply.message)
    ensures reply == Answered("") ==> r == ErrorResponse("No content in AI response", "")
    ensures reply.Answered? && reply.content != "" ==>
              var carved := ExtractRelevantJson(reply.content);
              r == if parse(carved).Some? then parse(carved).value
                   else ErrorResponse("JSON parsing failed", carved)
  {
    match reply
    case ClientError(message) => ErrorResponse("AI service error", message)
    case Answered(content) =>
      if content == "" then ErrorResponse("No content in AI response", "")
      else
        var carved := ExtractRelevantJson(content);
        match parse(carved)
        case Some(v) => v
        case None => ErrorResponse("JSON parsing failed", carved)
  }

  /** A reply with no fence, no `{`…`}` span and no "Job Title Match" key
      yields the "No JSON found in response" report, read back from its own
      serialisation. */
  lemma {:induction false} NoJsonReplyYieldsErrorReport(content: string, parse: string -> Option<Json>)
    requires Lawful(parse)
    requires content != ""
    requires FencedStrategy(content).None? && DirectStrategy(content).None? && MarkerStrategy(content).None?
    ensures AnalyzeResume(Answered(content), parse) == ErrorResponse("No JSON found in response", "")
  {
    var report := ErrorResponse("No JSON found in response", "");
    assert ExtractRelevantJson(content) == Stringify(report);
    ErrorResponseWellFormed("No JSON found in response", "");
    assert parse(Stringify(report)) == Some(report);
  }
}
