/**
  Group-discussion preparation (services/groupdiscussion.js): the check of
  the two inputs, and the reading of the model's reply into structured
  notes, expected responses and a presentation outline.
*/
module GroupDiscussion {
  import opened Json
  import opened Text

  /** A usable input: a string with something besides whitespace. */
  predicate UsableText(v: Option<Json>)
  {
    v.Some? && v.value.JStr? && Trim(v.value.s) != ""
  }

  /** A usable text is truthy. */
  lemma UsableIsTruthy(v: Option<Json>)
    ensures UsableText(v) ==> Truthy(v)
  {
    if UsableText(v) {
      assert |Trim(v.value.s)| <= |v.value.s|;
    }
  }

  /** `validateInputs(notes, topic)`: the notes are checked first, then the
      topic; each must be truthy, a string, and not blank once trimmed. */
  function ValidateInputs(notes: Option<Json>, topic: Option<Json>): (r: Outcome)
    ensures r == Pass <==> UsableText(notes) && UsableText(topic)
    ensures !UsableText(notes) ==> r == Fail("Invalid or empty notes provided")
    ensures UsableText(notes) && !UsableText(topic) ==> r == Fail("Invalid or empty topic provided")
  {
    if !Truthy(notes) || !notes.value.JStr? || |Trim(notes.value.s)| == 0 then
      Fail("Invalid or empty notes provided")
    else if !Truthy(topic) || !topic.value.JStr? || |Trim(topic.value.s)| == 0 then
      Fail("Invalid or empty topic provided")
    else Pass
  }

  /** The analysis reported when there is nothing to read. */
  function DefaultAnalysis(): Json
  {
    JObj([("structuredNotes", JStr("Unable to process the notes.")),
          ("expectedResponses", JArr([])),
          ("brainstormedStructure", JStr("No structure available."))])
  }

  const AnalysisKeys: seq<string> := ["structuredNotes", "expectedResponses", "brainstormedStructure"]

  /** `Array.isArray(v.expectedResponses) ? v.expectedResponses : []`. */
  function ResponsesOf(v: Json): Json
  {
    match Get(v, "expectedResponses")
    case Some(JArr(items)) => JArr(items)
    case _ => JArr([])
  }

  function AnalysisMembers(v: Json): seq<(string, Json)>
  {
    [("structuredNotes", Or(Get(v, "structuredNotes"), JStr("Unable to process the notes."))),
     ("expectedResponses", ResponsesOf(v)),
     ("brainstormedStructure", Or(Get(v, "brainstormedStructure"), JStr("No structure available.")))]
  }

  /** The trimmed object built from a fenced reply. A value that is not an
      object (including `null`, whose property read throws and is answered
      with the defaults) yields the defaults. */
  function AnalysisFields(v: Json): (r: Json)
    ensures r.JObj? && Keys(r) == AnalysisKeys
    ensures WellFormed(v) ==> WellFormed(r)
  {
    AnalysisMembersWellFormed(v);
    JObj(AnalysisMembers(v))
  }

  lemma AnalysisMembersWellFormed(v: Json)
    ensures WellFormed(v) ==> WellFormed(JObj(AnalysisMembers(v)))
  {
    if WellFormed(v) {
      var ms := AnalysisMembers(v);
      FieldWellFormed(v, "structuredNotes");
      FieldWellFormed(v, "expectedResponses");
      FieldWellFormed(v, "brainstormedStructure");
      assert DistinctKeys(ms);
      NoIndexKeysInOrder(ms);
      ObjectWellFormed(ms);
    }
  }

  /** The defaults are a value a program can hold. */
  lemma DefaultAnalysisWellFormed()
    ensures WellFormed(DefaultAnalysis())
  {
    var ms := DefaultAnalysis().members;
    assert DistinctKeys(ms);
    NoIndexKeysInOrder(ms);
    ObjectWellFormed(ms);
  }

  /** The notes and the outline are the parsed ones when truthy and their
      defaults otherwise; the expected responses are the parsed array, or
      empty when the field is missing or not an array. */
  lemma AnalysisFieldsDefaults(v: Json)
    ensures Truthy(Get(v, "structuredNotes")) ==> Get(AnalysisFields(v), "structuredNotes") == Get(v, "structuredNotes")
    ensures !Truthy(Get(v, "structuredNotes")) ==>
              Get(AnalysisFields(v), "structuredNotes") == Some(JStr("Unable to process the notes."))
    ensures Get(v, "expectedResponses").Some? && Get(v, "expectedResponses").value.JArr? ==>
              Get(AnalysisFields(v), "expectedResponses") == Get(v, "expectedResponses")
    ensures !(Get(v, "expectedResponses").Some? && Get(v, "expectedResponses").value.JArr?) ==>
              Get(AnalysisFields(v), "expectedResponses") == Some(JArr([]))
    ensures Truthy(Get(v, "brainstormedStructure")) ==>
              Get(AnalysisFields(v), "brainstormedStructure") == Get(v, "brainstormedStructure")
    ensures !Truthy(Get(v, "brainstormedStructure")) ==>
              Get(AnalysisFields(v), "brainstormedStructure") == Some(JStr("No structure available."))
  {
    var ms := AnalysisMembers(v);
    assert DistinctKeys(ms);
    LookupDistinct(ms, 0);
    LookupDistinct(ms, 1);
    LookupDistinct(ms, 2);
  }

  /** `extractRelevantJSON`. With a fenced `{…}` block (the first, as the
      pattern's lazy body stops at the first `}` followed by the closing
      fence): the block parsed and trimmed to the three fields, or the
      defaults when it does not parse. Without one: the first `{…}` span
      verbatim, or the defaults when there is none. */
  function ExtractRelevantJson(content: string, parse: string -> Option<Json>): (r: string)
    ensures FenceBraceSpan(content).None? && FirstBraceSpan(content).Some? ==>
              var (lo, hi) := FirstBraceSpan(content).value; r == content[lo..hi]
    ensures FenceBraceSpan(content).None? && FirstBraceSpan(content).None? ==>
              r == Stringify(DefaultAnalysis())
    ensures FenceBraceSpan(content).Some? ==>
              var (lo, hi) := FenceBraceSpan(content).value;
              r == match parse(Trim(content[lo..hi]))
                   case None => Stringify(DefaultAnalysis())
                   case Some(v) => Stringify(AnalysisFields(v))
  {
    match FenceBraceSpan(content)
    case None =>
      (match FirstBraceSpan(content)
       case None => Stringify(DefaultAnalysis())
       case Some((lo, hi)) => content[lo..hi])
    case Some((lo, hi)) =>
      match parse(Trim(content[lo..hi]))
      case None => Stringify(DefaultAnalysis())
      case Some(v) => Stringify(AnalysisFields(v))
  }

  /** `processGroupDiscussion` once the client's answer is known: the error
      "OpenAI API error" when the client fails or the carved text does not
      parse; the defaults when there is no content. */
  function ProcessGroupDiscussion(reply: Completion, parse: string -> Option<Json>): (r: Result<Json, string>)
    ensures reply.ClientError? ==> r == Err("OpenAI API error")
    ensures reply == Answered("") ==> r == Ok(DefaultAnalysis())
    ensures r.Err? ==> r.error == "OpenAI API error"
    ensures reply.Answered? && reply.content != "" ==>
              (r.Ok? <==> parse(ExtractRelevantJson(reply.content, parse)).Some?)
    ensures reply.Answered? && reply.content != "" && r.Ok? ==>
              parse(ExtractRelevantJson(reply.content, parse)) == Some(r.value)
  {
    match reply
    case ClientError(_) => Err("OpenAI API error")
    case Answered(content) =>
      if content == "" then Ok(DefaultAnalysis())
      else
        match parse(ExtractRelevantJson(content, parse))
        case None => Err("OpenAI API error")
        case Some(v) => Ok(v)
  }

  /** With a lawful JSON.parse, a reply with a fenced `{…}` block always
      yields the three fields. */
  lemma FencedReplyHasAllFields(content: string, parse: string -> Option<Json>)
    requires Lawful(parse)
    requires content != "" && FenceBraceSpan(content).Some?
    ensures ProcessGroupDiscussion(Answered(content), parse).Ok?
    ensures Keys(ProcessGroupDiscussion(Answered(content), parse).value) == AnalysisKeys
  {
    var (lo, hi) := FenceBraceSpan(content).value;
    var body := Trim(content[lo..hi]);
    var analysis := if parse(body).Some? then AnalysisFields(parse(body).value) else DefaultAnalysis();
    assert ExtractRelevantJson(content, parse) == Stringify(analysis);
    if parse(body).Some? {
      assert WellFormed(parse(body).value);
    } else {
      AnalysisFieldsOfNothing();
    }
    assert WellFormed(analysis);
    assert parse(Stringify(analysis)) == Some(analysis);
  }

  /** An unfenced reply is passed on as its first `{…}` span with no field
      defaulted: with a lawful JSON.parse the result is what that span
      parses to, and an error when it does not parse. */
  lemma UnfencedReplyIsNotDefaulted(content: string, parse: string -> Option<Json>)
    requires content != "" && FenceBraceSpan(content).None? && FirstBraceSpan(content).Some?
    ensures var (lo, hi) := FirstBraceSpan(content).value;
      ProcessGroupDiscussion(Answered(content), parse) ==
        if parse(content[lo..hi]).Some? then Ok(parse(content[lo..hi]).value) else Err("OpenAI API error")
  {
  }

  /** With a lawful JSON.parse, a reply with no `{…}` at all yields the
      defaults. */
  lemma ReplyWithoutObjectYieldsDefaults(content: string, parse: string -> Option<Json>)
    requires Lawful(parse)
    requires content != "" && FirstBraceSpan(content).None?
    ensures ProcessGroupDiscussion(Answered(content), parse) == Ok(DefaultAnalysis())
  {
    NoBraceNoFence(content);
    DefaultAnalysisWellFormed();
  }

  /** A fenced block holds a `{`…`}` span, so no span means no block. */
  lemma NoBraceNoFence(content: string)
    ensures FirstBraceSpan(content).None? ==> FenceBraceSpan(content).None?
  {
    if FenceBraceSpan(content).Some? {
      var (lo, hi) := FenceBraceSpan(content).value;
      assert content[lo] == '{' && content[hi - 1] == '}' && lo < hi - 1;
    }
  }

  /** A value with none of the fields is trimmed to the defaults. */
  lemma AnalysisFieldsOfNothing()
    ensures AnalysisFields(JNull) == DefaultAnalysis()
  {
    assert AnalysisMembers(JNull)[0] == ("structuredNotes", JStr("Unable to process the notes."));
  }
}
