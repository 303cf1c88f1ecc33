/**
  Resume generation (middleware/services/createResume.js): the greedy `{…}`
  span of the model's reply is parsed, and the parsed object is cut down to
  the seven resume sections, each missing or falsy one written as "Empty".
*/
module CreateResume {
  import opened Json
  import opened Text

  /** The sections kept, in the order they are written. "certifications",
      which the prompt asks for, is not among them. */
  const ValidKeys: seq<string> :=
    ["contactInformation", "objective", "education", "skills", "workExperience", "achievements", "projects"]

  lemma ValidKeysDistinct()
    ensures forall i, j :: 0 <= i < j < |ValidKeys| ==> ValidKeys[i] != ValidKeys[j]
  {
  }

  /** Why no JSON value could be taken from a reply. */
  datatype ExtractError = NoJsonFound | ParseFailed

  /** `extractValidJson(data)`: JSON.parse of the span from the first `{` to
      the last `}` (the greedy `/{.*}/s`); the error "No valid JSON found in
      the response" when there is no such span. */
  function ExtractValidJson(data: string, parse: string -> Option<Json>): (r: Result<Json, ExtractError>)
    ensures r == Err(NoJsonFound) <==> !exists i, j :: 0 <= i < j < |data| && data[i] == '{' && data[j] == '}'
    ensures r.Ok? ==>
              var (lo, hi) := GreedyBraceSpan(data).value;
              parse(data[lo..hi]) == Some(r.value)
    ensures GreedyBraceSpan(data).Some? ==>
              var (lo, hi) := GreedyBraceSpan(data).value;
              (r.Ok? <==> parse(data[lo..hi]).Some?)
  {
    match GreedyBraceSpan(data)
    case None => Err(NoJsonFound)
    case Some((lo, hi)) =>
      match parse(data[lo..hi])
      case None => Err(ParseFailed)
      case Some(v) => Ok(v)
  }

  /** `parsedData[key] || "Empty"` as the forEach writes it. */
  function SectionOf(v: Json, key: string): (r: Json)
    ensures Truthy(Some(r))
    ensures Truthy(Get(v, key)) ==> Some(r) == Get(v, key)
    ensures !Truthy(Get(v, key)) ==> r == JStr("Empty")
  {
    Or(Get(v, key), JStr("Empty"))
  }

  /** The first `n` sections of the trimmed resume of `v`. */
  function SectionsUpTo(v: Json, n: nat): (ms: seq<(string, Json)>)
    requires n <= |ValidKeys|
    ensures |ms| == n
    ensures forall j :: 0 <= j < n ==> ms[j] == (ValidKeys[j], SectionOf(v, ValidKeys[j]))
  {
    seq(n, j requires 0 <= j < n => (ValidKeys[j], SectionOf(v, ValidKeys[j])))
  }

  /** The trimmed resume of a parsed value: exactly the seven sections, in
      order. */
  function TrimmedResume(v: Json): (r: Json)
    ensures r.JObj? && Keys(r) == ValidKeys
  {
    JObj(SectionsUpTo(v, |ValidKeys|))
  }

  /** What `trimResumeData` returns: `{}` when no value could be extracted or
      the value is `null` (its property read throws), otherwise the trimmed
      resume. */
  function TrimmedResult(data: string, parse: string -> Option<Json>): (r: Json)
    ensures r.JObj?
    ensures r == JObj([]) <==> ExtractValidJson(data, parse).Err? || ExtractValidJson(data, parse) == Ok(JNull)
    ensures r != JObj([]) ==> Keys(r) == ValidKeys && r == TrimmedResume(ExtractValidJson(data, parse).value)
  {
    match ExtractValidJson(data, parse)
    case Err(_) => JObj([])
    case Ok(JNull) => JObj([])
    case Ok(v) => TrimmedResume(v)
  }

  /** `trimResumeData(data)`: the sections are copied one by one into an
      empty object. */
  method TrimResumeData(data: string, parse: string -> Option<Json>) returns (trimmed: Json)
    ensures trimmed == TrimmedResult(data, parse)
  {
    var extracted := ExtractValidJson(data, parse);
    if extracted.Err? || extracted.value == JNull {
      return JObj([]);
    }
    var parsed := extracted.value;
    var members: seq<(string, Json)> := [];
    for i := 0 to |ValidKeys|
      invariant members == SectionsUpTo(parsed, i)
    {
      var key := ValidKeys[i];
      var copied: Json;
      if Truthy(Get(parsed, key)) {
        copied := Get(parsed, key).value;
      } else {
        copied := JStr("Empty");
      }
      assert copied == SectionOf(parsed, key);
      SectionsStep(parsed, i);
      members := Assign(members, key, copied);
    }
    trimmed := JObj(members);
  }

  /** Writing the next section appends it: its key is not yet present. */
  lemma SectionsStep(v: Json, i: nat)
    requires i < |ValidKeys|
    ensures Assign(SectionsUpTo(v, i), ValidKeys[i], SectionOf(v, ValidKeys[i])) == SectionsUpTo(v, i + 1)
  {
    var members := SectionsUpTo(v, i);
    var key := ValidKeys[i];
    assert Lookup(members, key).None? by {
      ValidKeysDistinct();
      assert forall j :: 0 <= j < i ==> members[j].0 != key;
    }
    var next := SectionsUpTo(v, i + 1);
    assert next == members + [(key, SectionOf(v, key))] by {
      assert forall j :: 0 <= j < i ==> next[j] == members[j];
    }
  }

  /** A reply of the client: it failed (the request threw, or the answer has
      no choice or no message), or the first choice's message has this
      content (None when it is null). */
  datatype ResumeReply = Unanswered | Content(text: Option<string>)

  /** `generateResume` once the client's answer is known: "Groq API error"
      when there is no message to read, `{}` when its content is null. */
  method GenerateResume(reply: ResumeReply, parse: string -> Option<Json>) returns (r: Result<Json, string>)
    ensures reply == Unanswered ==> r == Err("Groq API error")
    ensures reply == Content(None) ==> r == Ok(JObj([]))
    ensures reply.Content? && reply.text.Some? ==> r == Ok(TrimmedResult(reply.text.value, parse))
  {
    match reply
    case Unanswered =>
      return Err("Groq API error");
    case Content(None) =>
      return Ok(JObj([]));
    case Content(Some(text)) =>
      var trimmed := TrimResumeData(text, parse);
      return Ok(trimmed);
  }

  /** Every section of a trimmed resume is truthy: a falsy one became
      "Empty". The object has no other key, and certifications in
      particular are dropped. */
  lemma {:induction false} TrimmedSectionsAreTruthy(v: Json, key: string)
    ensures key in ValidKeys ==> Truthy(Get(TrimmedResume(v), key))
    ensures key !in ValidKeys ==> Get(TrimmedResume(v), key).None?
  {
    var ms := SectionsUpTo(v, |ValidKeys|);
    if key in ValidKeys {
      var i :| 0 <= i < |ValidKeys| && ValidKeys[i] == key;
      assert DistinctKeys(ms);
      LookupDistinct(ms, i);
    }
  }

  lemma CertificationsAreDropped(v: Json)
    ensures Get(TrimmedResume(v), "certifications").None?
  {
    TrimmedSectionsAreTruthy(v, "certifications");
  }

  /** Each section is the parsed one when truthy and "Empty" otherwise. */
  lemma TrimmedSectionValue(v: Json, i: nat)
    requires i < |ValidKeys|
    ensures Truthy(Get(v, ValidKeys[i])) ==> Get(TrimmedResume(v), ValidKeys[i]) == Get(v, ValidKeys[i])
    ensures !Truthy(Get(v, ValidKeys[i])) ==> Get(TrimmedResume(v), ValidKeys[i]) == Some(JStr("Empty"))
  {
    var ms := SectionsUpTo(v, |ValidKeys|);
    assert DistinctKeys(ms);
    LookupDistinct(ms, i);
  }

  /** Trimming a trimmed resume changes nothing. */
  lemma {:induction false} TrimIdempotent(v: Json)
    ensures TrimmedResume(TrimmedResume(v)) == TrimmedResume(v)
  {
    var r := TrimmedResume(v);
    forall i | 0 <= i < |ValidKeys|
      ensures SectionOf(r, ValidKeys[i]) == SectionOf(v, ValidKeys[i])
    {
      TrimmedSectionValue(v, i);
      TrimmedSectionsAreTruthy(v, ValidKeys[i]);
    }
  }
}
