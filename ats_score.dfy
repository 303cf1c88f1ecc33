/**
  The quick ATS score (middleware/services/atsscore.js): the model's reply is
  parsed whole, cut down to name, email and the two scores with a default
  for each missing or falsy field, written back out and parsed again.
*/
module AtsScore {
  import opened Json

  /** The score reported when there is nothing to read. */
  function DefaultScore(): Json
  {
    JObj([("name", JStr("Unknown")), ("email", JStr("Unknown")), ("jScore", JNum(0)), ("gScore", JNum(0))])
  }

  const ScoreKeys: seq<string> := ["name", "email", "jScore", "gScore"]

  /** The trimmed object: each of the four fields read from the parsed value
      with `||` and its default. A value that is not an object (including
      `null`, whose property read throws and is answered with the defaults)
      yields the defaults. */
  function ScoreFields(v: Json): (r: Json)
    ensures r.JObj? && Keys(r) == ScoreKeys
    ensures WellFormed(v) ==> WellFormed(r)
  {
    ScoreMembersWellFormed(v);
    JObj(ScoreMembers(v))
  }

  lemma ScoreMembersWellFormed(v: Json)
    ensures WellFormed(v) ==> WellFormed(JObj(ScoreMembers(v)))
  {
    if WellFormed(v) {
      var ms := ScoreMembers(v);
      FieldWellFormed(v, "name");
      FieldWellFormed(v, "email");
      FieldWellFormed(v, "jScore");
      FieldWellFormed(v, "gScore");
      assert DistinctKeys(ms);
      NoIndexKeysInOrder(ms);
      ObjectWellFormed(ms);
    }
  }

  /** The defaults are a value a program can hold. */
  lemma DefaultScoreWellFormed()
    ensures WellFormed(DefaultScore())
  {
    var ms := DefaultScore().members;
    assert DistinctKeys(ms);
    NoIndexKeysInOrder(ms);
    ObjectWellFormed(ms);
  }

  function ScoreMembers(v: Json): seq<(string, Json)>
  {
    [("name", Or(Get(v, "name"), JStr("Unknown"))),
     ("email", Or(Get(v, "email"), JStr("Unknown"))),
     ("jScore", Or(Get(v, "jScore"), JNum(0))),
     ("gScore", Or(Get(v, "gScore"), JNum(0)))]
  }

  /** Each field of the trimmed object is the parsed field when that is
      truthy and its default ("Unknown" or 0) otherwise. */
  lemma ScoreFieldsDefaults(v: Json)
    ensures Truthy(Get(v, "name")) ==> Get(ScoreFields(v), "name") == Get(v, "name")
    ensures !Truthy(Get(v, "name")) ==> Get(ScoreFields(v), "name") == Some(JStr("Unknown"))
    ensures Truthy(Get(v, "email")) ==> Get(ScoreFields(v), "email") == Get(v, "email")
    ensures !Truthy(Get(v, "email")) ==> Get(ScoreFields(v), "email") == Some(JStr("Unknown"))
    ensures Truthy(Get(v, "jScore")) ==> Get(ScoreFields(v), "jScore") == Get(v, "jScore")
    ensures !Truthy(Get(v, "jScore")) ==> Get(ScoreFields(v), "jScore") == Some(JNum(0))
    ensures Truthy(Get(v, "gScore")) ==> Get(ScoreFields(v), "gScore") == Get(v, "gScore")
    ensures !Truthy(Get(v, "gScore")) ==> Get(ScoreFields(v), "gScore") == Some(JNum(0))
  {
    var ms := ScoreMembers(v);
    assert DistinctKeys(ms);
    LookupDistinct(ms, 0);
    LookupDistinct(ms, 1);
    LookupDistinct(ms, 2);
    LookupDistinct(ms, 3);
  }

  /** `extractRelevantJSON`: the serialised trimmed object, or the serialised
      defaults when the reply is not JSON. */
  function ExtractRelevantJson(content: string, parse: string -> Option<Json>): (r: string)
    ensures parse(content).None? ==> r == Stringify(DefaultScore())
    ensures parse(content).Some? ==> r == Stringify(ScoreFields(parse(content).value))
  {
    match parse(content)
    case None => Stringify(DefaultScore())
    case Some(v) => Stringify(ScoreFields(v))
  }

  /** `atsScore` once the client's answer is known: the error "Groq API
      error" when the client fails or the carved text does not parse again;
      the defaults when there is no content. */
  function AtsScore(reply: Completion, parse: string -> Option<Json>): (r: Result<Json, string>)
    ensures reply.ClientError? ==> r == Err("Groq API error")
    ensures reply == Answered("") ==> r == Ok(DefaultScore())
    ensures r.Err? ==> r.error == "Groq API error"
    ensures reply.Answered? && reply.content != "" ==>
              (r.Ok? <==> parse(ExtractRelevantJson(reply.content, parse)).Some?)
    ensures reply.Answered? && reply.content != "" && r.Ok? ==>
              parse(ExtractRelevantJson(reply.content, parse)) == Some(r.value)
  {
    match reply
    case ClientError(_) => Err("Groq API error")
    case Answered(content) =>
      if content == "" then Ok(DefaultScore())
      else
        match parse(ExtractRelevantJson(content, parse))
        case None => Err("Groq API error")
        case Some(v) => Ok(v)
  }

  /** Trimming a trimmed object changes nothing: every field it keeps is
      truthy or already its default. */
  lemma {:induction false} ScoreFieldsIdempotent(v: Json)
    ensures ScoreFields(ScoreFields(v)) == ScoreFields(v)
  {
    var r := ScoreFields(v);
    var rr := ScoreFields(r);
    ScoreFieldsDefaults(v);
    ScoreFieldsDefaults(r);
    assert Get(rr, "name") == Get(r, "name");
    assert Get(rr, "email") == Get(r, "email");
    assert Get(rr, "jScore") == Get(r, "jScore");
    assert Get(rr, "gScore") == Get(r, "gScore");
    assert rr.members[0] == r.members[0];
    assert rr.members[1] == r.members[1];
    assert rr.members[2] == r.members[2];
    assert rr.members[3] == r.members[3];
  }

  /** With a lawful JSON.parse, every non-empty answer yields a score: the
      trimmed reply when it parses, the defaults otherwise. The second parse
      never fails. */
  lemma AnsweredReplyIsScored(content: string, parse: string -> Option<Json>)
    requires Lawful(parse)
    requires content != ""
    ensures parse(content).Some? ==> AtsScore(Answered(content), parse) == Ok(ScoreFields(parse(content).value))
    ensures parse(content).None? ==> AtsScore(Answered(content), parse) == Ok(DefaultScore())
  {
    match parse(content)
    case None =>
      DefaultScoreWellFormed();
    case Some(v) =>
      assert WellFormed(v);
      assert WellFormed(ScoreFields(v));
  }

  /** Carving is idempotent for a lawful JSON.parse: carving the carved text
      again gives the same text. */
  lemma ExtractIdempotent(content: string, parse: string -> Option<Json>)
    requires Lawful(parse)
    ensures ExtractRelevantJson(ExtractRelevantJson(content, parse), parse) == ExtractRelevantJson(content, parse)
  {
    match parse(content)
    case None =>
      DefaultScoreWellFormed();
      assert parse(Stringify(DefaultScore())) == Some(DefaultScore());
      ScoreFieldsIdempotent(JNull);
    case Some(v) =>
      assert WellFormed(v);
      assert WellFormed(ScoreFields(v));
      ScoreFieldsIdempotent(v);
  }

  /** A reply whose parsed value is `null` scores like an unparsable one. */
  lemma NullReplyScoresDefaults()
    ensures ScoreFields(JNull) == DefaultScore()
  {
    assert ScoreMembers(JNull)[0] == ("name", JStr("Unknown"));
  }

  /** Out-of-range and textual scores pass through unchanged: nothing clamps
      jScore to 0..100 or converts "85" to a number. */
  lemma ScoresAreNotValidated()
    ensures var r := ScoreFields(JObj([("jScore", JNum(150)), ("gScore", JStr("85"))]));
      Get(r, "jScore") == Some(JNum(150)) && Get(r, "gScore") == Some(JStr("85"))
  {
    ScoreFieldsDefaults(JObj([("jScore", JNum(150)), ("gScore", JStr("85"))]));
  }
}
