/**
  The group-discussion endpoint (controllers/commController.js): the JSON
  body's `text` and `topic` are checked, then the notes are analysed and
  echoed back with the analysis.
*/
module CommController {
  import opened Json
  import GroupDiscussion
  import Text

  /** The JSON body of a request; a missing field is None. */
  datatype CommRequest = CommRequest(text: Option<Json>, topic: Option<Json>)

  const DefaultTopic := "General Discussion"

  /** The destructuring default `topic = "General Discussion"`: it applies
      only when the field is missing, not when it is `null` or "". */
  function TopicOf(req: CommRequest): (t: Json)
    ensures req.topic.Some? ==> t == req.topic.value
    ensures req.topic.None? ==> t == JStr(DefaultTopic)
  {
    if req.topic.Some? then req.topic.value else JStr(DefaultTopic)
  }

  /** `{ success: false, message }`. */
  function Failure(status: int, message: string): Response
  {
    Response(status, JObj([("success", JBool(false)), ("message", JStr(message))]))
  }

  /** `{ success: true, data: { text, topic, analysis } }`. */
  function Success(text: Json, topic: Json, analysis: Json): Response
  {
    Response(200, JObj([("success", JBool(true)),
                        ("data", JObj([("text", text), ("topic", topic), ("analysis", analysis)]))]))
  }

  /** `commController`, given what `processGroupDiscussion` would settle
      to for this request: a missing or falsy text answers 400 "No text
      provided"; a validation failure answers 400 with its message; a failed
      analysis answers 500 with the error's message (or "Error processing
      text" when that is empty); otherwise 200 with the text, the topic and
      the analysis. */
  function HandleComm(req: CommRequest, analysis: Result<Json, string>): (r: Response)
    ensures r.status == 200 || r.status == 400 || r.status == 500
    ensures !Truthy(req.text) ==> r == Failure(400, "No text provided")
    ensures Truthy(req.text) && GroupDiscussion.ValidateInputs(req.text, Some(TopicOf(req))).Fail? ==>
              r == Failure(400, GroupDiscussion.ValidateInputs(req.text, Some(TopicOf(req))).message)
    ensures r.status == 200 <==>
              GroupDiscussion.UsableText(req.text) && GroupDiscussion.UsableText(Some(TopicOf(req))) && analysis.Ok?
    ensures r.status == 200 ==> r == Success(req.text.value, TopicOf(req), analysis.value)
    ensures r.status == 500 <==>
              GroupDiscussion.UsableText(req.text) && GroupDiscussion.UsableText(Some(TopicOf(req))) && analysis.Err?
    ensures r.status == 500 && analysis.error != "" ==> r == Failure(500, analysis.error)
    ensures r.status == 500 && analysis.Err? && analysis.error == "" ==> r == Failure(500, "Error processing text")
  {
    var topic := TopicOf(req);
    GroupDiscussion.UsableIsTruthy(req.text);
    if !Truthy(req.text) then Failure(400, "No text provided")
    else
      match GroupDiscussion.ValidateInputs(req.text, Some(topic))
      case Fail(message) => Failure(400, message)
      case Pass =>
        match analysis
        case Err(message) => Failure(500, if message != "" then message else "Error processing text")
        case Ok(result) => Success(req.text.value, topic, result)
  }

  /** The request handled end to end, once the client's answer is known:
      400 for an invalid request, 500 with the service's own message when
      the analysis fails, and 200 with the analysis otherwise. */
  function CommEndpoint(req: CommRequest, reply: Completion, parse: string -> Option<Json>): (r: Response)
    ensures r.status == 200 || r.status == 400 || r.status == 500
    ensures r.status == 500 ==> r == Failure(500, "OpenAI API error")
    ensures r.status == 200 ==>
              req.text.Some? && GroupDiscussion.ProcessGroupDiscussion(reply, parse).Ok? &&
              r == Success(req.text.value, TopicOf(req), GroupDiscussion.ProcessGroupDiscussion(reply, parse).value)
  {
    var analysis := GroupDiscussion.ProcessGroupDiscussion(reply, parse);
    assert analysis.Err? ==> analysis.error == "OpenAI API error";
    HandleComm(req, analysis)
  }

  /** A request rejected as invalid is answered without the model: the reply
      makes no difference. */
  lemma RejectionIgnoresReply(req: CommRequest, reply1: Completion, reply2: Completion, parse: string -> Option<Json>)
    requires CommEndpoint(req, reply1, parse).status == 400
    ensures CommEndpoint(req, reply2, parse) == CommEndpoint(req, reply1, parse)
  {
  }

  /** A request with usable notes and no topic is analysed under the
      default topic: with an empty answer it succeeds with the default
      analysis. */
  lemma MissingTopicUsesDefault(text: string, parse: string -> Option<Json>)
    requires GroupDiscussion.UsableText(Some(JStr(text)))
    ensures CommEndpoint(CommRequest(Some(JStr(text)), None), Answered(""), parse)
            == Success(JStr(text), JStr(DefaultTopic), GroupDiscussion.DefaultAnalysis())
  {
    DefaultTopicIsUsable();
  }

  /** A usable request whose model call fails answers 500 with the
      service's message, never the controller's fallback. */
  lemma ClientFailureIsServerError(req: CommRequest, message: string, parse: string -> Option<Json>)
    requires GroupDiscussion.UsableText(req.text) && GroupDiscussion.UsableText(Some(TopicOf(req)))
    ensures CommEndpoint(req, ClientError(message), parse) == Failure(500, "OpenAI API error")
  {
  }

  lemma DefaultTopicIsUsable()
    ensures GroupDiscussion.UsableText(Some(JStr(DefaultTopic)))
  {
    assert DefaultTopic[0] == 'G';
    Text.TrimKeepsNonSpace(DefaultTopic, 0);
  }
}
