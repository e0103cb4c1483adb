/**
 * The `answer-doubt` edge function: it turns a learner's question into the
 * message list sent to the AI gateway and maps what the gateway did to an
 * HTTP response. The HTTP exchange itself is a parameter: `upstream` says
 * what the gateway did, and the result says which messages were sent.
 */
module AnswerDoubt {
  import opened Wrappers
  import Text

  /** One chat turn as the gateway sees it (`role` is free text in the source). */
  datatype Turn = Turn(role: string, content: string)

  /** The JSON body the function reads. */
  datatype DoubtRequest = DoubtRequest(
    question: string,
    subject: string,
    topic: string,
    subtopic: string,
    conversationHistory: Option<seq<Turn>>)

  /** The body the function returns: nothing, `{answer}` or `{error}`. */
  datatype Body = NoBody | AnswerBody(answer: string) | ErrorBody(error: string)

  datatype Header = Header(name: string, value: string)

  datatype Response = Response(status: nat, headers: seq<Header>, body: Body)

  /** What reading the request body gave: the request, or the message of the parse error. */
  datatype Parsed = Parsed(request: DoubtRequest) | Unparsable(message: string)

  /**
   * What the gateway did: it answered with a status, its body text and the
   * contents of its choices in order, or the call (or reading its reply) threw.
   */
  datatype Upstream = Replied(status: nat, errorText: string, choices: seq<string>) | Threw(message: string)

  /** The response, and the messages sent to the gateway if a call was made. */
  datatype Exchange = Exchange(response: Response, sent: Option<seq<Turn>>)

  function RateLimitMessage(): string { "Rate limit " + "exceeded. " + "Please try " + "again later." }

  function CreditsMessage(): string { "Credits " + "exhausted. " + "Please add " + "credits to " + "continue." }

  function MissingKeyMessage(): string { "LOVABLE_API_KEY is not configured" }

  /** The message thrown for a failing status other than 429 and 402, carrying that status and the gateway's text. */
  function GatewayMessage(status: nat, errorText: string): string {
    "AI gateway returned " + Text.Decimal(status) + ": " + errorText
  }

  /** The runtime's message when the gateway's reply has no first choice. */
  function NoChoiceMessage(): string {
    "Cannot read " + "properties " + "of " + "undefined " + "(reading " + "'message')"
  }

  function CorsHeaders(): seq<Header> {
    [Header("Access-Control-Allow-Origin", "*"),
     Header("Access-Control-Allow-Headers",
            "authori" + "zation, " + "x-client-" + "info, " + "apikey, " + "content-" + "type")]
  }

  function JsonHeaders(): seq<Header> {
    CorsHeaders() + [Header("Content-Type", "application/json")]
  }

  function PromptHead(): string {
    "You are an expert " + "tutor helping " + "students with " + "their academic "
    + "doubts. \nSubject: "
  }

  function PromptTail(): string {
    "\nProvide clear, " + "educational answers " + "that help students "
    + "understand concepts. " + "\nBreak down complex " + "topics into simpler "
    + "explanations.\n" + "Use examples when " + "helpful.\nKeep "
    + "answers concise " + "but comprehensive."
  }

  /** `key`, then `value` ending its line, then `rest`. */
  function Line(key: string, value: string, rest: string): (r: string)
    ensures |r| == |key| + |value| + 1 + |rest|
  {
    key + (value + ("\n" + rest))
  }

  /** `head` (ending in the subject label), the subject, a topic line and a subtopic line, then `tail`. */
  function Framed(head: string, subject: string, topic: string, subtopic: string, tail: string): (r: string)
    ensures |r| == |head| + |subject| + |topic| + |subtopic| + |tail| + 20
  {
    Line(head, subject, Line("Topic: ", topic, Line("Subtopic: ", subtopic, tail)))
  }

  /**
   * The system prompt: a fixed preamble ending in the subject label, the
   * subject, one line each for the topic and subtopic received, then fixed
   * guidance.
   */
  function SystemPrompt(subject: string, topic: string, subtopic: string): (r: string)
    ensures |r| == |PromptHead()| + |subject| + |topic| + |subtopic| + |PromptTail()| + 20
  {
    Framed(PromptHead(), subject, topic, subtopic, PromptTail())
  }

  /**
   * The messages sent upstream: the system turn, the history received
   * (none if absent), then the question as a user turn.
   */
  function BuildMessages(req: DoubtRequest): (r: seq<Turn>)
    ensures |r| == |req.conversationHistory.GetOr([])| + 2
    ensures r[0] == Turn("system", SystemPrompt(req.subject, req.topic, req.subtopic))
    ensures r[1..|r| - 1] == req.conversationHistory.GetOr([])
    ensures r[|r| - 1] == Turn("user", req.question)
  {
    [Turn("system", SystemPrompt(req.subject, req.topic, req.subtopic))]
    + req.conversationHistory.GetOr([])
    + [Turn("user", req.question)]
  }

  function ServerError(message: string): Response {
    Response(500, JsonHeaders(), ErrorBody(message))
  }

  /** `response.ok`: a status in the 2xx range. */
  predicate Ok(status: nat) {
    200 <= status <= 299
  }

  /** What the function answers once the gateway has been called. */
  function FromUpstream(u: Upstream): (r: Response)
    ensures r.headers == JsonHeaders()
    ensures r.status in {200, 402, 429, 500}
    ensures r.status == 200 <==> r.body.AnswerBody?
    ensures r.status == 429 <==> u.Replied? && u.status == 429
    ensures r.status == 402 <==> u.Replied? && u.status == 402
    ensures r.body.AnswerBody? <==> u.Replied? && Ok(u.status) && |u.choices| > 0
    ensures r.body.AnswerBody? ==> r.body.answer == u.choices[0]
    ensures !r.body.AnswerBody? ==> r.body.ErrorBody?
    ensures u.Threw? ==> r == ServerError(u.message)
    ensures u.Replied? && u.status == 429 ==> r.body == ErrorBody(RateLimitMessage())
    ensures u.Replied? && u.status == 402 ==> r.body == ErrorBody(CreditsMessage())
    ensures u.Replied? && !Ok(u.status) && u.status != 429 && u.status != 402 ==>
              r == ServerError(GatewayMessage(u.status, u.errorText))
    ensures u.Replied? && Ok(u.status) && |u.choices| == 0 ==> r == ServerError(NoChoiceMessage())
  {
    match u
    case Threw(message) => ServerError(message)
    case Replied(status, errorText, choices) =>
      if !Ok(status) then
        if status == 429 then Response(429, JsonHeaders(), ErrorBody(RateLimitMessage()))
        else if status == 402 then Response(402, JsonHeaders(), ErrorBody(CreditsMessage()))
        else ServerError(GatewayMessage(status, errorText))
      else if |choices| == 0 then ServerError(NoChoiceMessage())
      else Response(200, JsonHeaders(), AnswerBody(choices[0]))
  }

  /** `!LOVABLE_API_KEY`: an unset or empty key. */
  predicate KeyMissing(apiKey: Option<string>) {
    apiKey.None? || apiKey.value == ""
  }

  /**
   * One request to the function. `apiKey` is the environment's key and
   * `upstream` what the gateway does if it is called.
   */
  function Handle(httpMethod: string, parsed: Parsed, apiKey: Option<string>, upstream: Upstream): (r: Exchange)
    ensures httpMethod == "OPTIONS" ==> r == Exchange(Response(200, CorsHeaders(), NoBody), None)
    ensures r.sent.Some? <==> httpMethod != "OPTIONS" && parsed.Parsed? && !KeyMissing(apiKey)
    ensures r.sent.Some? ==> r.sent.value == BuildMessages(parsed.request) && r.response == FromUpstream(upstream)
    ensures httpMethod != "OPTIONS" && parsed.Unparsable? ==> r.response == ServerError(parsed.message)
    ensures httpMethod != "OPTIONS" && parsed.Parsed? && KeyMissing(apiKey) ==> r.response == ServerError(MissingKeyMessage())
  {
    if httpMethod == "OPTIONS" then Exchange(Response(200, CorsHeaders(), NoBody), None)
    else match parsed
      case Unparsable(message) => Exchange(ServerError(message), None)
      case Parsed(req) =>
        if KeyMissing(apiKey) then Exchange(ServerError(MissingKeyMessage()), None)
        else Exchange(FromUpstream(upstream), Some(BuildMessages(req)))
  }

  /** An answer reaches the caller only when the gateway was called and replied with a 2xx status. */
  lemma AnswerNeedsUpstreamSuccess(httpMethod: string, parsed: Parsed, apiKey: Option<string>, upstream: Upstream)
    ensures var r := Handle(httpMethod, parsed, apiKey, upstream);
            r.response.body.AnswerBody? <==>
              r.sent.Some? && upstream.Replied? && Ok(upstream.status) && |upstream.choices| > 0
  {
  }

  /**
   * Every status the function returns is 200, 402, 429 or 500, and a
   * non-200 status always carries an error body unless it answers a
   * preflight request.
   */
  lemma StatusesReturned(httpMethod: string, parsed: Parsed, apiKey: Option<string>, upstream: Upstream)
    ensures var r := Handle(httpMethod, parsed, apiKey, upstream);
            && r.response.status in {200, 402, 429, 500}
            && (r.response.status != 200 ==> r.response.body.ErrorBody?)
            && (r.response.body.NoBody? <==> httpMethod == "OPTIONS")
  {
  }

  /**
   * When the caller's history already ends with the question as a user
   * turn (as the chat page sends it), the last two assembled turns are the
   * same user turn.
   */
  lemma QuestionSentTwice(req: DoubtRequest)
    requires req.conversationHistory.Some? && |req.conversationHistory.value| > 0
    requires req.conversationHistory.value[|req.conversationHistory.value| - 1] == Turn("user", req.question)
    ensures var m := BuildMessages(req);
            |m| >= 3 && m[|m| - 2] == m[|m| - 1] == Turn("user", req.question)
  {
    var m := BuildMessages(req);
    var h := req.conversationHistory.value;
    assert m[|m| - 2] == m[1..|m| - 1][|h| - 1];
  }

  /** A value that holds no line break ends at the first break after its key: the split is unique. */
  lemma {:induction false} LineDetermines(key: string, v1: string, r1: string, v2: string, r2: string)
    requires '\n' !in v1 && '\n' !in v2
    requires Line(key, v1, r1) == Line(key, v2, r2)
    ensures v1 == v2 && r1 == r2
  {
    var s1, s2 := v1 + ("\n" + r1), v2 + ("\n" + r2);
    assert s1 == Line(key, v1, r1)[|key|..];
    assert s1 == s2;
    assert forall i :: 0 <= i < |v1| ==> s1[i] != '\n';
    assert forall i :: 0 <= i < |v2| ==> s2[i] != '\n';
    assert s1[|v1|] == '\n' && s2[|v2|] == '\n';
    assert v1 == s1[..|v1|] && v2 == s2[..|v2|];
    assert r1 == s1[|v1| + 1..] && r2 == s2[|v2| + 1..];
  }

  /**
   * A framed text determines the subject, topic and subtopic it was built
   * from, as long as none of them contains a line break.
   */
  lemma {:induction false} FramedDetermines(head: string, tail: string,
                         s1: string, t1: string, u1: string, s2: string, t2: string, u2: string)
    requires '\n' !in s1 && '\n' !in t1 && '\n' !in u1
    requires '\n' !in s2 && '\n' !in t2 && '\n' !in u2
    requires Framed(head, s1, t1, u1, tail) == Framed(head, s2, t2, u2, tail)
    ensures s1 == s2 && t1 == t2 && u1 == u2
  {
    LineDetermines(head, s1, Line("Topic: ", t1, Line("Subtopic: ", u1, tail)),
                         s2, Line("Topic: ", t2, Line("Subtopic: ", u2, tail)));
    LineDetermines("Topic: ", t1, Line("Subtopic: ", u1, tail), t2, Line("Subtopic: ", u2, tail));
    LineDetermines("Subtopic: ", u1, tail, u2, tail);
  }

  /** The system prompt tells apart any two (subject, topic, subtopic) triples written on one line each. */
  lemma SystemPromptDetermines(s1: string, t1: string, u1: string, s2: string, t2: string, u2: string)
    requires '\n' !in s1 && '\n' !in t1 && '\n' !in u1
    requires '\n' !in s2 && '\n' !in t2 && '\n' !in u2
    requires SystemPrompt(s1, t1, u1) == SystemPrompt(s2, t2, u2)
    ensures s1 == s2 && t1 == t2 && u1 == u2
  {
    FramedDetermines(PromptHead(), PromptTail(), s1, t1, u1, s2, t2, u2);
  }
}
