/**
 * The learner's chat session over one flow of the store. The session state
 * and its transitions are specified as functions on `SessionState`; the
 * `Session` class updates its fields step by step as the page's handlers
 * do, and each handler is proved to land on its specification.
 *
 * Each handler runs to completion (the AI round trip included): what the
 * gateway answered is a parameter, and `isLoading` is only ever observed
 * between handlers.
 */
module ChatSession {
  import opened Wrappers
  import opened FlowTypes
  import Seqs
  import Text
  import FlowStore
  import opened AnswerDoubt

  /** What the page learned from the function call: an answer, or any kind of failure. */
  datatype AIReply = Answered(answer: string) | Failed

  datatype SessionState = SessionState(
    selectedSubject: string,
    selectedFlow: string,
    messages: seq<ChatMessage>,
    currentNode: Option<FlowNode>,
    userInput: string,
    isLoading: bool,
    history: seq<Turn>,
    nextSerial: nat)

  /** The page's state when it mounts; `nextSerial` stands for the clock-and-random message ids. */
  function Initial(): SessionState {
    SessionState("", "", [], None, "", false, [], 0)
  }

  /** `addMessage`: one more message at the end, under the next serial number; nothing else changes. */
  function Posted(s: SessionState, role: Role, content: string, options: Option<seq<FlowOption>>): (r: SessionState)
    ensures r.messages == s.messages + [ChatMessage(s.nextSerial, role, content, s.nextSerial, options)]
    ensures r.nextSerial == s.nextSerial + 1
    ensures r.(messages := s.messages, nextSerial := s.nextSerial) == s
  {
    s.(messages := s.messages + [ChatMessage(s.nextSerial, role, content, s.nextSerial, options)],
       nextSerial := s.nextSerial + 1)
  }

  /** `startFlow`: restart the transcript at the start node of the selected flow, if both resolve. */
  function Start(flows: seq<DoubtFlow>, s: SessionState): SessionState {
    match FlowStore.FlowById(flows, s.selectedFlow)
    case None => s
    case Some(f) =>
      match FindNode(f.nodes, f.startNodeId)
      case None => s
      case Some(n) => Posted(s.(messages := [], history := [], currentNode := Some(n)), Assistant, n.content, n.options)
  }

  /** `handleOptionClick`. */
  function OptionClick(flows: seq<DoubtFlow>, s: SessionState, optionId: string): SessionState {
    if s.currentNode.None? then s
    else match FlowStore.FlowById(flows, s.selectedFlow)
      case None => s
      case Some(f) =>
        match FindOption(s.currentNode.value, optionId)
        case None => s
        case Some(o) =>
          var clicked := Posted(s, User, o.caption, None);
          match FindNode(f.nodes, o.nextNodeId)
          case None => clicked
          case Some(n) =>
            var moved := clicked.(currentNode := Some(n));
            if n.kind == AI then Posted(moved, Assistant, n.content, None)
            else Posted(moved, Assistant, n.content, n.options)
  }

  /** `currentFlow?.name || "General"`. */
  function Topic(flow: Option<DoubtFlow>): string {
    if flow.Some? && flow.value.name != "" then flow.value.name else "General"
  }

  /** The guard of `handleAIQuestion`: a non-blank input, a current node and a subject. */
  predicate Asks(s: SessionState) {
    Text.Trim(s.userInput) != "" && s.currentNode.Some? && s.selectedSubject != ""
  }

  function FollowUpOptions(nodeId: string, startNodeId: string): seq<FlowOption> {
    [FlowOption("followup", "Ask Follow-up Question", nodeId),
     FlowOption("back", "Back to Menu", startNodeId)]
  }

  function RetryOptions(nodeId: string, startNodeId: string): seq<FlowOption> {
    [FlowOption("retry", "Try Again", nodeId),
     FlowOption("back", "Back to Menu", startNodeId)]
  }

  function Apology(): string {
    "Sorry, I " + "encountered " + "an error. " + "Would you " + "like to " + "try again?"
  }

  /** The body `handleAIQuestion` sends to the function, if it gets that far. */
  function AIRequest(flows: seq<DoubtFlow>, s: SessionState): (r: Option<DoubtRequest>)
    ensures r.Some? <==> Asks(s)
  {
    if !Asks(s) then None
    else
      var q := Text.Trim(s.userInput);
      Some(DoubtRequest(q, s.selectedSubject, Topic(FlowStore.FlowById(flows, s.selectedFlow)), "AI Help",
                        Some(s.history + [Turn("user", q)])))
  }

  /** The first half of `handleAIQuestion`: clear the input, post the trimmed question and add it to the history. */
  function Asked(s: SessionState): (r: SessionState)
    ensures r.messages == s.messages + [ChatMessage(s.nextSerial, User, Text.Trim(s.userInput), s.nextSerial, None)]
    ensures r.history == s.history + [Turn("user", Text.Trim(s.userInput))]
    ensures r.userInput == "" && r.currentNode == s.currentNode && r.nextSerial == s.nextSerial + 1
    ensures r.selectedFlow == s.selectedFlow && r.selectedSubject == s.selectedSubject
  {
    var q := Text.Trim(s.userInput);
    Posted(s.(userInput := "", history := s.history + [Turn("user", q)]), User, q, None)
  }

  /**
   * The second half, once the function has answered: on success the
   * history gains the answer; then, if a flow is selected, the answer or
   * the apology is posted with its two options and the node is re-entered
   * carrying them. Without a selected flow the page fails on
   * `currentFlow!.startNodeId` in both branches, so nothing is posted.
   */
  function Settled(flow: Option<DoubtFlow>, asked: SessionState, node: FlowNode, reply: AIReply): SessionState {
    match reply
    case Answered(a) =>
      var heard := asked.(history := asked.history + [Turn("assistant", a)]);
      if flow.None? then heard
      else
        var opts := FollowUpOptions(node.id, flow.value.startNodeId);
        Posted(heard, Assistant, a, Some(opts)).(currentNode := Some(node.(options := Some(opts))))
    case Failed =>
      if flow.None? then asked
      else
        var opts := RetryOptions(node.id, flow.value.startNodeId);
        Posted(asked, Assistant, Apology(), Some(opts)).(currentNode := Some(node.(options := Some(opts))))
  }

  /** `handleAIQuestion` with the function's outcome `reply`; loading ends whatever happened. */
  function AIQuestion(flows: seq<DoubtFlow>, s: SessionState, reply: AIReply): SessionState {
    if !Asks(s) then s
    else Settled(FlowStore.FlowById(flows, s.selectedFlow), Asked(s), s.currentNode.value, reply).(isLoading := false)
  }

  predicate AtAINode(s: SessionState) {
    s.currentNode.Some? && s.currentNode.value.kind == AI
  }

  /** `handleSendMessage`: free text is taken only at an AI node. */
  function SendMessage(flows: seq<DoubtFlow>, s: SessionState, reply: AIReply): SessionState {
    if AtAINode(s) then AIQuestion(flows, s, reply) else s
  }

  function SendRequest(flows: seq<DoubtFlow>, s: SessionState): Option<DoubtRequest> {
    if AtAINode(s) then AIRequest(flows, s) else None
  }

  /**
   * How the page reads the function's response: a non-2xx status is an
   * invocation error and an `error` field is thrown; only an answer body
   * under a 2xx status is an answer.
   */
  function ReplyFor(resp: Response): (r: AIReply)
    ensures r.Answered? <==> Ok(resp.status) && resp.body.AnswerBody?
    ensures r.Answered? ==> r.answer == resp.body.answer
  {
    if Ok(resp.status) && resp.body.AnswerBody? then Answered(resp.body.answer) else Failed
  }

  // ---------------------------------------------------------------------
  // Invariants of the session

  /** The current node's id names a node of the selected flow. */
  predicate NodeInFlow(flows: seq<DoubtFlow>, s: SessionState) {
    s.currentNode.Some? ==>
      var f := FlowStore.FlowById(flows, s.selectedFlow);
      f.Some? && s.currentNode.value.id in NodeIds(f.value.nodes)
  }

  /**
   * The transcript's ids are the serial numbers just below `nextSerial`,
   * consecutive in transcript order (messages are posted with the next
   * serial and the transcript is only ever emptied or appended to).
   */
  predicate SerialsConsecutive(s: SessionState) {
    && |s.messages| <= s.nextSerial
    && forall i :: 0 <= i < |s.messages| ==> s.messages[i].id == s.nextSerial - |s.messages| + i
  }

  /** Hence ids are strictly increasing along the transcript, so no two messages share one. */
  lemma SerialsIncreasing(s: SessionState, i: int, j: int)
    requires SerialsConsecutive(s) && 0 <= i < j < |s.messages|
    ensures s.messages[i].id < s.messages[j].id < s.nextSerial
  {
  }

  lemma PostedKeepsSerials(s: SessionState, role: Role, content: string, options: Option<seq<FlowOption>>)
    requires SerialsConsecutive(s)
    ensures SerialsConsecutive(Posted(s, role, content, options))
  {
    var r := Posted(s, role, content, options);
    forall i | 0 <= i < |r.messages|
      ensures r.messages[i].id == r.nextSerial - |r.messages| + i
    {
      if i < |s.messages| {
        assert r.messages[i] == s.messages[i];
      }
    }
  }

  /** Both invariants of the session. */
  predicate Valid(flows: seq<DoubtFlow>, s: SessionState) {
    NodeInFlow(flows, s) && SerialsConsecutive(s)
  }

  lemma InitialValid(flows: seq<DoubtFlow>)
    ensures Valid(flows, Initial())
  {
  }

  // ---------------------------------------------------------------------
  // Start

  /**
   * Starting either changes nothing (no selected flow, or a start id that
   * does not resolve) or leaves exactly one assistant message showing the
   * start node, an empty history and the start node as current.
   */
  lemma StartOutcome(flows: seq<DoubtFlow>, s: SessionState)
    ensures var r := Start(flows, s);
            var f := FlowStore.FlowById(flows, s.selectedFlow);
            if f.Some? && FindNode(f.value.nodes, f.value.startNodeId).Some? then
              var n := FindNode(f.value.nodes, f.value.startNodeId).value;
              && n in f.value.nodes && n.id == f.value.startNodeId
              && r.messages == [ChatMessage(s.nextSerial, Assistant, n.content, s.nextSerial, n.options)]
              && r.history == [] && r.currentNode == Some(n)
              && r.selectedFlow == s.selectedFlow && r.userInput == s.userInput
            else r == s
  {
  }

  /** Starting a well-formed flow always succeeds. */
  lemma StartWellFormed(flows: seq<DoubtFlow>, s: SessionState)
    requires FlowStore.FlowById(flows, s.selectedFlow).Some?
    requires WellFormedFlow(FlowStore.FlowById(flows, s.selectedFlow).value)
    ensures Start(flows, s).currentNode.Some?
    ensures Start(flows, s).currentNode.value.id == FlowStore.FlowById(flows, s.selectedFlow).value.startNodeId
  {
  }

  // ---------------------------------------------------------------------
  // Option clicks

  predicate ClickIgnored(flows: seq<DoubtFlow>, s: SessionState, optionId: string) {
    || s.currentNode.None?
    || FlowStore.FlowById(flows, s.selectedFlow).None?
    || FindOption(s.currentNode.value, optionId).None?
  }

  /** A click changes nothing exactly when there is no current node or flow, or the option is not on the node. */
  lemma OptionClickNoOpIff(flows: seq<DoubtFlow>, s: SessionState, optionId: string)
    ensures OptionClick(flows, s, optionId) == s <==> ClickIgnored(flows, s, optionId)
  {
    if !ClickIgnored(flows, s, optionId) {
      assert |OptionClick(flows, s, optionId).messages| > |s.messages|;
    }
  }

  /**
   * A click on a known option appends the user's message with the option's
   * label. With a dangling target that is the only change; otherwise the
   * target becomes current and an assistant message shows it, with the
   * target's options unless it is an AI node.
   */
  lemma OptionClickOutcome(flows: seq<DoubtFlow>, s: SessionState, optionId: string)
    requires !ClickIgnored(flows, s, optionId)
    ensures var r := OptionClick(flows, s, optionId);
            var f := FlowStore.FlowById(flows, s.selectedFlow).value;
            var o := FindOption(s.currentNode.value, optionId).value;
            var userMsg := ChatMessage(s.nextSerial, User, o.caption, s.nextSerial, None);
            && o in s.currentNode.value.options.value && o.id == optionId
            && (FindNode(f.nodes, o.nextNodeId).None? ==> r == Posted(s, User, o.caption, None))
            && (FindNode(f.nodes, o.nextNodeId).Some? ==>
                  var n := FindNode(f.nodes, o.nextNodeId).value;
                  && n in f.nodes && n.id == o.nextNodeId
                  && r.currentNode == Some(n)
                  && r.messages == s.messages + [userMsg,
                       ChatMessage(s.nextSerial + 1, Assistant, n.content, s.nextSerial + 1,
                                   if n.kind == AI then None else n.options)]
                  && r.history == s.history)
  {
  }

  // ---------------------------------------------------------------------
  // AI questions

  /** Blank input, no current node or no subject: nothing happens and nothing is sent. */
  lemma AIQuestionIgnored(flows: seq<DoubtFlow>, s: SessionState, reply: AIReply)
    requires !Asks(s)
    ensures AIQuestion(flows, s, reply) == s && AIRequest(flows, s).None?
  {
  }

  /**
   * After an answered question: the history gains the trimmed question and
   * the answer; the transcript gains the question and the answer, and the
   * answer offers a follow-up at the same node, then a way back to the
   * flow's start; the current node is the same node carrying those options.
   */
  lemma AIAnsweredOutcome(flows: seq<DoubtFlow>, s: SessionState, a: string)
    requires Asks(s) && FlowStore.FlowById(flows, s.selectedFlow).Some?
    ensures var r := AIQuestion(flows, s, Answered(a));
            var q := Text.Trim(s.userInput);
            var node := s.currentNode.value;
            var opts := FollowUpOptions(node.id, FlowStore.FlowById(flows, s.selectedFlow).value.startNodeId);
            && r.history == s.history + [Turn("user", q), Turn("assistant", a)]
            && r.messages == s.messages + [ChatMessage(s.nextSerial, User, q, s.nextSerial, None),
                                           ChatMessage(s.nextSerial + 1, Assistant, a, s.nextSerial + 1, Some(opts))]
            && r.currentNode == Some(node.(options := Some(opts)))
            && r.userInput == "" && !r.isLoading
  {
    var asked := Asked(s);
    var heard := asked.(history := asked.history + [Turn("assistant", a)]);
    var f := FlowStore.FlowById(flows, s.selectedFlow);
    var opts := FollowUpOptions(s.currentNode.value.id, f.value.startNodeId);
    assert AIQuestion(flows, s, Answered(a)) ==
           Posted(heard, Assistant, a, Some(opts)).(currentNode := Some(s.currentNode.value.(options := Some(opts))),
                                                    isLoading := false);
  }

  /**
   * After a failed question: the history keeps the question but gains no
   * answer; the transcript gains the question and the fixed apology, which
   * offers a retry at the same node, then a way back to the flow's start.
   */
  lemma AIFailedOutcome(flows: seq<DoubtFlow>, s: SessionState)
    requires Asks(s) && FlowStore.FlowById(flows, s.selectedFlow).Some?
    ensures var r := AIQuestion(flows, s, Failed);
            var q := Text.Trim(s.userInput);
            var node := s.currentNode.value;
            var opts := RetryOptions(node.id, FlowStore.FlowById(flows, s.selectedFlow).value.startNodeId);
            && r.history == s.history + [Turn("user", q)]
            && r.messages == s.messages + [ChatMessage(s.nextSerial, User, q, s.nextSerial, None),
                                           ChatMessage(s.nextSerial + 1, Assistant, Apology(), s.nextSerial + 1, Some(opts))]
            && r.currentNode == Some(node.(options := Some(opts)))
            && r.userInput == "" && !r.isLoading
  {
    var asked := Asked(s);
    var f := FlowStore.FlowById(flows, s.selectedFlow);
    var opts := RetryOptions(s.currentNode.value.id, f.value.startNodeId);
    assert AIQuestion(flows, s, Failed) ==
           Posted(asked, Assistant, Apology(), Some(opts)).(currentNode := Some(s.currentNode.value.(options := Some(opts))),
                                                            isLoading := false);
  }

  /**
   * The question sent is the trimmed input, and the history sent already ends
   * with it; the topic is the selected flow's name, or "General" when that is
   * empty or no stored flow is selected.
   */
  lemma AIRequestCarriesQuestion(flows: seq<DoubtFlow>, s: SessionState)
    requires Asks(s)
    ensures var req := AIRequest(flows, s).value;
            && req.question == Text.Trim(s.userInput) && req.question != ""
            && req.conversationHistory == Some(s.history + [Turn("user", req.question)])
            && req.subject == s.selectedSubject && req.subtopic == "AI Help"
    ensures var req, f := AIRequest(flows, s).value, FlowStore.FlowById(flows, s.selectedFlow);
            && (f.Some? && f.value.name != "" ==> req.topic == f.value.name)
            && (f.None? || f.value.name == "" ==> req.topic == "General")
  {
  }

  /** Because of that, the gateway receives the question twice in a row. */
  lemma ChatRequestRepeatsQuestion(flows: seq<DoubtFlow>, s: SessionState)
    requires AIRequest(flows, s).Some?
    ensures var m := BuildMessages(AIRequest(flows, s).value);
            |m| >= 3 && m[|m| - 2] == m[|m| - 1]
  {
    var req := AIRequest(flows, s).value;
    QuestionSentTwice(req);
  }

  /** The page sees an answer exactly when the function called the gateway and got a 2xx reply with a choice. */
  lemma ReplyMatchesFunction(httpMethod: string, parsed: Parsed, apiKey: Option<string>, upstream: Upstream)
    ensures var ex := Handle(httpMethod, parsed, apiKey, upstream);
            ReplyFor(ex.response).Answered? <==>
              ex.sent.Some? && upstream.Replied? && Ok(upstream.status) && |upstream.choices| > 0
  {
    AnswerNeedsUpstreamSuccess(httpMethod, parsed, apiKey, upstream);
  }

  // ---------------------------------------------------------------------
  // Properties of every transition

  /** The AI step appends: the old transcript is a prefix of the new one. */
  /** Settling does not read the loading flag it then clears. */
  lemma SettledIgnoresLoading(flow: Option<DoubtFlow>, asked: SessionState, node: FlowNode, reply: AIReply)
    ensures Settled(flow, asked.(isLoading := true), node, reply).(isLoading := false)
            == Settled(flow, asked, node, reply).(isLoading := false)
  {
  }

  lemma SettledExtends(flow: Option<DoubtFlow>, asked: SessionState, node: FlowNode, reply: AIReply)
    ensures asked.messages <= Settled(flow, asked, node, reply).messages
  {
  }

  /** A click only appends to the transcript: the old transcript is a prefix of the new one. */
  lemma ClickAppends(flows: seq<DoubtFlow>, s: SessionState, optionId: string)
    ensures s.messages <= OptionClick(flows, s, optionId).messages
  {
    if !ClickIgnored(flows, s, optionId) {
      OptionClickOutcome(flows, s, optionId);
    }
  }

  /** Sending a question only appends to the transcript (only `Start` may shorten it). */
  lemma AIQuestionAppends(flows: seq<DoubtFlow>, s: SessionState, reply: AIReply)
    ensures s.messages <= AIQuestion(flows, s, reply).messages
    ensures s.messages <= SendMessage(flows, s, reply).messages
  {
    if Asks(s) {
      var f, asked := FlowStore.FlowById(flows, s.selectedFlow), Asked(s);
      SettledExtends(f, asked, s.currentNode.value, reply);
      assert AIQuestion(flows, s, reply).messages == Settled(f, asked, s.currentNode.value, reply).messages;
      assert s.messages <= asked.messages;
    }
  }

  /** Starting keeps the invariants: the start node is in the flow and the one message carries the last serial. */
  lemma StartKeepsValid(flows: seq<DoubtFlow>, s: SessionState)
    requires Valid(flows, s)
    ensures Valid(flows, Start(flows, s))
  {
    var f := FlowStore.FlowById(flows, s.selectedFlow);
    if f.Some? {
      var st := FindNode(f.value.nodes, f.value.startNodeId);
      if st.Some? {
        assert st.value.id in NodeIds(f.value.nodes);
      }
    }
  }

  /** A click keeps the invariants: the target comes from the flow's own node list. */
  lemma ClickKeepsValid(flows: seq<DoubtFlow>, s: SessionState, optionId: string)
    requires Valid(flows, s)
    ensures Valid(flows, OptionClick(flows, s, optionId))
  {
    if !ClickIgnored(flows, s, optionId) {
      var f := FlowStore.FlowById(flows, s.selectedFlow).value;
      var o := FindOption(s.currentNode.value, optionId).value;
      var clicked := Posted(s, User, o.caption, None);
      PostedKeepsSerials(s, User, o.caption, None);
      var n := FindNode(f.nodes, o.nextNodeId);
      if n.Some? {
        assert n.value.id in NodeIds(f.nodes);
        var moved := clicked.(currentNode := n);
        PostedKeepsSerials(moved, Assistant, n.value.content, if n.value.kind == AI then None else n.value.options);
      }
    }
  }

  lemma SettledKeepsSerials(flow: Option<DoubtFlow>, asked: SessionState, node: FlowNode, reply: AIReply)
    requires SerialsConsecutive(asked)
    ensures SerialsConsecutive(Settled(flow, asked, node, reply))
  {
    if flow.Some? {
      match reply
      case Answered(a) =>
        var heard := asked.(history := asked.history + [Turn("assistant", a)]);
        PostedKeepsSerials(heard, Assistant, a, Some(FollowUpOptions(node.id, flow.value.startNodeId)));
      case Failed =>
        PostedKeepsSerials(asked, Assistant, Apology(), Some(RetryOptions(node.id, flow.value.startNodeId)));
    }
  }

  lemma SettledKeepsNodeId(flow: Option<DoubtFlow>, asked: SessionState, node: FlowNode, reply: AIReply)
    requires asked.currentNode == Some(node)
    ensures var r := Settled(flow, asked, node, reply);
            r.selectedFlow == asked.selectedFlow && r.currentNode.Some? && r.currentNode.value.id == node.id
  {
  }

  /** The AI step keeps the invariants: the node is re-entered under the same id. */
  lemma AIQuestionKeepsValid(flows: seq<DoubtFlow>, s: SessionState, reply: AIReply)
    requires Valid(flows, s)
    ensures Valid(flows, AIQuestion(flows, s, reply))
    ensures Valid(flows, SendMessage(flows, s, reply))
  {
    if Asks(s) {
      var q := Text.Trim(s.userInput);
      PostedKeepsSerials(s.(userInput := "", history := s.history + [Turn("user", q)]), User, q, None);
      SettledKeepsSerials(FlowStore.FlowById(flows, s.selectedFlow), Asked(s), s.currentNode.value, reply);
      SettledKeepsNodeId(FlowStore.FlowById(flows, s.selectedFlow), Asked(s), s.currentNode.value, reply);
    }
  }

  /**
   * In a well-formed flow both options the AI step offers lead somewhere:
   * the same node (still in the flow) and the flow's start.
   */
  lemma SynthesizedOptionsResolve(flows: seq<DoubtFlow>, s: SessionState, reply: AIReply)
    requires NodeInFlow(flows, s) && Asks(s)
    requires FlowStore.FlowById(flows, s.selectedFlow).Some? && WellFormedFlow(FlowStore.FlowById(flows, s.selectedFlow).value)
    ensures var r := AIQuestion(flows, s, reply);
            var f := FlowStore.FlowById(flows, s.selectedFlow).value;
            && r.currentNode.Some? && r.currentNode.value.options.Some?
            && |r.currentNode.value.options.value| == 2
            && forall o :: o in r.currentNode.value.options.value ==> FindNode(f.nodes, o.nextNodeId).Some?
  {
  }

  // ---------------------------------------------------------------------
  // A worked traversal

  /**
   * A flow of two nodes whose single options lead to each other: starting,
   * choosing the first node's option and then the second's returns to the
   * start node. The transcript is the start message, then one
   * question-and-answer pair per click, in order.
   */
  lemma CycleRoundTrip(flows: seq<DoubtFlow>, s: SessionState, f: DoubtFlow, a: FlowOption, b: FlowOption)
    requires FlowStore.FlowById(flows, s.selectedFlow) == Some(f)
    requires |f.nodes| == 2 && f.nodes[0].id != f.nodes[1].id && f.startNodeId == f.nodes[0].id
    requires f.nodes[0].kind != AI && f.nodes[0].options == Some([a]) && a.nextNodeId == f.nodes[1].id
    requires f.nodes[1].kind != AI && f.nodes[1].options == Some([b]) && b.nextNodeId == f.nodes[0].id
    ensures var q, r := f.nodes[0], f.nodes[1];
            var t := OptionClick(flows, OptionClick(flows, Start(flows, s), a.id), b.id);
            var k := s.nextSerial;
            && t.currentNode == Some(q)
            && t.messages == [ChatMessage(k, Assistant, q.content, k, q.options),
                              ChatMessage(k + 1, User, a.caption, k + 1, None),
                              ChatMessage(k + 2, Assistant, r.content, k + 2, r.options),
                              ChatMessage(k + 3, User, b.caption, k + 3, None),
                              ChatMessage(k + 4, Assistant, q.content, k + 4, q.options)]
  {
    var q, r := f.nodes[0], f.nodes[1];
    var k := s.nextSerial;
    StartStep(flows, s, f);
    var s1 := Start(flows, s);
    ClickStep(flows, s1, f, a, r);
    var s2 := OptionClick(flows, s1, a.id);
    ClickStep(flows, s2, f, b, q);
  }

  lemma StartStep(flows: seq<DoubtFlow>, s: SessionState, f: DoubtFlow)
    requires FlowStore.FlowById(flows, s.selectedFlow) == Some(f)
    requires |f.nodes| == 2 && f.nodes[0].id != f.nodes[1].id && f.startNodeId == f.nodes[0].id
    ensures var t := Start(flows, s);
            && t.selectedFlow == s.selectedFlow && t.currentNode == Some(f.nodes[0]) && t.nextSerial == s.nextSerial + 1
            && t.messages == [ChatMessage(s.nextSerial, Assistant, f.nodes[0].content, s.nextSerial, f.nodes[0].options)]
    ensures FindNode(f.nodes, f.nodes[0].id) == Some(f.nodes[0]) && FindNode(f.nodes, f.nodes[1].id) == Some(f.nodes[1])
  {
    FindNodeUnique(f.nodes, 0);
    FindNodeUnique(f.nodes, 1);
  }

  /** A click on the only option of the current node, leading to a node that is not an AI node. */
  lemma ClickStep(flows: seq<DoubtFlow>, s: SessionState, f: DoubtFlow, o: FlowOption, n: FlowNode)
    requires FlowStore.FlowById(flows, s.selectedFlow) == Some(f)
    requires s.currentNode.Some? && s.currentNode.value.options == Some([o])
    requires FindNode(f.nodes, o.nextNodeId) == Some(n) && n.kind != AI
    ensures var t := OptionClick(flows, s, o.id);
            && t.selectedFlow == s.selectedFlow && t.currentNode == Some(n) && t.nextSerial == s.nextSerial + 2
            && t.messages == s.messages + [ChatMessage(s.nextSerial, User, o.caption, s.nextSerial, None),
                                           ChatMessage(s.nextSerial + 1, Assistant, n.content, s.nextSerial + 1, n.options)]
  {
    assert FindOption(s.currentNode.value, o.id) == Some(o);
  }

  // ---------------------------------------------------------------------
  // What the page lets the learner do

  datatype UiEvent =
    | PickSubject(subject: string)
    | PickFlow(flowId: string)
    | PressStart
    | PressOption(optionId: string)
    | TypeText(text: string)
    | PressSend(reply: AIReply)

  function Subjects(): seq<string> {
    ["Mathematics", "Science", "English", "History", "Geography"]
  }

  /** Some message on screen carries an option with this id. */
  predicate OptionOnScreen(s: SessionState, optionId: string) {
    exists i :: 0 <= i < |s.messages| && s.messages[i].options.Some? &&
      exists o :: o in s.messages[i].options.value && o.id == optionId
  }

  /**
   * Which controls are on screen and enabled, given which branch of the
   * page is shown (`chooser` is the topic chooser; otherwise the chat).
   */
  predicate OfferedWhen(chooser: bool, flows: seq<DoubtFlow>, s: SessionState, e: UiEvent) {
    match e
    case PickSubject(x) => chooser && x in Subjects()
    case PickFlow(id) =>
      chooser && s.selectedSubject != "" &&
      exists f :: f in FlowStore.BySubject(flows, s.selectedSubject) && f.id == id
    case PressStart => chooser && s.selectedFlow != ""
    case PressOption(id) => !chooser && !s.isLoading && OptionOnScreen(s, id)
    case TypeText(_) => !chooser && AtAINode(s) && !s.isLoading
    case PressSend(_) => !chooser && AtAINode(s) && !s.isLoading
  }

  function Apply(flows: seq<DoubtFlow>, s: SessionState, e: UiEvent): SessionState {
    match e
    case PickSubject(x) => s.(selectedSubject := x)
    case PickFlow(id) => s.(selectedFlow := id)
    case PressStart => Start(flows, s)
    case PressOption(id) => OptionClick(flows, s, id)
    case TypeText(t) => s.(userInput := t)
    case PressSend(reply) => SendMessage(flows, s, reply)
  }

  /** As written, the chooser is shown exactly while no flow is selected. */
  predicate ChooserAsWritten(s: SessionState) {
    s.selectedFlow == ""
  }

  /** Evidently intended: the chooser stays until the conversation has started. */
  predicate ChooserIntended(s: SessionState) {
    s.currentNode.None?
  }

  /** Events on controls that are not offered do nothing. */
  function RunAsWritten(flows: seq<DoubtFlow>, s: SessionState, es: seq<UiEvent>): SessionState
    decreases |es|
  {
    if es == [] then s
    else
      var next := if OfferedWhen(ChooserAsWritten(s), flows, s, es[0]) then Apply(flows, s, es[0]) else s;
      RunAsWritten(flows, next, es[1..])
  }

  function Run(flows: seq<DoubtFlow>, s: SessionState, es: seq<UiEvent>): SessionState
    decreases |es|
  {
    if es == [] then s
    else
      var next := if OfferedWhen(ChooserIntended(s), flows, s, es[0]) then Apply(flows, s, es[0]) else s;
      Run(flows, next, es[1..])
  }

  /**
   * As written, the Start button sits inside the branch shown only while
   * no flow is selected, yet is rendered only once one is: whatever the
   * learner does, the conversation never starts.
   */
  lemma {:induction false} NeverStartsAsWritten(flows: seq<DoubtFlow>, s: SessionState, es: seq<UiEvent>)
    requires s.messages == [] && s.currentNode.None?
    ensures RunAsWritten(flows, s, es).messages == []
    ensures RunAsWritten(flows, s, es).currentNode.None?
    decreases |es|
  {
    if es != [] {
      var next := if OfferedWhen(ChooserAsWritten(s), flows, s, es[0]) then Apply(flows, s, es[0]) else s;
      assert next.messages == [] && next.currentNode.None?;
      NeverStartsAsWritten(flows, next, es[1..]);
    }
  }

  /**
   * With the chooser kept until the conversation starts, picking the
   * subject, then a well-formed flow of it, then Start enters that flow's
   * start node with one message on screen.
   */
  lemma StartReachable(flows: seq<DoubtFlow>, f: DoubtFlow)
    requires FlowStore.FlowById(flows, f.id) == Some(f) && f.id != "" && f.subject in Subjects()
    requires WellFormedFlow(f)
    ensures var r := Run(flows, Initial(), [PickSubject(f.subject), PickFlow(f.id), PressStart]);
            && r.currentNode.Some? && r.currentNode.value.id == f.startNodeId
            && |r.messages| == 1
  {
    var s1 := Initial().(selectedSubject := f.subject);
    assert f in FlowStore.BySubject(flows, f.subject) by {
      var i :| 0 <= i < |flows| && flows[i] == f;
    }
    var s2 := s1.(selectedFlow := f.id);
    assert Run(flows, Initial(), [PickSubject(f.subject), PickFlow(f.id), PressStart])
        == Run(flows, s1, [PickFlow(f.id), PressStart]);
    assert Run(flows, s1, [PickFlow(f.id), PressStart]) == Run(flows, s2, [PressStart]);
  }

  // ---------------------------------------------------------------------
  // The page

  class Session {
    const flows: seq<DoubtFlow>
    var selectedSubject: string
    var selectedFlow: string
    var messages: seq<ChatMessage>
    var currentNode: Option<FlowNode>
    var userInput: string
    var isLoading: bool
    var history: seq<Turn>
    var nextSerial: nat

    function State(): SessionState
      reads this
    {
      SessionState(selectedSubject, selectedFlow, messages, currentNode, userInput, isLoading, history, nextSerial)
    }

    /** The page over the store's current flows. */
    constructor (flows: seq<DoubtFlow>)
      ensures this.flows == flows && State() == Initial()
    {
      this.flows := flows;
      selectedSubject, selectedFlow, messages, currentNode := "", "", [], None;
      userInput, isLoading, history, nextSerial := "", false, [], 0;
    }

    method SelectSubject(subject: string)
      modifies this
      ensures State() == old(State()).(selectedSubject := subject)
    {
      selectedSubject := subject;
    }

    method SelectFlow(flowId: string)
      modifies this
      ensures State() == old(State()).(selectedFlow := flowId)
    {
      selectedFlow := flowId;
    }

    method SetUserInput(text: string)
      modifies this
      ensures State() == old(State()).(userInput := text)
    {
      userInput := text;
    }

    method AddMessage(role: Role, content: string, options: Option<seq<FlowOption>>)
      modifies this
      ensures State() == Posted(old(State()), role, content, options)
    {
      messages := messages + [ChatMessage(nextSerial, role, content, nextSerial, options)];
      nextSerial := nextSerial + 1;
    }

    method StartFlow()
      modifies this
      ensures State() == Start(flows, old(State()))
    {
      var flow := FlowStore.FlowById(flows, selectedFlow);
      if flow.None? {
        return;
      }
      var startNode := FindNode(flow.value.nodes, flow.value.startNodeId);
      if startNode.None? {
        return;
      }
      messages := [];
      history := [];
      currentNode := startNode;
      AddMessage(Assistant, startNode.value.content, startNode.value.options);
    }

    method HandleOptionClick(optionId: string)
      modifies this
      ensures State() == OptionClick(flows, old(State()), optionId)
    {
      var flow := FlowStore.FlowById(flows, selectedFlow);
      if currentNode.None? || flow.None? {
        return;
      }
      var option := FindOption(currentNode.value, optionId);
      if option.None? {
        return;
      }
      AddMessage(User, option.value.caption, None);
      var nextNode := FindNode(flow.value.nodes, option.value.nextNodeId);
      if nextNode.None? {
        return;
      }
      currentNode := nextNode;
      if nextNode.value.kind == AI {
        AddMessage(Assistant, nextNode.value.content, None);
      } else {
        AddMessage(Assistant, nextNode.value.content, nextNode.value.options);
      }
    }

    /** The part of `handleAIQuestion` before the call. */
    method Ask() returns (question: string)
      modifies this
      ensures State() == Asked(old(State())).(isLoading := true)
      ensures question == Text.Trim(old(userInput))
    {
      question := Text.Trim(userInput);
      userInput := "";
      AddMessage(User, question, None);
      isLoading := true;
      history := history + [Turn("user", question)];
    }

    /** The part of `handleAIQuestion` after the call, up to and including the `finally`. */
    method Settle(flow: Option<DoubtFlow>, node: FlowNode, reply: AIReply)
      modifies this
      ensures State() == Settled(flow, old(State()), node, reply).(isLoading := false)
    {
      match reply {
        case Answered(answer) =>
          history := history + [Turn("assistant", answer)];
          if flow.Some? {
            var options := FollowUpOptions(node.id, flow.value.startNodeId);
            AddMessage(Assistant, answer, Some(options));
            currentNode := Some(node.(options := Some(options)));
          }
        case Failed =>
          if flow.Some? {
            var options := RetryOptions(node.id, flow.value.startNodeId);
            AddMessage(Assistant, Apology(), Some(options));
            currentNode := Some(node.(options := Some(options)));
          }
      }
      isLoading := false;
    }

    /** Returns the body sent to the function, if the guard let the question through. */
    method HandleAIQuestion(reply: AIReply) returns (sent: Option<DoubtRequest>)
      modifies this
      ensures State() == AIQuestion(flows, old(State()), reply)
      ensures sent == AIRequest(flows, old(State()))
    {
      if Text.Trim(userInput) == "" || currentNode.None? || selectedSubject == "" {
        return None;
      }
      ghost var before := State();
      var node := currentNode.value;
      var flow := FlowStore.FlowById(flows, selectedFlow);
      var question := Ask();
      sent := Some(DoubtRequest(question, selectedSubject, Topic(flow), "AI Help", Some(history)));
      SettledIgnoresLoading(flow, Asked(before), node, reply);
      Settle(flow, node, reply);
    }

    method HandleSendMessage(reply: AIReply) returns (sent: Option<DoubtRequest>)
      modifies this
      ensures State() == SendMessage(flows, old(State()), reply)
      ensures sent == SendRequest(flows, old(State()))
    {
      if currentNode.Some? && currentNode.value.kind == AI {
        sent := HandleAIQuestion(reply);
      } else {
        sent := None;
      }
    }
  }
}
