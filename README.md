# kiddo-track doubt flows, in Dafny

A model of the core of kiddo-track, a tutoring app. It has four parts:

- **Branching doubt-resolution chat.** Authored *flows* are lists of nodes linked by string ids. A learner walks a flow by clicking options, and at AI nodes types questions that an edge function (`answer-doubt`) forwards to an AI gateway.
- **Authoring side.** This is the canvas that numbers and edits editor nodes, the answer-node editor that keeps an option list, and the builder page that validates a flow and saves it into the flow store.
- **Two secondary stores.** The doubt store and the test store.
- **The test-taking page.** It counts correct answers, scores them and records an attempt.

Form of the model:

- The stores and pages whose handlers update state in place are classes: `FlowStore.FlowStore`, `ChatSession.Session`, `FlowCanvas.Canvas`, `AnswerNodeEditor.Editor`, `FlowBuilderPage.Page`, `DoubtStore.Store`, `TestStore.Store` and `StudentTestPage.Page`.
  - Their fields are the source's state variables.
  - Each method is proved against a specification function on values, such as `ChatSession.Start`, `ChatSession.OptionClick`, `ChatSession.AIQuestion` or `FlowBuilderPage.SaveOutcomeOf`.
  - The lemmas state what the source promises about those functions.
- Pure code (array `find`/`filter`, `trim`, message assembly, status mapping, node conversion) is functions and lemmas.
- Clock readings and random ids are parameters or counters:
  - fresh ids are `freshId` parameters;
  - `now` is a clock reading;
  - chat messages use a serial number `nextSerial` in place of `msg-<time>-<random>` and the timestamp.
- What the AI gateway did is a parameter: `AIReply` on the page side, `Upstream` in the function.

`src/types/reporting.ts` does not declare the `Test` and `TestAttempt` types that `TestContext.tsx` and `StudentTestPage.tsx` import. Their shapes in `TestTypes` are taken from how those two files and the built-in tests use them.

The built-in flows and tests are transcribed in full. Long texts are written as concatenations of shorter literals; the value is the same.

## Model

| member | source | states |
|---|---|---|
| Text.TrimStart | src/pages/FlowBuilder.tsx:26 | The result is a suffix of the input. The removed prefix is all white space, and the result does not start with white space. |
| Text.TrimEnd | src/pages/FlowBuilder.tsx:26 | The result is a prefix of the input. The removed suffix is all white space, and the result does not end with white space. |
| Text.TrimIsSlice | src/pages/FlowBuilder.tsx:26 | `trim` yields a contiguous slice of its input. Both removed ends are blank and the slice's own ends are not white space. |
| Text.TrimEmptyIffBlank | src/components/flowbuilder/nodes/AnswerNode.tsx:22 | `!s.trim()` holds exactly for strings made only of white space (the empty string included). |
| Text.TrimIdempotent | src/pages/ChatDoubtSession.tsx:84-86 | Trimming an already trimmed string changes nothing. |
| Text.Decimal | src/components/flowbuilder/FlowBuilderCanvas.tsx:43 | `${n}` is a non-empty string of digits. It ends in the digit for `n % 10` and has one digit exactly when `n < 10`. |
| Text.DecimalInjective | src/components/flowbuilder/FlowBuilderCanvas.tsx:43 | Different numbers render to different strings. |
| Text.PrefixedDecimalInjective | src/components/flowbuilder/FlowBuilderCanvas.tsx:43 | A fixed prefix followed by different numbers gives different strings. |
| Seqs.FindFirst | src/contexts/TestContext.tsx:159-161 | The index found holds a match and no earlier index does; none found means nothing matches. |
| Seqs.Find | src/contexts/FlowContext.tsx:188 | `find` returns something exactly when some element matches, and what it returns is the first matching element: no earlier element matches. |
| Seqs.Filter | src/contexts/FlowContext.tsx:184 | `filter` keeps every element that passes and only those, and is no longer than its input. |
| Seqs.FilterConcat | src/contexts/FlowContext.tsx:188 | Filtering a concatenation filters each part, so relative order is kept. |
| Seqs.FilterKeepsAll | src/contexts/FlowContext.tsx:184 | A filter that every element passes returns the array unchanged. |
| Seqs.FilterLengthKeptIffAllPass | src/contexts/FlowContext.tsx:184 | The length is kept exactly when every element passes. |
| FlowTypes.NodeIds | src/types/flow.ts:16-22 | One id per node, in node order. |
| FlowTypes.FindNode | src/pages/ChatDoubtSession.tsx:42 | The lookup finds a node exactly when the id is among the node ids; the node found has that id and is the first node carrying it. |
| FlowTypes.FindOption | src/pages/ChatDoubtSession.tsx:65 | An absent option list finds nothing. Otherwise an option is found exactly when one carries the id, and it is the first option of the node's list carrying it. |
| FlowTypes.FindNodeUnique | src/types/flow.ts:16-22 | With unique ids, looking up the id at position k gives exactly the node at k. |
| FlowTypes.OptionTargetFound | src/types/flow.ts:10-14 | In a well-formed flow every option on any node leads to a node that the lookup finds. |
| BuiltInFlows.AlgebraWellFormed | src/contexts/FlowContext.tsx:16-109 | The algebra flow has unique node ids and a start id that names one of its nodes. Every option targets one of its nodes. Its AI node has a prompt and no options. |
| BuiltInFlows.PhysicsWellFormed | src/contexts/FlowContext.tsx:110-169 | The same four facts for the physics flow. |
| BuiltInFlows.DefaultFlowsWellFormed | src/contexts/FlowContext.tsx:15-170 | Both built-in flows are well formed, and their AI nodes carry a prompt and no options. |
| FlowStore.Replaced | src/contexts/FlowContext.tsx:179-181 | The length is kept. Every flow with the id is replaced, not only the first, and every other flow is kept in place. |
| FlowStore.ReplacedUnknownIsNoop | src/contexts/FlowContext.tsx:179-181 | Updating an id no flow carries changes nothing. |
| FlowStore.ReplacedIsFound | src/contexts/FlowContext.tsx:179-181 | After updating a stored id with a flow keeping that id, looking the id up finds the new flow. |
| FlowStore.Removed | src/contexts/FlowContext.tsx:183-185 | What remains are flows of the store without that id, and every flow without that id remains. |
| FlowStore.RemovedUnknownIsNoop | src/contexts/FlowContext.tsx:183-185 | Deleting an id no flow carries changes nothing. |
| FlowStore.RemovedConcat | src/contexts/FlowContext.tsx:183-185 | Deletion works piecewise on a split list, so survivors keep their relative order. |
| FlowStore.AddedDuplicateIsDeletedWithOriginal | src/contexts/FlowContext.tsx:175-185 | Adding a flow under an id already present is not refused. A later delete of that id removes both flows. |
| FlowStore.BySubject | src/contexts/FlowContext.tsx:187-189 | The result holds exactly the store's flows with that subject. |
| FlowStore.BySubjectConcat | src/contexts/FlowContext.tsx:187-189 | The subject filter works piecewise on a split list, so store order is kept. |
| FlowStore.FlowById | src/pages/ChatDoubtSession.tsx:31 | A flow is found exactly when some stored flow has the id, and the one found is the first stored under that id, which matters because adding does not refuse a duplicate id. |
| FlowStore.FlowStore.constructor | src/contexts/FlowContext.tsx:173 | The store starts as exactly the two built-in flows. |
| FlowStore.FlowStore.AddFlow | src/contexts/FlowContext.tsx:175-177 | Appends at the end; earlier flows are unchanged and in order. |
| FlowStore.FlowStore.UpdateFlow | src/contexts/FlowContext.tsx:179-181 | The new list is `Replaced` of the old one. |
| FlowStore.FlowStore.DeleteFlow | src/contexts/FlowContext.tsx:183-185 | The new list is `Removed` of the old one. |
| FlowStore.FlowStore.GetFlowsBySubject | src/contexts/FlowContext.tsx:187-189 | Returns only stored flows of that subject, and every one of them. |
| AnswerDoubt.SystemPrompt | supabase/functions/answer-doubt/index.ts:22-30 | The prompt is the fixed text plus the subject, topic and subtopic, each on its own line. |
| AnswerDoubt.SystemPromptDetermines | supabase/functions/answer-doubt/index.ts:22-30 | Equal prompts come from equal subject, topic and subtopic (when none holds a line break), so the prompt embeds all three. |
| AnswerDoubt.BuildMessages | supabase/functions/answer-doubt/index.ts:32-36 | The system turn, then the history (none if absent), then the question as a user turn. The length is the history length plus 2. |
| AnswerDoubt.FromUpstream | supabase/functions/answer-doubt/index.ts:53-88 | Upstream 429 gives 429 with the rate-limit text and upstream 402 gives 402 with the credits text. A 2xx reply with a choice gives 200 with the first choice as answer. Any other failing status gives 500 with `AI gateway returned <status>: <text>`. A 2xx reply without a choice gives 500 with the runtime's property-read message, and a thrown call gives 500 with its message. JSON and CORS headers throughout. |
| AnswerDoubt.Handle | supabase/functions/answer-doubt/index.ts:8-89 | OPTIONS gives an empty 200 with CORS headers and no call. The gateway is called exactly when the body parses and the key is set. An unparsable body or a missing key gives 500 with its message. |
| AnswerDoubt.AnswerNeedsUpstreamSuccess | supabase/functions/answer-doubt/index.ts:77-82 | An answer is returned exactly when the gateway was called and replied 2xx with at least one choice. |
| AnswerDoubt.StatusesReturned | supabase/functions/answer-doubt/index.ts:9-88 | The status is always 200, 402, 429 or 500. A non-200 status carries an error body, and only the preflight has no body. |
| AnswerDoubt.QuestionSentTwice | supabase/functions/answer-doubt/index.ts:32-36 | When the history already ends with the question, the last two assembled turns are that same user turn. |
| ChatSession.Posted | src/pages/ChatDoubtSession.tsx:51-60 | `addMessage` appends one message under the next serial and changes nothing else. |
| ChatSession.AIRequest | src/pages/ChatDoubtSession.tsx:84-107 | A request is sent exactly when the input is non-blank once trimmed and there is a current node and a subject. |
| ChatSession.Asked | src/pages/ChatDoubtSession.tsx:86-96 | Before the call, the input is cleared and the trimmed question is posted as a user message and added to the history. Node, flow and subject stay. |
| ChatSession.ReplyFor | src/pages/ChatDoubtSession.tsx:109-118 | The page takes an answer exactly when the status is 2xx and the body is an answer, and then takes that answer. |
| ChatSession.SerialsIncreasing | src/pages/ChatDoubtSession.tsx:53 | The model's serial numbers increase along the transcript, so no two messages share a serial. This is a property of the serial that stands in for the page's `msg-<time>-<random>` ids, which differ only with high probability. |
| ChatSession.PostedKeepsSerials | src/pages/ChatDoubtSession.tsx:51-60 | Appending a message keeps the transcript's ids consecutive. |
| ChatSession.InitialValid | src/pages/ChatDoubtSession.tsx:21-27 | The page starts in a state satisfying the session invariants. |
| ChatSession.StartOutcome | src/pages/ChatDoubtSession.tsx:39-49 | Starting changes nothing without a selected flow or a resolving start id. Otherwise the transcript is exactly one assistant message with the start node's content and options, the history is empty and the start node is current. |
| ChatSession.StartWellFormed | src/pages/ChatDoubtSession.tsx:39-49 | Starting a selected well-formed flow always enters its start node. |
| ChatSession.OptionClickNoOpIff | src/pages/ChatDoubtSession.tsx:62-66 | A click changes nothing exactly when there is no current node, no selected flow, or no option with that id on the node. |
| ChatSession.OptionClickOutcome | src/pages/ChatDoubtSession.tsx:62-81 | A known option always posts the user's message with its label. A dangling target changes nothing else. Otherwise the target becomes current, shown with its options unless it is an AI node, and the history is untouched. |
| ChatSession.AIQuestionIgnored | src/pages/ChatDoubtSession.tsx:84 | Blank input, no current node or no subject: nothing changes and nothing is sent. |
| ChatSession.AIAnsweredOutcome | src/pages/ChatDoubtSession.tsx:118-134 | The history gains the question and the answer. The transcript gains both, the answer offering "Ask Follow-up Question" (same node) then "Back to Menu" (flow start). The node is re-entered with those options and loading ends. |
| ChatSession.AIFailedOutcome | src/pages/ChatDoubtSession.tsx:136-153 | The history keeps the question but gains no answer. The transcript gains the question and the fixed apology, with "Try Again" (same node) then "Back to Menu". Loading ends. |
| ChatSession.AIRequestCarriesQuestion | src/pages/ChatDoubtSession.tsx:92-107 | The question sent is the trimmed, non-empty input. The history sent already ends with it, with the selected subject and subtopic "AI Help". The topic is the selected flow's name, or "General" when no stored flow is selected or its name is empty. |
| ChatSession.ChatRequestRepeatsQuestion | src/pages/ChatDoubtSession.tsx:92-105 | The function therefore sends the gateway the question twice in a row. |
| ChatSession.ReplyMatchesFunction | src/pages/ChatDoubtSession.tsx:109-118 | The page sees an answer exactly when the function called the gateway and got a 2xx reply with a choice. |
| ChatSession.SettledExtends | src/pages/ChatDoubtSession.tsx:118-153 | The step after the call only appends to the transcript. |
| ChatSession.ClickAppends | src/pages/ChatDoubtSession.tsx:62-81 | A click only appends to the transcript. |
| ChatSession.AIQuestionAppends | src/pages/ChatDoubtSession.tsx:83-160 | Asking (directly or through send) only appends, so only starting can shorten the transcript. |
| ChatSession.StartKeepsValid | src/pages/ChatDoubtSession.tsx:39-49 | Starting keeps the invariants: the current node is a node of the selected flow, and message ids are consecutive. |
| ChatSession.ClickKeepsValid | src/pages/ChatDoubtSession.tsx:70-73 | A click keeps the invariants; the new current node comes from the flow's own list. |
| ChatSession.SettledKeepsSerials | src/pages/ChatDoubtSession.tsx:133-150 | Posting the answer or the apology keeps message ids consecutive. |
| ChatSession.SettledKeepsNodeId | src/pages/ChatDoubtSession.tsx:134 | The node re-entered after the call keeps its id, and the selected flow is unchanged. |
| ChatSession.AIQuestionKeepsValid | src/pages/ChatDoubtSession.tsx:83-160 | Asking keeps both invariants. |
| ChatSession.SynthesizedOptionsResolve | src/pages/ChatDoubtSession.tsx:128-131 | In a well-formed flow both options offered after the call lead to nodes the lookup finds. |
| ChatSession.CycleRoundTrip | src/pages/ChatDoubtSession.tsx:39-81 | In a two-node flow whose options point at each other, start, click, click returns to the start node. The transcript is the start message and then one question-and-answer pair per click. |
| ChatSession.NeverStartsAsWritten | src/pages/ChatDoubtSession.tsx:186-231 | With the chooser shown only while no flow is selected, no sequence of offered events ever starts a conversation (see Findings). |
| ChatSession.StartReachable | src/pages/ChatDoubtSession.tsx:186-231 | With the chooser kept until the conversation starts, picking the subject, a well-formed flow and Start enters the start node with one message shown. |
| ChatSession.Session.constructor | src/pages/ChatDoubtSession.tsx:21-27 | The page mounts with no subject, flow, messages, node, input or history, and not loading. |
| ChatSession.Session.SelectSubject | src/pages/ChatDoubtSession.tsx:195 | Sets the subject only. |
| ChatSession.Session.SelectFlow | src/pages/ChatDoubtSession.tsx:212 | Sets the selected flow only. |
| ChatSession.Session.SetUserInput | src/pages/ChatDoubtSession.tsx:292 | Sets the input only. |
| ChatSession.Session.AddMessage | src/pages/ChatDoubtSession.tsx:51-60 | The new state is `Posted` of the old one. |
| ChatSession.Session.StartFlow | src/pages/ChatDoubtSession.tsx:39-49 | The new state is `Start` of the old one. |
| ChatSession.Session.HandleOptionClick | src/pages/ChatDoubtSession.tsx:62-81 | The new state is `OptionClick` of the old one. |
| ChatSession.Session.Ask | src/pages/ChatDoubtSession.tsx:84-96 | The new state is `Asked` of the old one, with loading on. Returns the trimmed question. |
| ChatSession.Session.Settle | src/pages/ChatDoubtSession.tsx:118-153 | The new state is `Settled` of the old one, with loading off. |
| ChatSession.Session.HandleAIQuestion | src/pages/ChatDoubtSession.tsx:83-154 | The new state is `AIQuestion` of the old one, and the body sent is `AIRequest` of the old state. |
| ChatSession.Session.HandleSendMessage | src/pages/ChatDoubtSession.tsx:156-160 | Acts as `HandleAIQuestion` at an AI node and does nothing elsewhere. |
| FlowCanvas.NodeIdInjective | src/components/flowbuilder/FlowBuilderCanvas.tsx:43 | Different counter values give different `node-<counter>` ids. |
| FlowCanvas.NewNode | src/components/flowbuilder/FlowBuilderCanvas.tsx:42-52 | The new node has the counter's id, the kind and position given, and empty content. Its options are `[]` except for an AI node, where they are absent. |
| FlowCanvas.Updated | src/components/flowbuilder/FlowBuilderCanvas.tsx:63-70 | Each node with the id gets every field present in the patch, and keeps the rest. Id, kind and position of every node are unchanged, and every other node is unchanged. |
| FlowCanvas.UpdateUnknownIsNoop | src/components/flowbuilder/FlowBuilderCanvas.tsx:63-70 | An update for an id no node has leaves the list unchanged. |
| FlowCanvas.Convert | src/components/flowbuilder/FlowBuilderCanvas.tsx:85-94 | One flow node per editor node, in order. Id and kind are copied, content defaults to `''`, and options, next id and AI prompt are copied as they are. |
| FlowCanvas.ConvertConcat | src/components/flowbuilder/FlowBuilderCanvas.tsx:56-60 | Converting the list plus the new node is the old conversion plus the new node's. |
| FlowCanvas.ConvertIgnoresLayout | src/components/flowbuilder/FlowBuilderCanvas.tsx:85-94 | Lists differing only in positions and captions convert to the same flow nodes. |
| FlowCanvas.UpdateThenConvert | src/components/flowbuilder/FlowBuilderCanvas.tsx:72-82 | Updating and converting commute: the notification equals the previous flow nodes with the patch applied field by field. |
| FlowCanvas.NumberedIdsDistinct | src/components/flowbuilder/FlowBuilderCanvas.tsx:41-54 | Nodes numbered by the counter have pairwise distinct ids, so their conversion has unique node ids. |
| FlowCanvas.Canvas.constructor | src/components/flowbuilder/FlowBuilderCanvas.tsx:31-34 | The canvas starts with no nodes or edges and the counter at 1, whatever initial nodes are passed. |
| FlowCanvas.Canvas.AddNode | src/components/flowbuilder/FlowBuilderCanvas.tsx:41-61 | Appends the new node and increments the counter by one, keeping the numbering invariant. It notifies the old conversion plus the new node. |
| FlowCanvas.Canvas.HandleNodeUpdate | src/components/flowbuilder/FlowBuilderCanvas.tsx:63-83 | The list becomes `Updated` of the old one, and the conversion of it is notified. Counter and edges are unchanged. |
| FlowCanvas.Canvas.OnConnect | src/components/flowbuilder/FlowBuilderCanvas.tsx:36-39 | Records the edge unless it is already drawn; nodes and counter are untouched. |
| AnswerNodeEditor.WithoutOption | src/components/flowbuilder/nodes/AnswerNode.tsx:37 | What remains are exactly the options without that id. |
| AnswerNodeEditor.AddedOptionRemoved | src/components/flowbuilder/nodes/AnswerNode.tsx:21-42 | Removing an option just added under an unused id gives back the list before. |
| AnswerNodeEditor.RemovalKeepsOrder | src/components/flowbuilder/nodes/AnswerNode.tsx:36-38 | Removal works piecewise on a split list, so the rest keep their order. |
| AnswerNodeEditor.RemovalChangesIffPresent | src/components/flowbuilder/nodes/AnswerNode.tsx:36-38 | Removal changes the list exactly when some option has the id. |
| AnswerNodeEditor.ForwardedOptionsReachFlow | src/components/flowbuilder/nodes/AnswerNode.tsx:31-33 | Once the canvas applies a forwarded option list, the converted node carries exactly that list and is otherwise unchanged. |
| AnswerNodeEditor.Editor.constructor | src/components/flowbuilder/nodes/AnswerNode.tsx:10-12 | Local state starts from the node data: content defaults to `''`, options to `[]`, and the new-option text is empty. |
| AnswerNodeEditor.Editor.SetNewOption | src/components/flowbuilder/nodes/AnswerNode.tsx:12 | Sets the new-option text only. |
| AnswerNodeEditor.Editor.HandleContentChange | src/components/flowbuilder/nodes/AnswerNode.tsx:14-19 | Sets the content and forwards only the content for this node id. |
| AnswerNodeEditor.Editor.AddOption | src/components/flowbuilder/nodes/AnswerNode.tsx:21-34 | Blank text does nothing. Otherwise the untrimmed text becomes a new last option with target `''`, the field is cleared, and the whole list is forwarded. |
| AnswerNodeEditor.Editor.RemoveOption | src/components/flowbuilder/nodes/AnswerNode.tsx:36-42 | The options become `WithoutOption` of the old ones, and the list is forwarded. |
| FlowBuilderPage.SaveOutcomeOf | src/pages/FlowBuilder.tsx:25-59 | Rejections, exactly and in order: blank trimmed name, then empty subject, then no nodes. A saved flow keeps the untrimmed name, starts at the first node, and takes the edited id or else a fresh one. |
| FlowBuilderPage.StoredAfter | src/pages/FlowBuilder.tsx:61-73 | A rejection leaves the store alone. An edit replaces by id, and a new flow is appended. |
| FlowBuilderPage.CreatedFlowLoadsBack | src/pages/FlowBuilder.tsx:53-73 | A new flow saved under an unused id is what loading that id finds afterwards. |
| FlowBuilderPage.EditedFlowLoadsBack | src/pages/FlowBuilder.tsx:61-66 | Saving an edited stored flow keeps the store's length, and loading the edited id finds the saved flow. |
| FlowBuilderPage.Page.constructor | src/pages/FlowBuilder.tsx:20-23 | The form starts empty. |
| FlowBuilderPage.Page.SetFlowName | src/pages/FlowBuilder.tsx:20 | Sets the name only. |
| FlowBuilderPage.Page.SetSubject | src/pages/FlowBuilder.tsx:21 | Sets the subject only. |
| FlowBuilderPage.Page.OnNodesChange | src/pages/FlowBuilder.tsx:164-168 | The canvas's notification replaces the node list only. |
| FlowBuilderPage.Page.HandleSaveFlow | src/pages/FlowBuilder.tsx:25-80 | The outcome is `SaveOutcomeOf` the form and the store becomes `StoredAfter` it. A rejection leaves the form unchanged; a save clears all four fields. |
| FlowBuilderPage.Page.LoadExistingFlow | src/pages/FlowBuilder.tsx:82-90 | An unknown id leaves the form unchanged. A known id copies that flow's id, name, subject and nodes. |
| DoubtStore.Created | src/contexts/DoubtContext.tsx:29-36 | The stored doubt is the draft's fields plus the fresh id and creation time. |
| DoubtStore.Answered | src/contexts/DoubtContext.tsx:38-46 | Every doubt with the id gets the answer and answer time, and every other doubt and the length are unchanged. |
| DoubtStore.AnswerAgainOverwrites | src/contexts/DoubtContext.tsx:38-46 | Answering again leaves only the second answer. |
| DoubtStore.AnswerUnknownIsNoop | src/contexts/DoubtContext.tsx:38-46 | Answering an unknown id changes nothing. |
| DoubtStore.AnswerKeepsSubjects | src/contexts/DoubtContext.tsx:38-55 | Answering never changes the subject list. |
| DoubtStore.BySubject | src/contexts/DoubtContext.tsx:48-50 | Exactly the doubts of that subject. |
| DoubtStore.BySubjectConcat | src/contexts/DoubtContext.tsx:48-50 | The subject filter works piecewise on a split list, so store order is kept. |
| DoubtStore.SubjectsOf | src/contexts/DoubtContext.tsx:53 | The subject of each doubt, in store order. |
| DoubtStore.Distinct | src/contexts/DoubtContext.tsx:53-54 | `Array.from(new Set(s))` holds exactly the elements of `s`, with no repeats. |
| DoubtStore.DistinctFirstOccurrenceOrder | src/contexts/DoubtContext.tsx:53-54 | The elements are listed in increasing order of their first occurrence. |
| DoubtStore.SubjectsAfterAdd | src/contexts/DoubtContext.tsx:29-55 | Adding a doubt with a new subject appends that subject; otherwise the subject list is unchanged. |
| DoubtStore.Store.constructor | src/contexts/DoubtContext.tsx:27 | The store starts empty. |
| DoubtStore.Store.AddDoubt | src/contexts/DoubtContext.tsx:29-36 | Appends `Created` of the draft, leaving earlier doubts unchanged. |
| DoubtStore.Store.AnswerDoubt | src/contexts/DoubtContext.tsx:38-46 | The list becomes `Answered` of the old one. |
| DoubtStore.Store.GetDoubtsBySubject | src/contexts/DoubtContext.tsx:48-50 | Exactly the stored doubts of that subject. |
| DoubtStore.Store.GetAllSubjects | src/contexts/DoubtContext.tsx:52-55 | Every subject of some doubt appears, exactly once, and nothing else. |
| TestTypes.OptionLetter | src/pages/StudentTestPage.tsx:249 | Option i is named by the character 65 + i, so index 0 is `A`. |
| TestTypes.OptionLettersDistinct | src/pages/StudentTestPage.tsx:172 | Different options get different letters. |
| TestTypes.CorrectAnswerNamesAnOption | src/pages/StudentTestPage.tsx:172-174 | The correct answer of a question with four options and a letter A–D is the letter of exactly one option. |
| DummyTests.MidTermShaped | src/contexts/TestContext.tsx:18-61 | The mid-term's five questions each have four options and an answer letter A–D. |
| DummyTests.PhysicsQuizShaped | src/contexts/TestContext.tsx:62-98 | The same for the physics quiz's three questions. |
| DummyTests.AlgebraChallengeShaped | src/contexts/TestContext.tsx:99-135 | The same for the algebra challenge's four questions. |
| DummyTests.DummyTestsShaped | src/contexts/TestContext.tsx:17-136 | There are three built-in tests, and every question of each is so shaped. |
| TestStore.ForStudent | src/contexts/TestContext.tsx:150-152 | Exactly the tests created for the student or naming any non-empty class. |
| TestStore.ClassTestOfferedToEveryone | src/contexts/TestContext.tsx:150-152 | A test of some class is offered to every student, students of other classes included. |
| TestStore.ForClass | src/contexts/TestContext.tsx:154-156 | Exactly the tests with that class id. |
| TestStore.ForClassConcat | src/contexts/TestContext.tsx:154-156 | The class filter works piecewise on a split list, so store order is kept. |
| TestStore.AttemptFor | src/contexts/TestContext.tsx:158-162 | Something is found exactly when some attempt matches test and student. What is found is the earliest match. |
| TestStore.LaterAttemptsIgnored | src/contexts/TestContext.tsx:158-162 | Once an attempt matches, attempts added later never change what is found. |
| TestStore.FirstAttemptFound | src/contexts/TestContext.tsx:146-162 | The first attempt recorded for a pair is what is found from then on. |
| TestStore.Store.constructor | src/contexts/TestContext.tsx:139-140 | The built-in tests and no attempts. |
| TestStore.Store.AddTest | src/contexts/TestContext.tsx:142-144 | Appends the test; attempts are unchanged. |
| TestStore.Store.AddTestAttempt | src/contexts/TestContext.tsx:146-148 | Appends the attempt; tests are unchanged. |
| TestStore.Store.GetTestsForStudent | src/contexts/TestContext.tsx:150-152 | A stored test is returned exactly when it was created for this student or names a non-empty class id, whichever class that is. |
| TestStore.Store.GetTestsForClass | src/contexts/TestContext.tsx:154-156 | A stored test is returned exactly when it carries this class id. |
| TestStore.Store.GetAttemptForTest | src/contexts/TestContext.tsx:158-162 | An attempt is found exactly when one is stored for that test and student, and it is the earliest stored one. |
| StudentTestPage.CorrectCount | src/pages/StudentTestPage.tsx:67-72 | The count over the first i questions is at most i. |
| StudentTestPage.CountIsSetSize | src/pages/StudentTestPage.tsx:67-72 | The count is the number of question indices whose recorded answer is the correct letter; unanswered questions never count. |
| StudentTestPage.Score | src/pages/StudentTestPage.tsx:74 | The score lies in 0..100 and is the whole percentage nearest to correct/n, halves rounded up. |
| StudentTestPage.ScoreMonotone | src/pages/StudentTestPage.tsx:74 | A higher count never scores lower. All correct scores 100 and none scores 0. |
| StudentTestPage.RecountMatchesCount | src/pages/StudentTestPage.tsx:125-128 | When every answer key is a question index, the results view's recount equals the count at submission, and is at most the number of answers. |
| StudentTestPage.Page.constructor | src/pages/StudentTestPage.tsx:20-23 | The page opens at question 0 with no answers, not submitted. |
| StudentTestPage.Page.HandleAnswer | src/pages/StudentTestPage.tsx:42-44 | Records the letter for the current question only, and the index stays in range. |
| StudentTestPage.Page.HandleNext | src/pages/StudentTestPage.tsx:46-50 | Moves on only below the last question; the index stays in range. |
| StudentTestPage.Page.HandlePrevious | src/pages/StudentTestPage.tsx:52-56 | Moves back only above the first question; the index stays in range. |
| StudentTestPage.Page.GoToQuestion | src/pages/StudentTestPage.tsx:293-298 | The navigator jumps to an in-range index and changes nothing else. |
| StudentTestPage.Page.HandleSubmit | src/pages/StudentTestPage.tsx:58-93 | Unanswered questions do not block submission. The loop's count is `CorrectCount` and the score is `Score` of it. Exactly one attempt with the answers and score is appended, and the page is submitted. |

## Left out

- Network calls are left out: `supabase.functions.invoke` from the chat page and the gateway `fetch` in the function. What they did is an input (`AIReply`, `Upstream`, `Response`). The body sent to the gateway (model, temperature, authorization header) is not modelled. `supabase/functions/generate-test-questions/index.ts` is not part of this model.
- Clock and random values become parameters or counters:
  - `Date.now()` and `Math.random()` ids are `freshId` parameters or serial numbers;
  - `new Date()` is a `now` reading in milliseconds;
  - canvas positions are parameters.
  - Fresh ids are not proved to be fresh; the lemmas that need it take it as a requirement.
- Concurrency is left out. Each chat handler runs to completion, the AI round trip included, so the `await` in `handleAIQuestion` and the `currentNode` it captures across the call are not modelled. `isLoading` is only a guard on which controls are offered.
- React closures are left out. The canvas's `handleNodeUpdate` notifies with the `nodes` captured when the callback was stored; the model notifies with the conversion of the updated list. The `data.onUpdate` presence checks are taken as always true.
- React Flow's internal moves and deletions are not modelled. `addEdge` is modelled as append-unless-present, without React Flow's edge ids or handles.
- `QuestionNode` is not part of this model. Neither is `AINode.tsx`, which only forwards single-field updates to `handleNodeUpdate`.
- The `id` and `type` keys of an update's partial node are not modelled, because the editors never send them.
- Toasts, scrolling, navigation and rendering are left out. The page-level views are also left out: the not-found redirect, the "already completed" view and the results list.
- StudentTestPage.Score: computes exact half-up rounding of correct/n × 100. The page computes `Math.round` on a floating-point quotient, which can fall just below a half and round down where the exact value rounds up.
- StudentTestPage.Page.constructor: requires at least one question, because the page reads the current question as soon as it renders, and an empty test has none.
- TestTypes.OptionLetter: requires the index to be below 26 (A–Z); letters beyond `Z` are not modelled.
- ChatSession.Settled: without a selected flow the page throws on `currentFlow!.startNodeId` after the history update. The model then posts nothing more. Under the session invariant (a current node implies a selected flow) this path is unreachable.
- Two places where the code, not a plain reading, decides:
  - a failed AI exchange keeps the user turn in the history (`ChatSession.AIFailedOutcome`);
  - a click on an option with a dangling target still posts the user's message (`ChatSession.OptionClickOutcome`).
- The request body is assumed well typed. `answer-doubt` destructures an untyped `await req.json()`, while the model's `DoubtRequest` carries the five fields with their declared types and each gateway choice carries a string `message.content`. Three behaviours are therefore not modelled:
  - a body missing `subject`, `topic` or `subtopic` writes "undefined" into the prompt;
  - a truthy `conversationHistory` that is not an array throws at the spread and gives 500;
  - a choice without `message.content` gives 200 with an empty JSON object.
- ChatSession.SerialsIncreasing: distinct message ids hold for the model's serial counter only. The page's ids `msg-${Date.now()}-${Math.random()}` for the two messages of one handler are usually made in the same millisecond, so they are distinct only with high probability.
- The source's `Date` fields (`createdAt`, `answeredAt`, `startedAt`, `completedAt`, `dueDate`) are natural numbers of milliseconds.

## Findings

| source | as written | input that shows it | evidently intended | confidence | as-written member | corrected member |
|---|---|---|---|---|---|---|
| src/pages/ChatDoubtSession.tsx:186-231 | The topic chooser is shown only while `selectedFlow` is empty. The Start button inside it is rendered only once `selectedFlow` is set, and picking a flow hides the chooser, so Start is never on screen and no conversation can begin. | Pick "Mathematics", then the "Algebra Help" flow: the chat view appears with no messages and no way to start. | The chooser, with its Start button, stays until the conversation has started. | not executed | ChatSession.NeverStartsAsWritten | ChatSession.StartReachable |
