/**
 * The flow graph: nodes in an ordered list (an arena), linked only by
 * string ids that are resolved by lookup in the same list.
 */
module FlowTypes {
  import opened Wrappers
  import Seqs

  /** The four node kinds the type admits; the builder creates only three of them. */
  datatype NodeKind = Question | Options | Answer | AI

  /** A learner-selectable branch (`caption` is the source's `label`); `nextNodeId` is an id, never a link. */
  datatype FlowOption = FlowOption(id: string, caption: string, nextNodeId: string)

  /** A step of a flow. An absent option list and an empty one are different values. */
  datatype FlowNode = FlowNode(
    id: string,
    kind: NodeKind,
    content: string,
    options: Option<seq<FlowOption>>,
    nextNodeId: Option<string>,
    aiPrompt: Option<string>)

  datatype DoubtFlow = DoubtFlow(id: string, name: string, subject: string, startNodeId: string, nodes: seq<FlowNode>)

  datatype Role = User | Assistant | System

  /**
   * A transcript entry. The source builds `id` from the clock and a random
   * number and stamps the wall-clock time; here both are one serial number.
   */
  datatype ChatMessage = ChatMessage(id: nat, role: Role, content: string, timestamp: nat, options: Option<seq<FlowOption>>)

  /** The ids of the nodes, in list order. */
  function NodeIds(nodes: seq<FlowNode>): (ids: seq<string>)
    ensures |ids| == |nodes|
    ensures forall i :: 0 <= i < |nodes| ==> ids[i] == nodes[i].id
  {
    seq(|nodes|, i requires 0 <= i < |nodes| => nodes[i].id)
  }

  /** `nodes.find(n => n.id === id)`: the first node carrying that id. */
  function FindNode(nodes: seq<FlowNode>, id: string): (r: Option<FlowNode>)
    ensures r.Some? <==> id in NodeIds(nodes)
    ensures r.Some? ==> r.value in nodes && r.value.id == id
    ensures r.Some? ==> exists i :: 0 <= i < |nodes| && nodes[i] == r.value && forall j :: 0 <= j < i ==> nodes[j].id != id
  {
    var r := Seqs.Find(nodes, (n: FlowNode) => n.id == id);
    assert r.Some? ==> id in NodeIds(nodes);
    assert id in NodeIds(nodes) ==> exists j :: 0 <= j < |nodes| && nodes[j].id == id;
    r
  }

  /** `node.options?.find(o => o.id === optionId)`: absent options find nothing. */
  function FindOption(node: FlowNode, optionId: string): (r: Option<FlowOption>)
    ensures r.Some? <==> node.options.Some? && exists o :: o in node.options.value && o.id == optionId
    ensures r.Some? ==> r.value in node.options.value && r.value.id == optionId
    ensures r.Some? ==> exists i :: 0 <= i < |node.options.value| && node.options.value[i] == r.value &&
                          forall j :: 0 <= j < i ==> node.options.value[j].id != optionId
  {
    match node.options
    case None => None
    case Some(opts) =>
      var r := Seqs.Find(opts, (o: FlowOption) => o.id == optionId);
      assert (exists o :: o in opts && o.id == optionId) ==> exists j :: 0 <= j < |opts| && opts[j].id == optionId;
      r
  }

  predicate UniqueNodeIds(nodes: seq<FlowNode>) {
    forall i, j :: 0 <= i < j < |nodes| ==> nodes[i].id != nodes[j].id
  }

  /** Every option of every node names a node of the same list. */
  predicate OptionsResolve(nodes: seq<FlowNode>) {
    forall i :: 0 <= i < |nodes| && nodes[i].options.Some? ==>
      forall o :: o in nodes[i].options.value ==> o.nextNodeId in NodeIds(nodes)
  }

  /** An AI node takes free text: it carries no authored options but does carry a prompt. */
  predicate AIShaped(n: FlowNode) {
    n.kind == AI ==> n.options.None? && n.aiPrompt.Some?
  }

  predicate AINodesShaped(nodes: seq<FlowNode>) {
    forall i :: 0 <= i < |nodes| ==> AIShaped(nodes[i])
  }

  /** The navigability conditions a flow is meant to meet (not enforced by the store). */
  predicate WellFormedFlow(f: DoubtFlow) {
    && UniqueNodeIds(f.nodes)
    && f.startNodeId in NodeIds(f.nodes)
    && OptionsResolve(f.nodes)
  }

  /** With unique ids, the lookup returns exactly the node at the position holding the id. */
  lemma FindNodeUnique(nodes: seq<FlowNode>, k: nat)
    requires UniqueNodeIds(nodes) && k < |nodes|
    ensures FindNode(nodes, nodes[k].id) == Some(nodes[k])
  {
    var r := FindNode(nodes, nodes[k].id);
    var j :| 0 <= j < |nodes| && nodes[j] == r.value;
    assert nodes[j].id == nodes[k].id;
  }

  /** In a well-formed flow every option on any node leads to a node that the lookup finds. */
  lemma OptionTargetFound(f: DoubtFlow, n: FlowNode, o: FlowOption)
    requires WellFormedFlow(f) && n in f.nodes && n.options.Some? && o in n.options.value
    ensures FindNode(f.nodes, o.nextNodeId).Some?
  {
    var i :| 0 <= i < |f.nodes| && f.nodes[i] == n;
  }
}
