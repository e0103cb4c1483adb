/**
 * The flow-builder canvas: an editor node list with a counter for fresh
 * ids, the edges drawn between nodes, and the conversion from editor nodes
 * to flow nodes that the canvas hands to its owner after every change.
 */
module FlowCanvas {
  import opened Wrappers
  import Text
  import opened FlowTypes

  /** Where a node sits on the canvas; the source draws it at random. */
  datatype Position = Position(x: real, y: real)

  /**
   * The data an editor node carries: a caption shown on the canvas, and
   * the flow-node fields, each of which may be absent.
   */
  datatype EditorData = EditorData(
    caption: string,
    content: Option<string>,
    options: Option<seq<FlowOption>>,
    nextNodeId: Option<string>,
    aiPrompt: Option<string>)

  datatype EditorNode = EditorNode(id: string, kind: NodeKind, position: Position, data: EditorData)

  /** A drawn connection between two nodes. */
  datatype Connection = Connection(source: string, target: string)

  /** The flow-node fields an update sets; an absent field is left as it was. */
  datatype Patch = Patch(
    content: Option<string>,
    options: Option<seq<FlowOption>>,
    nextNodeId: Option<string>,
    aiPrompt: Option<string>)

  /** The kind as the source spells it. */
  function KindName(kind: NodeKind): string {
    match kind
    case Question => "question"
    case Options => "options"
    case Answer => "answer"
    case AI => "ai"
  }

  /** The id of the `k`-th node the canvas creates. */
  function NodeId(k: nat): string {
    "node-" + Text.Decimal(k)
  }

  lemma NodeIdInjective(a: nat, b: nat)
    requires NodeId(a) == NodeId(b)
    ensures a == b
  {
    Text.PrefixedDecimalInjective("node-", a, b);
  }

  /** The node `addNode` creates: empty content, and an empty option list unless it is an AI node. */
  function NewNode(k: nat, kind: NodeKind, position: Position): (n: EditorNode)
    ensures n.id == NodeId(k) && n.kind == kind && n.position == position
    ensures n.data.content == Some("")
    ensures n.data.options == if kind == AI then None else Some([])
    ensures n.data.nextNodeId.None? && n.data.aiPrompt.None?
  {
    EditorNode(NodeId(k), kind, position,
      EditorData(KindName(kind) + " Node", Some(""), if kind == AI then None else Some([]), None, None))
  }

  function Merge(d: EditorData, p: Patch): EditorData {
    EditorData(
      d.caption,
      if p.content.Some? then p.content else d.content,
      if p.options.Some? then p.options else d.options,
      if p.nextNodeId.Some? then p.nextNodeId else d.nextNodeId,
      if p.aiPrompt.Some? then p.aiPrompt else d.aiPrompt)
  }

  /** The list after merging `p` into the data of every node with id `nodeId`. */
  function Updated(nodes: seq<EditorNode>, nodeId: string, p: Patch): (r: seq<EditorNode>)
    ensures |r| == |nodes|
    ensures forall i :: 0 <= i < |nodes| ==>
              r[i].id == nodes[i].id && r[i].kind == nodes[i].kind && r[i].position == nodes[i].position
    ensures forall i :: 0 <= i < |nodes| && nodes[i].id != nodeId ==> r[i] == nodes[i]
    ensures forall i :: 0 <= i < |nodes| && nodes[i].id == nodeId ==>
              && r[i].data.caption == nodes[i].data.caption
              && r[i].data.content == (if p.content.Some? then p.content else nodes[i].data.content)
              && r[i].data.options == (if p.options.Some? then p.options else nodes[i].data.options)
              && r[i].data.nextNodeId == (if p.nextNodeId.Some? then p.nextNodeId else nodes[i].data.nextNodeId)
              && r[i].data.aiPrompt == (if p.aiPrompt.Some? then p.aiPrompt else nodes[i].data.aiPrompt)
  {
    seq(|nodes|, i requires 0 <= i < |nodes| =>
      if nodes[i].id == nodeId then nodes[i].(data := Merge(nodes[i].data, p)) else nodes[i])
  }

  function ToFlowNode(n: EditorNode): FlowNode {
    FlowNode(n.id, n.kind, n.data.content.GetOr(""), n.data.options, n.data.nextNodeId, n.data.aiPrompt)
  }

  /**
   * `convertToCustomNodes`: one flow node per editor node, in order, with
   * id and kind copied, content defaulting to the empty string and the
   * optional fields copied as they are; caption and position are dropped.
   */
  function Convert(nodes: seq<EditorNode>): (r: seq<FlowNode>)
    ensures |r| == |nodes|
    ensures forall i :: 0 <= i < |nodes| ==>
              && r[i].id == nodes[i].id && r[i].kind == nodes[i].kind
              && (nodes[i].data.content.Some? ==> r[i].content == nodes[i].data.content.value)
              && (nodes[i].data.content.None? ==> r[i].content == "")
              && r[i].options == nodes[i].data.options
              && r[i].nextNodeId == nodes[i].data.nextNodeId
              && r[i].aiPrompt == nodes[i].data.aiPrompt
  {
    seq(|nodes|, i requires 0 <= i < |nodes| => ToFlowNode(nodes[i]))
  }

  /** Conversion distributes over concatenation. */
  lemma ConvertConcat(a: seq<EditorNode>, b: seq<EditorNode>)
    ensures Convert(a + b) == Convert(a) + Convert(b)
  {
    assert forall i :: 0 <= i < |a + b| ==> Convert(a + b)[i] == (Convert(a) + Convert(b))[i] by {
      forall i | 0 <= i < |a + b|
        ensures Convert(a + b)[i] == (Convert(a) + Convert(b))[i]
      {
        if i < |a| {
          assert (a + b)[i] == a[i];
        } else {
          assert (a + b)[i] == b[i - |a|];
        }
      }
    }
  }

  /** Two lists that differ only in layout (positions and captions) convert to the same flow nodes. */
  lemma ConvertIgnoresLayout(a: seq<EditorNode>, b: seq<EditorNode>)
    requires |a| == |b|
    requires forall i :: 0 <= i < |a| ==> a[i].id == b[i].id && a[i].kind == b[i].kind
    requires forall i :: 0 <= i < |a| ==>
               a[i].data.(caption := "") == b[i].data.(caption := "")
    ensures Convert(a) == Convert(b)
  {
    forall i | 0 <= i < |a|
      ensures Convert(a)[i] == Convert(b)[i]
    {
      assert a[i].data.content == a[i].data.(caption := "").content;
      assert b[i].data.content == b[i].data.(caption := "").content;
    }
  }

  /** The same update written on flow nodes, field by field. */
  function PatchedFlowNodes(nodes: seq<FlowNode>, nodeId: string, p: Patch): (r: seq<FlowNode>)
    ensures |r| == |nodes|
  {
    seq(|nodes|, i requires 0 <= i < |nodes| =>
      if nodes[i].id != nodeId then nodes[i]
      else nodes[i].(content := p.content.GetOr(nodes[i].content),
                     options := if p.options.Some? then p.options else nodes[i].options,
                     nextNodeId := if p.nextNodeId.Some? then p.nextNodeId else nodes[i].nextNodeId,
                     aiPrompt := if p.aiPrompt.Some? then p.aiPrompt else nodes[i].aiPrompt))
  }

  /**
   * What the owner is told after an update is the owner's previous list
   * with the patch applied to the matching flow nodes: updating and
   * converting commute.
   */
  lemma UpdateThenConvert(nodes: seq<EditorNode>, nodeId: string, p: Patch)
    ensures Convert(Updated(nodes, nodeId, p)) == PatchedFlowNodes(Convert(nodes), nodeId, p)
  {
    var l, r := Convert(Updated(nodes, nodeId, p)), PatchedFlowNodes(Convert(nodes), nodeId, p);
    forall i | 0 <= i < |nodes|
      ensures l[i] == r[i]
    {
      if nodes[i].id == nodeId {
        assert l[i].content == r[i].content;
      }
    }
  }

  /** An update for an id no node has changes nothing. */
  lemma UpdateUnknownIsNoop(nodes: seq<EditorNode>, nodeId: string, p: Patch)
    requires forall i :: 0 <= i < |nodes| ==> nodes[i].id != nodeId
    ensures Updated(nodes, nodeId, p) == nodes
  {
  }

  /** The `i`-th node holds the `i + 1`-th id and the counter is one past the last id handed out. */
  predicate IdsNumbered(nodes: seq<EditorNode>, counter: nat) {
    && counter == |nodes| + 1
    && forall i :: 0 <= i < |nodes| ==> nodes[i].id == NodeId(i + 1)
  }

  /** Nodes numbered by the counter have pairwise distinct ids. */
  lemma {:induction false} NumberedIdsDistinct(nodes: seq<EditorNode>, counter: nat)
    requires IdsNumbered(nodes, counter)
    ensures forall i, j :: 0 <= i < j < |nodes| ==> nodes[i].id != nodes[j].id
    ensures UniqueNodeIds(Convert(nodes))
  {
    forall i, j | 0 <= i < j < |nodes|
      ensures nodes[i].id != nodes[j].id
    {
      if nodes[i].id == nodes[j].id {
        NodeIdInjective(i + 1, j + 1);
      }
    }
  }

  class Canvas {
    var nodes: seq<EditorNode>
    var edges: seq<Connection>
    var nodeIdCounter: nat

    predicate Valid()
      reads this
    {
      IdsNumbered(nodes, nodeIdCounter)
    }

    /** The canvas starts empty with the counter at 1, whatever nodes its owner passes in. */
    constructor(initialNodes: seq<FlowNode>)
      ensures nodes == [] && edges == [] && nodeIdCounter == 1
      ensures Valid()
    {
      nodes := [];
      edges := [];
      nodeIdCounter := 1;
    }

    /**
     * `addNode`: appends a fresh node and returns what the owner is told,
     * the conversion of the previous list plus the new node.
     */
    method AddNode(kind: NodeKind, position: Position) returns (notified: seq<FlowNode>)
      requires Valid() && kind != Options
      modifies this
      ensures nodes == old(nodes) + [NewNode(old(nodeIdCounter), kind, position)]
      ensures nodeIdCounter == old(nodeIdCounter) + 1 && edges == old(edges)
      ensures notified == Convert(old(nodes)) + [ToFlowNode(NewNode(old(nodeIdCounter), kind, position))]
      ensures Valid()
    {
      var newNode := NewNode(nodeIdCounter, kind, position);
      notified := Convert(nodes + [newNode]);
      ConvertConcat(nodes, [newNode]);
      nodes := nodes + [newNode];
      nodeIdCounter := nodeIdCounter + 1;
    }

    /**
     * `handleNodeUpdate`: merges `p` into the node with id `nodeId` and
     * returns the conversion of the updated list.
     */
    method HandleNodeUpdate(nodeId: string, p: Patch) returns (notified: seq<FlowNode>)
      requires Valid()
      modifies this
      ensures nodes == Updated(old(nodes), nodeId, p)
      ensures nodeIdCounter == old(nodeIdCounter) && edges == old(edges)
      ensures notified == Convert(nodes)
      ensures Valid()
    {
      nodes := Updated(nodes, nodeId, p);
      notified := Convert(nodes);
    }

    /** `onConnect`: records an edge unless it is already drawn; the nodes are untouched. */
    method OnConnect(c: Connection)
      modifies this
      ensures edges == if c in old(edges) then old(edges) else old(edges) + [c]
      ensures nodes == old(nodes) && nodeIdCounter == old(nodeIdCounter)
    {
      if c !in edges {
        edges := edges + [c];
      }
    }
  }
}
