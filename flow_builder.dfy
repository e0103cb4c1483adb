/**
 * The flow-builder page: a form holding a flow's name, subject, node list
 * and the id of the flow being edited, which is saved into the flow store
 * after three checks and then cleared.
 */
module FlowBuilderPage {
  import opened Wrappers
  import Text
  import opened FlowTypes
  import FlowStore

  /** How a save ends: one of the three rejections, or the flow stored and whether it replaced one. */
  datatype SaveOutcome =
    | MissingName
    | MissingSubject
    | NoNodes
    | Saved(flow: DoubtFlow, replaced: bool)

  /**
   * What saving the form gives. The name must be non-blank once trimmed,
   * then a subject must be chosen, then there must be a node, in that
   * order. The saved flow keeps the name as typed, starts at the first
   * node, and takes the edited id, or `freshId` when no flow is edited.
   */
  function SaveOutcomeOf(name: string, subject: string, nodes: seq<FlowNode>, editingId: string, freshId: string)
    : (r: SaveOutcome)
    ensures r.MissingName? <==> Text.Trim(name) == ""
    ensures r.MissingSubject? <==> Text.Trim(name) != "" && subject == ""
    ensures r.NoNodes? <==> Text.Trim(name) != "" && subject != "" && nodes == []
    ensures r.Saved? ==>
              && r.flow.name == name && r.flow.subject == subject && r.flow.nodes == nodes
              && |nodes| > 0 && r.flow.startNodeId == nodes[0].id
              && r.flow.id == (if editingId != "" then editingId else freshId)
              && r.replaced == (editingId != "")
  {
    if Text.Trim(name) == "" then MissingName
    else if subject == "" then MissingSubject
    else if |nodes| == 0 then NoNodes
    else Saved(DoubtFlow(if editingId != "" then editingId else freshId, name, subject, nodes[0].id, nodes),
               editingId != "")
  }

  /** The store's list after a save with this outcome. */
  function StoredAfter(flows: seq<DoubtFlow>, outcome: SaveOutcome): (r: seq<DoubtFlow>)
    ensures !outcome.Saved? ==> r == flows
    ensures outcome.Saved? && !outcome.replaced ==> r == flows + [outcome.flow]
    ensures outcome.Saved? && outcome.replaced ==> r == FlowStore.Replaced(flows, outcome.flow.id, outcome.flow)
  {
    match outcome
    case Saved(flow, replaced) =>
      if replaced then FlowStore.Replaced(flows, flow.id, flow) else flows + [flow]
    case _ => flows
  }

  /**
   * A new flow saved under an id no stored flow has is what loading that
   * id finds afterwards: name, subject and nodes come back as saved.
   */
  lemma CreatedFlowLoadsBack(flows: seq<DoubtFlow>, name: string, subject: string, nodes: seq<FlowNode>, freshId: string)
    requires forall i :: 0 <= i < |flows| ==> flows[i].id != freshId
    requires SaveOutcomeOf(name, subject, nodes, "", freshId).Saved?
    ensures var saved := SaveOutcomeOf(name, subject, nodes, "", freshId).flow;
            FlowStore.FlowById(StoredAfter(flows, SaveOutcomeOf(name, subject, nodes, "", freshId)), freshId)
              == Some(saved)
  {
    var saved := SaveOutcomeOf(name, subject, nodes, "", freshId).flow;
    var after := flows + [saved];
    var found := FlowStore.FlowById(after, freshId);
    assert after[|flows|].id == freshId;
    assert found.value in flows || found.value == saved;
  }

  /**
   * Saving while editing a stored flow replaces it in place: the list
   * keeps its length, and loading the edited id finds the saved flow.
   */
  lemma EditedFlowLoadsBack(flows: seq<DoubtFlow>, name: string, subject: string, nodes: seq<FlowNode>,
                            editingId: string, freshId: string)
    requires editingId != "" && exists i :: 0 <= i < |flows| && flows[i].id == editingId
    requires SaveOutcomeOf(name, subject, nodes, editingId, freshId).Saved?
    ensures var o := SaveOutcomeOf(name, subject, nodes, editingId, freshId);
            var after := StoredAfter(flows, o);
            |after| == |flows| && FlowStore.FlowById(after, editingId) == Some(o.flow)
  {
    var o := SaveOutcomeOf(name, subject, nodes, editingId, freshId);
    FlowStore.ReplacedIsFound(flows, editingId, o.flow);
  }

  class Page {
    const store: FlowStore.FlowStore
    var flowName: string
    var subject: string
    var nodes: seq<FlowNode>
    var editingFlowId: string

    /** The form starts empty and bound to the application's flow store. */
    constructor(store: FlowStore.FlowStore)
      ensures this.store == store
      ensures flowName == "" && subject == "" && nodes == [] && editingFlowId == ""
    {
      this.store := store;
      flowName := "";
      subject := "";
      nodes := [];
      editingFlowId := "";
    }

    method SetFlowName(name: string)
      modifies this
      ensures flowName == name && subject == old(subject) && nodes == old(nodes)
      ensures editingFlowId == old(editingFlowId)
    {
      flowName := name;
    }

    method SetSubject(s: string)
      modifies this
      ensures subject == s && flowName == old(flowName) && nodes == old(nodes)
      ensures editingFlowId == old(editingFlowId)
    {
      subject := s;
    }

    /** The canvas's notification replaces the form's node list. */
    method OnNodesChange(converted: seq<FlowNode>)
      modifies this
      ensures nodes == converted && flowName == old(flowName) && subject == old(subject)
      ensures editingFlowId == old(editingFlowId)
    {
      nodes := converted;
    }

    /**
     * `handleSaveFlow`. A rejected save changes nothing; a successful one
     * updates or adds the flow in the store and clears the form.
     * `freshId` stands for the clock-based flow id.
     */
    method HandleSaveFlow(freshId: string) returns (outcome: SaveOutcome)
      modifies this, store
      ensures outcome == SaveOutcomeOf(old(flowName), old(subject), old(nodes), old(editingFlowId), freshId)
      ensures store.flows == StoredAfter(old(store.flows), outcome)
      ensures !outcome.Saved? ==>
                && flowName == old(flowName) && subject == old(subject)
                && nodes == old(nodes) && editingFlowId == old(editingFlowId)
      ensures outcome.Saved? ==> flowName == "" && subject == "" && nodes == [] && editingFlowId == ""
    {
      if Text.Trim(flowName) == "" {
        return MissingName;
      }
      if subject == "" {
        return MissingSubject;
      }
      if |nodes| == 0 {
        return NoNodes;
      }
      var flow := DoubtFlow(if editingFlowId != "" then editingFlowId else freshId,
                            flowName, subject, nodes[0].id, nodes);
      outcome := Saved(flow, editingFlowId != "");
      assert outcome == SaveOutcomeOf(flowName, subject, nodes, editingFlowId, freshId);
      if editingFlowId != "" {
        store.UpdateFlow(editingFlowId, flow);
      } else {
        store.AddFlow(flow);
      }
      flowName := "";
      subject := "";
      nodes := [];
      editingFlowId := "";
    }

    /** `loadExistingFlow`: copies a stored flow into the form, or leaves the form alone for an unknown id. */
    method LoadExistingFlow(flowId: string)
      modifies this
      ensures FlowStore.FlowById(store.flows, flowId).None? ==>
                && flowName == old(flowName) && subject == old(subject)
                && nodes == old(nodes) && editingFlowId == old(editingFlowId)
      ensures FlowStore.FlowById(store.flows, flowId).Some? ==>
                var f := FlowStore.FlowById(store.flows, flowId).value;
                editingFlowId == f.id && flowName == f.name && subject == f.subject && nodes == f.nodes
    {
      var found := FlowStore.FlowById(store.flows, flowId);
      if found.Some? {
        var f := found.value;
        editingFlowId := f.id;
        flowName := f.name;
        subject := f.subject;
        nodes := f.nodes;
      }
    }
  }
}
