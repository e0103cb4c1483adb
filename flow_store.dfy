/**
 * The flow store: the list of authored flows, held in memory, changed only
 * wholesale by its own three operations.
 */
module FlowStore {
  import opened Wrappers
  import opened FlowTypes
  import Seqs
  import BuiltInFlows

  /** `flows.map(f => f.id === flowId ? flow : f)`: every flow with that id is replaced. */
  function Replaced(flows: seq<DoubtFlow>, flowId: string, flow: DoubtFlow): (r: seq<DoubtFlow>)
    ensures |r| == |flows|
    ensures forall i :: 0 <= i < |flows| && flows[i].id == flowId ==> r[i] == flow
    ensures forall i :: 0 <= i < |flows| && flows[i].id != flowId ==> r[i] == flows[i]
  {
    if flows == [] then []
    else [if flows[0].id == flowId then flow else flows[0]] + Replaced(flows[1..], flowId, flow)
  }

  /** `flows.filter(f => f.id !== flowId)`. */
  function Removed(flows: seq<DoubtFlow>, flowId: string): (r: seq<DoubtFlow>)
    ensures forall f :: f in r ==> f in flows && f.id != flowId
    ensures forall i :: 0 <= i < |flows| && flows[i].id != flowId ==> flows[i] in r
  {
    Seqs.Filter(flows, (f: DoubtFlow) => f.id != flowId)
  }

  /** `flows.filter(f => f.subject === subject)`. */
  function BySubject(flows: seq<DoubtFlow>, subject: string): (r: seq<DoubtFlow>)
    ensures forall f :: f in r ==> f in flows && f.subject == subject
    ensures forall i :: 0 <= i < |flows| && flows[i].subject == subject ==> flows[i] in r
  {
    Seqs.Filter(flows, (f: DoubtFlow) => f.subject == subject)
  }

  /** Updating an id that no flow carries changes nothing. */
  lemma {:induction false} ReplacedUnknownIsNoop(flows: seq<DoubtFlow>, flowId: string, flow: DoubtFlow)
    requires forall i :: 0 <= i < |flows| ==> flows[i].id != flowId
    ensures Replaced(flows, flowId, flow) == flows
  {
    if flows != [] {
      ReplacedUnknownIsNoop(flows[1..], flowId, flow);
    }
  }

  /** Deleting an id that no flow carries changes nothing. */
  lemma RemovedUnknownIsNoop(flows: seq<DoubtFlow>, flowId: string)
    requires forall i :: 0 <= i < |flows| ==> flows[i].id != flowId
    ensures Removed(flows, flowId) == flows
  {
    Seqs.FilterKeepsAll(flows, (f: DoubtFlow) => f.id != flowId);
  }

  /** Deletion keeps the relative order of the survivors: it works piecewise on a split list. */
  lemma RemovedConcat(a: seq<DoubtFlow>, b: seq<DoubtFlow>, flowId: string)
    ensures Removed(a + b, flowId) == Removed(a, flowId) + Removed(b, flowId)
  {
    Seqs.FilterConcat(a, b, (f: DoubtFlow) => f.id != flowId);
  }

  /** The subject filter keeps store order: it works piecewise on a split list. */
  lemma BySubjectConcat(a: seq<DoubtFlow>, b: seq<DoubtFlow>, subject: string)
    ensures BySubject(a + b, subject) == BySubject(a, subject) + BySubject(b, subject)
  {
    Seqs.FilterConcat(a, b, (f: DoubtFlow) => f.subject == subject);
  }

  /**
   * Ids are not checked on add: adding a flow whose id is already present
   * leaves two flows with that id, and a later delete of the id removes both.
   */
  lemma AddedDuplicateIsDeletedWithOriginal(flows: seq<DoubtFlow>, g: DoubtFlow)
    requires exists i :: 0 <= i < |flows| && flows[i].id == g.id
    ensures |Removed(flows + [g], g.id)| <= |flows| - 1
    ensures Removed(flows + [g], g.id) == Removed(flows, g.id)
  {
    RemovedConcat(flows, [g], g.id);
    assert Removed([g], g.id) == [];
    Seqs.FilterLengthKeptIffAllPass(flows, (f: DoubtFlow) => f.id != g.id);
  }

  /** `flows.find(f => f.id === flowId)`: the first flow stored under this id, if there is one. */
  function FlowById(flows: seq<DoubtFlow>, flowId: string): (r: Option<DoubtFlow>)
    ensures r.Some? <==> exists i :: 0 <= i < |flows| && flows[i].id == flowId
    ensures r.Some? ==> r.value in flows && r.value.id == flowId
    ensures r.Some? ==> exists i :: 0 <= i < |flows| && flows[i] == r.value && forall j :: 0 <= j < i ==> flows[j].id != flowId
  {
    Seqs.Find(flows, (f: DoubtFlow) => f.id == flowId)
  }

  /**
   * Updating a stored id keeps the list's length, and looking that id up
   * afterwards finds the new flow, when the new flow keeps the id.
   */
  lemma ReplacedIsFound(flows: seq<DoubtFlow>, flowId: string, flow: DoubtFlow)
    requires flow.id == flowId && exists i :: 0 <= i < |flows| && flows[i].id == flowId
    ensures |Replaced(flows, flowId, flow)| == |flows|
    ensures FlowById(Replaced(flows, flowId, flow), flowId) == Some(flow)
  {
    var after := Replaced(flows, flowId, flow);
    var i :| 0 <= i < |flows| && flows[i].id == flowId;
    assert after[i] == flow;
    var found := FlowById(after, flowId);
    var j :| 0 <= j < |after| && after[j] == found.value;
    assert flows[j].id == flowId;
  }

  class FlowStore {
    var flows: seq<DoubtFlow>

    /** The store starts as exactly the two built-in flows. */
    constructor ()
      ensures flows == BuiltInFlows.DefaultFlows()
    {
      flows := BuiltInFlows.DefaultFlows();
    }

    /** Appends at the end; ids are not checked for collisions. */
    method AddFlow(flow: DoubtFlow)
      modifies this
      ensures flows == old(flows) + [flow]
    {
      flows := flows + [flow];
    }

    method UpdateFlow(flowId: string, flow: DoubtFlow)
      modifies this
      ensures flows == Replaced(old(flows), flowId, flow)
    {
      flows := Replaced(flows, flowId, flow);
    }

    method DeleteFlow(flowId: string)
      modifies this
      ensures flows == Removed(old(flows), flowId)
    {
      flows := Removed(flows, flowId);
    }

    function GetFlowsBySubject(subject: string): (r: seq<DoubtFlow>)
      reads this
      ensures forall f :: f in r ==> f in flows && f.subject == subject
      ensures forall i :: 0 <= i < |flows| && flows[i].subject == subject ==> flows[i] in r
    {
      BySubject(flows, subject)
    }
  }
}
