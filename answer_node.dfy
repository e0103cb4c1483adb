/**
 * The answer-node editor on the canvas: it keeps its own copy of the
 * node's content and options plus the text typed for a new option, and
 * forwards every change to the canvas as an update for its node id.
 */
module AnswerNodeEditor {
  import opened Wrappers
  import Text
  import Seqs
  import opened FlowTypes
  import FlowCanvas

  /** An update forwarded to the canvas: the node it is for and the fields it sets. */
  datatype Update = Update(nodeId: string, patch: FlowCanvas.Patch)

  function ContentPatch(value: string): FlowCanvas.Patch {
    FlowCanvas.Patch(Some(value), None, None, None)
  }

  function OptionsPatch(options: seq<FlowOption>): FlowCanvas.Patch {
    FlowCanvas.Patch(None, Some(options), None, None)
  }

  /** The options left once every option with this id is removed, the rest in their order. */
  function WithoutOption(options: seq<FlowOption>, optionId: string): (r: seq<FlowOption>)
    ensures forall o :: o in r <==> o in options && o.id != optionId
  {
    Seqs.Filter(options, (o: FlowOption) => o.id != optionId)
  }

  /** Removing an option that was just appended under an unused id gives back the list before. */
  lemma AddedOptionRemoved(options: seq<FlowOption>, o: FlowOption)
    requires forall i :: 0 <= i < |options| ==> options[i].id != o.id
    ensures WithoutOption(options + [o], o.id) == options
  {
    var keep := (x: FlowOption) => x.id != o.id;
    Seqs.FilterConcat(options, [o], keep);
    Seqs.FilterKeepsAll(options, keep);
  }

  /** Removal keeps the relative order: removing from a concatenation removes from each part. */
  lemma RemovalKeepsOrder(a: seq<FlowOption>, b: seq<FlowOption>, optionId: string)
    ensures WithoutOption(a + b, optionId) == WithoutOption(a, optionId) + WithoutOption(b, optionId)
  {
    Seqs.FilterConcat(a, b, (x: FlowOption) => x.id != optionId);
  }

  /** Removal changes the list exactly when some option has that id. */
  lemma RemovalChangesIffPresent(options: seq<FlowOption>, optionId: string)
    ensures WithoutOption(options, optionId) == options <==>
            forall i :: 0 <= i < |options| ==> options[i].id != optionId
  {
    var keep := (x: FlowOption) => x.id != optionId;
    Seqs.FilterLengthKeptIffAllPass(options, keep);
    if forall i :: 0 <= i < |options| ==> options[i].id != optionId {
      Seqs.FilterKeepsAll(options, keep);
    }
  }

  class Editor {
    const nodeId: string
    var content: string
    var options: seq<FlowOption>
    var newOption: string

    /** Local state starts from the node's data: content defaults to empty, options to none. */
    constructor(id: string, data: FlowCanvas.EditorData)
      ensures nodeId == id && content == data.content.GetOr("")
      ensures options == data.options.GetOr([]) && newOption == ""
    {
      nodeId := id;
      content := data.content.GetOr("");
      options := data.options.GetOr([]);
      newOption := "";
    }

    /** Typing in the new-option field. */
    method SetNewOption(text: string)
      modifies this
      ensures newOption == text && content == old(content) && options == old(options)
    {
      newOption := text;
    }

    /** `handleContentChange`: sets the content and forwards only the content. */
    method HandleContentChange(value: string) returns (u: Update)
      modifies this
      ensures content == value && options == old(options) && newOption == old(newOption)
      ensures u == Update(nodeId, ContentPatch(value))
    {
      content := value;
      u := Update(nodeId, ContentPatch(value));
    }

    /**
     * `addOption`: with blank text nothing happens; otherwise the typed
     * text, untrimmed, becomes a new last option with no target, the field
     * is cleared and the whole list is forwarded. `freshId` stands for the
     * clock-based option id.
     */
    method AddOption(freshId: string) returns (u: Option<Update>)
      modifies this
      ensures Text.Trim(old(newOption)) == "" ==>
                u.None? && options == old(options) && newOption == old(newOption)
      ensures Text.Trim(old(newOption)) != "" ==>
                && options == old(options) + [FlowOption(freshId, old(newOption), "")]
                && newOption == ""
                && u == Some(Update(nodeId, OptionsPatch(options)))
      ensures content == old(content)
    {
      if Text.Trim(newOption) == "" {
        return None;
      }
      var option := FlowOption(freshId, newOption, "");
      options := options + [option];
      newOption := "";
      u := Some(Update(nodeId, OptionsPatch(options)));
    }

    /** `removeOption`: drops every option with this id and forwards the list. */
    method RemoveOption(optionId: string) returns (u: Update)
      modifies this
      ensures options == WithoutOption(old(options), optionId)
      ensures content == old(content) && newOption == old(newOption)
      ensures u == Update(nodeId, OptionsPatch(options))
    {
      options := WithoutOption(options, optionId);
      u := Update(nodeId, OptionsPatch(options));
    }
  }

  /**
   * Once the canvas applies a forwarded option list, the converted node
   * carries exactly that list and its other fields are as before.
   */
  lemma ForwardedOptionsReachFlow(nodes: seq<FlowCanvas.EditorNode>, u: Update, k: nat)
    requires u.patch.content.None? && u.patch.options.Some?
    requires u.patch.nextNodeId.None? && u.patch.aiPrompt.None?
    requires k < |nodes| && nodes[k].id == u.nodeId
    ensures var after := FlowCanvas.Convert(FlowCanvas.Updated(nodes, u.nodeId, u.patch))[k];
            var before := FlowCanvas.Convert(nodes)[k];
            after == before.(options := u.patch.options)
  {
  }
}
