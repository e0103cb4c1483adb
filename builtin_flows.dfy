/**
 * The two flows the flow store starts with, node by node. Long node texts
 * are written as concatenations of shorter literals; the value is the same.
 */
module BuiltInFlows {
  import opened Wrappers
  import opened FlowTypes

  /** `defaultFlows`: algebra first, then physics. */
  function DefaultFlows(): seq<DoubtFlow> {
    [AlgebraFlow(), PhysicsFlow()]
  }

  function AlgebraFlow(): DoubtFlow {
    DoubtFlow("math-algebra-flow", "Algebra Help", "Mathematics", "welcome", [
      WelcomeNode(),
      LinearNode(),
      LinearExamplesNode(),
      LinearPracticeNode(),
      QuadraticNode(),
      QuadFactoringNode(),
      QuadFormulaNode(),
      QuadPracticeNode(),
      AiHelpNode()
    ])
  }

  function PhysicsFlow(): DoubtFlow {
    DoubtFlow("science-physics-flow", "Physics Concepts", "Science", "physics-start", [
      PhysicsStartNode(),
      NewtonsLawsNode(),
      NewtonExamplesNode(),
      EnergyNode(),
      EnergyExamplesNode(),
      PhysicsAiNode()
    ])
  }

  function WelcomeNode(): FlowNode {
    FlowNode("welcome", Question,
      "Hi! I'm " + "here to " + "help with " + "Algebra. " + "What would " + "you like "
      + "to learn " + "about?",
      Some([
        FlowOption("opt1", "Linear Equations", "linear"),
        FlowOption("opt2", "Quadratic Equations", "quadratic"),
        FlowOption("opt3", "Ask AI", "ai-help")]),
      None,
      None)
  }

  function LinearNode(): FlowNode {
    FlowNode("linear", Answer,
      "Linear " + "equations " + "are equation" + "s of the " + "first " + "degree. "
      + "They have " + "the form " + "ax + b " + "= c. Would " + "you like " + "to see "
      + "examples " + "or practice " + "problems?",
      Some([
        FlowOption("opt1", "Show Examples", "linear-examples"),
        FlowOption("opt2", "Practice Problems", "linear-practice"),
        FlowOption("opt3", "Back to Menu", "welcome")]),
      None,
      None)
  }

  function LinearExamplesNode(): FlowNode {
    FlowNode("linear-examples", Answer,
      "Example " + "1: Solve " + "2x + 5 " + "= 13\nSolutio" + "n: Subtract " + "5 from "
      + "both sides: " + "2x = 8\n" + "Divide " + "by 2: " + "x = 4\n" + "\nExample "
      + "2: Solve " + "3x - 7 " + "= 14\nSolutio" + "n: Add " + "7 to both " + "sides: "
      + "3x = 21\n" + "Divide " + "by 3: " + "x = 7",
      Some([
        FlowOption("opt1", "More Examples", "linear-examples"),
        FlowOption("opt2", "Practice Problems", "linear-practice"),
        FlowOption("opt3", "Back to Menu", "welcome")]),
      None,
      None)
  }

  function LinearPracticeNode(): FlowNode {
    FlowNode("linear-practice", Answer,
      "Practice " + "Problem: " + "Solve " + "5x + 3 " + "= 23\n\n" + "Try solving "
      + "it yourself," + " then " + "check: " + "x = 4",
      Some([
        FlowOption("opt1", "Another Problem", "linear-practice"),
        FlowOption("opt2", "Back to Linear Equations", "linear"),
        FlowOption("opt3", "Main Menu", "welcome")]),
      None,
      None)
  }

  function QuadraticNode(): FlowNode {
    FlowNode("quadratic", Answer,
      "Quadratic " + "equations " + "have the " + "form ax² " + "+ bx + " + "c = 0. "
      + "We can " + "solve " + "them using:\n" + "1. Factoring" + "\n2. Quadrati"
      + "c Formula\n" + "3. Completin" + "g the " + "Square\n" + "\nWhich " + "method "
      + "would " + "you like " + "to learn?",
      Some([
        FlowOption("opt1", "Factoring", "quad-factoring"),
        FlowOption("opt2", "Quadratic Formula", "quad-formula"),
        FlowOption("opt3", "Back to Menu", "welcome")]),
      None,
      None)
  }

  function QuadFactoringNode(): FlowNode {
    FlowNode("quad-factoring", Answer,
      "Factoring " + "Method:\n" + "Example: " + "x² + 5x " + "+ 6 = " + "0\nFactor: "
      + "(x + 2)(x " + "+ 3) = " + "0\nSolutions:" + " x = -2 " + "or x = " + "-3",
      Some([
        FlowOption("opt1", "More on Factoring", "quad-factoring"),
        FlowOption("opt2", "Try Quadratic Formula", "quad-formula"),
        FlowOption("opt3", "Back to Menu", "welcome")]),
      None,
      None)
  }

  function QuadFormulaNode(): FlowNode {
    FlowNode("quad-formula", Answer,
      "Quadratic " + "Formula: " + "x = (-b " + "± √(b² " + "- 4ac)) " + "/ 2a\n\n"
      + "For ax² " + "+ bx + " + "c = 0\n" + "\nExample: " + "x² + 3x " + "+ 2 = " + "0\na = "
      + "1, b = " + "3, c = " + "2\nx = " + "(-3 ± " + "√(9 - " + "8)) / " + "2\nx = "
      + "(-3 ± " + "1) / 2\n" + "Solutions: " + "x = -1 " + "or x = " + "-2",
      Some([
        FlowOption("opt1", "Practice Problems", "quad-practice"),
        FlowOption("opt2", "Back to Quadratics", "quadratic"),
        FlowOption("opt3", "Main Menu", "welcome")]),
      None,
      None)
  }

  function QuadPracticeNode(): FlowNode {
    FlowNode("quad-practice", Answer,
      "Practice: " + "Solve " + "x² - 5x " + "+ 6 = " + "0\n\nTry " + "it yourself!"
      + "\nAnswer: " + "x = 2 " + "or x = " + "3",
      Some([
        FlowOption("opt1", "Another Problem", "quad-practice"),
        FlowOption("opt2", "Back to Quadratics", "quadratic"),
        FlowOption("opt3", "Main Menu", "welcome")]),
      None,
      None)
  }

  function AiHelpNode(): FlowNode {
    FlowNode("ai-help", AI,
      "Ask me " + "anything " + "about " + "Algebra! " + "I'll provide" + " a detailed "
      + "explanation.",
      None,
      None,
      Some("You are " + "helping a " + "student " + "with " + "Algebra. " + "Provide "
        + "clear, " + "step-by-" + "step " + "explanatio" + "ns."))
  }

  function PhysicsStartNode(): FlowNode {
    FlowNode("physics-start", Question,
      "Welcome to " + "Physics " + "Help! What " + "topic " + "interests " + "you?",
      Some([
        FlowOption("opt1", "Newton's Laws", "newtons-laws"),
        FlowOption("opt2", "Energy", "energy"),
        FlowOption("opt3", "Ask AI", "physics-ai")]),
      None,
      None)
  }

  function NewtonsLawsNode(): FlowNode {
    FlowNode("newtons-laws", Answer,
      "Newton's " + "Three " + "Laws of " + "Motion:\n" + "\n1. First " + "Law (Inertia"
      + "): An " + "object " + "at rest " + "stays " + "at rest, " + "and an " + "object "
      + "in motion " + "stays " + "in motion " + "unless " + "acted " + "upon by "
      + "a force.\n" + "\n2. Second " + "Law: F " + "= ma (Force " + "equals " + "mass times "
      + "acceleration" + ")\n\n3. " + "Third " + "Law: For " + "every " + "action, "
      + "there " + "is an " + "equal " + "and opposite" + " reaction.",
      Some([
        FlowOption("opt1", "Examples", "newton-examples"),
        FlowOption("opt2", "Back to Menu", "physics-start")]),
      None,
      None)
  }

  function NewtonExamplesNode(): FlowNode {
    FlowNode("newton-examples", Answer,
      "Examples:\n" + "\n1st Law: " + "A soccer " + "ball stays " + "still " + "until "
      + "kicked.\n" + "\n2nd Law: " + "Pushing " + "a car " + "(large " + "mass) "
      + "requires " + "more force " + "than pushing" + " a bicycle " + "(small " + "mass) "
      + "for the " + "same acceler" + "ation.\n" + "\n3rd Law: " + "When you " + "jump, "
      + "you push " + "down on " + "the ground, " + "and the " + "ground " + "pushes "
      + "you up.",
      Some([
        FlowOption("opt1", "Back to Laws", "newtons-laws"),
        FlowOption("opt2", "Main Menu", "physics-start")]),
      None,
      None)
  }

  function EnergyNode(): FlowNode {
    FlowNode("energy", Answer,
      "Energy " + "comes " + "in many " + "forms:\n" + "\n- Kinetic " + "Energy: "
      + "Energy " + "of motion " + "(KE = " + "½mv²)\n" + "- Potential " + "Energy: "
      + "Stored " + "energy " + "(PE = " + "mgh)\n- " + "Thermal " + "Energy: "
      + "Heat energy\n" + "- Chemical " + "Energy: " + "Stored " + "in bonds\n" + "\nThe Law "
      + "of Conservat" + "ion of " + "Energy " + "states " + "that energy " + "cannot "
      + "be created " + "or destroyed" + ", only " + "transformed.",
      Some([
        FlowOption("opt1", "Energy Examples", "energy-examples"),
        FlowOption("opt2", "Back to Menu", "physics-start")]),
      None,
      None)
  }

  function EnergyExamplesNode(): FlowNode {
    FlowNode("energy-examples", Answer,
      "Energy " + "Transformati" + "ons:\n\n" + "- Roller " + "coaster: " + "Potential "
      + "energy " + "→ Kinetic " + "energy\n" + "- Battery: " + "Chemical " + "energy "
      + "→ Electrical" + " energy\n" + "- Solar " + "panel: " + "Light " + "energy "
      + "→ Electrical" + " energy\n" + "- Plants: " + "Light " + "energy " + "→ Chemical "
      + "energy " + "(photosynthe" + "sis)",
      Some([
        FlowOption("opt1", "Back to Energy", "energy"),
        FlowOption("opt2", "Main Menu", "physics-start")]),
      None,
      None)
  }

  function PhysicsAiNode(): FlowNode {
    FlowNode("physics-ai", AI,
      "Ask me any " + "Physics " + "question! " + "I'll explain " + "it clearly.",
      None,
      None,
      Some("You are " + "helping a " + "student " + "with " + "Physics. " + "Use real-"
        + "world " + "examples " + "and explain " + "concepts " + "step by " + "step."))
  }


  function AlgebraIds(): seq<string> {
    ["welcome", "linear", "linear-examples", "linear-practice", "quadratic",
     "quad-factoring", "quad-formula", "quad-practice", "ai-help"]
  }

  function PhysicsIds(): seq<string> {
    ["physics-start", "newtons-laws", "newton-examples", "energy", "energy-examples", "physics-ai"]
  }

  /** Every option of `n` (if it has any) leads to one of `ids`. */
  predicate TargetsWithin(n: FlowNode, ids: seq<string>) {
    n.options.Some? ==> forall o :: o in n.options.value ==> o.nextNodeId in ids
  }

  /** Node `n` sits at position `i` of a flow whose node ids are `ids`, and its options stay inside it. */
  predicate NodeFits(n: FlowNode, i: nat, ids: seq<string>) {
    i < |ids| && n.id == ids[i] && TargetsWithin(n, ids) && AIShaped(n)
  }

  /** A flow whose listed ids are distinct and cover its start and every option target is well formed. */
  lemma WellFormedFromIds(f: DoubtFlow, ids: seq<string>)
    requires |ids| == |f.nodes|
    requires forall i :: 0 <= i < |f.nodes| ==> NodeFits(f.nodes[i], i, ids)
    requires forall i, j :: 0 <= i < j < |ids| ==> ids[i] != ids[j]
    requires f.startNodeId in ids
    ensures WellFormedFlow(f)
  {
    assert NodeIds(f.nodes) == ids;
  }

  // One lemma per node keeps each proof obligation small: the node texts
  // are long literals, and reasoning about all of them at once is costly.

  lemma NodeChecksWelcome()
    ensures NodeFits(WelcomeNode(), 0, AlgebraIds())
  {
  }

  lemma NodeChecksLinear()
    ensures NodeFits(LinearNode(), 1, AlgebraIds())
  {
  }

  lemma NodeChecksLinearExamples()
    ensures NodeFits(LinearExamplesNode(), 2, AlgebraIds())
  {
  }

  lemma NodeChecksLinearPractice()
    ensures NodeFits(LinearPracticeNode(), 3, AlgebraIds())
  {
  }

  lemma NodeChecksQuadratic()
    ensures NodeFits(QuadraticNode(), 4, AlgebraIds())
  {
  }

  lemma NodeChecksQuadFactoring()
    ensures NodeFits(QuadFactoringNode(), 5, AlgebraIds())
  {
  }

  lemma NodeChecksQuadFormula()
    ensures NodeFits(QuadFormulaNode(), 6, AlgebraIds())
  {
  }

  lemma NodeChecksQuadPractice()
    ensures NodeFits(QuadPracticeNode(), 7, AlgebraIds())
  {
  }

  lemma NodeChecksAiHelp()
    ensures NodeFits(AiHelpNode(), 8, AlgebraIds())
  {
  }

  /** The algebra flow's frame is well formed whenever each of its nodes passes its own check. */
  lemma AlgebraFrame(n0: FlowNode, n1: FlowNode, n2: FlowNode, n3: FlowNode, n4: FlowNode,
                     n5: FlowNode, n6: FlowNode, n7: FlowNode, n8: FlowNode)
    requires NodeFits(n0, 0, AlgebraIds()) && NodeFits(n1, 1, AlgebraIds()) && NodeFits(n2, 2, AlgebraIds())
    requires NodeFits(n3, 3, AlgebraIds()) && NodeFits(n4, 4, AlgebraIds()) && NodeFits(n5, 5, AlgebraIds())
    requires NodeFits(n6, 6, AlgebraIds()) && NodeFits(n7, 7, AlgebraIds()) && NodeFits(n8, 8, AlgebraIds())
    ensures var f := DoubtFlow("math-algebra-flow", "Algebra Help", "Mathematics", "welcome",
                               [n0, n1, n2, n3, n4, n5, n6, n7, n8]);
            WellFormedFlow(f) && AINodesShaped(f.nodes)
  {
    var f := DoubtFlow("math-algebra-flow", "Algebra Help", "Mathematics", "welcome",
                       [n0, n1, n2, n3, n4, n5, n6, n7, n8]);
    var ids := AlgebraIds();
    forall i | 0 <= i < |f.nodes| ensures NodeFits(f.nodes[i], i, ids) {}
    assert forall i, j :: 0 <= i < j < |ids| ==> ids[i] != ids[j];
    WellFormedFromIds(f, ids);
  }

  lemma AlgebraWellFormed()
    ensures WellFormedFlow(AlgebraFlow()) && AINodesShaped(AlgebraFlow().nodes)
  {
    NodeChecksWelcome();
    NodeChecksLinear();
    NodeChecksLinearExamples();
    NodeChecksLinearPractice();
    NodeChecksQuadratic();
    NodeChecksQuadFactoring();
    NodeChecksQuadFormula();
    NodeChecksQuadPractice();
    NodeChecksAiHelp();
    AlgebraFrame(WelcomeNode(), LinearNode(), LinearExamplesNode(), LinearPracticeNode(), QuadraticNode(),
                 QuadFactoringNode(), QuadFormulaNode(), QuadPracticeNode(), AiHelpNode());
  }

  lemma NodeChecksPhysicsStart()
    ensures NodeFits(PhysicsStartNode(), 0, PhysicsIds())
  {
  }

  lemma NodeChecksNewtonsLaws()
    ensures NodeFits(NewtonsLawsNode(), 1, PhysicsIds())
  {
  }

  lemma NodeChecksNewtonExamples()
    ensures NodeFits(NewtonExamplesNode(), 2, PhysicsIds())
  {
  }

  lemma NodeChecksEnergy()
    ensures NodeFits(EnergyNode(), 3, PhysicsIds())
  {
  }

  lemma NodeChecksEnergyExamples()
    ensures NodeFits(EnergyExamplesNode(), 4, PhysicsIds())
  {
  }

  lemma NodeChecksPhysicsAi()
    ensures NodeFits(PhysicsAiNode(), 5, PhysicsIds())
  {
  }

  /** The physics flow's frame is well formed whenever each of its nodes passes its own check. */
  lemma PhysicsFrame(n0: FlowNode, n1: FlowNode, n2: FlowNode, n3: FlowNode, n4: FlowNode, n5: FlowNode)
    requires NodeFits(n0, 0, PhysicsIds()) && NodeFits(n1, 1, PhysicsIds()) && NodeFits(n2, 2, PhysicsIds())
    requires NodeFits(n3, 3, PhysicsIds()) && NodeFits(n4, 4, PhysicsIds()) && NodeFits(n5, 5, PhysicsIds())
    ensures var f := DoubtFlow("science-physics-flow", "Physics Concepts", "Science", "physics-start",
                               [n0, n1, n2, n3, n4, n5]);
            WellFormedFlow(f) && AINodesShaped(f.nodes)
  {
    var f := DoubtFlow("science-physics-flow", "Physics Concepts", "Science", "physics-start",
                       [n0, n1, n2, n3, n4, n5]);
    var ids := PhysicsIds();
    forall i | 0 <= i < |f.nodes| ensures NodeFits(f.nodes[i], i, ids) {}
    assert forall i, j :: 0 <= i < j < |ids| ==> ids[i] != ids[j];
    WellFormedFromIds(f, ids);
  }

  lemma PhysicsWellFormed()
    ensures WellFormedFlow(PhysicsFlow()) && AINodesShaped(PhysicsFlow().nodes)
  {
    NodeChecksPhysicsStart();
    NodeChecksNewtonsLaws();
    NodeChecksNewtonExamples();
    NodeChecksEnergy();
    NodeChecksEnergyExamples();
    NodeChecksPhysicsAi();
    PhysicsFrame(PhysicsStartNode(), NewtonsLawsNode(), NewtonExamplesNode(), EnergyNode(),
                 EnergyExamplesNode(), PhysicsAiNode());
  }

  /**
   * Both built-in flows are navigable (unique ids, a resolving start,
   * resolving options) and their AI nodes carry a prompt and no options.
   */
  lemma DefaultFlowsWellFormed()
    ensures WellFormedFlow(AlgebraFlow()) && AINodesShaped(AlgebraFlow().nodes)
    ensures WellFormedFlow(PhysicsFlow()) && AINodesShaped(PhysicsFlow().nodes)
  {
    AlgebraWellFormed();
    PhysicsWellFormed();
  }
}
