/**
 * The pipeline graph (app/graph/workflow.py): eight nodes, a router at the entry, two
 * conditional edges and static edges to the end. A traversal runs every node's stage on
 * the current state, merges the stage's patch at the top level and follows the edge
 * chosen on the merged state. A stage or routing function that raises ends the traversal
 * early; the results of the language-model calls and of the qa stage are inputs.
 */
module Workflow {
  import opened Wrappers
  import opened PyValues
  import opened GraphState
  import opened ClassifierStage
  import opened PlanningStages
  import opened CodeGeneratorStage
  import opened FileOrganizerStage
  import opened RefinementStage

  datatype Node = Router | Classifier | Research | Design | CodeGenerator | FileOrganizer | QA | Refinement | End

  /** The names under which the nodes are registered, and LangGraph's name for the end. */
  function NodeName(n: Node): string {
    match n
    case Router => "router"
    case Classifier => "classifier"
    case Research => "research"
    case Design => "design"
    case CodeGenerator => "code_generator"
    case FileOrganizer => "file_organizer"
    case QA => "qa"
    case Refinement => "refinement"
    case End => "__end__"
  }

  /** Only the end carries the name the stream consumers skip. */
  lemma OnlyEndIsNamedEnd(n: Node)
    ensures NodeName(n) == "__end__" <==> n == End
  {
    var name := NodeName(n);
    if n != End {
      assert name[0] != '_';
    }
  }

  // ---------------------------------------------------------------------------
  // Routing

  /** `route_start`: feedback sends the traversal to refinement, anything else to the classifier. */
  function RouteStart(g: State): (next: Node)
    ensures next == Refinement <==> Truthy(Get(g, UserFeedback, Null))
    ensures next == Classifier <==> !Truthy(Get(g, UserFeedback, Null))
  {
    if Truthy(Get(g, UserFeedback, Null)) then Refinement else Classifier
  }

  /**
   * `route_classifier`: research for a beginner or a complex project, otherwise the code
   * generator; a missing classification is treated as `{}`, while a classification that
   * is present but not a dictionary makes `.get` raise (`None`).
   */
  function RouteClassifier(g: State): (next: Option<Node>)
    ensures next.Some? <==> Get(g, ClassificationKey, Dict(map[])).Dict?
    ensures next.Some? ==> next.value in {Research, CodeGenerator}
    ensures next == Some(Research) <==>
      var c := Get(g, ClassificationKey, Dict(map[]));
      c.Dict? && (Get(c.fields, "user_level", Null) == Str("beginner") || Get(c.fields, "complexity", Null) == Str("complex"))
  {
    match Get(g, ClassificationKey, Dict(map[]))
    case Dict(c) =>
      if Get(c, "user_level", Null) == Str("beginner") || Get(c, "complexity", Null) == Str("complex") then Some(Research)
      else Some(CodeGenerator)
    case _ => None
  }

  /** A state without a classification goes to the code generator. */
  lemma MissingClassificationSkipsResearch(g: State)
    requires ClassificationKey !in g
    ensures RouteClassifier(g) == Some(CodeGenerator)
  {
  }

  /**
   * The successor of a node, chosen on the state after the node's patch was merged. Only
   * the classifier's routing can raise, and every edge leads closer to the end.
   */
  function Next(n: Node, g: State): (r: Option<Node>)
    requires n != End
    ensures r.None? ==> n == Classifier
    ensures r.Some? ==> Rank(r.value) < Rank(n)
  {
    match n
    case Router => Some(RouteStart(g))
    case Classifier => RouteClassifier(g)
    case Research => Some(Design)
    case Design => Some(CodeGenerator)
    case CodeGenerator => Some(FileOrganizer)
    case FileOrganizer => Some(QA)
    case QA => Some(End)
    case Refinement => Some(FileOrganizer)
  }

  /** The static edges of the graph. */
  lemma StaticEdges(g: State)
    ensures Next(Research, g) == Some(Design) && Next(Design, g) == Some(CodeGenerator)
    ensures Next(CodeGenerator, g) == Some(FileOrganizer) && Next(FileOrganizer, g) == Some(QA)
    ensures Next(QA, g) == Some(End) && Next(Refinement, g) == Some(FileOrganizer)
  {
  }

  /** The longest number of steps from a node to the end; every edge lowers it. */
  function Rank(n: Node): nat {
    match n
    case Router => 7
    case Classifier => 6
    case Research => 5
    case Design => 4
    case CodeGenerator => 3
    case Refinement => 3
    case FileOrganizer => 2
    case QA => 1
    case End => 0
  }

  /** Every edge goes to a node of lower rank, so the graph has no cycle. */
  lemma EdgesDescend(n: Node, g: State)
    requires n != End && Next(n, g).Some?
    ensures Rank(Next(n, g).value) < Rank(n)
  {
  }

  /** Only the end has rank 0. */
  lemma RankZeroIsEnd(n: Node)
    ensures Rank(n) == 0 <==> n == End
  {
  }

  // ---------------------------------------------------------------------------
  // Stages

  /** `router_node`: routes only; its patch is empty. */
  function RouterNode(g: State): (patch: State)
    ensures Merge(g, patch) == g
  {
    map[]
  }

  /**
   * What the opaque calls return in one traversal (every stage runs at most once):
   * `client` says whether `get_llm` finds its API key; each model answer is `None` when
   * that call raised.
   */
  datatype StageOutputs = StageOutputs(
    client: bool,
    classification: Option<ClassificationOutput>,
    research: Option<string>,
    design: Option<DesignSpec>,
    generated: Option<seq<CodeFile>>,
    qa: Option<State>,
    refined: Option<seq<CodeFile>>)

  /** The patch a node's stage returns on state `g`, or `None` when it raises. */
  function StagePatch(n: Node, g: State, out: StageOutputs): Option<State>
    requires n != End
  {
    match n
    case Router => Some(RouterNode(g))
    case Classifier => ClassifierAgent(g, out.client, out.classification)
    case Research => ResearchAgent(g, out.client, out.research)
    case Design => DesignAgent(g, out.client, out.design)
    case CodeGenerator => CodeGeneratorAgent(g, out.client, out.generated)
    case FileOrganizer => FileOrganizerAgent(g)
    case QA => out.qa
    case Refinement => RefinementAgent(g, out.client, out.refined)
  }

  /** The stages as the source runs them. */
  method RunStage(n: Node, g: State, out: StageOutputs) returns (patch: Option<State>)
    requires n != End
    ensures patch == StagePatch(n, g, out)
  {
    if n == CodeGenerator {
      patch := RunCodeGenerator(g, out.client, out.generated);
    } else if n == FileOrganizer {
      patch := RunFileOrganizer(g);
    } else if n == Refinement {
      patch := RunRefinement(g, out.client, out.refined);
    } else {
      patch := StagePatch(n, g, out);
    }
  }

  /**
   * The stages of the compiled graph with the given model answers. The traversal below
   * takes its stages as a parameter, as the graph engine does.
   */
  function Pipeline(out: StageOutputs): Stages {
    (n: Node, g: State) => if n == End then None else StagePatch(n, g, out)
  }

  // ---------------------------------------------------------------------------
  // Traversals

  /** A node's stage: its patch for a state, or `None` when it raises. */
  type Stages = (Node, State) -> Option<State>

  /** One node update: the node and the patch it returned. */
  datatype Step = Step(node: Node, patch: State)

  /**
   * A traversal: the node updates in order, the state at the end, and whether the end was
   * reached (`false` when a stage or a routing function raised).
   */
  datatype Trace = Trace(steps: seq<Step>, final: State, completed: bool)

  function Nodes(steps: seq<Step>): (ns: seq<Node>)
    ensures |ns| == |steps| && forall i :: 0 <= i < |steps| ==> ns[i] == steps[i].node
  {
    seq(|steps|, i requires 0 <= i < |steps| => steps[i].node)
  }

  function Patches(steps: seq<Step>): (ps: seq<State>)
    ensures |ps| == |steps| && forall i :: 0 <= i < |steps| ==> ps[i] == steps[i].patch
  {
    seq(|steps|, i requires 0 <= i < |steps| => steps[i].patch)
  }

  /**
   * The traversal from node `n` on state `g`: run the node's stage, merge its patch, pick
   * the successor on the merged state. A node whose stage or routing raises emits no
   * update and leaves the state as it was.
   */
  function TraceFrom(n: Node, g: State, stages: Stages): Trace
    decreases Rank(n)
  {
    if n == End then Trace([], g, true)
    else match stages(n, g)
      case None => Trace([], g, false)
      case Some(patch) =>
        var merged := Merge(g, patch);
        match Next(n, merged)
        case None => Trace([], g, false)
        case Some(next) =>
          EdgesDescend(n, merged);
          var rest := TraceFrom(next, merged, stages);
          Trace([Step(n, patch)] + rest.steps, rest.final, rest.completed)
  }

  /** A traversal of the compiled graph, which always enters at the router. */
  function Traverse(input: State, out: StageOutputs): Trace {
    TraceFrom(Router, input, Pipeline(out))
  }

  /** A traversal that emits an update ran its first node and continued from its successor. */
  lemma Unfold(n: Node, g: State, stages: Stages)
    requires TraceFrom(n, g, stages).steps != []
    ensures n != End && stages(n, g).Some?
    ensures var merged := Merge(g, stages(n, g).value);
      && Next(n, merged).Some?
      && Rank(Next(n, merged).value) < Rank(n)
      && var rest := TraceFrom(Next(n, merged).value, merged, stages);
         TraceFrom(n, g, stages) == Trace([Step(n, stages(n, g).value)] + rest.steps, rest.final, rest.completed)
  {
    EdgesDescend(n, Merge(g, stages(n, g).value));
  }

  /**
   * The nodes of a traversal start at its first node and come in strictly decreasing
   * rank, so no node is visited twice and the end never emits an update.
   */
  lemma {:induction false} RanksDecrease(n: Node, g: State, stages: Stages)
    ensures var ns := Nodes(TraceFrom(n, g, stages).steps);
      && |ns| <= Rank(n)
      && (|ns| > 0 ==> ns[0] == n)
      && (forall i :: 0 <= i < |ns| ==> ns[i] != End && Rank(ns[i]) <= Rank(n))
      && (forall i, j :: 0 <= i < j < |ns| ==> Rank(ns[j]) < Rank(ns[i]))
    decreases Rank(n)
  {
    var t := TraceFrom(n, g, stages);
    if t.steps != [] {
      Unfold(n, g, stages);
      var merged := Merge(g, stages(n, g).value);
      var next := Next(n, merged).value;
      RanksDecrease(next, merged, stages);
      var ns := Nodes(t.steps);
      var rs := Nodes(TraceFrom(next, merged, stages).steps);
      assert ns == [n] + rs;
      assert forall i :: 1 <= i < |ns| ==> ns[i] == rs[i - 1];
      forall i, j | 0 <= i < j < |ns| ensures Rank(ns[j]) < Rank(ns[i]) {
        assert Rank(ns[j]) <= Rank(next) < Rank(n);
        if i > 0 {
          assert ns[i] == rs[i - 1] && ns[j] == rs[j - 1];
        }
      }
    }
  }

  /** From the router, a traversal takes at most seven steps and visits every node at most once. */
  lemma TraversalIsShort(input: State, stages: Stages)
    ensures var ns := Nodes(TraceFrom(Router, input, stages).steps);
      && |ns| <= 7
      && End !in ns
      && forall i, j :: 0 <= i < j < |ns| ==> ns[i] != ns[j]
  {
    RanksDecrease(Router, input, stages);
  }

  /**
   * A traversal of the compiled graph always emits the router's empty update first, and
   * at most seven updates in all.
   */
  lemma TraverseStartsAtRouter(input: State, out: StageOutputs)
    ensures var t := Traverse(input, out);
      1 <= |t.steps| <= 7 && t.steps[0] == Step(Router, map[])
  {
    var stages := Pipeline(out);
    assert stages(Router, input) == Some(map[]);
    TraversalIsShort(input, stages);
  }

  /** The state at the end is the input with every emitted patch merged in order. */
  lemma {:induction false} FinalIsMergeOfPatches(n: Node, g: State, stages: Stages)
    ensures TraceFrom(n, g, stages).final == MergeAll(g, Patches(TraceFrom(n, g, stages).steps))
    decreases Rank(n)
  {
    var t := TraceFrom(n, g, stages);
    if t.steps == [] {
      assert Patches(t.steps) == [];
    } else {
      Unfold(n, g, stages);
      var patch := stages(n, g).value;
      var merged := Merge(g, patch);
      var next := Next(n, merged).value;
      var rest := TraceFrom(next, merged, stages);
      FinalIsMergeOfPatches(next, merged, stages);
      assert Patches(t.steps)[1..] == Patches(rest.steps);
    }
  }

  /** The fixed rest of the path from a node after which no routing function is consulted. */
  function StaticTail(n: Node): seq<Node>
    requires n != Router && n != Classifier
  {
    match n
    case Research => [Research, Design, CodeGenerator, FileOrganizer, QA]
    case Design => [Design, CodeGenerator, FileOrganizer, QA]
    case CodeGenerator => [CodeGenerator, FileOrganizer, QA]
    case Refinement => [Refinement, FileOrganizer, QA]
    case FileOrganizer => [FileOrganizer, QA]
    case QA => [QA]
    case End => []
  }

  /** Putting the same node in front keeps the prefix relation and equality. */
  lemma ConsPrefix(n: Node, xs: seq<Node>, ys: seq<Node>)
    ensures [n] + xs <= [n] + ys <==> xs <= ys
    ensures [n] + xs == [n] + ys <==> xs == ys
  {
    if [n] + xs == [n] + ys {
      assert xs == ([n] + xs)[1..];
    }
    if [n] + xs <= [n] + ys {
      assert xs == ([n] + xs)[1..];
      assert ys[..|xs|] == ([n] + ys)[1..|xs| + 1];
    }
  }

  /** A static node's tail is the node followed by its successor's tail. */
  lemma StaticTailStep(n: Node, g: State)
    requires n != Router && n != Classifier && n != End
    ensures Next(n, g).Some? && Next(n, g).value != Router && Next(n, g).value != Classifier
    ensures StaticTail(n) == [n] + StaticTail(Next(n, g).value)
  {
  }

  /** A traversal that emits no update leaves the state as it was, and reached the end only if it started there. */
  lemma EmptyTrace(n: Node, g: State, stages: Stages)
    ensures var t := TraceFrom(n, g, stages);
      t.steps == [] ==> t.final == g && (t.completed <==> n == End)
  {
  }

  /**
   * After the last routing decision, a traversal follows the static edges: its nodes are
   * a prefix of the static tail, all of it exactly when it reached the end.
   */
  lemma {:induction false} TailShape(n: Node, g: State, stages: Stages)
    requires n != Router && n != Classifier
    ensures var t := TraceFrom(n, g, stages);
      && Nodes(t.steps) <= StaticTail(n)
      && (t.completed <==> Nodes(t.steps) == StaticTail(n))
    decreases Rank(n)
  {
    var t := TraceFrom(n, g, stages);
    if t.steps == [] {
      EmptyTrace(n, g, stages);
    } else {
      Unfold(n, g, stages);
      var merged := Merge(g, stages(n, g).value);
      var next := Next(n, merged).value;
      StaticTailStep(n, merged);
      TailShape(next, merged, stages);
      assert Nodes(t.steps) == [n] + Nodes(TraceFrom(next, merged, stages).steps);
    }
  }

  /** Whether the classifier's patch on `g` routes the traversal to research. */
  function ResearchChosen(g: State, stages: Stages): bool {
    match stages(Classifier, g)
    case Some(patch) => RouteClassifier(Merge(g, patch)) == Some(Research)
    case None => false
  }

  /** The path from the classifier when nothing raises. */
  function ClassifierPath(g: State, stages: Stages): seq<Node> {
    [Classifier] + StaticTail(if ResearchChosen(g, stages) then Research else CodeGenerator)
  }

  /**
   * The path a traversal from the router follows when nothing raises, given that the
   * router's patch is empty: with feedback through refinement; otherwise through the
   * classifier, then research and design when the classifier's patch routes there.
   */
  function ExpectedPath(g: State, stages: Stages): seq<Node> {
    [Router] + (if Truthy(Get(g, UserFeedback, Null)) then StaticTail(Refinement) else ClassifierPath(g, stages))
  }

  /** Where the classifier's routing sends a traversal whose classifier stage succeeded. */
  lemma ClassifierNext(g: State, stages: Stages)
    requires stages(Classifier, g).Some?
    requires Next(Classifier, Merge(g, stages(Classifier, g).value)).Some?
    ensures Next(Classifier, Merge(g, stages(Classifier, g).value)).value
      == if ResearchChosen(g, stages) then Research else CodeGenerator
  {
  }

  /** The traversal from the classifier: a prefix of the path its routing chooses. */
  lemma ClassifierShape(g: State, stages: Stages)
    ensures var t := TraceFrom(Classifier, g, stages);
      Nodes(t.steps) <= ClassifierPath(g, stages) && (t.completed <==> Nodes(t.steps) == ClassifierPath(g, stages))
  {
    var t := TraceFrom(Classifier, g, stages);
    if t.steps == [] {
      EmptyTrace(Classifier, g, stages);
    } else {
      Unfold(Classifier, g, stages);
      var merged := Merge(g, stages(Classifier, g).value);
      var next := Next(Classifier, merged).value;
      ClassifierNext(g, stages);
      TailShape(next, merged, stages);
      var rest := Nodes(TraceFrom(next, merged, stages).steps);
      assert Nodes(t.steps) == [Classifier] + rest;
      ConsPrefix(Classifier, rest, StaticTail(next));
    }
  }

  /** With an empty router patch, the router emits its update and hands the state on unchanged. */
  lemma RouterStep(g: State, stages: Stages)
    requires stages(Router, g) == Some(map[])
    ensures var rest := TraceFrom(RouteStart(g), g, stages);
      TraceFrom(Router, g, stages) == Trace([Step(Router, map[])] + rest.steps, rest.final, rest.completed)
  {
    assert Merge(g, map[]) == g;
    EdgesDescend(Router, g);
  }

  /**
   * Every traversal from the router whose router patch is empty follows a prefix of the
   * expected path, and all of it exactly when it reached the end.
   */
  lemma PathFromRouter(g: State, stages: Stages)
    requires stages(Router, g) == Some(map[])
    ensures var t := TraceFrom(Router, g, stages);
      && Nodes(t.steps) <= ExpectedPath(g, stages)
      && (t.completed <==> Nodes(t.steps) == ExpectedPath(g, stages))
  {
    var t := TraceFrom(Router, g, stages);
    RouterStep(g, stages);
    var rest := TraceFrom(RouteStart(g), g, stages);
    assert Nodes(t.steps) == [Router] + Nodes(rest.steps);
    var tail := if Truthy(Get(g, UserFeedback, Null)) then StaticTail(Refinement) else ClassifierPath(g, stages);
    if Truthy(Get(g, UserFeedback, Null)) {
      TailShape(Refinement, g, stages);
    } else {
      ClassifierShape(g, stages);
    }
    ConsPrefix(Router, Nodes(rest.steps), tail);
  }

  /** A node missing from a path is missing from each of its prefixes. */
  lemma NotInPrefix(ns: seq<Node>, path: seq<Node>, n: Node)
    requires ns <= path && n !in path
    ensures n !in ns
  {
  }

  /** With feedback the expected path runs through refinement. */
  lemma FeedbackPath(g: State, stages: Stages)
    requires Truthy(Get(g, UserFeedback, Null))
    ensures ExpectedPath(g, stages) == [Router, Refinement, FileOrganizer, QA]
  {
  }

  /** Every expected path starts at the router and ends with the file organizer and qa. */
  lemma ExpectedPathEnds(g: State, stages: Stages, p: seq<Node>)
    requires p == ExpectedPath(g, stages)
    ensures |p| >= 4 && p[0] == Router && p[|p| - 2] == FileOrganizer && p[|p| - 1] == QA
  {
  }

  /** A prefix of the refinement path holds none of the generation nodes. */
  lemma RefinementPrefix(ns: seq<Node>)
    requires ns <= [Router, Refinement, FileOrganizer, QA]
    ensures Classifier !in ns && Research !in ns && Design !in ns && CodeGenerator !in ns
  {
  }

  /** A traversal with feedback never visits the classifier, research, design or the code generator. */
  lemma FeedbackSkipsGeneration(g: State, stages: Stages)
    requires stages(Router, g) == Some(map[])
    requires Truthy(Get(g, UserFeedback, Null))
    ensures var ns := Nodes(TraceFrom(Router, g, stages).steps);
      Classifier !in ns && Research !in ns && Design !in ns && CodeGenerator !in ns
  {
    PathFromRouter(g, stages);
    FeedbackPath(g, stages);
    RefinementPrefix(Nodes(TraceFrom(Router, g, stages).steps));
  }

  /** A traversal without feedback never visits refinement. */
  lemma NoFeedbackSkipsRefinement(g: State, stages: Stages)
    requires stages(Router, g) == Some(map[])
    requires !Truthy(Get(g, UserFeedback, Null))
    ensures Refinement !in Nodes(TraceFrom(Router, g, stages).steps)
  {
    PathFromRouter(g, stages);
    var path := ExpectedPath(g, stages);
    assert Refinement !in path;
    NotInPrefix(Nodes(TraceFrom(Router, g, stages).steps), path, Refinement);
  }

  /** A traversal from the router that reaches the end took its last two steps through the file organizer and qa. */
  lemma CompletedEndsWithOrganizerAndQa(g: State, stages: Stages)
    requires stages(Router, g) == Some(map[])
    requires TraceFrom(Router, g, stages).completed
    ensures var ns := Nodes(TraceFrom(Router, g, stages).steps);
      |ns| >= 4 && ns[0] == Router && ns[|ns| - 2] == FileOrganizer && ns[|ns| - 1] == QA
  {
    PathFromRouter(g, stages);
    ExpectedPathEnds(g, stages, Nodes(TraceFrom(Router, g, stages).steps));
  }

  /**
   * Every completed traversal from a node of rank two or more ends with a completed
   * traversal from the file organizer, run on the returned state `h`.
   */
  lemma {:induction false} ThroughOrganizer(n: Node, g: State, stages: Stages) returns (h: State)
    requires Rank(n) >= 2 && TraceFrom(n, g, stages).completed
    ensures TraceFrom(FileOrganizer, h, stages).completed
    ensures TraceFrom(FileOrganizer, h, stages).final == TraceFrom(n, g, stages).final
    decreases Rank(n)
  {
    if n == FileOrganizer {
      h := g;
    } else {
      EmptyTrace(n, g, stages);
      Unfold(n, g, stages);
      var merged := Merge(g, stages(n, g).value);
      var next := Next(n, merged).value;
      assert Rank(next) >= 2;
      h := ThroughOrganizer(next, merged, stages);
    }
  }

  /** A completed traversal from the file organizer merged its patch and then qa's. */
  lemma OrganizerTail(h: State, stages: Stages)
    requires TraceFrom(FileOrganizer, h, stages).completed
    ensures stages(FileOrganizer, h).Some?
    ensures var organized := Merge(h, stages(FileOrganizer, h).value);
      && stages(QA, organized).Some?
      && TraceFrom(FileOrganizer, h, stages).final == Merge(organized, stages(QA, organized).value)
  {
    EmptyTrace(FileOrganizer, h, stages);
    Unfold(FileOrganizer, h, stages);
    var organized := Merge(h, stages(FileOrganizer, h).value);
    EmptyTrace(QA, organized, stages);
    Unfold(QA, organized, stages);
  }

  /**
   * When the file organizer is the source's and the qa patch leaves `current_files`
   * alone, a completed traversal from the organizer ends with the organized files.
   */
  lemma OrganizedFiles(h: State, stages: Stages)
    requires TraceFrom(FileOrganizer, h, stages).completed
    requires stages(FileOrganizer, h) == FileOrganizerAgent(h)
    requires FileOrganizerAgent(h).Some? ==>
      var qa := stages(QA, Merge(h, FileOrganizerAgent(h).value));
      qa.Some? ==> CurrentFiles !in qa.value
    ensures var final := TraceFrom(FileOrganizer, h, stages).final;
      var organized := OrganizeValue(Get(h, CurrentFiles, Dict(map[])));
      && organized.Some?
      && CurrentFiles in final
      && final[CurrentFiles] == organized.value
  {
    OrganizerTail(h, stages);
  }

  /**
   * A completed traversal with feedback ran refinement, the file organizer and qa, each
   * on the state the previous one left, and ended with qa's patch merged.
   */
  lemma RefinementBranch(g: State, stages: Stages)
    requires stages(Router, g) == Some(map[])
    requires Truthy(Get(g, UserFeedback, Null))
    requires TraceFrom(Router, g, stages).completed
    ensures stages(Refinement, g).Some?
    ensures var refined := Merge(g, stages(Refinement, g).value);
      && stages(FileOrganizer, refined).Some?
      && var organized := Merge(refined, stages(FileOrganizer, refined).value);
        && stages(QA, organized).Some?
        && TraceFrom(Router, g, stages).final == Merge(organized, stages(QA, organized).value)
  {
    RouterStep(g, stages);
    assert RouteStart(g) == Refinement;
    EmptyTrace(Refinement, g, stages);
    Unfold(Refinement, g, stages);
    var refined := Merge(g, stages(Refinement, g).value);
    StaticEdges(refined);
    OrganizerTail(refined, stages);
  }

  /**
   * On the refinement branch, a key that holds `v` after the refinement stage and that
   * neither the file organizer nor qa writes still holds `v` at the end.
   */
  lemma RefinementKeepsKey(g: State, stages: Stages, key: string, v: Value)
    requires stages(Router, g) == Some(map[])
    requires Truthy(Get(g, UserFeedback, Null))
    requires TraceFrom(Router, g, stages).completed
    requires stages(Refinement, g).Some? ==> Get(Merge(g, stages(Refinement, g).value), key, Null) == v
    requires forall h :: stages(FileOrganizer, h).Some? ==> key !in stages(FileOrganizer, h).value
    requires forall h :: stages(QA, h).Some? ==> key !in stages(QA, h).value
    ensures Get(TraceFrom(Router, g, stages).final, key, Null) == v
  {
    RefinementBranch(g, stages);
    var refined := Merge(g, stages(Refinement, g).value);
    var organized := Merge(refined, stages(FileOrganizer, refined).value);
    assert Get(organized, key, Null) == v;
  }

  // ---------------------------------------------------------------------------
  // The compiled graph

  /** The compiled graph's router returns an empty patch. */
  lemma PipelineRouterIsEmpty(g: State, out: StageOutputs)
    ensures Pipeline(out)(Router, g) == Some(map[])
  {
  }

  /** The compiled graph's refinement stage. */
  lemma PipelineRefinement(g: State, out: StageOutputs)
    ensures Pipeline(out)(Refinement, g) == RefinementAgent(g, out.client, out.refined)
  {
  }

  /** In the compiled graph, the file organizer writes only `current_files` and qa writes its own patch. */
  lemma PipelineTailWrites(out: StageOutputs)
    ensures forall h :: Pipeline(out)(FileOrganizer, h).Some? ==> Pipeline(out)(FileOrganizer, h).value.Keys == {CurrentFiles}
    ensures forall h :: Pipeline(out)(QA, h) == out.qa
  {
  }

  /** The compiled graph's file organizer and qa stages. */
  lemma PipelineTail(g: State, out: StageOutputs)
    ensures Pipeline(out)(FileOrganizer, g) == FileOrganizerAgent(g)
    ensures Pipeline(out)(QA, g) == out.qa
  {
  }

  /**
   * A traversal of the compiled graph follows a prefix of the expected path, all of it
   * exactly when it reached the end.
   */
  lemma TraversalFollowsExpectedPath(input: State, out: StageOutputs)
    ensures var t := Traverse(input, out);
      && Nodes(t.steps) <= ExpectedPath(input, Pipeline(out))
      && (t.completed <==> Nodes(t.steps) == ExpectedPath(input, Pipeline(out)))
  {
    PipelineRouterIsEmpty(input, out);
    PathFromRouter(input, Pipeline(out));
  }

  /**
   * When a client is configured but the classification call raises, the fallback
   * classification (user level "beginner") sends the traversal to research.
   */
  lemma FallbackRoutesToResearch(g: State, out: StageOutputs)
    requires OriginalPrompt in g && g[OriginalPrompt].Str?
    requires out.client && out.classification.None?
    ensures ResearchChosen(g, Pipeline(out))
  {
    var patch := ClassifierAgent(g, true, None).value;
    var c := Merge(g, patch)[ClassificationKey].fields;
    assert c["user_level"] == Str("beginner");
  }

  /**
   * A completed traversal of the compiled graph leaves project files that hold a
   * package.json, an index.html and a .gitignore (in a dictionary, or in a list that
   * already held them), provided the qa stage does not replace `current_files`.
   */
  lemma CompletedTraversalHasProjectFiles(input: State, out: StageOutputs)
    requires out.qa.Some? ==> CurrentFiles !in out.qa.value
    ensures var t := Traverse(input, out);
      t.completed ==> CurrentFiles in t.final && HasProjectFiles(t.final[CurrentFiles])
  {
    var stages := Pipeline(out);
    if Traverse(input, out).completed {
      var h := ThroughOrganizer(Router, input, stages);
      PipelineTail(h, out);
      if FileOrganizerAgent(h).Some? {
        PipelineTail(Merge(h, FileOrganizerAgent(h).value), out);
      }
      OrganizedFiles(h, stages);
      OrganizeValueComplete(Get(h, CurrentFiles, Dict(map[])));
    }
  }

  /** One step of a traversal, as the engine takes it: raise, stop at a failed routing, or advance. */
  lemma StepOf(n: Node, g: State, stages: Stages)
    requires n != End
    ensures stages(n, g).None? ==> TraceFrom(n, g, stages) == Trace([], g, false)
    ensures stages(n, g).Some? && Next(n, Merge(g, stages(n, g).value)).None? ==>
      TraceFrom(n, g, stages) == Trace([], g, false)
    ensures stages(n, g).Some? && Next(n, Merge(g, stages(n, g).value)).Some? ==>
      var merged := Merge(g, stages(n, g).value);
      var rest := TraceFrom(Next(n, merged).value, merged, stages);
      TraceFrom(n, g, stages) == Trace([Step(n, stages(n, g).value)] + rest.steps, rest.final, rest.completed)
  {
  }

  /** The compiled graph runs a node's stage. */
  lemma PipelineStage(n: Node, g: State, out: StageOutputs)
    requires n != End
    ensures Pipeline(out)(n, g) == StagePatch(n, g, out)
  {
  }

  /** What is left of a traversal `whole` after `steps`, from node `n` on state `g`. */
  predicate Remains(whole: Trace, steps: seq<Step>, n: Node, g: State, stages: Stages) {
    var rest := TraceFrom(n, g, stages);
    whole == Trace(steps + rest.steps, rest.final, rest.completed)
  }

  /** Where a stage or a routing function raises, the traversal stops where it is. */
  lemma StopHere(whole: Trace, steps: seq<Step>, n: Node, g: State, stages: Stages)
    requires n != End && Remains(whole, steps, n, g, stages)
    requires stages(n, g).None? || Next(n, Merge(g, stages(n, g).value)).None?
    ensures whole == Trace(steps, g, false)
  {
    StepOf(n, g, stages);
  }

  /** Where both succeed, the rest of the traversal follows the chosen edge. */
  lemma StepOn(whole: Trace, steps: seq<Step>, n: Node, g: State, stages: Stages)
    requires n != End && Remains(whole, steps, n, g, stages)
    requires stages(n, g).Some? && Next(n, Merge(g, stages(n, g).value)).Some?
    ensures var merged := Merge(g, stages(n, g).value);
      Remains(whole, steps + [Step(n, stages(n, g).value)], Next(n, merged).value, merged, stages)
  {
    StepOf(n, g, stages);
    var merged := Merge(g, stages(n, g).value);
    var rest := TraceFrom(Next(n, merged).value, merged, stages);
    assert steps + ([Step(n, stages(n, g).value)] + rest.steps) == (steps + [Step(n, stages(n, g).value)]) + rest.steps;
  }

  /**
   * The graph engine's run of a compiled graph `graph` (for this repository's graph,
   * `Pipeline(out)`, whose stages `RunStage` runs): from the router, run each node's
   * stage, merge its patch, record the update and follow the chosen edge until the end,
   * or stop where a stage or a routing function raises.
   */
  method Run(input: State, graph: Stages) returns (t: Trace)
    ensures t == TraceFrom(Router, input, graph)
  {
    ghost var whole := TraceFrom(Router, input, graph);
    var node := Router;
    var g := input;
    var steps: seq<Step> := [];
    while node != End
      invariant Remains(whole, steps, node, g, graph)
      decreases Rank(node)
    {
      var patch := graph(node, g);
      if patch.None? {
        StopHere(whole, steps, node, g, graph);
        return Trace(steps, g, false);
      }
      var merged := Merge(g, patch.value);
      var next := Next(node, merged);
      if next.None? {
        StopHere(whole, steps, node, g, graph);
        return Trace(steps, g, false);
      }
      EdgesDescend(node, merged);
      StepOn(whole, steps, node, g, graph);
      steps := steps + [Step(node, patch.value)];
      node := next.value;
      g := merged;
    }
    t := Trace(steps, g, true);
    assert TraceFrom(End, g, graph) == Trace([], g, true);
    assert steps + [] == steps;
  }
}
