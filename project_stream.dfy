/**
 * The event streams of /generate and /refine (app/api/agent_routes.py:51-72 and
 * 100-111): the chunks `graph.astream` yields, one per node update, and how each route
 * consumes them into the stored project state and into the events it sends. Events are
 * values; their Server-Sent-Events text framing is not modelled.
 */
module ProjectStream {
  import opened Wrappers
  import opened PyValues
  import opened GraphState
  import opened Workflow

  /** The key under which a chunk is skipped. */
  const EndKey := "__end__"
  const GenerateMessage := "Processing..."
  const RefineMessage := "Refining..."

  /** One chunk of `graph.astream`: the name of the node that ran and the update it streamed. */
  datatype Chunk = Chunk(key: string, value: Value)

  /** The events a stream sends, in the order of the sequence. */
  datatype Event =
    | Init(projectId: string)
    | Progress(node: string, message: string)
    | FilesUpdate(files: Value)
    | Complete(projectId: string, files: Value)

  /**
   * How a node's patch is streamed: as a dictionary, except that with `emptyAsNull` an
   * empty patch is streamed as `None` (what the graph engine streams for a node that
   * writes nothing depends on its version).
   */
  function UpdateValue(patch: State, emptyAsNull: bool): (v: Value)
    ensures v == Null || v == Dict(patch)
    ensures v == Null <==> emptyAsNull && patch == map[]
  {
    if emptyAsNull && patch == map[] then Null else Dict(patch)
  }

  /** The chunks a traversal streams: one per node update, in order. */
  function Chunks(steps: seq<Step>, emptyAsNull: bool): (cs: seq<Chunk>)
    ensures |cs| == |steps|
    ensures forall i :: 0 <= i < |steps| ==>
      cs[i] == Chunk(NodeName(steps[i].node), UpdateValue(steps[i].patch, emptyAsNull))
  {
    seq(|steps|, i requires 0 <= i < |steps| => Chunk(NodeName(steps[i].node), UpdateValue(steps[i].patch, emptyAsNull)))
  }

  /** The names of the nodes of a traversal, in order. */
  function NodeNames(steps: seq<Step>): (names: seq<string>)
    ensures |names| == |steps|
    decreases |steps|
  {
    if steps == [] then [] else NodeNames(steps[..|steps| - 1]) + [NodeName(steps[|steps| - 1].node)]
  }

  // ---------------------------------------------------------------------------
  // /generate

  /**
   * The stored state after one chunk of /generate: a dictionary streamed under a node's
   * name is merged at the top level; `None`, any other value and the end chunk are ignored.
   */
  function AbsorbChunk(s: State, c: Chunk): (r: State)
    ensures s.Keys <= r.Keys
    ensures c.key != EndKey && c.value.Dict? ==>
      r.Keys == s.Keys + c.value.fields.Keys && forall k :: k in c.value.fields ==> r[k] == c.value.fields[k]
    ensures forall k :: k in s && !(c.key != EndKey && c.value.Dict? && k in c.value.fields) ==> r[k] == s[k]
  {
    if c.key != EndKey && c.value.Dict? then Merge(s, c.value.fields) else s
  }

  /** The stored state after the chunks, absorbed in order. */
  function AbsorbAll(s: State, cs: seq<Chunk>): State
    decreases |cs|
  {
    if cs == [] then s else AbsorbChunk(AbsorbAll(s, cs[..|cs| - 1]), cs[|cs| - 1])
  }

  /**
   * The events /generate sends for one chunk: a progress event for every chunk but the
   * end, then a files event when the streamed value is a dictionary holding `current_files`.
   */
  function GenerateChunkEvents(c: Chunk): (evs: seq<Event>)
    ensures Between(evs, GenerateMessage)
    ensures c.key != EndKey <==> |evs| > 0 && evs[0] == Progress(c.key, GenerateMessage)
    ensures (|evs| > 0 && evs[|evs| - 1].FilesUpdate?) <==> c.value.Dict? && CurrentFiles in c.value.fields
    ensures |evs| > 0 && evs[|evs| - 1].FilesUpdate? ==> evs[|evs| - 1].files == c.value.fields[CurrentFiles]
  {
    (if c.key != EndKey then [Progress(c.key, GenerateMessage)] else [])
    + (if Truthy(c.value) && c.value.Dict? && CurrentFiles in c.value.fields
       then [FilesUpdate(c.value.fields[CurrentFiles])] else [])
  }

  /** The events /generate sends for the chunks, between its init and complete events. */
  function GenerateEvents(cs: seq<Chunk>): seq<Event>
    decreases |cs|
  {
    if cs == [] then [] else GenerateEvents(cs[..|cs| - 1]) + GenerateChunkEvents(cs[|cs| - 1])
  }

  /** One more chunk of /generate: the stored state absorbs it and its events follow. */
  lemma GenerateOneMore(s: State, cs: seq<Chunk>, i: nat)
    requires i < |cs|
    ensures AbsorbAll(s, cs[..i + 1]) == AbsorbChunk(AbsorbAll(s, cs[..i]), cs[i])
    ensures GenerateEvents(cs[..i + 1]) == GenerateEvents(cs[..i]) + GenerateChunkEvents(cs[i])
  {
    assert cs[..i + 1][..i] == cs[..i];
  }

  // ---------------------------------------------------------------------------
  // /refine

  /** Where a /refine stream stands: the stored state, the events sent, and whether it is still running. */
  datatype Consumed = Consumed(state: State, events: seq<Event>, ok: bool)

  /**
   * One chunk of /refine: every chunk but the end is passed to `dict.update`, which
   * merges a dictionary and raises on anything else (`None` included), ending the stream.
   */
  function RefineChunk(r: Consumed, c: Chunk): (next: Consumed)
    ensures !r.ok ==> next == r
    ensures next.ok ==> r.ok
    ensures r.ok && c.key != EndKey ==> (next.ok <==> c.value.Dict?)
    ensures r.events <= next.events && |next.events| <= |r.events| + 1
    ensures |next.events| > |r.events| ==> next.events[|r.events|] == Progress(c.key, RefineMessage)
  {
    if !r.ok || c.key == EndKey then r
    else match c.value
      case Dict(patch) => Consumed(Merge(r.state, patch), r.events + [Progress(c.key, RefineMessage)], true)
      case _ => Consumed(r.state, r.events, false)
  }

  /** The /refine stream after the chunks, consumed in order. */
  function RefineAll(s: State, cs: seq<Chunk>): (r: Consumed)
    ensures |r.events| <= |cs|
    ensures forall i :: 0 <= i < |r.events| ==> r.events[i].Progress? && r.events[i].message == RefineMessage
    decreases |cs|
  {
    if cs == [] then Consumed(s, [], true) else RefineChunk(RefineAll(s, cs[..|cs| - 1]), cs[|cs| - 1])
  }

  // ---------------------------------------------------------------------------
  // What the streams contain

  /** The nodes named by the progress events, in order. */
  function ProgressNodes(evs: seq<Event>): seq<string>
    decreases |evs|
  {
    if evs == [] then []
    else ProgressNodes(evs[..|evs| - 1]) + (if evs[|evs| - 1].Progress? then [evs[|evs| - 1].node] else [])
  }

  /** The file maps carried by the files events, in order. */
  function FilesSent(evs: seq<Event>): seq<Value>
    decreases |evs|
  {
    if evs == [] then []
    else FilesSent(evs[..|evs| - 1]) + (if evs[|evs| - 1].FilesUpdate? then [evs[|evs| - 1].files] else [])
  }

  /** The `current_files` of the patches that hold one, in order. */
  function FilesOfPatches(steps: seq<Step>): seq<Value>
    decreases |steps|
  {
    if steps == [] then []
    else
      var p := steps[|steps| - 1].patch;
      FilesOfPatches(steps[..|steps| - 1]) + (if CurrentFiles in p then [p[CurrentFiles]] else [])
  }

  /** Neither an init nor a complete event, and every progress event carries `message`. */
  predicate Between(evs: seq<Event>, message: string) {
    forall i :: 0 <= i < |evs| ==> !evs[i].Init? && !evs[i].Complete? && (evs[i].Progress? ==> evs[i].message == message)
  }

  lemma {:induction false} ProgressNodesAppend(a: seq<Event>, b: seq<Event>)
    ensures ProgressNodes(a + b) == ProgressNodes(a) + ProgressNodes(b)
    ensures FilesSent(a + b) == FilesSent(a) + FilesSent(b)
    decreases |b|
  {
    if b == [] {
      assert a + b == a;
    } else {
      assert (a + b)[..|a + b| - 1] == a + b[..|b| - 1];
      ProgressNodesAppend(a, b[..|b| - 1]);
    }
  }

  /** The chunks of a prefix of a traversal are the prefix of its chunks. */
  lemma ChunksPrefix(steps: seq<Step>, n: nat, emptyAsNull: bool)
    requires n <= |steps|
    ensures Chunks(steps, emptyAsNull)[..n] == Chunks(steps[..n], emptyAsNull)
  {
  }

  /** The chunk of one node update. */
  function ChunkOf(step: Step, emptyAsNull: bool): Chunk {
    Chunk(NodeName(step.node), UpdateValue(step.patch, emptyAsNull))
  }

  /** A node update is never streamed under the end's key. */
  lemma KeyIsNotEnd(step: Step, emptyAsNull: bool)
    requires step.node != End
    ensures ChunkOf(step, emptyAsNull).key != EndKey
  {
    OnlyEndIsNamedEnd(step.node);
  }

  /** /generate merges the patch of a node update. */
  lemma AbsorbOne(s: State, step: Step, emptyAsNull: bool)
    requires step.node != End
    ensures AbsorbChunk(s, ChunkOf(step, emptyAsNull)) == Merge(s, step.patch)
  {
    KeyIsNotEnd(step, emptyAsNull);
    assert Merge(s, map[]) == s;
  }

  /** /generate sends a progress event for a node update, then its files if the patch holds them. */
  lemma GenerateOne(step: Step, emptyAsNull: bool)
    requires step.node != End
    ensures var evs := GenerateChunkEvents(ChunkOf(step, emptyAsNull));
      && Between(evs, GenerateMessage)
      && ProgressNodes(evs) == [NodeName(step.node)]
      && FilesSent(evs) == (if CurrentFiles in step.patch then [step.patch[CurrentFiles]] else [])
  {
    var c := ChunkOf(step, emptyAsNull);
    KeyIsNotEnd(step, emptyAsNull);
    var progress := [Progress(c.key, GenerateMessage)];
    var files := if CurrentFiles in step.patch then [FilesUpdate(step.patch[CurrentFiles])] else [];
    assert GenerateChunkEvents(c) == progress + files;
    ProgressNodesAppend(progress, files);
    assert progress[..0] == [];
    if files != [] {
      assert files[..0] == [];
    }
  }

  /** A running /refine stream merges the patch of a node update streamed as a dictionary. */
  lemma RefineOne(r: Consumed, step: Step)
    requires r.ok && step.node != End
    ensures RefineChunk(r, ChunkOf(step, false))
      == Consumed(Merge(r.state, step.patch), r.events + [Progress(NodeName(step.node), RefineMessage)], true)
  {
    KeyIsNotEnd(step, false);
  }

  /**
   * The chunks of a traversal, absorbed by /generate, leave the input with every patch
   * merged in order (an empty patch streamed as `None` changes nothing either way).
   */
  lemma {:induction false} AbsorbAllIsMergeAll(s: State, steps: seq<Step>, emptyAsNull: bool)
    requires forall i :: 0 <= i < |steps| ==> steps[i].node != End
    ensures AbsorbAll(s, Chunks(steps, emptyAsNull)) == MergeAll(s, Patches(steps))
    decreases |steps|
  {
    if steps != [] {
      var n := |steps| - 1;
      var cs := Chunks(steps, emptyAsNull);
      ChunksPrefix(steps, n, emptyAsNull);
      assert cs[n] == ChunkOf(steps[n], emptyAsNull);
      assert Patches(steps) == Patches(steps[..n]) + [steps[n].patch];
      AbsorbAllIsMergeAll(s, steps[..n], emptyAsNull);
      MergeAllSnoc(s, Patches(steps[..n]), steps[n].patch);
      AbsorbOne(MergeAll(s, Patches(steps[..n])), steps[n], emptyAsNull);
    }
  }

  /** Progress events for the given nodes, in order, all with `message`. */
  function ProgressEvents(names: seq<string>, message: string): (evs: seq<Event>)
    ensures |evs| == |names|
    decreases |names|
  {
    if names == [] then [] else ProgressEvents(names[..|names| - 1], message) + [Progress(names[|names| - 1], message)]
  }

  /** /generate sends no init or complete event for the chunks, and only its own progress message. */
  lemma {:induction false} GenerateEventsBetween(steps: seq<Step>, emptyAsNull: bool)
    requires forall i :: 0 <= i < |steps| ==> steps[i].node != End
    ensures Between(GenerateEvents(Chunks(steps, emptyAsNull)), GenerateMessage)
    decreases |steps|
  {
    if steps != [] {
      var n := |steps| - 1;
      var cs := Chunks(steps, emptyAsNull);
      ChunksPrefix(steps, n, emptyAsNull);
      assert cs[n] == ChunkOf(steps[n], emptyAsNull);
      GenerateEventsBetween(steps[..n], emptyAsNull);
      GenerateOne(steps[n], emptyAsNull);
    }
  }

  /**
   * For the chunks of a traversal, /generate sends one progress event per node in order,
   * and files events carrying the `current_files` of exactly the patches that hold one.
   */
  lemma {:induction false} GenerateEventsOfSteps(steps: seq<Step>, emptyAsNull: bool)
    requires forall i :: 0 <= i < |steps| ==> steps[i].node != End
    ensures var evs := GenerateEvents(Chunks(steps, emptyAsNull));
      && ProgressNodes(evs) == NodeNames(steps)
      && FilesSent(evs) == FilesOfPatches(steps)
    decreases |steps|
  {
    if steps != [] {
      var n := |steps| - 1;
      var cs := Chunks(steps, emptyAsNull);
      ChunksPrefix(steps, n, emptyAsNull);
      assert cs[n] == ChunkOf(steps[n], emptyAsNull);
      GenerateEventsOfSteps(steps[..n], emptyAsNull);
      GenerateOne(steps[n], emptyAsNull);
      ProgressNodesAppend(GenerateEvents(cs[..n]), GenerateChunkEvents(cs[n]));
    }
  }

  /**
   * When every update is streamed as a dictionary, /refine merges every patch in order,
   * sends one progress event per node and runs to the end of the chunks.
   */
  lemma {:induction false} RefineAllOfDictionaries(s: State, steps: seq<Step>)
    requires forall i :: 0 <= i < |steps| ==> steps[i].node != End
    ensures var r := RefineAll(s, Chunks(steps, false));
      r == Consumed(MergeAll(s, Patches(steps)), ProgressEvents(NodeNames(steps), RefineMessage), true)
    decreases |steps|
  {
    if steps != [] {
      var n := |steps| - 1;
      var cs := Chunks(steps, false);
      ChunksPrefix(steps, n, false);
      assert cs[n] == ChunkOf(steps[n], false);
      assert Patches(steps) == Patches(steps[..n]) + [steps[n].patch];
      RefineAllOfDictionaries(s, steps[..n]);
      MergeAllSnoc(s, Patches(steps[..n]), steps[n].patch);
      RefineOne(RefineAll(s, cs[..n]), steps[n]);
      assert NodeNames(steps)[..n] == NodeNames(steps[..n]);
    }
  }

  /** Once a /refine stream has raised, later chunks change nothing. */
  lemma {:induction false} RefineStaysStopped(s: State, cs: seq<Chunk>, k: nat)
    requires k <= |cs| && !RefineAll(s, cs[..k]).ok
    ensures RefineAll(s, cs) == RefineAll(s, cs[..k])
    decreases |cs| - k
  {
    if k < |cs| {
      assert cs[..k + 1][..k] == cs[..k];
      RefineStaysStopped(s, cs, k + 1);
    } else {
      assert cs[..k] == cs;
    }
  }

  // ---------------------------------------------------------------------------
  // The streams of a traversal

  /** No update of a traversal comes from the end. */
  lemma NoEndStep(n: Node, g: State, stages: Stages)
    ensures var steps := TraceFrom(n, g, stages).steps;
      forall i :: 0 <= i < |steps| ==> steps[i].node != End
  {
    RanksDecrease(n, g, stages);
  }

  /** /generate stores the traversal's final state, however empty updates are streamed. */
  lemma GenerateStoresFinal(n: Node, g: State, stages: Stages, emptyAsNull: bool)
    ensures var t := TraceFrom(n, g, stages);
      AbsorbAll(g, Chunks(t.steps, emptyAsNull)) == t.final
  {
    var t := TraceFrom(n, g, stages);
    NoEndStep(n, g, stages);
    FinalIsMergeOfPatches(n, g, stages);
    AbsorbAllIsMergeAll(g, t.steps, emptyAsNull);
  }

  /**
   * /generate stores the traversal's final state, however empty updates are streamed,
   * and reports the nodes in the order they ran.
   */
  lemma GenerateStream(n: Node, g: State, stages: Stages, emptyAsNull: bool)
    ensures var t := TraceFrom(n, g, stages);
      var evs := GenerateEvents(Chunks(t.steps, emptyAsNull));
      && AbsorbAll(g, Chunks(t.steps, emptyAsNull)) == t.final
      && Between(evs, GenerateMessage)
      && ProgressNodes(evs) == NodeNames(t.steps)
      && FilesSent(evs) == FilesOfPatches(t.steps)
  {
    var t := TraceFrom(n, g, stages);
    NoEndStep(n, g, stages);
    FinalIsMergeOfPatches(n, g, stages);
    AbsorbAllIsMergeAll(g, t.steps, emptyAsNull);
    GenerateEventsBetween(t.steps, emptyAsNull);
    GenerateEventsOfSteps(t.steps, emptyAsNull);
  }

  /** With every update streamed as a dictionary, /refine stores the traversal's final state. */
  lemma RefineStream(n: Node, g: State, stages: Stages)
    ensures var t := TraceFrom(n, g, stages);
      RefineAll(g, Chunks(t.steps, false)) == Consumed(t.final, ProgressEvents(NodeNames(t.steps), RefineMessage), true)
  {
    var t := TraceFrom(n, g, stages);
    NoEndStep(n, g, stages);
    FinalIsMergeOfPatches(n, g, stages);
    RefineAllOfDictionaries(g, t.steps);
  }

  /**
   * When empty updates are streamed as `None`, /refine raises on the router's update:
   * the stream sends no progress event and the store keeps the state it started with.
   */
  lemma RefineStopsAtRouter(g: State, stages: Stages)
    requires stages(Router, g) == Some(map[])
    ensures RefineAll(g, Chunks(TraceFrom(Router, g, stages).steps, true)) == Consumed(g, [], false)
  {
    var t := TraceFrom(Router, g, stages);
    RouterStep(g, stages);
    var cs := Chunks(t.steps, true);
    assert cs[0] == Chunk("router", Null);
    assert cs[..1][..0] == [];
    assert RefineAll(g, cs[..1]) == Consumed(g, [], false);
    RefineStaysStopped(g, cs, 1);
  }
}
