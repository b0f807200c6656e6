/**
 * The project routes (app/api/agent_routes.py): the module-level `PROJECT_STATES` store
 * and the /generate, /refine, /execute and /status handlers that read and update it. The
 * request records are modelled from the fields the handlers read. A stream's events are
 * returned as a sequence; a stream that ends without a complete event broke off because
 * the graph or the route raised. The routes run the compiled graph `graph`, which with the
 * model's answers `out` is `Pipeline(out)`. The graph runs to its end before its chunks are consumed,
 * which is equivalent to the source's interleaving because the graph works on its own copy
 * of the state.
 */
module AgentRoutes {
  import opened Wrappers
  import opened PyValues
  import opened GraphState
  import opened Workflow
  import opened ProjectStream
  import opened RefinementStage
  import opened FileOrganizerStage

  datatype GenerateRequest = GenerateRequest(prompt: string, userId: string)
  datatype RefineRequest = RefineRequest(projectId: string, feedback: string)
  datatype ExecuteRequest = ExecuteRequest(projectId: string, files: Option<map<string, Value>>)

  /** The body /execute answers with. */
  datatype ExecuteResponse = ExecuteResponse(status: string, message: string, judge0Note: string, filesCount: nat)

  const NotFound := HttpError(404, "Project not found")
  const NoFiles := HttpError(400, "No files provided " + "or found in state.")
  /** What the server answers when a handler raises an exception it does not catch. */
  const InternalError := HttpError(500, "Internal Server Error")

  /** The state /generate stores and runs the graph on. */
  function InitialState(req: GenerateRequest): (s: State)
    ensures s.Keys == {OriginalPrompt, UserId, ConversationHistory, IterationCount, CurrentFiles, UserFeedback}
    ensures s[OriginalPrompt] == Str(req.prompt) && s[UserId] == Str(req.userId)
    ensures s[ConversationHistory] == List([]) && s[IterationCount] == Int(0)
    ensures s[CurrentFiles] == Dict(map[]) && s[UserFeedback] == Null
  {
    map[
      OriginalPrompt := Str(req.prompt),
      UserId := Str(req.userId),
      ConversationHistory := List([]),
      IterationCount := Int(0),
      CurrentFiles := Dict(map[]),
      UserFeedback := Null]
  }

  /** Python's `len`, or `None` when it raises `TypeError`. */
  function Len(v: Value): (n: Option<nat>)
    ensures v.Dict? ==> n == Some(|v.fields|)
    ensures v.List? ==> n == Some(|v.items|)
    ensures v.Str? ==> n == Some(|v.s|)
    ensures !v.Dict? && !v.List? && !v.Str? ==> n.None?
  {
    match v
    case Dict(fields) => Some(|fields|)
    case List(items) => Some(|items|)
    case Str(s) => Some(|s|)
    case _ => None
  }

  function Executed(count: nat): ExecuteResponse {
    ExecuteResponse("executed", "Execution check mocked. " + "Files are ready.",
      "Real execution requires " + "custom Judge0 config for NPM.", count)
  }

  /** The stream's closing event, sent only when the stream did not break off. */
  function Closing(projectId: string, completed: bool, final: State): seq<Event> {
    if completed then [Complete(projectId, Get(final, CurrentFiles, Null))] else []
  }

  /** The events of /generate's stream over traversal `t`. */
  function GenerateResponse(id: string, t: Trace, emptyAsNull: bool): seq<Event> {
    [Init(id)] + GenerateEvents(Chunks(t.steps, emptyAsNull)) + Closing(id, t.completed, t.final)
  }

  /** The stored state and the events of /refine's stream over traversal `t` from `input`. */
  function RefineResponse(id: string, input: State, t: Trace, emptyAsNull: bool): (State, seq<Event>) {
    var c := RefineAll(input, Chunks(t.steps, emptyAsNull));
    (c.state, [Init(id)] + c.events + Closing(id, c.ok && t.completed, c.state))
  }

  /**
   * /generate's stream: one init event first, the nodes' progress events in the order
   * they ran, the files of exactly the updates that carry them, and one complete event
   * last, with the final state's files, exactly when the traversal reached the end.
   */
  lemma GenerateResponseShape(id: string, n: Node, g: State, stages: Stages, emptyAsNull: bool)
    ensures var t := TraceFrom(n, g, stages);
      var evs := GenerateResponse(id, t, emptyAsNull);
      && evs[0] == Init(id)
      && (forall i :: 0 < i < |evs| ==> !evs[i].Init?)
      && (forall i :: 0 <= i < |evs| - 1 ==> !evs[i].Complete?)
      && (evs[|evs| - 1].Complete? <==> t.completed)
      && (t.completed ==> evs[|evs| - 1] == Complete(id, Get(t.final, CurrentFiles, Null)))
      && ProgressNodes(evs) == NodeNames(t.steps)
      && FilesSent(evs) == FilesOfPatches(t.steps)
  {
    var t := TraceFrom(n, g, stages);
    GenerateStream(n, g, stages, emptyAsNull);
    Framed(id, GenerateEvents(Chunks(t.steps, emptyAsNull)), t.completed, t.final);
  }

  /** An init or a complete event names no node and carries no files update. */
  lemma Unreported(e: Event)
    requires e.Init? || e.Complete?
    ensures ProgressNodes([e]) == [] && FilesSent([e]) == []
  {
    assert [e][..0] == [];
  }

  /** Events between an init and a closing are framed by them, and only they report nodes and files. */
  lemma Framed(id: string, middle: seq<Event>, completed: bool, final: State)
    requires Between(middle, GenerateMessage)
    ensures var evs := [Init(id)] + middle + Closing(id, completed, final);
      && evs[0] == Init(id)
      && (forall i :: 0 < i < |evs| ==> !evs[i].Init?)
      && (forall i :: 0 <= i < |evs| - 1 ==> !evs[i].Complete?)
      && (evs[|evs| - 1].Complete? <==> completed)
      && (completed ==> evs[|evs| - 1] == Complete(id, Get(final, CurrentFiles, Null)))
      && ProgressNodes(evs) == ProgressNodes(middle)
      && FilesSent(evs) == FilesSent(middle)
  {
    var closing := Closing(id, completed, final);
    Unreported(Init(id));
    ProgressNodesAppend([Init(id)], middle);
    if completed {
      Unreported(closing[0]);
    }
    ProgressNodesAppend([Init(id)] + middle, closing);
  }

  /**
   * With every update streamed as a dictionary, /refine stores the traversal's final
   * state and sends an init event, a "Refining..." progress event per node in order, and
   * the complete event exactly when the traversal reached the end.
   */
  lemma RefineResponseOfDictionaries(id: string, n: Node, g: State, stages: Stages)
    ensures var t := TraceFrom(n, g, stages);
      RefineResponse(id, g, t, false)
        == (t.final, [Init(id)] + ProgressEvents(NodeNames(t.steps), RefineMessage) + Closing(id, t.completed, t.final))
  {
    RefineStream(n, g, stages);
  }

  /**
   * When empty updates are streamed as `None`, /refine breaks off at the router's update:
   * the stored state stays as the route left it and only the init event is sent.
   */
  lemma RefineResponseOfNulls(id: string, g: State, stages: Stages)
    requires stages(Router, g) == Some(map[])
    ensures RefineResponse(id, g, TraceFrom(Router, g, stages), true) == (g, [Init(id)])
  {
    RefineStopsAtRouter(g, stages);
    var t := TraceFrom(Router, g, stages);
    var c := RefineAll(g, Chunks(t.steps, true));
    assert c.events == [] && !c.ok && c.state == g;
    assert Closing(id, c.ok && t.completed, c.state) == [];
    assert [Init(id)] + c.events + [] == [Init(id)];
  }

  /**
   * On a state with feedback and an integer iteration count, a traversal that completes
   * raises the count once more (after the route already raised it) and keeps the
   * feedback. This holds when the qa stage writes neither key.
   */
  lemma RefineCountsAgain(input: State, count: int, out: StageOutputs)
    requires Truthy(Get(input, UserFeedback, Null)) && Get(input, IterationCount, Int(0)) == Int(count)
    requires out.qa.Some? ==> IterationCount !in out.qa.value && UserFeedback !in out.qa.value
    ensures var t := Traverse(input, out);
      t.completed ==>
        Get(t.final, IterationCount, Null) == Int(count + 1) && Get(t.final, UserFeedback, Null) == Get(input, UserFeedback, Null)
  {
    var stages := Pipeline(out);
    if Traverse(input, out).completed {
      PipelineRouterIsEmpty(input, out);
      PipelineRefinement(input, out);
      RefinementCounts(input, out.client, out.refined, count);
      PipelineTailWrites(out);
      RefinementKeepsKey(input, stages, IterationCount, Int(count + 1));
      RefinementKeepsKey(input, stages, UserFeedback, Get(input, UserFeedback, Null));
    }
  }

  /** `PROJECT_STATES`: the project states by project id. */
  class ProjectStore {
    var states: map<string, State>

    constructor()
      ensures states == map[]
    {
      states := map[];
    }

    /**
     * The loop of /generate's stream over the chunks: merge every dictionary streamed
     * under a node's name into the project's stored state (while the project is stored),
     * and send a progress event per node and a files event per update holding files.
     */
    method AbsorbChunks(id: string, chunks: seq<Chunk>) returns (events: seq<Event>)
      modifies this
      ensures id in old(states) ==> states == old(states)[id := AbsorbAll(old(states)[id], chunks)]
      ensures id !in old(states) ==> states == old(states)
      ensures events == GenerateEvents(chunks)
    {
      ghost var start := states;
      ghost var s := if id in start then start[id] else map[];
      events := [];
      for i := 0 to |chunks|
        invariant id in start ==> states == start[id := AbsorbAll(s, chunks[..i])]
        invariant id !in start ==> states == start
        invariant events == GenerateEvents(chunks[..i])
      {
        GenerateOneMore(s, chunks, i);
        var sent := AbsorbOneChunk(id, chunks[i]);
        events := events + sent;
      }
      assert chunks[..|chunks|] == chunks;
    }

    /** The body of /generate's loop for one chunk: the merge into the stored state and the events sent. */
    method AbsorbOneChunk(id: string, c: Chunk) returns (sent: seq<Event>)
      modifies this
      ensures id in old(states) ==> states == old(states)[id := AbsorbChunk(old(states)[id], c)]
      ensures id !in old(states) ==> states == old(states)
      ensures sent == GenerateChunkEvents(c)
    {
      sent := [];
      if c.key != EndKey {
        if c.value.Dict? && id in states {
          states := states[id := Merge(states[id], c.value.fields)];
        }
        sent := sent + [Progress(c.key, GenerateMessage)];
      }
      if Truthy(c.value) && c.value.Dict? && CurrentFiles in c.value.fields {
        sent := sent + [FilesUpdate(c.value.fields[CurrentFiles])];
      }
    }

    /**
     * The loop of /refine's stream over the chunks: pass every update under a node's name
     * to the stored state's `update`, sending a progress event after each, until an update
     * that is not a dictionary raises.
     */
    method ConsumeRefine(id: string, chunks: seq<Chunk>) returns (events: seq<Event>, ok: bool)
      requires id in states
      modifies this
      ensures var c := RefineAll(old(states)[id], chunks);
        states == old(states)[id := c.state] && events == c.events && ok == c.ok
    {
      ghost var input := states[id];
      events := [];
      ok := true;
      var i := 0;
      while i < |chunks| && ok
        invariant 0 <= i <= |chunks|
        invariant var c := RefineAll(input, chunks[..i]);
          states == old(states)[id := c.state] && events == c.events && ok == c.ok
        invariant !ok ==> RefineAll(input, chunks) == RefineAll(input, chunks[..i])
      {
        var c := chunks[i];
        assert chunks[..i + 1][..i] == chunks[..i];
        if c.key != EndKey {
          if c.value.Dict? {
            states := states[id := Merge(states[id], c.value.fields)];
            events := events + [Progress(c.key, RefineMessage)];
          } else {
            ok := false;
            RefineStaysStopped(input, chunks, i + 1);
          }
        }
        i := i + 1;
      }
      if ok {
        assert chunks[..i] == chunks;
      }
    }

    /**
     * /generate's stream once the initial state is stored: run the graph on it and merge
     * every update streamed as a dictionary into the stored state, so that the store ends
     * with the traversal's final state; the complete event closes a traversal that
     * reached the end.
     */
    method StreamGenerate(id: string, initial: State, graph: Stages, emptyAsNull: bool) returns (events: seq<Event>)
      requires id in states && states[id] == initial
      modifies this
      ensures var t := TraceFrom(Router, initial, graph);
        states == old(states)[id := t.final] && events == GenerateResponse(id, t, emptyAsNull)
    {
      var t := Run(initial, graph);
      var streamed := AbsorbChunks(id, Chunks(t.steps, emptyAsNull));
      GenerateStoresFinal(Router, initial, graph, emptyAsNull);
      events := [Init(id)] + streamed;
      if t.completed {
        events := events + [Complete(id, Get(states[id], CurrentFiles, Null))];
      }
    }

    /** /generate under the fresh id `id`: store the initial state, then stream. An id already in the store is overwritten. */
    method Generate(id: string, req: GenerateRequest, graph: Stages, emptyAsNull: bool) returns (events: seq<Event>)
      modifies this
      ensures var t := TraceFrom(Router, InitialState(req), graph);
        states == old(states)[id := t.final] && events == GenerateResponse(id, t, emptyAsNull)
    {
      var initial := InitialState(req);
      states := states[id := initial];
      events := StreamGenerate(id, initial, graph, emptyAsNull);
    }

    /**
     * /refine's stream once the stored state holds the feedback: run the graph on the
     * stored state and pass every update to the stored state's `update`, closing with the
     * complete event only when neither the graph nor the stream raised.
     */
    method StreamRefine(id: string, graph: Stages, emptyAsNull: bool) returns (events: seq<Event>)
      requires id in states
      modifies this
      ensures var response := RefineResponse(id, old(states)[id], TraceFrom(Router, old(states)[id], graph), emptyAsNull);
        states == old(states)[id := response.0] && events == response.1
    {
      var t := Run(states[id], graph);
      var streamed, ok := ConsumeRefine(id, Chunks(t.steps, emptyAsNull));
      events := [Init(id)] + streamed;
      if ok && t.completed {
        events := events + [Complete(id, Get(states[id], CurrentFiles, Null))];
      }
    }

    /**
     * /refine: an unknown project is a 404 with the store unchanged. Otherwise the stored
     * state gets the feedback and a raised iteration count (a count that is not a number
     * raises after the feedback was written), and the stream runs on it.
     */
    method Refine(req: RefineRequest, graph: Stages, emptyAsNull: bool) returns (r: Result<seq<Event>, HttpError>)
      modifies this
      ensures req.projectId !in old(states) ==> r == Err(NotFound) && states == old(states)
      ensures req.projectId in old(states) ==>
        var fed := old(states)[req.projectId][UserFeedback := Str(req.feedback)];
        PlusOne(Get(fed, IterationCount, Int(0))).None? ==>
          r == Err(InternalError) && states == old(states)[req.projectId := fed]
      ensures req.projectId in old(states) ==>
        var fed := old(states)[req.projectId][UserFeedback := Str(req.feedback)];
        var count := PlusOne(Get(fed, IterationCount, Int(0)));
        count.Some? ==>
          var input := fed[IterationCount := count.value];
          var response := RefineResponse(req.projectId, input, TraceFrom(Router, input, graph), emptyAsNull);
          states == old(states)[req.projectId := response.0] && r == Ok(response.1)
    {
      if req.projectId !in states {
        return Err(NotFound);
      }
      var pid := req.projectId;
      states := states[pid := states[pid][UserFeedback := Str(req.feedback)]];
      var count := PlusOne(Get(states[pid], IterationCount, Int(0)));
      if count.None? {
        return Err(InternalError);
      }
      states := states[pid := states[pid][IterationCount := count.value]];
      var events := StreamRefine(pid, graph, emptyAsNull);
      r := Ok(events);
    }

    /**
     * /execute: the request's files when they are non-empty, otherwise the stored
     * `current_files` of a known project; none at all is a 400 (an unknown project is not
     * a 404). The answer counts the files; `len` of a truthy value that has no length raises.
     */
    method Execute(req: ExecuteRequest) returns (r: Result<ExecuteResponse, HttpError>)
      ensures req.files.Some? && req.files.value != map[] ==> r == Ok(Executed(|req.files.value|))
      ensures !(req.files.Some? && req.files.value != map[]) ==>
        if req.projectId in states && Truthy(Get(states[req.projectId], CurrentFiles, Dict(map[]))) then
          var stored := Get(states[req.projectId], CurrentFiles, Dict(map[]));
          r == if Len(stored).Some? then Ok(Executed(Len(stored).value)) else Err(InternalError)
        else r == Err(NoFiles)
    {
      var files: Value := if req.files.Some? then Dict(req.files.value) else Null;
      if !Truthy(files) {
        if req.projectId in states {
          files := Get(states[req.projectId], CurrentFiles, Dict(map[]));
        }
      }
      if !Truthy(files) {
        return Err(NoFiles);
      }
      var count := Len(files);
      if count.None? {
        return Err(InternalError);
      }
      return Ok(Executed(count.value));
    }

    /** /status: an unknown project is a 404; a known one gets its id written into its state, which is returned. */
    method Status(projectId: string) returns (r: Result<State, HttpError>)
      modifies this
      ensures projectId !in old(states) ==> r == Err(NotFound) && states == old(states)
      ensures projectId in old(states) ==>
        var s := old(states)[projectId][ProjectIdKey := Str(projectId)];
        r == Ok(s) && states == old(states)[projectId := s]
    {
      if projectId !in states {
        return Err(NotFound);
      }
      states := states[projectId := states[projectId][ProjectIdKey := Str(projectId)]];
      return Ok(states[projectId]);
    }
  }
}
