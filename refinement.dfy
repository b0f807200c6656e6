/**
 * The refinement stage (app/agents/refinement.py): with feedback, the files the model
 * returns are written over a copy of the current files and the iteration count goes up by
 * one. The model call is an input: `Some(files)` when it returned, `None` when it raised.
 */
module RefinementStage {
  import opened Wrappers
  import opened PyValues
  import opened GraphState
  import opened CodeGeneratorStage

  /**
   * `current_files.copy()` updated with the returned files. A dictionary is overlaid; a
   * list survives only when nothing is returned (item assignment on a list raises); any
   * other value has no `.copy()`.
   */
  function MergeRefined(current: Value, returned: seq<CodeFile>): (r: Option<Value>)
    ensures current.Dict? ==> r == Some(Dict(Overlay(current.fields, returned)))
    ensures !current.Dict? && !current.List? ==> r.None?
  {
    match current
    case Dict(fields) => Some(Dict(Overlay(fields, returned)))
    case List(items) => if returned == [] then Some(current) else None
    case _ => None
  }

  /**
   * `refinement_agent`: an empty patch without feedback; otherwise the merged files and
   * `iteration_count + 1`, or `None` when `get_llm` (no configured client, `client` false),
   * the model call, the copy or the increment raises.
   */
  function RefinementAgent(state: State, client: bool, llm: Option<seq<CodeFile>>): (r: Option<State>)
    ensures !Truthy(Get(state, UserFeedback, Null)) ==> r == Some(map[])
    ensures Truthy(Get(state, UserFeedback, Null)) && (!client || llm.None?) ==> r.None?
    ensures Truthy(Get(state, UserFeedback, Null)) && r.Some? ==>
      && r.value.Keys == {CurrentFiles, IterationCount}
      && Some(r.value[CurrentFiles]) == MergeRefined(Get(state, CurrentFiles, Null), llm.value)
      && Some(r.value[IterationCount]) == PlusOne(Get(state, IterationCount, Int(0)))
    ensures (Truthy(Get(state, UserFeedback, Null)) && client && llm.Some? && Get(state, CurrentFiles, Null).Dict? &&
             Get(state, IterationCount, Int(0)).Int?) ==> r.Some?
  {
    var feedback := Get(state, UserFeedback, Null);
    if !Truthy(feedback) then Some(map[])
    else if !client then None
    else match llm
      case None => None
      case Some(returned) =>
        match MergeRefined(Get(state, CurrentFiles, Null), returned)
        case None => None
        case Some(updated) =>
          match PlusOne(Get(state, IterationCount, Int(0)))
          case None => None
          case Some(count) => Some(map[CurrentFiles := updated, IterationCount := count])
  }

  /**
   * With feedback and an integer count, a patch raises the count by one and leaves the
   * feedback alone.
   */
  lemma RefinementCounts(state: State, client: bool, llm: Option<seq<CodeFile>>, count: int)
    requires Truthy(Get(state, UserFeedback, Null)) && Get(state, IterationCount, Int(0)) == Int(count)
    ensures var r := RefinementAgent(state, client, llm);
      r.Some? ==> IterationCount in r.value && r.value[IterationCount] == Int(count + 1) && UserFeedback !in r.value
  {
  }

  /**
   * The merge loop on a copy: every returned file overwrites its key, in order.
   */
  method MergeUpdates(files: map<string, Value>, returned: seq<CodeFile>) returns (updated: map<string, Value>)
    ensures updated == Overlay(files, returned)
  {
    updated := files;
    for i := 0 to |returned|
      invariant updated == Overlay(files, returned[..i])
    {
      assert returned[..i + 1][..i] == returned[..i];
      updated := updated[returned[i].filename := Str(returned[i].content)];
    }
    assert returned[..|returned|] == returned;
  }

  /** The stage as the source runs it. */
  method RunRefinement(state: State, client: bool, llm: Option<seq<CodeFile>>) returns (r: Option<State>)
    ensures r == RefinementAgent(state, client, llm)
  {
    var current := Get(state, CurrentFiles, Null);
    var feedback := Get(state, UserFeedback, Null);
    if !Truthy(feedback) {
      return Some(map[]);
    }
    if !client || llm.None? {
      return None;
    }
    var updated: Value;
    match current {
      case Dict(fields) =>
        var merged := MergeUpdates(fields, llm.value);
        updated := Dict(merged);
      case List(_) =>
        if llm.value != [] {
          return None;
        }
        updated := current;
      case _ =>
        return None;
    }
    var count := PlusOne(Get(state, IterationCount, Int(0)));
    if count.None? {
      return None;
    }
    r := Some(map[CurrentFiles := updated, IterationCount := count.value]);
  }

  /**
   * With feedback and a dictionary of files, the keys afterwards are the old keys and the
   * returned filenames, the last returned entry for a filename wins, and every other file
   * keeps its content.
   */
  lemma RefinedFiles(files: map<string, Value>, returned: seq<CodeFile>)
    ensures var merged := MergeRefined(Dict(files), returned).value.fields;
      && merged.Keys == files.Keys + (set f | f in returned :: f.filename)
      && (forall k :: k in files && (forall i :: 0 <= i < |returned| ==> returned[i].filename != k) ==> merged[k] == files[k])
      && (forall i :: 0 <= i < |returned| && (forall j :: i < j < |returned| ==> returned[j].filename != returned[i].filename) ==>
            merged[returned[i].filename] == Str(returned[i].content))
  {
    forall k | k in files && (forall i :: 0 <= i < |returned| ==> returned[i].filename != k)
      ensures Overlay(files, returned)[k] == files[k]
    {
      OverlayKeepsOthers(files, returned, k);
    }
    forall i | 0 <= i < |returned| && (forall j :: i < j < |returned| ==> returned[j].filename != returned[i].filename)
      ensures Overlay(files, returned)[returned[i].filename] == Str(returned[i].content)
    {
      OverlayLastWins(files, returned, i);
    }
  }
}
