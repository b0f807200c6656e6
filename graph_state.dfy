/**
 * The project state the graph operates on (`ProjectState` in app/graph/state.py): a
 * dictionary from top-level key to value, and the top-level merge LangGraph and the
 * routes apply to it.
 */
module GraphState {
  import opened PyValues

  /** A project state, and also a stage patch: both are plain dictionaries. */
  type State = map<string, Value>

  const OriginalPrompt := "original_prompt"
  const UserId := "user_id"
  const ConversationHistory := "conversation_history"
  const CurrentFiles := "current_files"
  const UserFeedback := "user_feedback"
  const IterationCount := "iteration_count"
  const ClassificationKey := "classification"
  const ResearchContext := "research_context"
  const DesignSpecKey := "design_spec"
  const ExecutionResults := "execution_results"
  const ProjectIdKey := "project_id"

  /**
   * `state.update(patch)`: the keys of the patch are overwritten with the patch's values,
   * every other key keeps its value. Only the top level is merged: a nested dictionary in
   * the patch (such as `current_files`) replaces the old one wholesale.
   */
  function Merge(s: State, patch: State): (r: State)
    ensures r.Keys == s.Keys + patch.Keys
    ensures forall k :: k in patch ==> r[k] == patch[k]
    ensures forall k :: k in s && k !in patch ==> r[k] == s[k]
  {
    s + patch
  }

  /** Merging the patches one after another, the first one first. */
  function MergeAll(s: State, patches: seq<State>): State
    decreases |patches|
  {
    if patches == [] then s else MergeAll(Merge(s, patches[0]), patches[1..])
  }

  /** Patches that do not mention `key` leave it as it was. */
  lemma {:induction false} MergeAllKeepsKey(s: State, patches: seq<State>, key: string)
    requires forall i :: 0 <= i < |patches| ==> key !in patches[i]
    ensures key in MergeAll(s, patches) <==> key in s
    ensures key in s ==> MergeAll(s, patches)[key] == s[key]
    decreases |patches|
  {
    if patches != [] {
      MergeAllKeepsKey(Merge(s, patches[0]), patches[1..], key);
    }
  }

  /** Merging one more patch at the end merges it into the result of the others. */
  lemma {:induction false} MergeAllSnoc(s: State, patches: seq<State>, p: State)
    ensures MergeAll(s, patches + [p]) == Merge(MergeAll(s, patches), p)
    decreases |patches|
  {
    if patches == [] {
      assert MergeAll(Merge(s, p), []) == Merge(s, p);
    } else {
      assert (patches + [p])[1..] == patches[1..] + [p];
      MergeAllSnoc(Merge(s, patches[0]), patches[1..], p);
    }
  }
}
