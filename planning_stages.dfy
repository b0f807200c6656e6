/**
 * The research and design stages (app/agents/research.py, app/agents/design.py). Their
 * only logic besides the language-model call is reading the state and wrapping the
 * answer; the answer is an input of the model (`None` when the call raised).
 */
module PlanningStages {
  import opened Wrappers
  import opened PyValues
  import opened GraphState

  /** One planned file of a design (`FileBlueprint`). */
  datatype FileBlueprint = FileBlueprint(filename: string, description: string, imports: seq<string>)

  /** The design the model returns (`DesignSpec`). */
  datatype DesignSpec = DesignSpec(
    architectureOverview: string,
    stylingGuide: string,
    componentHierarchy: string,
    fileStructure: seq<FileBlueprint>)

  function Strings(xs: seq<string>): (v: Value)
    ensures v.List? && |v.items| == |xs| && forall i :: 0 <= i < |xs| ==> v.items[i] == Str(xs[i])
  {
    List(seq(|xs|, i requires 0 <= i < |xs| => Str(xs[i])))
  }

  function BlueprintValue(b: FileBlueprint): Value {
    Dict(map["filename" := Str(b.filename), "description" := Str(b.description), "imports" := Strings(b.imports)])
  }

  /** `result.dict()`: the design as nested dictionaries. */
  function DesignSpecValue(d: DesignSpec): (v: Value)
    ensures v.Dict? && "file_structure" in v.fields && "components" !in v.fields
    ensures v.fields["file_structure"].List? && |v.fields["file_structure"].items| == |d.fileStructure|
    ensures forall i :: 0 <= i < |d.fileStructure| ==>
      v.fields["file_structure"].items[i] == BlueprintValue(d.fileStructure[i])
  {
    Dict(map[
      "architecture_overview" := Str(d.architectureOverview),
      "styling_guide" := Str(d.stylingGuide),
      "component_hierarchy" := Str(d.componentHierarchy),
      "file_structure" := List(seq(|d.fileStructure|, i requires 0 <= i < |d.fileStructure| => BlueprintValue(d.fileStructure[i])))])
  }

  /**
   * `research_agent`: `state["original_prompt"]` and `classification.get(...)` are read
   * before the call, so a missing prompt or a classification that is not a dictionary
   * raises, and so does `get_llm` without a configured client (`client` false); nothing
   * guards the call; the answer is stored as `{"summary": text}`.
   */
  function ResearchAgent(state: State, client: bool, llm: Option<string>): (r: Option<State>)
    ensures r.Some? <==> OriginalPrompt in state && Get(state, ClassificationKey, Dict(map[])).Dict? && client && llm.Some?
    ensures r.Some? ==> r.value == map[ResearchContext := Dict(map["summary" := Str(llm.value)])]
  {
    if OriginalPrompt !in state || !Get(state, ClassificationKey, Dict(map[])).Dict? || !client then None
    else match llm
      case None => None
      case Some(text) => Some(map[ResearchContext := Dict(map["summary" := Str(text)])])
  }

  /**
   * `design_agent`: `state["original_prompt"]` and `research.get("summary", ...)` are read
   * before `get_llm` (which raises without a configured client, `client` false) and the
   * unguarded call; the design is stored as a dictionary.
   */
  function DesignAgent(state: State, client: bool, llm: Option<DesignSpec>): (r: Option<State>)
    ensures r.Some? <==> OriginalPrompt in state && Get(state, ResearchContext, Dict(map[])).Dict? && client && llm.Some?
    ensures r.Some? ==> r.value == map[DesignSpecKey := DesignSpecValue(llm.value)]
  {
    if OriginalPrompt !in state || !Get(state, ResearchContext, Dict(map[])).Dict? || !client then None
    else match llm
      case None => None
      case Some(d) => Some(map[DesignSpecKey := DesignSpecValue(d)])
  }
}
