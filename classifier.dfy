/**
 * The classifier stage (app/agents/classifier.py): the two field validators of
 * `ClassificationOutput`, the classification record as a dictionary, and the agent,
 * whose language-model call is an input of the model: `Some(output)` when it
 * succeeded, `None` when it raised, in which case the stage falls back to a fixed
 * classification.
 */
module ClassifierStage {
  import opened Wrappers
  import opened PyValues
  import opened GraphState

  datatype UserLevel = Beginner | Intermediate | Advanced
  datatype ProjectType = WebApp | Component | FullStack
  datatype Complexity = Simple | Medium | Complex

  /** A validated `ClassificationOutput`. */
  datatype ClassificationOutput = ClassificationOutput(
    userLevel: UserLevel,
    projectType: ProjectType,
    complexity: Complexity,
    requiresResearch: bool,
    techStack: seq<string>,
    extractedRequirements: seq<string>)

  function UserLevelName(l: UserLevel): string {
    match l
    case Beginner => "beginner"
    case Intermediate => "intermediate"
    case Advanced => "advanced"
  }

  function ProjectTypeName(t: ProjectType): string {
    match t
    case WebApp => "web_app"
    case Component => "component"
    case FullStack => "full_stack"
  }

  function ComplexityName(c: Complexity): string {
    match c
    case Simple => "simple"
    case Medium => "medium"
    case Complex => "complex"
  }

  /** The strings `coerce_boolean` reads as true. */
  const TrueWords: set<string> := {"true", "1", "yes", "t"}

  /**
   * The `requires_research` validator: a string is true exactly when, lower-cased and
   * stripped, it is one of the true words; `None` is false; any other value is its
   * truthiness.
   */
  function CoerceBoolean(v: Value): (r: bool)
    ensures v.Str? ==> (r <==> Strip(Lower(v.s)) in TrueWords)
    ensures v.Null? ==> !r
    ensures !v.Str? ==> r == Truthy(v)
  {
    match v
    case Str(s) => Strip(Lower(s)) in TrueWords
    case Null => false
    case _ => Truthy(v)
  }

  /** On a real boolean the validator is the identity. */
  lemma CoerceBooleanOnBool(b: bool)
    ensures CoerceBoolean(Bool(b)) == b
  {
  }

  /** A string already in lower case and without surrounding blanks is read as itself. */
  lemma CoerceBooleanOfNormalWord(s: string)
    requires forall i :: 0 <= i < |s| ==> !('A' <= s[i] <= 'Z')
    requires s == "" || (!IsSpace(s[0]) && !IsSpace(s[|s| - 1]))
    ensures CoerceBoolean(Str(s)) <==> s in TrueWords
  {
    NormalFormOfNormal(s);
    var word := Strip(Lower(s));
    assert word == s;
  }

  /**
   * Unlike Python's plain truthiness, which holds of every non-empty string, the
   * validator reads the string "false" as false.
   */
  lemma CoerceBooleanRejectsFalse()
    ensures Truthy(Str("false")) && !CoerceBoolean(Str("false"))
  {
    CoerceBooleanOfNormalWord("false");
  }

  /** Blanks around a string and the case of its letters do not change how it is read. */
  lemma CoerceBooleanIgnoresBlanksAndCase(s: string, t: string)
    requires Lower(s) == Lower(t)
    ensures CoerceBoolean(Str(" " + s + " ")) == CoerceBoolean(Str(t))
  {
    LowerOfSurrounded(s);
    StripIgnoresSurroundingBlanks(Lower(s));
  }

  /**
   * The list validator: `None` and "" give [], a non-empty string s gives [s], a list is
   * returned unchanged, and a value `list()` cannot iterate gives [] (the `TypeError` is
   * caught). A dictionary, which Python turns into the list of its keys in insertion
   * order, is outside the model: the model's dictionaries keep no order.
   */
  function EnsureList(v: Value): (r: seq<Value>)
    requires !v.Dict?
    ensures v.List? ==> r == v.items
    ensures v.Str? && v.s != "" ==> r == [v]
    ensures !v.List? && !(v.Str? && v.s != "") ==> r == []
  {
    match v
    case Null => []
    case Str(s) => if s != "" then [v] else []
    case List(items) => items
    case _ => []
  }

  /** Validating an already validated list changes nothing. */
  lemma EnsureListIdempotent(v: Value)
    requires !v.Dict?
    ensures EnsureList(List(EnsureList(v))) == EnsureList(v)
  {
  }

  function StringList(xs: seq<string>): (r: Value)
    ensures r.List? && |r.items| == |xs|
    ensures forall i :: 0 <= i < |xs| ==> r.items[i] == Str(xs[i])
  {
    List(seq(|xs|, i requires 0 <= i < |xs| => Str(xs[i])))
  }

  /**
   * `result.dict()`: the six fields, with the user level and complexity under their
   * names (so routing can test for "beginner" and "complex") and the coerced boolean.
   */
  function ClassificationValue(c: ClassificationOutput): (r: Value)
    ensures r.Dict?
    ensures r.fields.Keys == {"user_level", "project_type", "complexity", "requires_research", "tech_stack", "extracted_requirements"}
    ensures r.fields["user_level"] == Str("beginner") <==> c.userLevel == Beginner
    ensures r.fields["complexity"] == Str("complex") <==> c.complexity == Complex
    ensures r.fields["requires_research"] == Bool(c.requiresResearch)
  {
    Dict(map[
      "user_level" := Str(UserLevelName(c.userLevel)),
      "project_type" := Str(ProjectTypeName(c.projectType)),
      "complexity" := Str(ComplexityName(c.complexity)),
      "requires_research" := Bool(c.requiresResearch),
      "tech_stack" := StringList(c.techStack),
      "extracted_requirements" := StringList(c.extractedRequirements)])
  }

  /** The classification the stage returns when the model call raises. */
  function FallbackClassification(prompt: string): (c: ClassificationOutput)
    ensures c.userLevel == Beginner && c.projectType == WebApp && c.complexity == Medium
    ensures !c.requiresResearch && c.techStack == ["react", "tailwind"]
    ensures |c.extractedRequirements| == 1
    ensures var req := c.extractedRequirements[0];
      |req| == (if |prompt| < 100 then |prompt| else 100) && req == prompt[..|req|]
  {
    ClassificationOutput(Beginner, WebApp, Medium, false, ["react", "tailwind"], [Prefix(prompt, 100)])
  }

  /**
   * `classifier_agent`: reads `state["original_prompt"]` (a `KeyError` when it is missing)
   * and calls `get_llm` (a `ValueError` when no API key is configured, `client` false),
   * both before the guarded block; then returns the model's classification, or the
   * fallback when the call raised. Slicing a prompt that is not a string is modelled as
   * raising. `None`: the stage raised.
   */
  function ClassifierAgent(state: State, client: bool, llm: Option<ClassificationOutput>): (r: Option<State>)
    ensures r.None? <==> OriginalPrompt !in state || !client || (llm.None? && !state[OriginalPrompt].Str?)
    ensures r.Some? ==> r.value.Keys == {ClassificationKey} && r.value[ClassificationKey].Dict?
    ensures OriginalPrompt in state && client && llm.Some? ==> r == Some(map[ClassificationKey := ClassificationValue(llm.value)])
    ensures OriginalPrompt in state && client && llm.None? && state[OriginalPrompt].Str? ==>
      r == Some(map[ClassificationKey := ClassificationValue(FallbackClassification(state[OriginalPrompt].s))])
  {
    if OriginalPrompt !in state || !client then None
    else match llm
      case Some(c) => Some(map[ClassificationKey := ClassificationValue(c)])
      case None =>
        match state[OriginalPrompt]
        case Str(prompt) => Some(map[ClassificationKey := ClassificationValue(FallbackClassification(prompt))])
        case _ => None
  }
}
