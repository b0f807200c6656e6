# bridge_ide pipeline, modelled in Dafny

This project models the core of the bridge_ide backend: the service that turns a
natural-language prompt into a small React project and lets the user refine it.

**The graph.** `define_graph` in app/graph/workflow.py wires the stages:
- a router sends a state carrying user feedback to refinement, and any other state to the classifier;
- the classifier's verdict chooses between research followed by design, or going straight to code generation;
- both branches end with the file organizer and QA.

The model runs this graph as a traversal over a dictionary state. Each stage returns a patch, which is
merged into the state at the top level. A stage that raises stops the traversal.

**The stages:**
- the classifier, with its validators and its fallback classification;
- research and design;
- the code generator: its file list, its fallback project and the StackBlitz URL;
- the file organizer;
- refinement.

The answers of the language model are inputs to the stages. `None` means the model call raised.
Whether `GROQ_API_KEY` is set is an input too (`client`): `get_llm` raises without it, and every
stage except the file organizer calls it outside any `try`.

**The routes** in app/api/agent_routes.py:
- `PROJECT_STATES`, the in-memory store of project states, is a class field;
- `/generate` and `/refine` stream events and update the store as they consume the graph's updates;
- the routes run the compiled graph, given to them as `graph`; with the model's answers `out`, this
  repository's graph is `Workflow.Pipeline(out)`, whose traversal is `Workflow.Traverse(input, out)`;
- `/execute` and `/status` read the store.

**The code-execution route** in app/api/routes/code.py relies on the Judge0 helpers in
app/services/judge0.py: the language table, `get_language_id` and `format_result`. The Judge0 call
is an input.

**The preview cleanup service** in app/services/cleanup.py works on a previews directory, modelled as
a table of named entries. The clock and the set of entries whose removal fails are inputs.

**Modules.** Each source file becomes one module:

| module | models |
|---|---|
| `PyValues` | Python values, truthiness, `dict.get`, and the string operations used |
| `GraphState` | the state and the merge |
| `Workflow` | the graph, its routing and traversals |
| `ClassifierStage`, `PlanningStages`, `CodeGeneratorStage`, `FileOrganizerStage`, `RefinementStage` | the stages |
| `ProjectStream` | how the two streams consume the graph's updates |
| `AgentRoutes` | the store and its routes |
| `Judge0`, `CodeRoute`, `Cleanup` | the services |

### Behaviour of note

The model follows the code in each of these cases, and the lemmas named state the behaviour.

- **A failing stage aborts the whole traversal.** The research, design and refinement stages call the
  language model without a fallback. A failure there ends the traversal, and the stream ends without
  its complete event (`Workflow.TraversalFollowsExpectedPath`, `AgentRoutes.GenerateResponseShape`).
- **`/refine` increments `iteration_count` twice.** The route bumps the count, and then the refinement
  stage bumps it again (`AgentRoutes.RefineCountsAgain`). `user_feedback` is never cleared, so every
  later traversal of the project takes the refinement branch again.
- **`/refine` can store feedback and still fail.** The feedback is stored before the count is
  incremented. When the stored count is not a number, the request fails with a 500 and the feedback
  stays stored (`AgentRoutes.ProjectStore.Refine`).
- **Chunks with no payload break `/refine`'s stream.** Under LangGraph versions that stream `None`
  for a node that returned `{}`, `/refine` raises on the router's update and stops at once
  (`ProjectStream.RefineStopsAtRouter`). `/generate` skips such updates.
- **`/execute` answers 400 for an unknown project.** The answer for an unknown project with no files
  in the request is 400, not 404.
- **`/status` writes to the stored state.** It adds `project_id` to the stored state itself.
- **`.rb` files get the default language.** tests/test_judge0.py:29 expects `script.rb` to select
  Ruby (72). The table has `ruby` but not `rb`, so the code gives the default, 71
  (`Judge0.RubyFileGetsDefault`).
- **`cleanup_preview_by_id` of `""` or `"."` removes every preview.** Joining either to the previews
  path names the previews directory itself (`Cleanup.PreviewsDir.CleanupPreviewById`).
- **The merge is shallow.** A patch's `current_files` replaces the stored dictionary wholesale.

## Model

| member | source | states |
|---|---|---|
| PyValues.PlusOne | app/api/agent_routes.py:98 | `+ 1` succeeds exactly on integers, floats and booleans, adds one to the number, and gives an integer for an integer or a boolean |
| PyValues.Lower | app/services/judge0.py:45 | `lower()` keeps the length and lower-cases each character |
| PyValues.StripShape | app/services/judge0.py:45 | `strip()` gives a part of the string with no blank at either end, empty exactly when the string is all blanks |
| PyValues.NatDigits | app/agents/code_generator.py:301 | a number's decimal text is digits only, without a leading zero, and reads back as the number |
| PyValues.StrOf | app/agents/code_generator.py:301-302 | `f"{comp}"` renders `None`, booleans, integers and strings, a string as itself and an integer as its decimal text |
| GraphState.Merge | app/api/agent_routes.py:60-61 | `update` keeps every key of both dictionaries, the patch's values win, and every other key keeps its old value |
| GraphState.MergeAllKeepsKey | app/api/agent_routes.py:55-61 | a key no patch writes is present after a run of updates exactly when it was present before, with its old value |
| Workflow.OnlyEndIsNamedEnd | app/graph/workflow.py:22-29 | no stage node is named `__end__`, so the streams never skip a node's update |
| Workflow.RouteStart | app/graph/workflow.py:34-37 | the router goes to refinement exactly when `user_feedback` is truthy and to the classifier exactly when it is not |
| Workflow.RouteClassifier | app/graph/workflow.py:49-57 | routing raises exactly when the classification is not a dictionary; otherwise it chooses research exactly when the user level is "beginner" or the complexity is "complex", and the code generator otherwise |
| Workflow.MissingClassificationSkipsResearch | app/graph/workflow.py:50-57 | a state without a classification goes straight to the code generator |
| Workflow.StaticEdges | app/graph/workflow.py:69-78 | the fixed edges: research to design to code generator to file organizer to QA to the end, and refinement to the file organizer |
| Workflow.Next | app/graph/workflow.py:31-78 | the successor of a node: only the classifier's routing can raise, and every edge leads to a node of lower rank |
| Workflow.EdgesDescend | app/graph/workflow.py:31-78 | every edge lowers a node's rank, so the graph has no cycle |
| Workflow.RankZeroIsEnd | app/graph/workflow.py:75 | only the end has rank zero, so a traversal stops only at the end or where something raises |
| Workflow.RouterNode | app/graph/workflow.py:11-16 | the router's update leaves the state unchanged |
| Workflow.RunStage | app/graph/workflow.py:22-29 | each node runs the stage registered under its name |
| Workflow.Unfold | app/graph/workflow.py:31-80 | a traversal that emits an update ran its node's stage, merged the patch, and continued from the routed successor |
| Workflow.RanksDecrease | app/graph/workflow.py:31-80 | a traversal visits nodes of strictly decreasing rank, never the end, and at most as many as its start's rank |
| Workflow.EmptyTrace | app/graph/workflow.py:31-80 | a traversal without updates ends on its input state, and completes exactly when it started at the end |
| Workflow.TraversalIsShort | app/graph/workflow.py:31-80 | a traversal from the router has at most seven updates, no node twice and no update from the end |
| Workflow.TraverseStartsAtRouter | app/graph/workflow.py:31 | every traversal of the compiled graph has between one and seven updates, the first being the router's empty update |
| Workflow.FinalIsMergeOfPatches | app/graph/workflow.py:31-80 | the final state is the input with every emitted patch merged in, in order |
| Workflow.TailShape | app/graph/workflow.py:69-78 | after the routing nodes, a traversal follows the fixed edges: its nodes are a prefix of the fixed path, all of it exactly when it completes |
| Workflow.ClassifierShape | app/graph/workflow.py:59-78 | from the classifier, a traversal follows the branch the classifier's patch selects, and completes exactly when it covers that whole branch |
| Workflow.PathFromRouter | app/graph/workflow.py:31-78 | from the router, the nodes visited are a prefix of the expected path (refinement branch with feedback, classifier branch without), the whole path exactly when the traversal completes |
| Workflow.FeedbackSkipsGeneration | app/graph/workflow.py:34-46 | with feedback, none of classifier, research, design or code generator runs |
| Workflow.NoFeedbackSkipsRefinement | app/graph/workflow.py:34-46 | without feedback, refinement never runs |
| Workflow.CompletedEndsWithOrganizerAndQa | app/graph/workflow.py:72-78 | a completed traversal starts at the router and ends with the file organizer then QA |
| Workflow.ThroughOrganizer | app/graph/workflow.py:72-78 | every completed traversal passes through the file organizer, whose own traversal reaches the same final state |
| Workflow.OrganizerTail | app/graph/workflow.py:73-75 | the last two updates of a completed traversal are the organizer's and QA's, and the final state is their merge |
| Workflow.OrganizedFiles | app/graph/workflow.py:73-75 | unless QA rewrites the files, a completed traversal ends with what the organizer made of the files it saw: the organized dictionary, or the unchanged list |
| Workflow.RefinementBranch | app/graph/workflow.py:34-46 | a completed traversal with feedback is refinement, organizer and QA, with the final state their merge |
| Workflow.RefinementKeepsKey | app/graph/workflow.py:77-78 | a key that refinement sets and neither organizer nor QA writes reaches the final state unchanged |
| Workflow.PipelineRouterIsEmpty | app/graph/workflow.py:11-16 | the compiled graph's router returns the empty patch |
| Workflow.PipelineRefinement | app/graph/workflow.py:29 | the compiled graph's refinement node is the refinement stage |
| Workflow.PipelineTail | app/graph/workflow.py:27-28 | the compiled graph's file organizer and QA nodes are those stages |
| Workflow.PipelineTailWrites | app/agents/file_organizer.py:65 | the organizer's patch writes only `current_files` |
| Workflow.TraversalFollowsExpectedPath | app/graph/workflow.py:18-80 | the compiled graph visits a prefix of the expected path from its input, all of it exactly when it completes |
| Workflow.FallbackRoutesToResearch | app/agents/classifier.py:143-156 | with an API key set, when the classifier's model call raises, the fallback verdict ("beginner") routes to research |
| Workflow.CompletedTraversalHasProjectFiles | app/graph/workflow.py:72-78 | unless QA rewrites the files, a completed traversal ends with files (a dictionary, or a list of names) holding a package.json, an index.html and a .gitignore |
| Workflow.Run | app/graph/workflow.py:18-80 | running a compiled graph node by node gives its traversal |
| ProjectStream.UpdateValue | app/api/agent_routes.py:55-57 | a streamed update is the node's patch, or `None` exactly when the engine reports an empty patch as `None` |
| ProjectStream.Chunks | app/api/agent_routes.py:55-57 | the stream yields one chunk per update, in order, keyed by the node's name |
| ProjectStream.AbsorbChunk | app/api/agent_routes.py:58-61 | a chunk of a node whose value is a dictionary adds its keys with its values; every other stored key, and every other chunk, leaves the stored state as it was |
| ProjectStream.GenerateChunkEvents | app/api/agent_routes.py:57-68 | a chunk yields no init or complete event; it opens with a "Processing..." progress event for its node exactly when the node is not `__end__`, and ends with a files event carrying the patch's files exactly when the value is a dictionary holding `current_files` |
| ProjectStream.RefineChunk | app/api/agent_routes.py:105-108 | once /refine has raised nothing more happens; a node's chunk goes through exactly when its value is a dictionary; a chunk adds at most one event, a "Refining..." progress event for its node |
| ProjectStream.RefineAll | app/api/agent_routes.py:104-108 | /refine sends at most one event per chunk, each a "Refining..." progress event |
| ProjectStream.KeyIsNotEnd | app/api/agent_routes.py:58 | a node's update is never skipped as `__end__` |
| ProjectStream.AbsorbOne | app/api/agent_routes.py:58-61 | absorbing one node's chunk merges that node's patch into the stored state |
| ProjectStream.GenerateOne | app/api/agent_routes.py:57-68 | one node's chunk yields one progress event for that node and one files event exactly when its patch carries files |
| ProjectStream.RefineOne | app/api/agent_routes.py:105-108 | /refine merges a dictionary update and sends one "Refining..." progress event for it |
| ProjectStream.AbsorbAllIsMergeAll | app/api/agent_routes.py:55-61 | absorbing a traversal's chunks applies its patches in order |
| ProjectStream.GenerateEventsBetween | app/api/agent_routes.py:57-68 | /generate's per-update events hold neither an init nor a complete event, and every progress event says "Processing..." |
| ProjectStream.GenerateEventsOfSteps | app/api/agent_routes.py:57-68 | /generate's progress events name the nodes in the order they ran, and its files events carry the files of exactly the patches that have them |
| ProjectStream.RefineAllOfDictionaries | app/api/agent_routes.py:104-108 | over dictionary updates, /refine merges every patch in order and sends one progress event per node |
| ProjectStream.RefineStaysStopped | app/api/agent_routes.py:107 | once /refine raises on an update, later updates change nothing |
| ProjectStream.NoEndStep | app/api/agent_routes.py:58 | a traversal never emits an update from the end |
| ProjectStream.GenerateStoresFinal | app/api/agent_routes.py:55-61 | the state /generate stores is the traversal's final state |
| ProjectStream.GenerateStream | app/api/agent_routes.py:55-68 | the stored state is the final state, and the events are the progress events of the nodes in order and the files of the patches that carry them |
| ProjectStream.RefineStream | app/api/agent_routes.py:104-108 | with dictionary updates, /refine stores the final state and sends one progress event per node |
| ProjectStream.RefineStopsAtRouter | app/api/agent_routes.py:104-108 | when empty updates stream as `None`, /refine raises on the router's update, stores nothing new and sends no progress |
| AgentRoutes.InitialState | app/api/agent_routes.py:40-47 | a new project's state has exactly the prompt, the user id, an empty history, count 0, no files and no feedback |
| AgentRoutes.Len | app/api/agent_routes.py:164 | `len` counts a dictionary's keys, a list's items and a string's characters, and raises on anything else |
| AgentRoutes.GenerateResponseShape | app/api/agent_routes.py:51-72 | /generate's stream opens with one init event, has progress events for the nodes in order and the files of the patches that carry them, and ends with one complete event carrying the final files exactly when the traversal completed |
| AgentRoutes.Framed | app/api/agent_routes.py:53-72 | wrapping the update events between init and the closing event keeps init first, a complete event only last, and the progress and files events unchanged |
| AgentRoutes.RefineResponseOfDictionaries | app/api/agent_routes.py:100-111 | with dictionary updates, /refine stores the final state and sends init, one progress event per node, and complete exactly when the traversal completed |
| AgentRoutes.RefineResponseOfNulls | app/api/agent_routes.py:104-111 | when empty updates stream as `None`, /refine sends only its init event and leaves the stored state as it was |
| AgentRoutes.RefineCountsAgain | app/api/agent_routes.py:96-98 | after a completed /refine traversal, the count is one more than the route's already incremented count, and the feedback is still set |
| AgentRoutes.ProjectStore.constructor | app/api/agent_routes.py:18 | the store starts empty |
| AgentRoutes.ProjectStore.AbsorbOneChunk | app/api/agent_routes.py:57-68 | one chunk merges a dictionary update into the project's stored state and returns that chunk's progress and files events |
| AgentRoutes.ProjectStore.AbsorbChunks | app/api/agent_routes.py:55-68 | consuming /generate's chunks leaves every other project alone and returns the events for the chunks |
| AgentRoutes.ProjectStore.ConsumeRefine | app/api/agent_routes.py:104-108 | consuming /refine's chunks stops at the first update that is not a dictionary; the store and the events are those of the chunks consumed |
| AgentRoutes.ProjectStore.StreamGenerate | app/api/agent_routes.py:51-72 | /generate's stream stores the final state of the graph's traversal and returns its response events |
| AgentRoutes.ProjectStore.Generate | app/api/agent_routes.py:38-74 | /generate stores the initial state under the new id, runs the graph on it, and ends with the final state stored |
| AgentRoutes.ProjectStore.StreamRefine | app/api/agent_routes.py:100-111 | /refine's stream stores what its chunks merged and returns its response events |
| AgentRoutes.ProjectStore.Refine | app/api/agent_routes.py:93-113 | 404 for an unknown project with nothing changed; otherwise the feedback is stored, then a count that is not a number gives a 500, and a numeric count is incremented before the graph runs |
| AgentRoutes.ProjectStore.Execute | app/api/agent_routes.py:134-165 | non-empty request files are counted; otherwise the stored files are counted when truthy; otherwise 400 |
| AgentRoutes.ProjectStore.Status | app/api/agent_routes.py:182-187 | 404 for an unknown project; otherwise the stored state gains `project_id` and is returned |
| ClassifierStage.CoerceBoolean | app/agents/classifier.py:69-74 | a string is true exactly when it is one of "true", "1", "yes" or "t" after lower-casing and stripping; `None` is false; any other value is its truthiness |
| ClassifierStage.CoerceBooleanOnBool | app/agents/classifier.py:74 | a boolean keeps its value |
| ClassifierStage.CoerceBooleanOfNormalWord | app/agents/classifier.py:72-73 | a lower-case string without surrounding blanks is true exactly when it is a true word |
| ClassifierStage.CoerceBooleanRejectsFalse | app/agents/classifier.py:72-73 | "false" is a truthy string that the validator makes false |
| ClassifierStage.CoerceBooleanIgnoresBlanksAndCase | app/agents/classifier.py:73 | surrounding blanks and letter case do not change the verdict |
| ClassifierStage.EnsureList | app/agents/classifier.py:76-88 | a list stays, a non-empty string becomes a one-item list, and `None`, "" and values that are not iterable become empty |
| ClassifierStage.EnsureListIdempotent | app/agents/classifier.py:76-88 | validating an already validated list changes nothing |
| ClassifierStage.FallbackClassification | app/agents/classifier.py:147-156 | the fallback is beginner, web_app, medium, no research, react and tailwind, with the first 100 characters of the prompt as its one requirement |
| ClassifierStage.ClassificationValue | app/agents/classifier.py:141 | `result.dict()` has exactly the six fields; the user level is "beginner" and the complexity "complex" exactly for those verdicts; `requires_research` is the boolean |
| ClassifierStage.ClassifierAgent | app/agents/classifier.py:90-156 | a state without a prompt raises, and so does a missing API key (`get_llm` is called before the `try`); otherwise the patch holds only the classification: the model's verdict, or the fallback when the model call raises |
| PlanningStages.DesignSpecValue | app/agents/design.py:60 | the design's dictionary has the file structure entry by entry and no `components` key |
| PlanningStages.ResearchAgent | app/agents/research.py:10-53 | research succeeds exactly when there is a prompt, a dictionary classification, an API key and a model answer, and then writes only the summary |
| PlanningStages.DesignAgent | app/agents/design.py:18-60 | design succeeds exactly when there is a prompt, dictionary research context, an API key and a model answer, and then writes only the design |
| CodeGeneratorStage.Overlay | app/agents/code_generator.py:173 | building a file dictionary from a list of files yields exactly the old keys and the listed filenames |
| CodeGeneratorStage.OverlayKeepsOthers | app/agents/code_generator.py:173 | a file the list does not name keeps its content |
| CodeGeneratorStage.OverlayLastWins | app/agents/code_generator.py:173 | of files with the same name, the last one listed wins |
| CodeGeneratorStage.EntryNames | app/agents/code_generator.py:117 | the names are read from the entries' filename or path exactly when every entry is a dictionary |
| CodeGeneratorStage.FileList | app/agents/code_generator.py:111-120 | no design spec gives no names; a truthy design that is not a dictionary raises; dictionary entries give their names |
| CodeGeneratorStage.FileListOfEntries | app/agents/code_generator.py:114-117 | a file structure of dictionaries gives each entry's filename, or its path when the filename is falsy |
| CodeGeneratorStage.ComponentsOf | app/agents/code_generator.py:300 | without a design spec, or without a `components` key, the fallback has the single component "Main"; a truthy design spec that is not a dictionary raises |
| CodeGeneratorStage.ComponentsOfGiven | app/agents/code_generator.py:300-302 | given `components`, a string gives one component per character; a list gives each item's `str`, and raises exactly when some item cannot be rendered; `None`, booleans, numbers and dictionaries raise |
| CodeGeneratorStage.StringComponentsPerCharacter | app/agents/code_generator.py:300-322 | a string of components gives one component file per character |
| CodeGeneratorStage.ComponentPathNotFixed | app/agents/code_generator.py:321-322 | a component file never overwrites one of the fixed files |
| CodeGeneratorStage.ComponentPathInjective | app/agents/code_generator.py:322 | different components get different files |
| CodeGeneratorStage.AppJsxInListOrder | app/agents/code_generator.py:301-302 | App.jsx imports and renders the components in list order |
| CodeGeneratorStage.AppJsxMentionsComponents | app/agents/code_generator.py:301-318 | App.jsx imports and renders every component |
| CodeGeneratorStage.AppJsxEnds | app/agents/code_generator.py:304-318 | App.jsx opens with the React import and ends with the `App` function's close and its default export |
| CodeGeneratorStage.ComponentJsxShape | app/agents/code_generator.py:322-334 | a component's file declares the function named after the component and ends with its default export |
| CodeGeneratorStage.AddComponentFiles | app/agents/code_generator.py:321-334 | the loop adds exactly one file per component to the files |
| CodeGeneratorStage.AddComponentFilesHolds | app/agents/code_generator.py:321-334 | each component's file holds that component's template |
| CodeGeneratorStage.AddComponentFilesKeeps | app/agents/code_generator.py:321-334 | a file that is no component's file is kept |
| CodeGeneratorStage.FixedFiles | app/agents/code_generator.py:193-318 | the files written before the component loop are exactly the eight fixed paths |
| CodeGeneratorStage.FallbackFiles | app/agents/code_generator.py:190-336 | the fallback project's paths are the eight fixed paths and one path per component |
| CodeGeneratorStage.FallbackFilesKeys | app/agents/code_generator.py:190-336 | the fallback project has exactly the eight fixed files and one file per component, so it is never empty |
| CodeGeneratorStage.FallbackFilesKeepFixed | app/agents/code_generator.py:193-318 | the fixed files keep their templates |
| CodeGeneratorStage.FallbackAppJsx | app/agents/code_generator.py:304-318 | App.jsx is the template over the components |
| CodeGeneratorStage.FallbackFilesComponents | app/agents/code_generator.py:321-334 | each component has its own file with its template |
| CodeGeneratorStage.BuildFixedFiles | app/agents/code_generator.py:193-318 | the statements that fill in the fixed files give the fixed files |
| CodeGeneratorStage.AddComponents | app/agents/code_generator.py:321-334 | the component loop gives the component files |
| CodeGeneratorStage.BuildFallbackFiles | app/agents/code_generator.py:193-336 | the whole function body gives the fallback project |
| CodeGeneratorStage.GenerateFallbackFiles | app/agents/code_generator.py:190-336 | `generate_fallback_files` raises exactly when the components cannot be read (as `CodeGeneratorStage.ComponentsOfGiven` details), and otherwise returns the fallback project over those components |
| CodeGeneratorStage.CodeGeneratorAgent | app/agents/code_generator.py:101-187 | the stage raises exactly when the file list cannot be built, the API key is missing, the names cannot be joined, or the fallback cannot read the components; its patch is only the files, from the model's answer or else the fallback project |
| CodeGeneratorStage.RunCodeGenerator | app/agents/code_generator.py:101-187 | the stage's statements give the stage's patch |
| CodeGeneratorStage.NoDesignSpecFallsBackToMain | app/agents/code_generator.py:300 | with an API key set, no design spec and a failing model call, the project is the fallback with the one component Main |
| CodeGeneratorStage.StackBlitzUrl | app/agents/code_generator.py:509-525 | the URL is the StackBlitz edit prefix, the app id, then the App.jsx preview query |
| FileOrganizerStage.OrganizePreserves | app/agents/file_organizer.py:8-63 | every existing file is kept with its content |
| FileOrganizerStage.Organize | app/agents/file_organizer.py:8-65 | organizing keeps every file and adds nothing but package.json, index.html and .gitignore, and always leaves a .gitignore |
| FileOrganizerStage.OrganizeAdds | app/agents/file_organizer.py:11-63 | a default package.json is added exactly when no key contains "package.json", index.html likewise, .gitignore exactly when that key is missing, and nothing else is added |
| FileOrganizerStage.OrganizeDefaults | app/agents/file_organizer.py:17-63 | added files hold the default templates |
| FileOrganizerStage.OrganizeComplete | app/agents/file_organizer.py:11-65 | the organized files always contain a package.json, an index.html and a .gitignore |
| FileOrganizerStage.OrganizeIdempotent | app/agents/file_organizer.py:8-65 | organizing twice is organizing once |
| FileOrganizerStage.AnyInMeaning | app/agents/file_organizer.py:11-14 | `any` over a list answers true exactly when some element holds the name and every earlier one could be searched without holding it, false exactly when every element could be searched and none holds it, and raises otherwise |
| FileOrganizerStage.OrganizeValue | app/agents/file_organizer.py:8-65 | a dictionary of files is organized; a list passes unchanged exactly when it already holds the three files, because adding a file to a list raises; any other value raises |
| FileOrganizerStage.OrganizeValueComplete | app/agents/file_organizer.py:11-65 | whatever the organizer returns holds a package.json, an index.html and a .gitignore |
| FileOrganizerStage.OrganizeValueIdempotent | app/agents/file_organizer.py:8-65 | organizing the organizer's result again changes nothing |
| FileOrganizerStage.FileOrganizerAgent | app/agents/file_organizer.py:8-65 | the stage raises exactly when the files are neither a dictionary nor a list already holding the three files; it writes only `current_files`: the organized dictionary, or the list unchanged |
| FileOrganizerStage.RunFileOrganizer | app/agents/file_organizer.py:8-65 | the stage's statements give the stage's patch |
| RefinementStage.MergeRefined | app/agents/refinement.py:56-58 | a dictionary of files is overlaid with the returned files; a value that is neither a dictionary nor a list raises |
| RefinementStage.RefinementAgent | app/agents/refinement.py:11-60 | without feedback the patch is empty; with feedback a missing API key or a failing model call raises, and otherwise the patch is the merged files and the incremented count |
| RefinementStage.RefinementCounts | app/agents/refinement.py:60 | refinement adds one to the count and leaves the feedback alone |
| RefinementStage.MergeUpdates | app/agents/refinement.py:56-58 | the merge loop gives the overlay |
| RefinementStage.RunRefinement | app/agents/refinement.py:11-60 | the stage's statements give the stage's patch |
| RefinementStage.RefinedFiles | app/agents/refinement.py:56-58 | the merged files are the old names plus the returned ones; unnamed files are kept; the last returned content of a name wins |
| Judge0.LanguageIdIn | app/services/judge0.py:37-59 | an empty or missing name gives 71; otherwise the identifier's own entry, else its last extension's entry, else 71 |
| Judge0.GetLanguageId | app/services/judge0.py:37-59 | the answer is always the default 71 or an id of the table, and so always positive |
| Judge0.TableKeysAreUndotted | app/services/judge0.py:11-34 | no key of the language table contains a dot |
| Judge0.TableIdsArePositive | app/services/judge0.py:11-34 | every language id is positive |
| Judge0.LowerTwice | app/services/judge0.py:53 | lower-casing the extension a second time changes nothing |
| Judge0.SameIdentifier | app/services/judge0.py:45 | names with the same normalized identifier get the same id |
| Judge0.LanguageIdIgnoresCase | app/services/judge0.py:45-55 | letter case does not change the id |
| Judge0.LanguageIdIgnoresBlanks | app/services/judge0.py:45 | surrounding blanks do not change the id |
| Judge0.FileExtensionDecides | app/services/judge0.py:51-55 | a filename whose extension is a key gets that key's id |
| Judge0.UnknownExtensionGetsDefault | app/services/judge0.py:51-59 | a filename whose extension is not a key gets 71 |
| Judge0.RubyExtensionIsNotAKey | app/services/judge0.py:24 | the table has "ruby" but not "rb" |
| Judge0.RubyFileGetsDefault | app/services/judge0.py:51-59 | any ".rb" filename gets 71, not Ruby's 72 |
| Judge0.PythonFileGetsPython | app/services/judge0.py:14 | any ".py" filename gets 71 |
| Judge0.ErrorText | app/services/judge0.py:133 | the error text is truthy or "" |
| Judge0.IsAccepted | app/services/judge0.py:130 | status id 3 means success, whether it is the integer 3 or the float 3.0 |
| Judge0.FormatResult | app/services/judge0.py:114-144 | formatting raises exactly when the status is not a dictionary; success is status id 3; a failure with error text reports it as output; error is `None` on success |
| Judge0.MissingStatusFails | app/services/judge0.py:124-130 | a submission without status formats as a failure |
| Judge0.ErrorIsFirstNonEmpty | app/services/judge0.py:133 | the error is stderr if truthy, else compile output if truthy, else "" |
| Judge0.OutputIsTextOrEmpty | app/services/judge0.py:132-136 | the output is stdout, or the error text on a failure that has one, or "" |
| CodeRoute.SelectLanguageId | app/api/routes/code.py:27-29 | a filename decides the language id, else a language name, else 71 |
| CodeRoute.SubmissionOf | app/api/routes/code.py:36-43 | the submission carries the code, the selected id, and stdin with "" sent as `None` |
| CodeRoute.ExecuteCode | app/api/routes/code.py:21-66 | code that is not a non-empty string gives 400; a failed submission or a non-dictionary status gives 500; otherwise the formatted result, with stdout and stderr repeating output and error and with the token and status copied |
| CodeRoute.RejectsBeforeSubmitting | app/api/routes/code.py:22-24 | invalid code is rejected whatever Judge0 would answer |
| CodeRoute.SubmitsOnlyTheRequest | app/api/routes/code.py:36-43 | the response depends on Judge0 only through the one submission of the request |
| CodeRoute.FilenameOverridesLanguage | app/api/routes/code.py:27 | a given filename makes the language field irrelevant |
| CodeRoute.SubmitFailureIs500 | app/api/routes/code.py:64-66 | a submission that raises gives 500 with its message |
| CodeRoute.AcceptedRun | app/api/routes/code.py:49-61 | an accepted run is a success with no error and its stdout, or "", as output |
| Cleanup.ValidatePreviewStructure | app/services/cleanup.py:121-143 | a preview is valid exactly when both "dist" and "dist/index.html" exist |
| Cleanup.Lookup | app/services/cleanup.py:132-141 | the empty path is the previews directory, and a one-step path is the named entry when there is one |
| Cleanup.ValidIffIndexExists | app/services/cleanup.py:132-141 | the "dist" check is implied: validity is the existence of "dist/index.html" |
| Cleanup.RemovalKeepsOthers | app/services/cleanup.py:146-154 | removing one preview leaves every path under another name as it was |
| Cleanup.RemovedPreviewIsInvalid | app/services/cleanup.py:121-154 | a removed preview is invalid and every other preview keeps its validity |
| Cleanup.Doomed | app/services/cleanup.py:43-66 | the previews a cleanup removes are entries of the directory |
| Cleanup.FilesAreKept | app/services/cleanup.py:44-45 | plain files in the previews directory are never removed |
| Cleanup.ShouldRemove | app/services/cleanup.py:50-61 | a preview of a project missing from the active list is due; an active project without an expiry is never due |
| Cleanup.DueStaysDue | app/services/cleanup.py:54-55 | a preview that is due stays due as the clock advances |
| Cleanup.UnexpiredPreviewIsKept | app/services/cleanup.py:50-58 | an active project's preview that has not expired is kept |
| Cleanup.DuePreviewIsRemoved | app/services/cleanup.py:50-66 | an orphaned or expired preview directory is removed unless its removal fails |
| Cleanup.Reached | app/services/cleanup.py:150 | `rmtree` walks the entries in listing order and stops at the first whose removal fails; every entry before it was removed |
| Cleanup.PreviewsDir.constructor | app/services/cleanup.py:15 | the previews directory holds the given entries |
| Cleanup.PreviewsDir.RemovePreviewDir | app/services/cleanup.py:146-154 | an existing directory whose removal succeeds is removed and answers true; anything else answers false and changes nothing |
| Cleanup.PreviewsDir.RemoveAllPreviews | app/services/cleanup.py:146-154 | removing the previews directory itself succeeds exactly when no entry fails; the entries before the first failing one in listing order are removed and the rest are kept |
| Cleanup.PreviewsDir.CleanupPreviewById | app/services/cleanup.py:79-91 | "" and "." remove the whole previews directory, up to the first entry whose removal fails; any other id removes only its own entry, when it is a directory whose removal succeeds |
| Cleanup.PreviewsDir.CleanupExpiredPreviews | app/services/cleanup.py:23-76 | exactly the due directories are removed, and `cleaned_count` counts them |

## Left out

- The language model, the QA stage (app/agents/qa.py is not part of this model) and the Judge0 HTTP call (`submit_code`) are inputs: each stage's answer is a parameter, and QA's patch is arbitrary.
- `build_react_app` and the preview routes (app/api/routes/preview.py): they run npm and the file system, outside this model.
- Authentication and GitHub OAuth (auth.py, github_oauth.py): outside this model.
- `get_supported_languages` in app/api/routes/code.py: it only lists the language table.
- The text framing of server-sent events and JSON encoding: events are modelled as records.
- Concurrency and `async`: the model runs the graph to its end before consuming its updates, and requests do not interleave. The source's interleaving gives the same result, because the graph works on its own copy of the state.
- The `GenerateRequest`, `RefineRequest` and `ExecuteRequest` models are not part of this model. Their fields are taken from the handlers, and `ExecuteRequest.files` is taken to be an optional dictionary.
- Request validation by pydantic: `CodeExecutionRequest.code` is any value, and the route's own check is modelled.
- Response-model validation of the route results.
- The engine-version behaviour of streaming an empty patch as `None` is a parameter (`emptyAsNull`).
- ClassifierStage.EnsureList: a dictionary argument is excluded, because Python lists its keys in insertion order and maps are unordered here.
- ClassifierStage.ClassifierAgent: a fallback for a prompt that is not a string is modelled as raising. This is right for `None`, numbers and dictionaries. A list prompt, which Python would slice, is not modelled.
- Strings: only ASCII letters are lower-cased, and only ASCII whitespace is stripped.
- Cleanup: the clock, `expires_at` as a point on the clock, and the set of entries whose removal fails are inputs. Comparing naive and aware datetimes is not modelled.
- Cleanup.PreviewsDir.CleanupExpiredPreviews: `freed_space_mb` and `_get_dir_size_mb` are left out, because they read file sizes. The `errors` list is always empty here, because the model's loop never raises; project metadata that is not a dictionary is not modelled.
- Cleanup.PreviewsDir.RemovePreviewDir: a removal of one preview that fails part-way is modelled as removing nothing. App ids containing "/" or "..", and symbolic links, are not modelled.
- `extract_tar_gz` and `ensure_previews_dir`: archive extraction and directory creation are file-system effects. The previews directory always exists in the model.
- Logging and `print` output.
- CodeGeneratorStage.ComponentsOf: `components` given as a dictionary is modelled as raising, although Python iterates its keys, because maps here have no insertion order. List items that are floats, lists or dictionaries are modelled as raising, although Python renders their `repr`. The design stage never writes `components`, so these values reach the stage only through a state built elsewhere.
- Cleanup.PreviewsDir.RemoveAllPreviews: `rmtree` works file by file inside each entry. The model removes whole entries, so an entry that fails part-way is kept whole.
- Workflow.Run: the engine is given the compiled graph as a function, and `Workflow.RunStage` runs its stages one at a time. The registration of node functions by name inside LangGraph is not modelled.
