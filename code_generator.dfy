/**
 * The code generator stage (app/agents/code_generator.py): the file list it derives from
 * the design specification, the map it builds from the model's files, the template
 * project it falls back to when the model call raises, and the StackBlitz preview URL.
 * The model call itself is an input: `Some(files)` when it succeeded, `None` when it
 * raised.
 */
module CodeGeneratorStage {
  import opened Wrappers
  import opened PyValues
  import opened GraphState

  /** One generated file (`CodeFile`). */
  datatype CodeFile = CodeFile(filename: string, content: string)

  /**
   * `base` with every file of `files` written in list order, so a later entry for the same
   * filename wins. `{f.filename: f.content for f in files}` is `Overlay(map[], files)`.
   */
  function Overlay(base: map<string, Value>, files: seq<CodeFile>): (r: map<string, Value>)
    ensures r.Keys == base.Keys + (set f | f in files :: f.filename)
    decreases |files|
  {
    if files == [] then base
    else
      var init := files[..|files| - 1];
      var last := files[|files| - 1];
      assert forall f :: f in files <==> f in init || f == last;
      Overlay(base, init)[last.filename := Str(last.content)]
  }

  /** A key no file names keeps its value. */
  lemma {:induction false} OverlayKeepsOthers(base: map<string, Value>, files: seq<CodeFile>, k: string)
    requires k in base
    requires forall i :: 0 <= i < |files| ==> files[i].filename != k
    ensures Overlay(base, files)[k] == base[k]
    decreases |files|
  {
    if files != [] {
      OverlayKeepsOthers(base, files[..|files| - 1], k);
    }
  }

  /** The file at index `i` is the one kept when no later file has its name. */
  lemma {:induction false} OverlayLastWins(base: map<string, Value>, files: seq<CodeFile>, i: int)
    requires 0 <= i < |files|
    requires forall j :: i < j < |files| ==> files[j].filename != files[i].filename
    ensures Overlay(base, files)[files[i].filename] == Str(files[i].content)
    decreases |files|
  {
    if i < |files| - 1 {
      OverlayLastWins(base, files[..|files| - 1], i);
    }
  }

  // ---------------------------------------------------------------------------
  // The file list handed to the model

  /**
   * `[f.get('filename') or f.get('path') for f in file_structure]`; `None` when an entry
   * is not a dictionary (`.get` raises `AttributeError`).
   */
  function EntryNames(entries: seq<Value>): (r: Option<seq<Value>>)
    ensures r.Some? <==> forall i :: 0 <= i < |entries| ==> entries[i].Dict?
    ensures r.Some? ==> |r.value| == |entries| && forall i :: 0 <= i < |entries| ==>
      r.value[i] == Or(Get(entries[i].fields, "filename", Null), Get(entries[i].fields, "path", Null))
    decreases |entries|
  {
    if entries == [] then Some([])
    else
      var init := EntryNames(entries[..|entries| - 1]);
      var last := entries[|entries| - 1];
      if init.None? || !last.Dict? then None
      else Some(init.value + [Or(Get(last.fields, "filename", Null), Get(last.fields, "path", Null))])
  }

  /**
   * The `file_list` of `code_generator_agent`: empty without a design specification;
   * otherwise taken from `design_spec["file_structure"]` when its first entry is a
   * dictionary. `None` when Python raises: a truthy specification that is not a
   * dictionary, a non-empty structure whose first entry is not a dictionary (the
   * `f.filename` branch; no value of the model has that attribute), or a falsy structure
   * that cannot be iterated.
   */
  function FileList(designSpec: Value): (r: Option<seq<Value>>)
    ensures !Truthy(designSpec) ==> r == Some([])
    ensures Truthy(designSpec) && !designSpec.Dict? ==> r.None?
    ensures (designSpec.Dict? && "file_structure" in designSpec.fields && designSpec.fields["file_structure"].List? &&
             |designSpec.fields["file_structure"].items| > 0 && designSpec.fields["file_structure"].items[0].Dict?) ==>
      r == EntryNames(designSpec.fields["file_structure"].items)
  {
    if !Truthy(designSpec) then Some([])
    else if !designSpec.Dict? then None
    else
      var structure := Get(designSpec.fields, "file_structure", List([]));
      if Truthy(structure) then
        if structure.List? && structure.items[0].Dict? then EntryNames(structure.items) else None
      else if structure.List? || structure.Str? || structure.Dict? then Some([])
      else None
  }

  /** A design specification with a non-empty file structure of dictionaries. */
  lemma FileListOfEntries(designSpec: Value)
    requires designSpec.Dict? && "file_structure" in designSpec.fields
    requires designSpec.fields["file_structure"].List?
    requires var items := designSpec.fields["file_structure"].items;
      |items| > 0 && forall i :: 0 <= i < |items| ==> items[i].Dict?
    ensures var items := designSpec.fields["file_structure"].items;
      FileList(designSpec).Some? && |FileList(designSpec).value| == |items| &&
      forall i :: 0 <= i < |items| ==>
        FileList(designSpec).value[i] == (if Truthy(Get(items[i].fields, "filename", Null)) then items[i].fields["filename"] else Get(items[i].fields, "path", Null))
  {
  }

  /** `", ".join(file_list)` raises `TypeError` unless every element is a string. */
  predicate JoinableNames(names: seq<Value>) {
    forall i :: 0 <= i < |names| ==> names[i].Str?
  }

  // ---------------------------------------------------------------------------
  // The fallback project

  /**
   * The names `for comp in components` visits in the three loops over
   * `design_spec.get('components', ['Main']) if design_spec else ['Main']`, each as the
   * f-strings render it: `.get` raises on a design specification that is not a dictionary,
   * iterating a string visits its characters, iterating a list its items (rendered by
   * `str`), and `None`, booleans and numbers are not iterable. `None` also covers the
   * shapes the model does not render: a dictionary of components and list items that are
   * floats, lists or dictionaries.
   */
  function ComponentsOf(designSpec: Value): (r: Option<seq<string>>)
    ensures !Truthy(designSpec) ==> r == Some(["Main"])
    ensures Truthy(designSpec) && !designSpec.Dict? ==> r.None?
    ensures designSpec.Dict? && "components" !in designSpec.fields ==> r == Some(["Main"])
  {
    if !Truthy(designSpec) then Some(["Main"])
    else if !designSpec.Dict? then None
    else if "components" !in designSpec.fields then Some(["Main"])
    else match designSpec.fields["components"]
      case Str(s) => Some(seq(|s|, i requires 0 <= i < |s| => [s[i]]))
      case List(items) =>
        if forall i :: 0 <= i < |items| ==> StrOf(items[i]).Some? then
          Some(seq(|items|, i requires 0 <= i < |items| && StrOf(items[i]).Some? => StrOf(items[i]).value))
        else None
      case _ => None
  }

  /**
   * Given components, a string yields its characters, a list the `str` of each item
   * (when every item is rendered), and anything else raises.
   */
  lemma ComponentsOfGiven(designSpec: Value)
    requires Truthy(designSpec) && designSpec.Dict? && "components" in designSpec.fields
    ensures var c := designSpec.fields["components"];
      var r := ComponentsOf(designSpec);
      && (c.Str? ==> r.Some? && |r.value| == |c.s| && forall i :: 0 <= i < |c.s| ==> r.value[i] == [c.s[i]])
      && (c.List? ==> (r.Some? <==> forall i :: 0 <= i < |c.items| ==> StrOf(c.items[i]).Some?))
      && (c.List? && r.Some? ==> |r.value| == |c.items| && forall i :: 0 <= i < |c.items| ==> StrOf(c.items[i]) == Some(r.value[i]))
      && (c.Null? || c.Bool? || c.Int? || c.Real? || c.Dict? ==> r.None?)
  {
  }

  const PackageJsonPath := "package.json"
  const ViteConfigPath := "vite.config.js"
  const TailwindConfigPath := "tailwind.config.js"
  const PostcssConfigPath := "postcss.config.js"
  const IndexCssPath := "src/index.css"
  const IndexHtmlPath := "index.html"
  const MainJsxPath := "src/main.jsx"
  const AppJsxPath := "src/App.jsx"

  /** The eight files every fallback project has. */
  const FixedPaths: set<string> := {PackageJsonPath, ViteConfigPath, TailwindConfigPath, PostcssConfigPath,
    IndexCssPath, IndexHtmlPath, MainJsxPath, AppJsxPath}

  function ComponentPath(component: string): string {
    "src/components/" + component + ".jsx"
  }

  lemma ComponentPathNotFixed(component: string)
    ensures ComponentPath(component) !in FixedPaths
  {
    var p := ComponentPath(component);
    assert p[0] == 's' && p[4] == 'c';
  }

  lemma ComponentPathInjective(a: string, b: string)
    ensures ComponentPath(a) == ComponentPath(b) ==> a == b
  {
    if ComponentPath(a) == ComponentPath(b) {
      assert a == ComponentPath(a)[15..|ComponentPath(a)| - 4];
    }
  }

  const PackageJsonContent :=
    "{\n" +
    "  \"name\": \"generated-react-app\",\n" +
    "  \"private\": true,\n" +
    "  \"version\": \"0.0.1\",\n" +
    "  \"type\": \"module\",\n" +
    "  \"scripts\": {\n" +
    "    \"dev\": \"vite\",\n" +
    "    \"build\": \"vite build\",\n" +
    "    \"preview\": \"vite preview\"\n" +
    "  },\n" +
    "  \"dependencies\": {\n" +
    "    \"react\": \"^18.2.0\",\n" +
    "    \"react-dom\": \"^18.2.0\"\n" +
    "  },\n" +
    "  \"dependencies\": {\n" +
    "    \"react\": \"^18.2.0\",\n" +
    "    \"react-dom\": \"^18.2.0\",\n" +
    "    \"react-router-dom\": \"^6.20.0\",\n" +
    "    \"axios\": \"^1.6.0\"\n" +
    "  },\n" +
    "  \"devDependencies\": {\n" +
    "    \"@vitejs/plugin-react\": \"^4.2.1\",\n" +
    "    \"vite\": \"^5.0.8\",\n" +
    "    \"tailwindcss\": \"^3.3.6\",\n" +
    "    \"autoprefixer\": \"^10.4.16\",\n" +
    "    \"postcss\": \"^8.4.32\"\n" +
    "  }\n" +
    "}"
  const ViteConfigContent :=
    "import { defineConfig } from 'vite'\n" +
    "import react from '@vitejs/plugin-react'\n" +
    "\n" +
    "export default defineConfig({\n" +
    "  plugins: [react()],\n" +
    "  build: {\n" +
    "    rollupOptions: {\n" +
    "      onwarn(warning, warn) {\n" +
    "        // Suppress unresolved import warnings - treat as external\n" +
    "        if (warning.code === 'UNRESOLVED_IMPORT') return;\n" +
    "        warn(warning);\n" +
    "      }\n" +
    "    }\n" +
    "  }\n" +
    "})\n"
  const TailwindConfigContent :=
    "export default {\n" +
    "  content: [\n" +
    "    \"./index.html\",\n" +
    "    \"./src/**/*.{js,ts,jsx,tsx}\",\n" +
    "  ],\n" +
    "  theme: {\n" +
    "    extend: {},\n" +
    "  },\n" +
    "  plugins: [],\n" +
    "}\n"
  const PostcssConfigContent :=
    "export default {\n" +
    "  plugins: {\n" +
    "    tailwindcss: {},\n" +
    "    autoprefixer: {},\n" +
    "  },\n" +
    "}\n"
  const IndexCssContent :=
    "@tailwind base;\n" +
    "@tailwind components;\n" +
    "@tailwind utilities;\n"
  const IndexHtmlContent :=
    "<!DOCTYPE html>\n" +
    "<html lang=\"en\">\n" +
    "  <head>\n" +
    "    <meta charset=\"UTF-8\" />\n" +
    "    <meta name=\"viewport\" content=\"width=device-width, initial-scale=1.0\" />\n" +
    "    <title>Generated App</title>\n" +
    "  </head>\n" +
    "  <body>\n" +
    "    <div id=\"root\"></div>\n" +
    "    <script type=\"module\" src=\"/src/main.jsx\"></script>\n" +
    "  </body>\n" +
    "</html>\n"
  const MainJsxContent :=
    "import React from 'react'\n" +
    "import ReactDOM from 'react-dom/client'\n" +
    "import App from './App.jsx'\n" +
    "import './index.css'\n" +
    "\n" +
    "ReactDOM.createRoot(document.getElementById('root')).render(\n" +
    "  <React.StrictMode>\n" +
    "    <App />\n" +
    "  </React.StrictMode>,\n" +
    ")\n"
  /** `sep.join(parts)` */
  function Join(sep: string, parts: seq<string>): string
    decreases |parts|
  {
    if parts == [] then ""
    else if |parts| == 1 then parts[0]
    else Join(sep, parts[..|parts| - 1]) + sep + parts[|parts| - 1]
  }

  function ImportLine(component: string): string {
    "import " + component + " from './components/" + component + ".jsx';"
  }

  function Tag(component: string): string {
    "<" + component + " />"
  }

  function ImportLines(components: seq<string>): (r: seq<string>)
    ensures |r| == |components| && forall i :: 0 <= i < |components| ==> r[i] == ImportLine(components[i])
  {
    seq(|components|, i requires 0 <= i < |components| => ImportLine(components[i]))
  }

  function Tags(components: seq<string>): (r: seq<string>)
    ensures |r| == |components| && forall i :: 0 <= i < |components| ==> r[i] == Tag(components[i])
  {
    seq(|components|, i requires 0 <= i < |components| => Tag(components[i]))
  }

  const ReactImport := "import React from 'react';\n"

  /** `src/App.jsx` of the fallback project: one import line and one tag per component. */
  function AppJsx(components: seq<string>): string {
    ReactImport + (Join("\n", ImportLines(components)) + AppBeforeTags + Join("\n      ", Tags(components))) + AppTail
  }

  /** `src/App.jsx` opens with the React import and closes by exporting `App`. */
  lemma AppJsxEnds(components: seq<string>)
    ensures var r := AppJsx(components);
      && |r| >= |ReactImport| + |AppTail|
      && r[..|ReactImport|] == ReactImport && r[|r| - |AppTail|..] == AppTail
  {
    Ends(ReactImport, Join("\n", ImportLines(components)) + AppBeforeTags + Join("\n      ", Tags(components)), AppTail);
  }

  const AppBeforeTags :=
    "\n" +
    "\n" +
    "function App() {\n" +
    "  return (\n" +
    "    <div className=\"min-h-screen bg-gray-900\">\n" +
    "      <div className=\"container mx-auto py-8\">\n" +
    "        "

  const AppTail :=
    "\n" +
    "      </div>\n" +
    "    </div>\n" +
    "  );\n" +
    "}\n" +
    "\n" +
    "export default App;\n"

  /** The line that closes a component's file. */
  function ExportLine(component: string): string {
    "export default " + component + ";\n"
  }

  /** A component's file of the fallback project. */
  function ComponentJsx(component: string): string {
    (ReactImport + "\n") + ("function " + component + "()") +
    (ComponentBeforeHeading + component + ComponentBeforeText + component + ComponentBeforeExport + ExportLine(component))
  }

  /** A component's file declares a function of the component's name and ends by exporting it. */
  lemma ComponentJsxShape(component: string)
    ensures var r := ComponentJsx(component);
      && Contains(r, "function " + component + "()")
      && |r| >= |ExportLine(component)| && r[|r| - |ExportLine(component)|..] == ExportLine(component)
  {
    var declaration := "function " + component + "()";
    var body := ComponentBeforeHeading + component + ComponentBeforeText + component + ComponentBeforeExport;
    ContainsMiddle(ReactImport + "\n", declaration, body + ExportLine(component));
    ConcatAssociates(ReactImport + "\n", declaration, body, ExportLine(component));
    Ends(ReactImport + "\n" + declaration, body, ExportLine(component));
  }

  const ComponentBeforeHeading :=
    " {\n" +
    "  return (\n" +
    "    <div className=\"bg-gray-800 rounded-lg shadow-lg p-6 mb-6\">\n" +
    "      <h2 className=\"text-2xl font-bold text-orange-500 mb-4\">"

  const ComponentBeforeText :=
    "</h2>\n" +
    "      <p className=\"text-gray-300\">This is the "

  const ComponentBeforeExport :=
    " component.</p>\n" +
    "    </div>\n" +
    "  );\n" +
    "}\n" +
    "\n"

  /** Adding one more component appends its import line and its tag, after the earlier ones. */
  lemma AppJsxInListOrder(components: seq<string>, c: string)
    requires components != []
    ensures Join("\n", ImportLines(components + [c])) == Join("\n", ImportLines(components)) + "\n" + ImportLine(c)
    ensures Join("\n      ", Tags(components + [c])) == Join("\n      ", Tags(components)) + "\n      " + Tag(c)
  {
    assert ImportLines(components + [c])[..|components|] == ImportLines(components);
    assert Tags(components + [c])[..|components|] == Tags(components);
  }

  /** Every part of a join occurs in it, between what precedes and what follows it. */
  lemma {:induction false} JoinPart(sep: string, parts: seq<string>, i: nat) returns (before: string, after: string)
    requires i < |parts|
    ensures Join(sep, parts) == before + parts[i] + after
    decreases |parts|
  {
    var init := parts[..|parts| - 1];
    if |parts| == 1 {
      before, after := "", "";
    } else if i == |parts| - 1 {
      before, after := Join(sep, init) + sep, "";
    } else {
      before, after := JoinPart(sep, init, i);
      assert init[i] == parts[i];
      after := after + sep + parts[|parts| - 1];
    }
  }

  /** Concatenation regroups. */
  lemma ConcatAssociates(a: string, b: string, c: string, d: string)
    ensures a + b + (c + d) == (a + b + c) + d
  {
  }

  /** Strings found in the second and fourth of five pieces are found in the whole. */
  lemma ContainsInAppParts(a: string, b: string, c: string, d: string, e: string, x: string, y: string)
    requires Contains(b, x) && Contains(d, y)
    ensures Contains(a + (b + c + d) + e, x) && Contains(a + (b + c + d) + e, y)
  {
    ContainsInside(a, b, c + d + e, x);
    assert a + (b + c + d) + e == a + b + (c + d + e);
    ContainsInside(a + b + c, d, e, y);
    assert a + (b + c + d) + e == (a + b + c) + d + e;
  }

  /** `src/App.jsx` imports and renders every component. */
  lemma AppJsxMentionsComponents(components: seq<string>, i: nat)
    requires i < |components|
    ensures Contains(AppJsx(components), ImportLine(components[i]))
    ensures Contains(AppJsx(components), Tag(components[i]))
  {
    var imports := Join("\n", ImportLines(components));
    var tags := Join("\n      ", Tags(components));
    var b1, a1 := JoinPart("\n", ImportLines(components), i);
    var b2, a2 := JoinPart("\n      ", Tags(components), i);
    ContainsMiddle(b1, ImportLine(components[i]), a1);
    ContainsMiddle(b2, Tag(components[i]), a2);
    ContainsInAppParts(ReactImport, imports, AppBeforeTags, tags, AppTail, ImportLine(components[i]), Tag(components[i]));
  }

  /** The files before the component loop, in the order the source inserts them. */
  function FixedFiles(components: seq<string>): (r: map<string, Value>)
    ensures r.Keys == FixedPaths
  {
    map[PackageJsonPath := Str(PackageJsonContent),
        ViteConfigPath := Str(ViteConfigContent),
        TailwindConfigPath := Str(TailwindConfigContent),
        PostcssConfigPath := Str(PostcssConfigContent),
        IndexCssPath := Str(IndexCssContent),
        IndexHtmlPath := Str(IndexHtmlContent),
        MainJsxPath := Str(MainJsxContent),
        AppJsxPath := Str(AppJsx(components))]
  }

  /** `files` with one component file per name, in list order. */
  function AddComponentFiles(files: map<string, Value>, components: seq<string>): (r: map<string, Value>)
    ensures r.Keys == files.Keys + (set c | c in components :: ComponentPath(c))
    decreases |components|
  {
    if components == [] then files
    else
      var init := components[..|components| - 1];
      var last := components[|components| - 1];
      assert forall c :: c in components <==> c in init || c == last;
      AddComponentFiles(files, init)[ComponentPath(last) := Str(ComponentJsx(last))]
  }

  /** Every component gets its own file. */
  lemma {:induction false} AddComponentFilesHolds(files: map<string, Value>, components: seq<string>, c: string)
    requires c in components
    ensures AddComponentFiles(files, components)[ComponentPath(c)] == Str(ComponentJsx(c))
    decreases |components|
  {
    var last := components[|components| - 1];
    if c != last {
      var init := components[..|components| - 1];
      assert c in init by {
        var i :| 0 <= i < |components| && components[i] == c;
        assert init[i] == c;
      }
      AddComponentFilesHolds(files, init, c);
      ComponentPathInjective(c, last);
    }
  }

  /** A file that is not a component path keeps its content. */
  lemma {:induction false} AddComponentFilesKeeps(files: map<string, Value>, components: seq<string>, k: string)
    requires k in files && forall i :: 0 <= i < |components| ==> ComponentPath(components[i]) != k
    ensures AddComponentFiles(files, components)[k] == files[k]
    decreases |components|
  {
    if components != [] {
      AddComponentFilesKeeps(files, components[..|components| - 1], k);
    }
  }

  /** `generate_fallback_files` for the given components: the fixed files and the component files. */
  function FallbackFiles(components: seq<string>): (r: map<string, Value>)
    ensures r.Keys == FixedPaths + (set c | c in components :: ComponentPath(c))
  {
    AddComponentFiles(FixedFiles(components), components)
  }

  /**
   * The fallback project has exactly the eight fixed files and one file per component, so
   * it is never empty.
   */
  lemma FallbackFilesKeys(components: seq<string>)
    ensures FallbackFiles(components).Keys == FixedPaths + (set c | c in components :: ComponentPath(c))
    ensures FallbackFiles(components) != map[]
  {
    assert FixedFiles(components).Keys == FixedPaths;
    assert PackageJsonPath in FallbackFiles(components);
  }

  /** No component file replaces one of the fixed files. */
  lemma FallbackFilesKeepFixed(components: seq<string>, k: string)
    requires k in FixedPaths
    ensures FallbackFiles(components)[k] == FixedFiles(components)[k]
  {
    forall i | 0 <= i < |components| ensures ComponentPath(components[i]) != k {
      ComponentPathNotFixed(components[i]);
    }
    AddComponentFilesKeeps(FixedFiles(components), components, k);
  }

  /** `src/App.jsx` imports the components. */
  lemma FallbackAppJsx(components: seq<string>)
    ensures FallbackFiles(components)[AppJsxPath] == Str(AppJsx(components))
  {
    FallbackFilesKeepFixed(components, AppJsxPath);
  }

  /** Every component file holds its component. */
  lemma FallbackFilesComponents(components: seq<string>, c: string)
    requires c in components
    ensures FallbackFiles(components)[ComponentPath(c)] == Str(ComponentJsx(c))
  {
    AddComponentFilesHolds(FixedFiles(components), components, c);
  }

  /**
   * Components given as one string yield one component file per character.
   */
  lemma StringComponentsPerCharacter(s: string, j: nat)
    requires j < |s|
    ensures var cs := ComponentsOf(Dict(map["components" := Str(s)]));
      cs.Some? && ComponentPath([s[j]]) in FallbackFiles(cs.value)
  {
    var designSpec := Dict(map["components" := Str(s)]);
    assert "components" in designSpec.fields;
    ComponentsOfGiven(designSpec);
    var cs := ComponentsOf(designSpec).value;
    assert cs[j] == [s[j]];
    FallbackFilesComponents(cs, [s[j]]);
  }

  /** The eight files written before the component loop; only `src/App.jsx` depends on the components. */
  method BuildFixedFiles(components: seq<string>) returns (files: map<string, Value>)
    ensures files == FixedFiles(components)
  {
    files := map[];
    files := files[PackageJsonPath := Str(PackageJsonContent)];
    files := files[ViteConfigPath := Str(ViteConfigContent)];
    files := files[TailwindConfigPath := Str(TailwindConfigContent)];
    files := files[PostcssConfigPath := Str(PostcssConfigContent)];
    files := files[IndexCssPath := Str(IndexCssContent)];
    files := files[IndexHtmlPath := Str(IndexHtmlContent)];
    files := files[MainJsxPath := Str(MainJsxContent)];
    files := files[AppJsxPath := Str(AppJsx(components))];
  }

  /** The loop over the components. */
  method AddComponents(base: map<string, Value>, components: seq<string>) returns (files: map<string, Value>)
    ensures files == AddComponentFiles(base, components)
  {
    files := base;
    for i := 0 to |components|
      invariant files == AddComponentFiles(base, components[..i])
    {
      assert components[..i + 1][..i] == components[..i];
      files := files[ComponentPath(components[i]) := Str(ComponentJsx(components[i]))];
    }
    assert components[..|components|] == components;
  }

  /** The fallback project for the given components: the fixed files, then the component files. */
  method BuildFallbackFiles(components: seq<string>) returns (files: map<string, Value>)
    ensures files == FallbackFiles(components)
  {
    files := BuildFixedFiles(components);
    files := AddComponents(files, components);
  }

  /** `generate_fallback_files(file_list, design_spec)`: the file list is not used. */
  method GenerateFallbackFiles(fileList: seq<Value>, designSpec: Value) returns (r: Option<map<string, Value>>)
    ensures ComponentsOf(designSpec).None? ==> r.None?
    ensures ComponentsOf(designSpec).Some? ==> r == Some(FallbackFiles(ComponentsOf(designSpec).value))
  {
    var found := ComponentsOf(designSpec);
    if found.None? {
      return None;
    }
    var files := BuildFallbackFiles(found.value);
    r := Some(files);
  }

  // ---------------------------------------------------------------------------
  // The stage

  /**
   * `code_generator_agent`: the file list is computed, `get_llm` is called (raising without
   * a configured client, `client` false) and the list is joined, all before the guarded
   * model call, so a malformed specification or a missing client raises there; the model's
   * files replace `current_files` wholesale; when the call raised, the fallback project does.
   */
  function CodeGeneratorAgent(state: State, client: bool, llm: Option<seq<CodeFile>>): (r: Option<State>)
    ensures r.Some? ==> r.value.Keys == {CurrentFiles} && r.value[CurrentFiles].Dict?
    ensures r.Some? && llm.Some? ==> r.value[CurrentFiles] == Dict(Overlay(map[], llm.value))
    ensures r.Some? && llm.None? ==>
      var cs := ComponentsOf(Get(state, DesignSpecKey, Null));
      cs.Some? && r.value[CurrentFiles] == Dict(FallbackFiles(cs.value))
    ensures r.None? <==>
      var names := FileList(Get(state, DesignSpecKey, Null));
      names.None? || !client || !JoinableNames(names.value) || (llm.None? && ComponentsOf(Get(state, DesignSpecKey, Null)).None?)
  {
    var designSpec := Get(state, DesignSpecKey, Null);
    match FileList(designSpec)
    case None => None
    case Some(names) =>
      if !client || !JoinableNames(names) then None
      else match llm
        case Some(files) => Some(map[CurrentFiles := Dict(Overlay(map[], files))])
        case None =>
          match ComponentsOf(designSpec)
          case None => None
          case Some(cs) => Some(map[CurrentFiles := Dict(FallbackFiles(cs))])
  }

  /** The stage as the source runs it, calling the fallback generator. */
  method RunCodeGenerator(state: State, client: bool, llm: Option<seq<CodeFile>>) returns (r: Option<State>)
    ensures r == CodeGeneratorAgent(state, client, llm)
  {
    var designSpec := Get(state, DesignSpecKey, Null);
    var fileList := FileList(designSpec);
    if fileList.None? || !client || !JoinableNames(fileList.value) {
      return None;
    }
    if llm.Some? {
      return Some(map[CurrentFiles := Dict(Overlay(map[], llm.value))]);
    }
    var fallback := GenerateFallbackFiles(fileList.value, designSpec);
    if fallback.None? {
      return None;
    }
    r := Some(map[CurrentFiles := Dict(fallback.value)]);
  }

  /**
   * Without a design specification the stage raises only for a missing client, and when
   * the model call fails the project is the fallback with the single component "Main".
   */
  lemma NoDesignSpecFallsBackToMain(state: State)
    requires DesignSpecKey !in state
    ensures CodeGeneratorAgent(state, true, None) == Some(map[CurrentFiles := Dict(FallbackFiles(["Main"]))])
  {
  }

  /** `generate_stackblitz_url`: the files are not used. */
  function StackBlitzUrl(appId: string, files: map<string, Value>): (url: string)
    ensures |url| > |appId|
    ensures |url| == 28 + |appId| + 32
    ensures url[..28] == "https://stackblitz.com/edit/"
    ensures url[28..28 + |appId|] == appId
    ensures url[28 + |appId|..] == "?file=src%2FApp.jsx&view=preview"
  {
    "https://stackblitz.com/edit/" + appId + "?file=src%2FApp.jsx&view=preview"
  }
}
