/**
 * The file organizer stage (app/agents/file_organizer.py): copies the current files and
 * adds a default `package.json`, `index.html` and `.gitignore` when they are missing.
 */
module FileOrganizerStage {
  import opened Wrappers
  import opened PyValues
  import opened GraphState

  const PackageJsonKey := "package.json"
  const IndexHtmlKey := "index.html"
  const GitIgnoreKey := ".gitignore"

  const DefaultPackageJson :=
    "{\n" +
    "  \"name\": \"generated-project\",\n" +
    "  \"private\": true,\n" +
    "  \"version\": \"0.0.0\",\n" +
    "  \"type\": \"module\",\n" +
    "  \"scripts\": {\n" +
    "    \"dev\": \"vite\",\n" +
    "    \"build\": \"vite build\",\n" +
    "    \"preview\": \"vite preview\"\n" +
    "  },\n" +
    "  \"dependencies\": {\n" +
    "    \"react\": \"^18.2.0\",\n" +
    "    \"react-dom\": \"^18.2.0\"\n" +
    "  },\n" +
    "  \"devDependencies\": {\n" +
    "    \"@types/react\": \"^18.2.43\",\n" +
    "    \"@types/react-dom\": \"^18.2.17\",\n" +
    "    \"@vitejs/plugin-react\": \"^4.2.1\",\n" +
    "    \"autoprefixer\": \"^10.4.16\",\n" +
    "    \"postcss\": \"^8.4.32\",\n" +
    "    \"tailwindcss\": \"^3.4.0\",\n" +
    "    \"vite\": \"^5.0.8\"\n" +
    "  }\n" +
    "}"

  const DefaultIndexHtml :=
    "<!doctype html>\n" +
    "<html lang=\"en\">\n" +
    "  <head>\n" +
    "    <meta charset=\"UTF-8\" />\n" +
    "    <meta name=\"viewport\" content=\"width=device-width, initial-scale=1.0\" />\n" +
    "    <title>Generated App</title>\n" +
    "  </head>\n" +
    "  <body>\n" +
    "    <div id=\"root\"></div>\n" +
    "    <script type=\"module\" src=\"/src/main.jsx\"></script>\n" +
    "  </body>\n" +
    "</html>"

  const DefaultGitIgnore := "node_modules\ndist\n.env\n"

  /** `any(sub in k for k in files)` */
  predicate HasKeyContaining(files: map<string, Value>, sub: string) {
    exists k :: k in files && Contains(k, sub)
  }

  /**
   * The organized file map: the two presence checks look at the files as they came in;
   * the `.gitignore` check is an exact key test after the other insertions.
   */
  function Organize(files: map<string, Value>): (r: map<string, Value>)
    ensures files.Keys <= r.Keys <= files.Keys + {PackageJsonKey, IndexHtmlKey, GitIgnoreKey}
    ensures GitIgnoreKey in r
  {
    var withPackage := if HasKeyContaining(files, PackageJsonKey) then files
      else files[PackageJsonKey := Str(DefaultPackageJson)];
    var withIndex := if HasKeyContaining(files, IndexHtmlKey) then withPackage
      else withPackage[IndexHtmlKey := Str(DefaultIndexHtml)];
    if GitIgnoreKey in withIndex then withIndex else withIndex[GitIgnoreKey := Str(DefaultGitIgnore)]
  }

  /** A key that is present makes its own presence check succeed. */
  lemma PresentKeyIsFound(files: map<string, Value>, k: string)
    requires k in files
    ensures HasKeyContaining(files, k)
  {
    ContainsItself(k);
  }

  lemma GitIgnoreIsNotDefault()
    ensures GitIgnoreKey != PackageJsonKey && GitIgnoreKey != IndexHtmlKey && PackageJsonKey != IndexHtmlKey
  {
    assert GitIgnoreKey[0] == '.' && PackageJsonKey[0] == 'p' && IndexHtmlKey[0] == 'i';
  }

  /** Every file that was there is still there, with the same content. */
  lemma OrganizePreserves(files: map<string, Value>)
    ensures forall k :: k in files ==> k in Organize(files) && Organize(files)[k] == files[k]
  {
    forall k | k in files ensures k in Organize(files) && Organize(files)[k] == files[k] {
      PresentKeyIsFound(files, k);
    }
  }

  /**
   * The organizer adds exactly the three defaults: `package.json` and `index.html` when no
   * key contains those names, `.gitignore` when that exact key is missing.
   */
  lemma OrganizeAdds(files: map<string, Value>)
    ensures var r := Organize(files);
      && (PackageJsonKey in r && PackageJsonKey !in files <==> !HasKeyContaining(files, PackageJsonKey))
      && (IndexHtmlKey in r && IndexHtmlKey !in files <==> !HasKeyContaining(files, IndexHtmlKey))
      && (GitIgnoreKey in r && GitIgnoreKey !in files <==> GitIgnoreKey !in files)
      && r.Keys <= files.Keys + {PackageJsonKey, IndexHtmlKey, GitIgnoreKey}
  {
    GitIgnoreIsNotDefault();
    if PackageJsonKey in files {
      PresentKeyIsFound(files, PackageJsonKey);
    }
    if IndexHtmlKey in files {
      PresentKeyIsFound(files, IndexHtmlKey);
    }
  }

  /** The defaults that are added carry the fixed template contents. */
  lemma OrganizeDefaults(files: map<string, Value>)
    ensures GitIgnoreKey !in files ==> Organize(files)[GitIgnoreKey] == Str(DefaultGitIgnore)
    ensures !HasKeyContaining(files, PackageJsonKey) ==> Organize(files)[PackageJsonKey] == Str(DefaultPackageJson)
    ensures !HasKeyContaining(files, IndexHtmlKey) ==> Organize(files)[IndexHtmlKey] == Str(DefaultIndexHtml)
  {
    GitIgnoreIsNotDefault();
    if PackageJsonKey in files {
      PresentKeyIsFound(files, PackageJsonKey);
    }
    if IndexHtmlKey in files {
      PresentKeyIsFound(files, IndexHtmlKey);
    }
  }

  /** After organizing, all three checks are satisfied. */
  lemma OrganizeComplete(files: map<string, Value>)
    ensures HasKeyContaining(Organize(files), PackageJsonKey)
    ensures HasKeyContaining(Organize(files), IndexHtmlKey)
    ensures GitIgnoreKey in Organize(files)
  {
    var r := Organize(files);
    OrganizePreserves(files);
    if HasKeyContaining(files, PackageJsonKey) {
      var k :| k in files && Contains(k, PackageJsonKey);
      assert k in r;
    } else {
      PresentKeyIsFound(r, PackageJsonKey);
    }
    if HasKeyContaining(files, IndexHtmlKey) {
      var k :| k in files && Contains(k, IndexHtmlKey);
      assert k in r;
    } else {
      PresentKeyIsFound(r, IndexHtmlKey);
    }
  }

  /** Organizing an organized map changes nothing. */
  lemma OrganizeIdempotent(files: map<string, Value>)
    ensures Organize(Organize(files)) == Organize(files)
  {
    OrganizeComplete(files);
  }

  /**
   * `sub in v` for one element `v` of a list of files: a substring test on a string,
   * membership in a list, a key test on a dictionary; `None` where Python raises
   * `TypeError` (`None`, booleans and numbers are not containers).
   */
  function SearchIn(sub: string, v: Value): Option<bool> {
    match v
    case Str(s) => Some(Contains(s, sub))
    case List(items) => Some(Str(sub) in items)
    case Dict(fields) => Some(sub in fields)
    case _ => None
  }

  /**
   * `any(sub in k for k in files)` over a list: stops at the first element that holds
   * `sub`, and raises at an element before it that cannot be searched.
   */
  function AnyIn(sub: string, items: seq<Value>): Option<bool> {
    if items == [] then Some(false)
    else match SearchIn(sub, items[0])
      case None => None
      case Some(hit) => if hit then Some(true) else AnyIn(sub, items[1..])
  }

  /**
   * `any` finds `sub` exactly when some element holds it and every element before that
   * one could be searched without holding it; it answers false exactly when every
   * element could be searched and none holds it; otherwise it raises.
   */
  lemma {:induction false} AnyInMeaning(sub: string, items: seq<Value>)
    ensures AnyIn(sub, items) == Some(false) <==> forall i :: 0 <= i < |items| ==> SearchIn(sub, items[i]) == Some(false)
    ensures AnyIn(sub, items) == Some(true) <==>
      exists i :: 0 <= i < |items| && SearchIn(sub, items[i]) == Some(true) &&
        forall j :: 0 <= j < i ==> SearchIn(sub, items[j]) == Some(false)
    decreases |items|
  {
    if items != [] && SearchIn(sub, items[0]) == Some(false) {
      AnyInMeaning(sub, items[1..]);
      assert forall i :: 1 <= i < |items| ==> items[i] == items[1..][i - 1];
      if AnyIn(sub, items[1..]) == Some(true) {
        var k :| 0 <= k < |items| - 1 && SearchIn(sub, items[1..][k]) == Some(true) &&
          forall j :: 0 <= j < k ==> SearchIn(sub, items[1..][j]) == Some(false);
        assert SearchIn(sub, items[k + 1]) == Some(true);
        assert forall j :: 0 <= j < k + 1 ==> SearchIn(sub, items[j]) == Some(false);
      }
    }
  }

  /**
   * A list of files passes the organizer only when nothing needs inserting: item
   * assignment with a string index raises on a list.
   */
  predicate ListComplete(items: seq<Value>) {
    && AnyIn(PackageJsonKey, items) == Some(true)
    && AnyIn(IndexHtmlKey, items) == Some(true)
    && Str(GitIgnoreKey) in items
  }

  /** The three files the organizer guarantees, in a dictionary or in a list of files. */
  predicate HasProjectFiles(v: Value) {
    match v
    case Dict(fields) =>
      HasKeyContaining(fields, PackageJsonKey) && HasKeyContaining(fields, IndexHtmlKey) && GitIgnoreKey in fields
    case List(items) => ListComplete(items)
    case _ => false
  }

  /**
   * The organizer on the value of `current_files`: `.copy()` exists only on dictionaries
   * and lists; a dictionary is organized, a list passes unchanged when it is complete and
   * raises otherwise.
   */
  function OrganizeValue(current: Value): (r: Option<Value>)
    ensures r.Some? <==> current.Dict? || (current.List? && ListComplete(current.items))
    ensures current.Dict? ==> r == Some(Dict(Organize(current.fields)))
    ensures current.List? && r.Some? ==> r == Some(current)
  {
    match current
    case Dict(fields) => Some(Dict(Organize(fields)))
    case List(items) => if ListComplete(items) then Some(current) else None
    case _ => None
  }

  /** Whatever the organizer returns holds the three project files. */
  lemma OrganizeValueComplete(current: Value)
    requires OrganizeValue(current).Some?
    ensures HasProjectFiles(OrganizeValue(current).value)
  {
    if current.Dict? {
      OrganizeComplete(current.fields);
    }
  }

  /** Organizing what the organizer returned gives it back unchanged. */
  lemma OrganizeValueIdempotent(current: Value)
    requires OrganizeValue(current).Some?
    ensures OrganizeValue(OrganizeValue(current).value) == OrganizeValue(current)
  {
    if current.Dict? {
      OrganizeIdempotent(current.fields);
    }
  }

  /**
   * `file_organizer_agent`: `state.get("current_files", {}).copy()`, the two presence
   * checks, the insertions and `{"current_files": files}`.
   */
  function FileOrganizerAgent(state: State): (r: Option<State>)
    ensures var current := Get(state, CurrentFiles, Dict(map[]));
      r.Some? <==> current.Dict? || (current.List? && ListComplete(current.items))
    ensures r.Some? ==> r.value.Keys == {CurrentFiles}
    ensures var current := Get(state, CurrentFiles, Dict(map[]));
      current.Dict? ==> r == Some(map[CurrentFiles := Dict(Organize(current.fields))])
    ensures var current := Get(state, CurrentFiles, Dict(map[]));
      current.List? && r.Some? ==> r == Some(map[CurrentFiles := current])
  {
    match OrganizeValue(Get(state, CurrentFiles, Dict(map[])))
    case None => None
    case Some(files) => Some(map[CurrentFiles := files])
  }

  /** The stage step by step: copy the files, run both checks, then insert what is missing. */
  method RunFileOrganizer(state: State) returns (r: Option<State>)
    ensures r == FileOrganizerAgent(state)
  {
    var current := Get(state, CurrentFiles, Dict(map[]));
    match current {
      case Dict(fields) =>
        var files := fields;
        var hasPackageJson := HasKeyContaining(files, PackageJsonKey);
        var hasIndexHtml := HasKeyContaining(files, IndexHtmlKey);
        if !hasPackageJson {
          files := files[PackageJsonKey := Str(DefaultPackageJson)];
        }
        if !hasIndexHtml {
          files := files[IndexHtmlKey := Str(DefaultIndexHtml)];
        }
        if GitIgnoreKey !in files {
          files := files[GitIgnoreKey := Str(DefaultGitIgnore)];
        }
        r := Some(map[CurrentFiles := Dict(files)]);
      case List(items) =>
        var hasPackageJson := AnyIn(PackageJsonKey, items);
        if hasPackageJson.None? {
          return None;
        }
        var hasIndexHtml := AnyIn(IndexHtmlKey, items);
        if hasIndexHtml.None? || !hasPackageJson.value || !hasIndexHtml.value || Str(GitIgnoreKey) !in items {
          return None;
        }
        r := Some(map[CurrentFiles := current]);
      case _ =>
        r := None;
    }
  }
}
