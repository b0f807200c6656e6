/**
 * The Judge0 helpers (app/services/judge0.py): the language table, the choice of a
 * language id for a filename or a language name, and the reshaping of a submission
 * record into the response fields. The network call `submit_code` is not part of this
 * module: the code route takes it as an input.
 */
module Judge0 {
  import opened Wrappers
  import opened PyValues

  /** The id Judge0 gives Python 3, used whenever nothing else matches. */
  const DefaultLanguageId := 71

  /** `LANGUAGE_ID_MAP` */
  const LanguageIds: map<string, int> := map[
    "python" := 71, "python3" := 71, "py" := 71,
    "javascript" := 63, "js" := 63,
    "typescript" := 74, "ts" := 74,
    "java" := 62, "cpp" := 54, "c" := 50,
    "csharp" := 51, "c#" := 51,
    "ruby" := 72, "go" := 60, "rust" := 73, "php" := 68,
    "swift" := 85, "kotlin" := 78, "r" := 80,
    "bash" := 46, "shell" := 46, "sql" := 82]

  /**
   * `get_language_id` over a language table: `None` and "" give the default. Otherwise
   * the lower-cased, stripped name is looked up; failing that, when it contains a dot,
   * the text after its last dot is looked up; failing that, the default.
   */
  function LanguageIdIn(table: map<string, int>, name: Option<string>): (id: int)
    ensures name.None? || name.value == "" ==> id == DefaultLanguageId
    ensures name.Some? && name.value != "" ==>
      var identifier := Strip(Lower(name.value));
      var ext := AfterLast(identifier, '.');
      && (identifier in table ==> id == table[identifier])
      && (identifier !in table && '.' in identifier && ext in table ==> id == table[ext])
      && (identifier !in table && !('.' in identifier && ext in table) ==> id == DefaultLanguageId)
  {
    match name
    case None => DefaultLanguageId
    case Some(s) =>
      if s == "" then DefaultLanguageId
      else
        var identifier := Strip(Lower(s));
        if identifier in table then table[identifier]
        else if '.' in identifier && AfterLast(identifier, '.') in table then
          table[AfterLast(identifier, '.')]
        else DefaultLanguageId
  }

  /**
   * `get_language_id` with `LANGUAGE_ID_MAP`: always the default or one of the table's
   * ids, so always positive.
   */
  function GetLanguageId(name: Option<string>): (id: int)
    ensures id == DefaultLanguageId || id in LanguageIds.Values
    ensures id > 0
  {
    TableIdsArePositive();
    var id := LanguageIdIn(LanguageIds, name);
    assert id == DefaultLanguageId || exists k :: k in LanguageIds && id == LanguageIds[k];
    id
  }

  /** A table none of whose keys contains a dot, so a dotted name is never a key. */
  predicate UndottedKeys(table: map<string, int>) {
    forall k :: k in table ==> '.' !in k
  }

  /** The language table has no dotted key. */
  lemma TableKeysAreUndotted()
    ensures UndottedKeys(LanguageIds)
  {
  }

  /** Every id in the table is positive. */
  lemma TableIdsArePositive()
    ensures forall k :: k in LanguageIds ==> LanguageIds[k] > 0
  {
  }

  /** Lower-casing is idempotent. */
  lemma LowerTwice(s: string)
    ensures Lower(Lower(s)) == Lower(s)
  {
  }

  /** Two non-empty names with the same lower-cased, stripped form get the same id. */
  lemma SameIdentifier(table: map<string, int>, a: string, b: string)
    requires a != "" && b != "" && Strip(Lower(a)) == Strip(Lower(b))
    ensures LanguageIdIn(table, Some(a)) == LanguageIdIn(table, Some(b))
  {
  }

  /** Matching ignores case: a name and its lower-cased form get the same id. */
  lemma LanguageIdIgnoresCase(table: map<string, int>, s: string)
    ensures LanguageIdIn(table, Some(s)) == LanguageIdIn(table, Some(Lower(s)))
  {
    if s != "" {
      LowerTwice(s);
      SameIdentifier(table, s, Lower(s));
    }
  }

  /** Matching ignores blanks around a non-empty name. */
  lemma LanguageIdIgnoresBlanks(table: map<string, int>, s: string)
    requires s != ""
    ensures LanguageIdIn(table, Some(" " + s + " ")) == LanguageIdIn(table, Some(s))
  {
    LowerOfSurrounded(s);
    StripIgnoresSurroundingBlanks(Lower(s));
    SameIdentifier(table, " " + s + " ", s);
  }

  /** The text after the last `sep` of `a + [sep] + b`, where `b` has no `sep`, is `b`. */
  lemma {:induction false} AfterLastOfSuffix(a: string, sep: char, b: string)
    requires sep !in b
    ensures AfterLast(a + [sep] + b, sep) == b
    decreases |b|
  {
    var s := a + [sep] + b;
    if b == [] {
      assert s[|s| - 1] == sep;
    } else {
      var b' := b[..|b| - 1];
      assert s[..|s| - 1] == a + [sep] + b';
      assert sep !in b' by {
        assert forall i :: 0 <= i < |b'| ==> b'[i] == b[i];
      }
      AfterLastOfSuffix(a, sep, b');
      assert b == b' + [b[|b| - 1]];
    }
  }

  /** Lower-casing works character by character, so it distributes over concatenation. */
  lemma LowerAppend(a: string, b: string)
    ensures Lower(a + b) == Lower(a) + Lower(b)
  {
    assert forall i :: 0 <= i < |a + b| ==> Lower(a + b)[i] == (Lower(a) + Lower(b))[i];
  }

  /** Stripping blanks from the left stops before a part that starts with a non-blank. */
  lemma {:induction false} StripLeftStopsAt(x: string, rest: string) returns (w: string)
    requires rest != [] && !IsSpace(rest[0])
    ensures StripLeft(x + rest) == w + rest
    decreases |x|
  {
    if x == [] {
      assert x + rest == rest;
      w := [];
    } else if IsSpace(x[0]) {
      assert (x + rest)[1..] == x[1..] + rest;
      w := StripLeftStopsAt(x[1..], rest);
    } else {
      w := x;
    }
  }

  /** Lower-casing a name ending in "." and a lower-case extension keeps that ending. */
  lemma LowerOfFilename(stem: string, ext: string)
    requires Lower(ext) == ext
    ensures Lower(stem + "." + ext) == Lower(stem) + ['.'] + ext
  {
    var dotted := ['.'] + ext;
    assert stem + "." + ext == stem + dotted;
    LowerAppend(stem, dotted);
    assert Lower(dotted) == dotted by {
      assert forall i :: 1 <= i < |dotted| ==> Lower(dotted)[i] == Lower(ext)[i - 1];
    }
  }

  /** Stripping `x + "." + ext`, where `ext` does not end in a blank, keeps `"." + ext`. */
  lemma StripOfFilename(x: string, ext: string) returns (w: string)
    requires ext != "" && !IsSpace(ext[|ext| - 1])
    ensures Strip(x + ['.'] + ext) == w + ['.'] + ext
  {
    var dotted := ['.'] + ext;
    assert x + ['.'] + ext == x + dotted;
    w := StripLeftStopsAt(x, dotted);
    assert w + ['.'] + ext == w + dotted;
    StripRightStopsAt(w + dotted);
  }

  /** Stripping from the right stops at once at a non-blank last character. */
  lemma StripRightStopsAt(s: string)
    requires s != [] && !IsSpace(s[|s| - 1])
    ensures StripRight(s) == s
  {
  }

  /**
   * After lower-casing and stripping, a name ending in "." and a lower-case extension
   * whose last character is not a blank keeps the dot and ends with that extension.
   */
  lemma IdentifierOfFilename(stem: string, ext: string) returns (w: string)
    requires Lower(ext) == ext && ext != "" && !IsSpace(ext[|ext| - 1])
    ensures Strip(Lower(stem + "." + ext)) == w + ['.'] + ext
  {
    LowerOfFilename(stem, ext);
    w := StripOfFilename(Lower(stem), ext);
  }

  /**
   * A filename decides by its extension: when no key has a dot, any name ending in "."
   * and a key in normal form gets that key's id, whatever comes before the dot.
   */
  lemma FileExtensionDecides(table: map<string, int>, stem: string, ext: string)
    requires UndottedKeys(table) && ext in table
    requires Lower(ext) == ext && '.' !in ext && ext != "" && !IsSpace(ext[|ext| - 1])
    ensures LanguageIdIn(table, Some(stem + "." + ext)) == table[ext]
  {
    var w := IdentifierOfFilename(stem, ext);
    var identifier := w + ['.'] + ext;
    AfterLastOfSuffix(w, '.', ext);
    DotInFilename(w, ext);
    assert identifier !in table;
  }

  lemma DotInFilename(w: string, ext: string)
    ensures '.' in w + ['.'] + ext
  {
    assert (w + ['.'] + ext)[|w|] == '.';
  }

  /**
   * When no key has a dot, a name ending in "." and an extension in normal form that is
   * not a key gets the default.
   */
  lemma UnknownExtensionGetsDefault(table: map<string, int>, stem: string, ext: string)
    requires UndottedKeys(table) && ext !in table
    requires Lower(ext) == ext && '.' !in ext && ext != "" && !IsSpace(ext[|ext| - 1])
    ensures LanguageIdIn(table, Some(stem + "." + ext)) == DefaultLanguageId
  {
    var w := IdentifierOfFilename(stem, ext);
    var identifier := w + ['.'] + ext;
    AfterLastOfSuffix(w, '.', ext);
    DotInFilename(w, ext);
    assert identifier !in table;
  }

  /** The table has "ruby" but not "rb". */
  lemma RubyExtensionIsNotAKey()
    ensures "ruby" in LanguageIds && "rb" !in LanguageIds
  {
  }

  /** "rb" is not in the table, so a Ruby file such as "script.rb" gets the default id. */
  lemma RubyFileGetsDefault(stem: string)
    ensures GetLanguageId(Some(stem + ".rb")) == DefaultLanguageId
  {
    TableKeysAreUndotted();
    var ext := "rb";
    RubyExtensionIsNotAKey();
    assert '.' !in ext && !IsSpace(ext[|ext| - 1]);
    LowerOfLower(ext);
    UnknownExtensionGetsDefault(LanguageIds, stem, ext);
    assert stem + ".rb" == stem + "." + ext;
  }

  /** A file ending in ".py" gets the Python id. */
  lemma PythonFileGetsPython(stem: string)
    ensures GetLanguageId(Some(stem + ".py")) == 71
  {
    TableKeysAreUndotted();
    var ext := "py";
    assert ext in LanguageIds && LanguageIds[ext] == 71;
    assert '.' !in ext && !IsSpace(ext[|ext| - 1]);
    LowerOfLower(ext);
    FileExtensionDecides(LanguageIds, stem, ext);
    assert stem + ".py" == stem + "." + ext;
  }

  /** What `format_result` returns. */
  datatype Formatted = Formatted(success: bool, output: Value, error: Value, time: Value, memory: Value)

  /** `status.get("id", 0) == 3`: Python's `==` equates the integer 3 and the float 3.0. */
  predicate IsAccepted(statusId: Value)
    ensures IsAccepted(statusId) <==> AsReal(statusId) == Some(3.0) && !statusId.Bool?
  {
    statusId == Int(3) || statusId == Real(3.0)
  }

  /** `stderr or compile_output or ""` */
  function ErrorText(submission: map<string, Value>): (e: Value)
    ensures Truthy(e) || e == Str("")
  {
    Or(Or(Get(submission, "stderr", Str("")), Get(submission, "compile_output", Str(""))), Str(""))
  }

  /**
   * `format_result`: `None` when the status is not a dictionary (its `.get` raises).
   * Otherwise success is an accepted status id (a missing status or id counts as 0); the
   * output is stdout or "", replaced by the error text on a failure that has one; the
   * error is `None` on success; time and memory are copied.
   */
  function FormatResult(submission: map<string, Value>): (r: Option<Formatted>)
    ensures r.None? <==> !Get(submission, "status", Dict(map[])).Dict?
    ensures r.Some? ==>
      var statusId := Get(Get(submission, "status", Dict(map[])).fields, "id", Int(0));
      var stdout := Or(Get(submission, "stdout", Str("")), Str(""));
      && (r.value.success <==> IsAccepted(statusId))
      && (r.value.success ==> r.value.error == Null && r.value.output == stdout)
      && (!r.value.success ==> r.value.error == ErrorText(submission))
      && (!r.value.success && Truthy(ErrorText(submission)) ==> r.value.output == ErrorText(submission))
      && (!r.value.success && !Truthy(ErrorText(submission)) ==> r.value.output == stdout)
      && r.value.time == Get(submission, "time", Null)
      && r.value.memory == Get(submission, "memory", Null)
  {
    match Get(submission, "status", Dict(map[]))
    case Dict(status) =>
      var success := IsAccepted(Get(status, "id", Int(0)));
      var output := Or(Get(submission, "stdout", Str("")), Str(""));
      var error := ErrorText(submission);
      var shown := if !success && Truthy(error) then error else output;
      Some(Formatted(success, shown, if success then Null else error,
        Get(submission, "time", Null), Get(submission, "memory", Null)))
    case _ => None
  }

  /** A submission without a status is a failure. */
  lemma MissingStatusFails(submission: map<string, Value>)
    requires "status" !in submission
    ensures FormatResult(submission).Some? && !FormatResult(submission).value.success
  {
  }

  /**
   * The error text is stderr when that is non-empty, else compile output when that is,
   * else "".
   */
  lemma ErrorIsFirstNonEmpty(submission: map<string, Value>)
    ensures var e := ErrorText(submission);
      var stderr := Get(submission, "stderr", Str(""));
      var compiled := Get(submission, "compile_output", Str(""));
      && (Truthy(stderr) ==> e == stderr)
      && (!Truthy(stderr) && Truthy(compiled) ==> e == compiled)
      && (!Truthy(stderr) && !Truthy(compiled) ==> e == Str(""))
  {
  }

  /**
   * The output is never an empty value other than "", and on a failure it is empty only
   * when both stdout and the error text are.
   */
  lemma OutputIsTextOrEmpty(submission: map<string, Value>)
    requires FormatResult(submission).Some?
    ensures var f := FormatResult(submission).value;
      && (Truthy(f.output) || f.output == Str(""))
      && (!f.success && f.output == Str("") ==>
            !Truthy(Get(submission, "stdout", Str(""))) && ErrorText(submission) == Str(""))
  {
  }
}
