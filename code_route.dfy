/**
 * The code-execution route (`execute_code` in app/api/routes/code.py): it checks the
 * code, chooses a language id, submits the code to Judge0 and reshapes the result. The
 * Judge0 call is an input of the model: `Ok(submission)` is the record Judge0 returned,
 * `Err(message)` the exception `submit_code` raised.
 */
module CodeRoute {
  import opened Wrappers
  import opened PyValues
  import opened Judge0

  /**
   * `CodeExecutionRequest`. The code is any value: the route itself checks that it is
   * a string.
   */
  datatype CodeExecutionRequest = CodeExecutionRequest(
    code: Value, language: Option<string>, filename: Option<string>, stdin: Option<string>)

  /** The dictionary handed to `submit_code`. */
  datatype Submission = Submission(sourceCode: string, languageId: int, stdin: Option<string>)

  /** `CodeExecutionResult` */
  datatype CodeExecutionResult = CodeExecutionResult(
    success: bool, output: Value, error: Value, stdout: Value, stderr: Value,
    time: Value, memory: Value, token: Value, status: Value)

  /** A call to Judge0: the submission record, or the text of the exception raised. */
  type Submit = Submission -> Result<map<string, Value>, string>

  const NoValidCode := HttpError(400, "No valid code provided")

  /** Python's truthiness of an optional string. */
  predicate Given(s: Option<string>) {
    s.Some? && s.value != ""
  }

  /**
   * The language id: from the filename when one is given, else from the language when
   * one is given, else the default.
   */
  function SelectLanguageId(req: CodeExecutionRequest): (id: int)
    ensures Given(req.filename) ==> id == GetLanguageId(req.filename)
    ensures !Given(req.filename) && Given(req.language) ==> id == GetLanguageId(req.language)
    ensures !Given(req.filename) && !Given(req.language) ==> id == DefaultLanguageId
  {
    if Given(req.filename) then GetLanguageId(req.filename)
    else if Given(req.language) then GetLanguageId(req.language)
    else DefaultLanguageId
  }

  /** The submission for a request whose code is a string; "" as stdin is sent as `None`. */
  function SubmissionOf(req: CodeExecutionRequest): (s: Submission)
    requires req.code.Str?
    ensures s.sourceCode == req.code.s && s.languageId == SelectLanguageId(req)
    ensures s.stdin == if Given(req.stdin) then req.stdin else None
  {
    Submission(req.code.s, SelectLanguageId(req), if Given(req.stdin) then req.stdin else None)
  }

  /** Python's name for the type of a value, as `AttributeError` messages show it. */
  function TypeName(v: Value): string {
    match v
    case Null => "NoneType"
    case Bool(_) => "bool"
    case Int(_) => "int"
    case Real(_) => "float"
    case Str(_) => "str"
    case List(_) => "list"
    case Dict(_) => "dict"
  }

  /** The message of the `AttributeError` raised by calling `.get` on `v`. */
  function NoGetMessage(v: Value): string {
    "'" + TypeName(v) + "' object has no attribute 'get'"
  }

  /**
   * `execute_code`: 400 for code that is not a non-empty string, before anything is
   * submitted; 500 with the exception's text when the submission raises or its status
   * is not a dictionary; otherwise the formatted result with stdout and stderr repeating
   * output and error, and the token and status copied from the submission.
   */
  function ExecuteCode(req: CodeExecutionRequest, submit: Submit): (r: Result<CodeExecutionResult, HttpError>)
    ensures !(req.code.Str? && req.code.s != "") ==> r == Err(NoValidCode)
    ensures r.Ok? ==> req.code.Str? && req.code.s != "" && submit(SubmissionOf(req)).Ok?
    ensures r.Ok? ==>
      var submission := submit(SubmissionOf(req)).value;
      var f := FormatResult(submission);
      && f == Some(Formatted(r.value.success, r.value.output, r.value.error, r.value.time, r.value.memory))
      && r.value.stdout == r.value.output && r.value.stderr == r.value.error
      && r.value.token == Get(submission, "token", Null)
      && r.value.status == Get(submission, "status", Null)
    ensures r.Err? ==> r.error.status == 400 || r.error.status == 500
  {
    if !(req.code.Str? && req.code.s != "") then Err(NoValidCode)
    else
      match submit(SubmissionOf(req))
      case Err(message) => Err(HttpError(500, message))
      case Ok(submission) =>
        match FormatResult(submission)
        case None => Err(HttpError(500, NoGetMessage(Get(submission, "status", Dict(map[])))))
        case Some(f) =>
          Ok(CodeExecutionResult(f.success, f.output, f.error, f.output, f.error, f.time, f.memory,
            Get(submission, "token", Null), Get(submission, "status", Null)))
  }

  /** Invalid code is rejected whatever Judge0 would have answered: nothing is submitted. */
  lemma RejectsBeforeSubmitting(req: CodeExecutionRequest, submit1: Submit, submit2: Submit)
    requires !(req.code.Str? && req.code.s != "")
    ensures ExecuteCode(req, submit1) == ExecuteCode(req, submit2) == Err(NoValidCode)
  {
  }

  /**
   * The route submits exactly `SubmissionOf(req)`: two Judge0 calls that agree on it give
   * the same response.
   */
  lemma SubmitsOnlyTheRequest(req: CodeExecutionRequest, submit1: Submit, submit2: Submit)
    requires req.code.Str?
    requires submit1(SubmissionOf(req)) == submit2(SubmissionOf(req))
    ensures ExecuteCode(req, submit1) == ExecuteCode(req, submit2)
  {
  }

  /** A given filename decides the language: the language field is then ignored. */
  lemma FilenameOverridesLanguage(req: CodeExecutionRequest, language: Option<string>)
    requires Given(req.filename)
    ensures SelectLanguageId(req) == SelectLanguageId(req.(language := language))
  {
  }

  /** A failed submission becomes a 500 carrying the exception's text. */
  lemma SubmitFailureIs500(req: CodeExecutionRequest, submit: Submit)
    requires req.code.Str? && req.code.s != "" && submit(SubmissionOf(req)).Err?
    ensures ExecuteCode(req, submit) == Err(HttpError(500, submit(SubmissionOf(req)).error))
  {
  }

  /**
   * A submission Judge0 accepted is reported as a success with no error, and its stdout
   * (or "") as both output and stdout.
   */
  lemma AcceptedRun(req: CodeExecutionRequest, submit: Submit)
    requires req.code.Str? && req.code.s != "" && submit(SubmissionOf(req)).Ok?
    requires var s := submit(SubmissionOf(req)).value;
      "status" in s && s["status"].Dict? && Get(s["status"].fields, "id", Int(0)) == Int(3)
    ensures var r := ExecuteCode(req, submit);
      var stdout := Or(Get(submit(SubmissionOf(req)).value, "stdout", Str("")), Str(""));
      && r.Ok? && r.value.success && r.value.error == Null && r.value.stderr == Null
      && r.value.output == stdout && r.value.stdout == stdout
  {
  }
}
