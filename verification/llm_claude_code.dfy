/** `ClaudeCodeLocalService`: the backend that pipes the prompt into the `claude` CLI.
    Running the process is not modelled: a `Runner` stands for `subprocess.run`, taking
    the command vector and the prompt and giving back the completed process, the
    timeout, or the exception of a process that could not be started. What is
    modelled is the command vector, the handling of the process result, and the
    three operations built on them. */
module LlmClaudeCode {
  import opened Wrappers
  import opened Text
  import opened Json
  import opened JsonExtraction
  import opened Envelopes
  import PromptColumnDescription
  import PromptPiiDetection
  import PromptTagSuggestion

  /** The CLI binary and the `--max-turns` value; the constructor's defaults are
      `DefaultCommand` and `DefaultMaxTurns`. */
  datatype ClaudeCodeLocalService = ClaudeCodeLocalService(claudeCommand: string, maxTurns: int)

  const DefaultCommand := "claude"
  const DefaultMaxTurns := 1

  /** What `subprocess.run` gives back: the completed process, `TimeoutExpired`, or the
      exception raised when the process cannot be started (an `OSError` such as
      `FileNotFoundError` for a binary that is not on the path). */
  datatype CliOutcome =
    | Completed(returncode: int, stdout: string, stderr: string)
    | TimedOut
    | StartFailed(error: Exception)

  type Runner = (seq<string>, string) -> CliOutcome

  /** The command vector `_invoke_claude` runs. */
  function CliCommand(svc: ClaudeCodeLocalService): seq<string> {
    [svc.claudeCommand, "--print", "--output-format", "json", "--max-turns", IntToString(svc.maxTurns)]
  }

  function FailureDetail(stderr: string): string {
    if stderr != "" then Strip(stderr) else "Unknown error"
  }

  /** The messages of the CLI's `RuntimeError`s. */
  const TimeoutMessage := "Claude Code CLI timed out after 120 seconds"
  const EmptyOutputMessage := "Claude Code CLI returned empty output"
  const ExitPrefix := "Claude Code CLI failed (exit "

  /** The handling of the process result in `_invoke_claude`: a timeout, a non-zero
      exit and an empty output raise `RuntimeError`; otherwise the answer is the
      `result` of a JSON object that has one, else the stripped output itself. The
      `try` catches only `TimeoutExpired`, so a start-up exception escapes as it is. */
  function HandleCliResult(outcome: CliOutcome, parse: Parser): Result<Json, Exception> {
    match outcome
    case TimedOut => Err(RuntimeError(TimeoutMessage))
    case StartFailed(error) => Err(error)
    case Completed(returncode, out, err) =>
      if returncode != 0 then
        Err(RuntimeError(ExitPrefix + IntToString(returncode) + "): " + FailureDetail(err)))
      else
        var stdout := Strip(out);
        if stdout == "" then Err(RuntimeError(EmptyOutputMessage))
        else
          match parse(stdout)
          case None => Ok(JStr(stdout))
          case Some(data) => if HasKey(data, "result") then Ok(Lookup(data.members, "result").value) else Ok(JStr(stdout))
  }

  /** `_invoke_claude`. */
  function InvokeClaude(svc: ClaudeCodeLocalService, run: Runner, parse: Parser, prompt: string): Result<Json, Exception> {
    HandleCliResult(run(CliCommand(svc), prompt), parse)
  }

  /** `generate_column_descriptions`: the prompt, the CLI, then the description
      projection. */
  function GenerateColumnDescriptions(svc: ClaudeCodeLocalService, run: Runner, parse: Parser, name: Json, columns: Json)
    : Result<seq<(string, string)>, Exception>
  {
    var prompt :- PromptColumnDescription.ColumnDescriptionPrompt(name, columns);
    var response :- InvokeClaude(svc, run, parse, prompt);
    DescriptionsFrom(ExtractFrom(response, parse))
  }

  /** `detect_pii_columns`. */
  function DetectPiiColumns(svc: ClaudeCodeLocalService, run: Runner, parse: Parser, name: Json, columns: Json)
    : Result<seq<Json>, Exception>
  {
    var prompt :- PromptPiiDetection.PiiDetectionPrompt(name, columns);
    var response :- InvokeClaude(svc, run, parse, prompt);
    PiiFieldsFrom(ExtractFrom(response, parse))
  }

  /** `suggest_tags`. */
  function SuggestTags(svc: ClaudeCodeLocalService, run: Runner, parse: Parser, name: Json, description: Json, columns: Json)
    : Result<seq<Json>, Exception>
  {
    var prompt :- PromptTagSuggestion.TagSuggestionPrompt(name, description, columns);
    var response :- InvokeClaude(svc, run, parse, prompt);
    TagsFrom(ExtractFrom(response, parse))
  }

  function BackendName(svc: ClaudeCodeLocalService): string {
    "Claude Code (local)"
  }

  /** The command runs the configured binary in print mode with JSON output, and the
      `--max-turns` argument reads back as the configured number. */
  lemma CliCommandReadsBack(svc: ClaudeCodeLocalService)
    ensures var cmd := CliCommand(svc);
      |cmd| == 6 && cmd[0] == svc.claudeCommand
      && cmd[1..5] == ["--print", "--output-format", "json", "--max-turns"]
      && ParseInt(cmd[5]) == Some(svc.maxTurns)
  {
    IntToStringRoundTrip(svc.maxTurns);
  }

  /** The CLI call fails exactly when the process could not be started, timed out,
      exited non-zero, or printed an output that is blank once stripped. A start-up
      exception is passed on unchanged; every other failure is a `RuntimeError`. */
  lemma CliFailures(outcome: CliOutcome, parse: Parser)
    ensures HandleCliResult(outcome, parse).Err? <==>
      !outcome.Completed? || outcome.returncode != 0 || AllSpace(outcome.stdout)
    ensures outcome.StartFailed? ==> HandleCliResult(outcome, parse) == Err(outcome.error)
    ensures !outcome.StartFailed? && HandleCliResult(outcome, parse).Err? ==>
      HandleCliResult(outcome, parse).error.RuntimeError?
  {
  }

  /** The failure message of a non-zero exit carries the stripped standard error, or
      `Unknown error` when there was none. A standard error made only of white space
      is not empty, so it gives an empty detail rather than `Unknown error`. */
  lemma FailureDetailMeaning(stderr: string)
    ensures stderr == "" ==> FailureDetail(stderr) == "Unknown error"
    ensures stderr != "" ==> FailureDetail(stderr) == Strip(stderr)
    ensures stderr != "" && AllSpace(stderr) ==> FailureDetail(stderr) == ""
  {
  }

  /** A successful call answers the `result` member of a JSON object output, and the
      stripped output itself for any other output: plain text, text that is not JSON,
      or JSON that is not an object with `result`. */
  lemma CliAnswer(out: string, err: string, parse: Parser)
    requires !AllSpace(out)
    ensures var r := HandleCliResult(Completed(0, out, err), parse);
      var stdout := Strip(out);
      r.Ok?
      && (parse(stdout).Some? && HasKey(parse(stdout).value, "result") ==>
            r.value == Lookup(parse(stdout).value.members, "result").value)
      && (!(parse(stdout).Some? && HasKey(parse(stdout).value, "result")) ==> r.value == JStr(stdout))
  {
  }

  /** A `result` that is not a string reaches `json.loads`, which raises `TypeError`:
      the description projection lets it escape, while the PII and tag projections
      catch it and answer nothing. */
  lemma NonStringResult(response: Json, parse: Parser)
    requires !response.JStr?
    ensures DescriptionsFrom(ExtractFrom(response, parse)).Err?
    ensures DescriptionsFrom(ExtractFrom(response, parse)).error.TypeError?
    ensures PiiFieldsFrom(ExtractFrom(response, parse)) == Ok([])
    ensures TagsFrom(ExtractFrom(response, parse)) == Ok([])
  {
  }

  /** Column descriptions fail with the prompt builder's error, then with the CLI's
      start-up exception passed on unchanged or its `RuntimeError`, then with the `TypeError` of a `result` that is not a string;
      otherwise they are the description projection of the extracted text. */
  lemma DescriptionsOutcome(svc: ClaudeCodeLocalService, run: Runner, parse: Parser, name: Json, columns: Json)
    ensures var prompt := PromptColumnDescription.ColumnDescriptionPrompt(name, columns);
      prompt.Err? ==> GenerateColumnDescriptions(svc, run, parse, name, columns) == Err(prompt.error)
    ensures var prompt := PromptColumnDescription.ColumnDescriptionPrompt(name, columns);
      var r := GenerateColumnDescriptions(svc, run, parse, name, columns);
      prompt.Ok? ==>
        var outcome := run(CliCommand(svc), prompt.value);
        var answer := InvokeClaude(svc, run, parse, prompt.value);
        (answer.Err? ==> r == Err(answer.error))
        && (outcome.StartFailed? ==> r == Err(outcome.error))
        && (answer.Err? && !outcome.StartFailed? ==> answer.error.RuntimeError?)
        && (answer.Ok? ==> (r.Err? <==> !answer.value.JStr?))
        && (answer.Ok? && !answer.value.JStr? ==> r.error.TypeError?)
        && (answer.Ok? && answer.value.JStr? ==> r == DescriptionsFrom(Extracted(answer.value.s, parse)))
  {
    var prompt := PromptColumnDescription.ColumnDescriptionPrompt(name, columns);
    if prompt.Ok? {
      var answer := InvokeClaude(svc, run, parse, prompt.value);
      CliFailures(run(CliCommand(svc), prompt.value), parse);
      if answer.Ok? {
        DescriptionsOfResponse(answer.value, parse);
      }
    }
  }

  /** Once the CLI answered, the description projection fails exactly when the answer
      is not a string, with `TypeError`. */
  lemma DescriptionsOfResponse(response: Json, parse: Parser)
    ensures var r := DescriptionsFrom(ExtractFrom(response, parse));
      (r.Err? <==> !response.JStr?)
      && (r.Err? ==> r.error.TypeError?)
      && (response.JStr? ==> r == DescriptionsFrom(Extracted(response.s, parse)))
  {
    if response.JStr? {
      ExtractionFailure(response.s, parse);
    }
  }

  /** PII detection fails with the prompt builder's error, the CLI's start-up exception
      or the CLI's `RuntimeError`;
      once the CLI answered, only the `AttributeError` of an item that is not a dict
      escapes. A `result` that is not a string gives no columns, and a string gives the
      PII projection of the extracted text. */
  lemma PiiOutcome(svc: ClaudeCodeLocalService, run: Runner, parse: Parser, name: Json, columns: Json)
    ensures var prompt := PromptPiiDetection.PiiDetectionPrompt(name, columns);
      prompt.Err? ==> DetectPiiColumns(svc, run, parse, name, columns) == Err(prompt.error)
    ensures var prompt := PromptPiiDetection.PiiDetectionPrompt(name, columns);
      var r := DetectPiiColumns(svc, run, parse, name, columns);
      prompt.Ok? ==>
        var outcome := run(CliCommand(svc), prompt.value);
        var answer := InvokeClaude(svc, run, parse, prompt.value);
        (answer.Err? ==> r == Err(answer.error))
        && (outcome.StartFailed? ==> r == Err(outcome.error))
        && (answer.Err? && !outcome.StartFailed? ==> answer.error.RuntimeError?)
        && (answer.Ok? && r.Err? ==> r.error.AttributeError?)
        && (answer.Ok? && !answer.value.JStr? ==> r == Ok([]))
        && (answer.Ok? && answer.value.JStr? ==> r == PiiFieldsFrom(Extracted(answer.value.s, parse)))
  {
    var prompt := PromptPiiDetection.PiiDetectionPrompt(name, columns);
    if prompt.Ok? {
      var answer := InvokeClaude(svc, run, parse, prompt.value);
      CliFailures(run(CliCommand(svc), prompt.value), parse);
      if answer.Ok? {
        PiiOfResponse(answer.value, parse);
      }
    }
  }

  /** Once the CLI answered, the PII projection can only fail with `AttributeError`; an
      answer that is not a string gives no columns. */
  lemma PiiOfResponse(response: Json, parse: Parser)
    ensures var r := PiiFieldsFrom(ExtractFrom(response, parse));
      (r.Err? ==> r.error.AttributeError?)
      && (!response.JStr? ==> r == Ok([]))
      && (response.JStr? ==> r == PiiFieldsFrom(Extracted(response.s, parse)))
  {
    if response.JStr? {
      ExtractionFailure(response.s, parse);
      PiiAnsweredFailure(Extracted(response.s, parse));
    }
  }

  /** On an extraction that can only fail with `ValueError`, the PII projection can only
      fail with `AttributeError`. */
  lemma PiiAnsweredFailure(extracted: Result<Json, Exception>)
    requires extracted.Err? ==> extracted.error.ValueError?
    ensures PiiFieldsFrom(extracted).Err? ==> PiiFieldsFrom(extracted).error.AttributeError?
  {
    if PiiFieldsFrom(extracted).Err? {
      var items := Listed(extracted.value, "pii_columns");
      assert PiiFieldsFrom(extracted) == SelectPaths(items);
      var bad := SelectPathsFailure(items);
    }
  }

  /** Tag suggestion fails exactly when the prompt builder or the CLI raises (the CLI
      with its start-up exception unchanged, otherwise `RuntimeError`); once the
      CLI answered, a `result` that is not a string gives no tags and a string gives the
      tag projection of the extracted text. */
  lemma TagsOutcome(svc: ClaudeCodeLocalService, run: Runner, parse: Parser, name: Json, description: Json, columns: Json)
    ensures var prompt := PromptTagSuggestion.TagSuggestionPrompt(name, description, columns);
      prompt.Err? ==> SuggestTags(svc, run, parse, name, description, columns) == Err(prompt.error)
    ensures var prompt := PromptTagSuggestion.TagSuggestionPrompt(name, description, columns);
      var r := SuggestTags(svc, run, parse, name, description, columns);
      prompt.Ok? ==>
        var outcome := run(CliCommand(svc), prompt.value);
        var answer := InvokeClaude(svc, run, parse, prompt.value);
        (r.Err? <==> answer.Err?)
        && (answer.Err? ==> r == Err(answer.error))
        && (outcome.StartFailed? ==> r == Err(outcome.error))
        && (answer.Err? && !outcome.StartFailed? ==> answer.error.RuntimeError?)
        && (answer.Ok? && !answer.value.JStr? ==> r == Ok([]))
        && (answer.Ok? && answer.value.JStr? ==> r == TagsFrom(Extracted(answer.value.s, parse)))
  {
    var prompt := PromptTagSuggestion.TagSuggestionPrompt(name, description, columns);
    if prompt.Ok? {
      var answer := InvokeClaude(svc, run, parse, prompt.value);
      CliFailures(run(CliCommand(svc), prompt.value), parse);
      if answer.Ok? {
        TagsOfResponse(answer.value, parse);
      }
    }
  }

  /** Once the CLI answered, the tag projection never raises; an answer that is not a
      string gives no tags. */
  lemma TagsOfResponse(response: Json, parse: Parser)
    ensures var r := TagsFrom(ExtractFrom(response, parse));
      r.Ok?
      && (!response.JStr? ==> r == Ok([]))
      && (response.JStr? ==> r == TagsFrom(Extracted(response.s, parse)))
  {
    if response.JStr? {
      ExtractionFailure(response.s, parse);
      TagsAllOrNothing(Extracted(response.s, parse));
    }
  }
}
