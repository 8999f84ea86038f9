/** `LLMServiceBase`: the interface both backends implement, as a choice between them.
    The oracles that stand for the outside world travel together in a `Transport`: the
    CLI runner, the API's message creator, and `json.loads`. The connection checks are
    not modelled. */
module LlmBase {
  import opened Wrappers
  import opened Json
  import opened JsonExtraction
  import opened Envelopes
  import opened Retry
  import LlmClaudeCode
  import LlmService
  import PromptColumnDescription
  import PromptPiiDetection
  import PromptTagSuggestion

  datatype LlmBackend =
    | Local(local: LlmClaudeCode.ClaudeCodeLocalService)
    | Api(api: LlmService.AnthropicApiService)

  datatype Transport = Transport(run: LlmClaudeCode.Runner, create: LlmService.Creator, parse: Parser)

  function GenerateColumnDescriptions(svc: LlmBackend, t: Transport, name: Json, columns: Json)
    : Result<seq<(string, string)>, Exception>
  {
    match svc
    case Local(s) => LlmClaudeCode.GenerateColumnDescriptions(s, t.run, t.parse, name, columns)
    case Api(s) => LlmService.GenerateColumnDescriptions(s, t.create, t.parse, name, columns)
  }

  function DetectPiiColumns(svc: LlmBackend, t: Transport, name: Json, columns: Json): Result<seq<Json>, Exception> {
    match svc
    case Local(s) => LlmClaudeCode.DetectPiiColumns(s, t.run, t.parse, name, columns)
    case Api(s) => LlmService.DetectPiiColumns(s, t.create, t.parse, name, columns)
  }

  function SuggestTags(svc: LlmBackend, t: Transport, name: Json, description: Json, columns: Json): Result<seq<Json>, Exception> {
    match svc
    case Local(s) => LlmClaudeCode.SuggestTags(s, t.run, t.parse, name, description, columns)
    case Api(s) => LlmService.SuggestTags(s, t.create, t.parse, name, description, columns)
  }

  function BackendName(svc: LlmBackend): string {
    match svc
    case Local(s) => LlmClaudeCode.BackendName(s)
    case Api(s) => LlmService.BackendName(s)
  }

  /** What the enrichment engine sees of a backend: its three operations, bound to the
      transport they run on. */
  datatype Service = Service(
    describe: (Json, Json) -> Result<seq<(string, string)>, Exception>,
    detectPii: (Json, Json) -> Result<seq<Json>, Exception>,
    suggestTags: (Json, Json, Json) -> Result<seq<Json>, Exception>)

  function Connect(svc: LlmBackend, t: Transport): Service {
    Service((name, columns) => GenerateColumnDescriptions(svc, t, name, columns),
            (name, columns) => DetectPiiColumns(svc, t, name, columns),
            (name, description, columns) => SuggestTags(svc, t, name, description, columns))
  }

  /** The CLI answers `prompt` with the string `text`. */
  predicate CliAnswers(local: LlmClaudeCode.ClaudeCodeLocalService, t: Transport, prompt: string, text: string) {
    LlmClaudeCode.InvokeClaude(local, t.run, t.parse, prompt) == Ok(JStr(text))
  }

  /** The API answers the request for `prompt` on every attempt with a response whose
      first text block is `text`. The PII projection can raise after an answer, and
      the wrapper then asks again, so agreement on PII needs every attempt. */
  predicate ApiAnswers(api: LlmService.AnthropicApiService, t: Transport, prompt: string, text: string) {
    forall k :: 1 <= k <= MaxAttempts ==>
      t.create(LlmService.Request(api, prompt), k).Ok?
      && LlmService.ResponseText(t.create(LlmService.Request(api, prompt), k).value) == text
  }

  /** The API answers the first request for `prompt` with a response whose first text
      block is `text`. For descriptions and tags nothing can raise after that answer,
      so the retry wrapper makes no second attempt. */
  predicate ApiAnswersFirst(api: LlmService.AnthropicApiService, t: Transport, prompt: string, text: string) {
    t.create(LlmService.Request(api, prompt), 1).Ok?
    && LlmService.ResponseText(t.create(LlmService.Request(api, prompt), 1).value) == text
  }

  /** The backends are interchangeable: given the same answer text, they produce the
      same column descriptions. */
  lemma DescriptionsAgree(local: LlmClaudeCode.ClaudeCodeLocalService, api: LlmService.AnthropicApiService,
                          t: Transport, name: Json, columns: Json, text: string)
    requires PromptColumnDescription.ColumnDescriptionPrompt(name, columns).Ok?
    requires CliAnswers(local, t, PromptColumnDescription.ColumnDescriptionPrompt(name, columns).value, text)
    requires ApiAnswersFirst(api, t, PromptColumnDescription.ColumnDescriptionPrompt(name, columns).value, text)
    ensures GenerateColumnDescriptions(Local(local), t, name, columns) == GenerateColumnDescriptions(Api(api), t, name, columns)
    ensures GenerateColumnDescriptions(Local(local), t, name, columns) == DescriptionsFrom(Extracted(text, t.parse))
  {
    LocalDescriptions(local, t, name, columns, text);
    ApiDescriptions(api, t, name, columns, text);
  }

  lemma LocalDescriptions(local: LlmClaudeCode.ClaudeCodeLocalService, t: Transport, name: Json, columns: Json, text: string)
    requires PromptColumnDescription.ColumnDescriptionPrompt(name, columns).Ok?
    requires CliAnswers(local, t, PromptColumnDescription.ColumnDescriptionPrompt(name, columns).value, text)
    ensures GenerateColumnDescriptions(Local(local), t, name, columns) == DescriptionsFrom(Extracted(text, t.parse))
  {
    LlmClaudeCode.DescriptionsOutcome(local, t.run, t.parse, name, columns);
  }

  lemma ApiDescriptions(api: LlmService.AnthropicApiService, t: Transport, name: Json, columns: Json, text: string)
    requires PromptColumnDescription.ColumnDescriptionPrompt(name, columns).Ok?
    requires ApiAnswersFirst(api, t, PromptColumnDescription.ColumnDescriptionPrompt(name, columns).value, text)
    ensures GenerateColumnDescriptions(Api(api), t, name, columns) == DescriptionsFrom(Extracted(text, t.parse))
  {
    var attempt := (k: nat) => LlmService.DescriptionsAttempt(api, t.create, t.parse, name, columns, k);
    LlmService.DescriptionsAttemptIs(api, t.create, t.parse, name, columns, 1);
    RetriedFirst(attempt);
  }

  /** The same for the PII columns. */
  lemma PiiAgree(local: LlmClaudeCode.ClaudeCodeLocalService, api: LlmService.AnthropicApiService,
                 t: Transport, name: Json, columns: Json, text: string)
    requires PromptPiiDetection.PiiDetectionPrompt(name, columns).Ok?
    requires CliAnswers(local, t, PromptPiiDetection.PiiDetectionPrompt(name, columns).value, text)
    requires ApiAnswers(api, t, PromptPiiDetection.PiiDetectionPrompt(name, columns).value, text)
    ensures DetectPiiColumns(Local(local), t, name, columns) == DetectPiiColumns(Api(api), t, name, columns)
    ensures DetectPiiColumns(Local(local), t, name, columns) == PiiFieldsFrom(Extracted(text, t.parse))
  {
    LocalPii(local, t, name, columns, text);
    ApiPii(api, t, name, columns, text);
  }

  lemma LocalPii(local: LlmClaudeCode.ClaudeCodeLocalService, t: Transport, name: Json, columns: Json, text: string)
    requires PromptPiiDetection.PiiDetectionPrompt(name, columns).Ok?
    requires CliAnswers(local, t, PromptPiiDetection.PiiDetectionPrompt(name, columns).value, text)
    ensures DetectPiiColumns(Local(local), t, name, columns) == PiiFieldsFrom(Extracted(text, t.parse))
  {
    LlmClaudeCode.PiiOutcome(local, t.run, t.parse, name, columns);
  }

  lemma ApiPii(api: LlmService.AnthropicApiService, t: Transport, name: Json, columns: Json, text: string)
    requires PromptPiiDetection.PiiDetectionPrompt(name, columns).Ok?
    requires ApiAnswers(api, t, PromptPiiDetection.PiiDetectionPrompt(name, columns).value, text)
    ensures DetectPiiColumns(Api(api), t, name, columns) == PiiFieldsFrom(Extracted(text, t.parse))
  {
    RetriedStable((k: nat) => LlmService.PiiAttempt(api, t.create, t.parse, name, columns, k));
  }

  /** The same for the tags. */
  lemma TagsAgree(local: LlmClaudeCode.ClaudeCodeLocalService, api: LlmService.AnthropicApiService,
                  t: Transport, name: Json, description: Json, columns: Json, text: string)
    requires PromptTagSuggestion.TagSuggestionPrompt(name, description, columns).Ok?
    requires CliAnswers(local, t, PromptTagSuggestion.TagSuggestionPrompt(name, description, columns).value, text)
    requires ApiAnswersFirst(api, t, PromptTagSuggestion.TagSuggestionPrompt(name, description, columns).value, text)
    ensures SuggestTags(Local(local), t, name, description, columns) == SuggestTags(Api(api), t, name, description, columns)
    ensures SuggestTags(Local(local), t, name, description, columns) == TagsFrom(Extracted(text, t.parse))
  {
    LocalTags(local, t, name, description, columns, text);
    ApiTags(api, t, name, description, columns, text);
  }

  lemma LocalTags(local: LlmClaudeCode.ClaudeCodeLocalService, t: Transport, name: Json, description: Json, columns: Json, text: string)
    requires PromptTagSuggestion.TagSuggestionPrompt(name, description, columns).Ok?
    requires CliAnswers(local, t, PromptTagSuggestion.TagSuggestionPrompt(name, description, columns).value, text)
    ensures SuggestTags(Local(local), t, name, description, columns) == TagsFrom(Extracted(text, t.parse))
  {
    LlmClaudeCode.TagsOutcome(local, t.run, t.parse, name, description, columns);
  }

  lemma ApiTags(api: LlmService.AnthropicApiService, t: Transport, name: Json, description: Json, columns: Json, text: string)
    requires PromptTagSuggestion.TagSuggestionPrompt(name, description, columns).Ok?
    requires ApiAnswersFirst(api, t, PromptTagSuggestion.TagSuggestionPrompt(name, description, columns).value, text)
    ensures SuggestTags(Api(api), t, name, description, columns) == TagsFrom(Extracted(text, t.parse))
  {
    var attempt := (k: nat) => LlmService.TagsAttempt(api, t.create, t.parse, name, description, columns, k);
    LlmService.AnsweredDescriptionsAndTagsSucceed(text, t.parse);
    assert attempt(1) == TagsFrom(Extracted(text, t.parse));
    RetriedFirst(attempt);
  }
}
