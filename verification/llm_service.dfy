/** `AnthropicAPIService`: the backend that calls the Anthropic Messages API. The SDK
    is not modelled: a `Creator` stands for `client.messages.create`, taking the
    request and the attempt number (1 to 3, see `Retry`) and giving back the content
    blocks of the response or the exception the SDK raised. */
module LlmService {
  import opened Wrappers
  import opened Json
  import opened JsonExtraction
  import opened Envelopes
  import opened Config
  import opened Retry
  import PromptColumnDescription
  import PromptPiiDetection
  import PromptTagSuggestion

  datatype AnthropicApiService = AnthropicApiService(config: EnricherConfig)

  /** A content block of a response: its `type` and, for a text block, its `text`. */
  datatype ContentBlock = ContentBlock(blockType: string, text: string)

  datatype Message = Message(role: string, content: string)

  datatype ApiRequest = ApiRequest(model: string, maxTokens: int, temperature: real, messages: seq<Message>)

  type Creator = (ApiRequest, nat) -> Result<seq<ContentBlock>, Exception>

  /** The message of the `ValueError` raised for a missing key. */
  const MissingKeyMessage := "anthropic_api_key is required for the API backend. Set ENRICHER_ANTHROPIC_API_KEY or use llm_backend='claude-code' instead."

  /** `__init__`: the API key must be non-empty; the SDK client itself is outside the
      model. */
  function NewAnthropicApiService(config: EnricherConfig): (r: Result<AnthropicApiService, Exception>)
    ensures r.Ok? <==> config.anthropicApiKey != ""
    ensures r.Ok? ==> r.value.config == config
    ensures r.Err? ==> r.error.ValueError?
  {
    if config.anthropicApiKey == "" then
      Err(ValueError(MissingKeyMessage))
    else Ok(AnthropicApiService(config))
  }

  /** What `_get_response_text` returns: the text of the first text block, or `""`. */
  function ResponseText(content: seq<ContentBlock>): string {
    if content == [] then ""
    else if content[0].blockType == "text" then content[0].text
    else ResponseText(content[1..])
  }

  /** `_get_response_text`: the loop over the blocks, returning at the first text
      block. */
  method GetResponseText(content: seq<ContentBlock>) returns (text: string)
    ensures text == ResponseText(content)
  {
    for i := 0 to |content|
      invariant ResponseText(content) == ResponseText(content[i..])
    {
      assert content[i..][0] == content[i] && content[i..][1..] == content[i + 1..];
      if content[i].blockType == "text" {
        return content[i].text;
      }
    }
    assert content[|content|..] == [];
    return "";
  }

  /** The first text block wins; with no text block the text is empty. */
  lemma {:induction false} ResponseTextIsFirstText(content: seq<ContentBlock>)
    ensures (forall i :: 0 <= i < |content| ==> content[i].blockType != "text") ==> ResponseText(content) == ""
    ensures forall k :: 0 <= k < |content| && content[k].blockType == "text"
                     && (forall i :: 0 <= i < k ==> content[i].blockType != "text")
                     ==> ResponseText(content) == content[k].text
  {
    if content != [] {
      ResponseTextIsFirstText(content[1..]);
      assert forall i :: 1 <= i < |content| ==> content[i] == content[1..][i - 1];
      forall k | 0 <= k < |content| && content[k].blockType == "text"
        && (forall i :: 0 <= i < k ==> content[i].blockType != "text")
        ensures ResponseText(content) == content[k].text
      {
        if k > 0 {
          assert content[1..][k - 1] == content[k];
          assert forall i :: 0 <= i < k - 1 ==> content[1..][i] == content[i + 1];
        }
      }
    }
  }

  /** The request each operation sends. */
  function Request(svc: AnthropicApiService, prompt: string): ApiRequest {
    ApiRequest(svc.config.llmModel, svc.config.llmMaxTokens, svc.config.llmTemperature, [Message("user", prompt)])
  }

  /** The request carries the configured model, token limit and temperature, and one
      user message whose content is the prompt. */
  lemma RequestCarriesSettings(svc: AnthropicApiService, prompt: string)
    ensures var req := Request(svc, prompt);
      req.model == svc.config.llmModel && req.maxTokens == svc.config.llmMaxTokens
      && req.temperature == svc.config.llmTemperature
      && |req.messages| == 1 && req.messages[0].role == "user" && req.messages[0].content == prompt
  {
  }

  /** One attempt of `generate_column_descriptions`: the prompt, the API call, then the
      projection of what the extractor makes of the response text. */
  function DescriptionsAttempt(svc: AnthropicApiService, create: Creator, parse: Parser, name: Json, columns: Json, attempt: nat)
    : Result<seq<(string, string)>, Exception>
  {
    var prompt :- PromptColumnDescription.ColumnDescriptionPrompt(name, columns);
    var content :- create(Request(svc, prompt), attempt);
    DescriptionsFrom(Extracted(ResponseText(content), parse))
  }

  function PiiAttempt(svc: AnthropicApiService, create: Creator, parse: Parser, name: Json, columns: Json, attempt: nat)
    : Result<seq<Json>, Exception>
  {
    var prompt :- PromptPiiDetection.PiiDetectionPrompt(name, columns);
    var content :- create(Request(svc, prompt), attempt);
    PiiFieldsFrom(Extracted(ResponseText(content), parse))
  }

  function TagsAttempt(svc: AnthropicApiService, create: Creator, parse: Parser, name: Json, description: Json, columns: Json, attempt: nat)
    : Result<seq<Json>, Exception>
  {
    var prompt :- PromptTagSuggestion.TagSuggestionPrompt(name, description, columns);
    var content :- create(Request(svc, prompt), attempt);
    TagsFrom(Extracted(ResponseText(content), parse))
  }

  /** The three operations, each under the retry wrapper. */
  function GenerateColumnDescriptions(svc: AnthropicApiService, create: Creator, parse: Parser, name: Json, columns: Json)
    : Result<seq<(string, string)>, Exception>
  {
    Retried(k => DescriptionsAttempt(svc, create, parse, name, columns, k))
  }

  function DetectPiiColumns(svc: AnthropicApiService, create: Creator, parse: Parser, name: Json, columns: Json)
    : Result<seq<Json>, Exception>
  {
    Retried(k => PiiAttempt(svc, create, parse, name, columns, k))
  }

  function SuggestTags(svc: AnthropicApiService, create: Creator, parse: Parser, name: Json, description: Json, columns: Json)
    : Result<seq<Json>, Exception>
  {
    Retried(k => TagsAttempt(svc, create, parse, name, description, columns, k))
  }

  function BackendName(svc: AnthropicApiService): string {
    "Anthropic API (" + svc.config.llmModel + ")"
  }

  /** The backend name is the fixed prefix, the model, and a closing parenthesis. */
  lemma BackendNameShowsModel(svc: AnthropicApiService)
    ensures var n := BackendName(svc);
      |n| == |"Anthropic API ("| + |svc.config.llmModel| + 1
      && n[..|"Anthropic API ("|] == "Anthropic API ("
      && n[|"Anthropic API ("|..|n| - 1] == svc.config.llmModel && n[|n| - 1] == ')'
  {
  }

  /** Once the API has answered, no exception escapes the description and tag
      projections: the text is always a string, so extraction can only fail with the
      `ValueError` both catch. */
  lemma AnsweredDescriptionsAndTagsSucceed(text: string, parse: Parser)
    ensures DescriptionsFrom(Extracted(text, parse)).Ok?
    ensures TagsFrom(Extracted(text, parse)).Ok?
  {
    ExtractedFailsWithValueError(text, parse);
    TagsAllOrNothing(Extracted(text, parse));
  }

  lemma ExtractedFailsWithValueError(text: string, parse: Parser)
    ensures Extracted(text, parse).Err? ==> Extracted(text, parse).error.ValueError?
  {
  }

  /** A prompt that cannot be built fails every attempt the same way, so the wrapper
      raises that error after three tries without calling the API to any effect. */
  lemma BadPromptIsReraised(svc: AnthropicApiService, create: Creator, parse: Parser, name: Json, columns: Json)
    requires PromptColumnDescription.ColumnDescriptionPrompt(name, columns).Err?
    ensures GenerateColumnDescriptions(svc, create, parse, name, columns)
      == Err(PromptColumnDescription.ColumnDescriptionPrompt(name, columns).error)
  {
    RetriedStable((k: nat) => DescriptionsAttempt(svc, create, parse, name, columns, k));
  }

  /** The description operation succeeds exactly when one of the three API calls
      succeeds, and then projects the first successful response; when all three fail
      it raises the third call's exception. */
  lemma DescriptionsRetried(svc: AnthropicApiService, create: Creator, parse: Parser, name: Json, columns: Json)
    requires PromptColumnDescription.ColumnDescriptionPrompt(name, columns).Ok?
    ensures var req := Request(svc, PromptColumnDescription.ColumnDescriptionPrompt(name, columns).value);
      var r := GenerateColumnDescriptions(svc, create, parse, name, columns);
      (r.Ok? <==> exists k :: 1 <= k <= MaxAttempts && create(req, k).Ok?)
      && (r.Err? ==> r == Err(create(req, MaxAttempts).error))
      && (r.Ok? ==> exists k :: (1 <= k <= MaxAttempts && create(req, k).Ok?
                                 && (forall j :: 1 <= j < k ==> create(req, j).Err?)
                                 && r == DescriptionsFrom(Extracted(ResponseText(create(req, k).value), parse))))
  {
    var req := Request(svc, PromptColumnDescription.ColumnDescriptionPrompt(name, columns).value);
    var attempt := (k: nat) => DescriptionsAttempt(svc, create, parse, name, columns, k);
    RetriedOutcome(attempt);
    forall k | 1 <= k <= MaxAttempts
      ensures attempt(k).Ok? <==> create(req, k).Ok?
      ensures create(req, k).Err? ==> attempt(k) == Err(create(req, k).error)
      ensures create(req, k).Ok? ==> attempt(k) == DescriptionsFrom(Extracted(ResponseText(create(req, k).value), parse))
    {
      DescriptionsAttemptIs(svc, create, parse, name, columns, k);
    }
  }

  /** One description attempt with a buildable prompt fails exactly when its API call
      does, with that call's exception. */
  lemma DescriptionsAttemptIs(svc: AnthropicApiService, create: Creator, parse: Parser, name: Json, columns: Json, k: nat)
    requires PromptColumnDescription.ColumnDescriptionPrompt(name, columns).Ok?
    ensures var req := Request(svc, PromptColumnDescription.ColumnDescriptionPrompt(name, columns).value);
      var a := DescriptionsAttempt(svc, create, parse, name, columns, k);
      (a.Ok? <==> create(req, k).Ok?)
      && (create(req, k).Err? ==> a == Err(create(req, k).error))
      && (create(req, k).Ok? ==> a == DescriptionsFrom(Extracted(ResponseText(create(req, k).value), parse)))
  {
    var req := Request(svc, PromptColumnDescription.ColumnDescriptionPrompt(name, columns).value);
    if create(req, k).Ok? {
      AnsweredDescriptionsAndTagsSucceed(ResponseText(create(req, k).value), parse);
    }
  }
}
