# DataHub AI Enricher — suggestion pipeline in Dafny

The enricher asks a language model for metadata about a DataHub dataset:
- column descriptions;
- columns holding personal data (PII);
- dataset tags.

It turns the model's free-text answers into `EnrichmentSuggestion` records. This project models that pipeline and proves its properties:

- **Extractor** (`JsonExtraction`). The JSON-in-text extractor tries three strategies in order:
  - parse the whole answer;
  - parse the stripped interior of the first ```` ``` ```` / ```` ```json ```` fence;
  - run a bracket-depth scan from the first `{`, then from the first `[`.

  The scan is a `while` loop proved against a specification function.
- **Projections** (`Envelopes`). Each backend turns an extracted value into one of three shapes:
  - a description map;
  - the field paths of confidently detected PII columns;
  - the tag list.

  Malformed answers degrade to an empty result, except where the Python exceptions escape.
- **Claude Code backend** (`LlmClaudeCode`). This covers the CLI command vector and the handling of the CLI's exit code, standard output and `result` envelope.
- **Anthropic API backend** (`LlmService`). This covers:
  - the API-key check;
  - the request the backend sends;
  - `_get_response_text`, as a loop;
  - the three-attempt retry wrapper (`Retry`).
- **Backend interface** (`LlmBase`). The backend interface is a choice between the two backends. Given the same answer text, both backends produce the same results.
- **Enrichment engine** (`Enrichment`). This covers:
  - the backend factory;
  - the suggestion record and `to_dict`;
  - the `EnrichmentEngine` class, whose methods build the suggestion list and the per-dataset batch map with loops;
  - `apply_suggestion`.

  A ghost log of backend calls lets the contracts say which calls were made.
- **DataHub client** (`DataHub`). This covers URL normalisation, headers, the GraphQL request, the `list_datasets` variables, the response projections and the stub writers.
- **Settings** (`Config`). This covers the defaults and the three field validators.
- **Prompt builders** (`PromptColumnDescription`, `PromptPiiDetection`, `PromptTagSuggestion`). The column-description and PII builders are loops, as in the source, with one header line per column. The tag builder is pure: it keeps the first twenty column paths.

Python's values are modelled by `Json.Json`, including their truthiness, `str()`, `dict.get`, indexing and the exceptions those raise. `json.loads` is an abstract total `Parser` that answers `None` where Python raises `JSONDecodeError`.

These are modelled as function parameters:
- the subprocess runner;
- the Anthropic client (`messages.create`);
- the HTTP POST.

The Anthropic client and the HTTP POST take the attempt number, because their callers are retried, so a remote service can answer differently on each retry. The subprocess runner does not, because the local backend is never retried.

## Model

| member | source | states |
|---|---|---|
| Config.NewConfig | src/enricher/config.py:9-85 | building the settings: the specification that `Defaults`, `KeyRequired` and `BuiltIsValid` characterise (no contract of its own) |
| Config.ValidateTemperature | src/enricher/config.py:61-67 | accepts exactly the values in [0.0, 1.0], returning them unchanged; any other value raises `ValueError` |
| Config.ValidateLogLevel | src/enricher/config.py:69-77 | accepts exactly the values whose upper-case form is one of DEBUG/INFO/WARNING/ERROR/CRITICAL, and returns that upper-case form |
| Config.ValidatePositiveInt | src/enricher/config.py:79-85 | accepts exactly the positive integers, unchanged |
| Config.LogLevelIdempotent | src/enricher/config.py:69-77 | validating an accepted level a second time gives the same result |
| Config.Defaults | src/enricher/config.py:25-59 | with only the API key supplied, every other field takes its documented default and all three features are on |
| Config.KeyRequired | src/enricher/config.py:34 | without an API key no settings value can be built, whatever else is supplied |
| Config.BuiltIsValid | src/enricher/config.py:61-85 | every settings value that was built satisfies all three validators and keeps the supplied key |
| Config.TemperatureVectors | tests/unit/test_config.py:36-48 | 0.0, 0.5 and 1.0 are accepted; -0.1 and 1.1 are refused |
| Config.LogLevelVectors | tests/unit/test_config.py:51-62 | "debug" becomes "DEBUG", "WARNING" stays, "INVALID" is refused |
| Config.PositiveVectors | tests/unit/test_config.py:65-76 | 1 and 10 are accepted; 0 and -1 are refused |
| Text.UpperIdempotent | src/enricher/config.py:74 | upper-casing twice is upper-casing once |
| Text.Strip | src/enricher/llm_claude_code.py:81 | the result is no longer than the input and neither starts nor ends with white space; it is empty exactly when the input is all white space |
| Text.StripIsSlice | src/enricher/llm_claude_code.py:81 | the stripped text is a slice of the input, at an offset it returns, with only white space before and after it |
| Text.StripSlice | src/enricher/llm_claude_code.py:81 | a suffix after white space, cut down to a prefix followed only by white space, is a slice of the whole with only white space around it |
| Text.RStripChar | src/enricher/datahub_client.py:28 | the result is a prefix of the input that does not end with the character, and only that character was removed |
| Text.SplitJoin | src/enricher/prompts/column_description.py:32 | newline-free parts joined with newlines split back into exactly those parts |
| Text.IntToStringRoundTrip | src/enricher/llm_claude_code.py:57 | the decimal text of an integer reads back as that integer |
| Text.IntToStringInjective | src/enricher/prompts/tag_suggestion.py:23 | different integers print differently |
| JsonExtraction.SkipSpace | src/enricher/llm_claude_code.py:117 | the `\s*` of the fence pattern: skips exactly the maximal run of white space |
| JsonExtraction.TagEnd | src/enricher/llm_claude_code.py:117 | the optional `json` tag is skipped only when it is present after the opening fence |
| JsonExtraction.FenceGroup | src/enricher/llm_claude_code.py:117 | the captured fence interior never contains a fence |
| JsonExtraction.FenceMatchExists | src/enricher/llm_claude_code.py:117-118 | the fence pattern matches exactly when the text holds two non-overlapping fences |
| JsonExtraction.FenceGroupOfBlock | src/enricher/llm_claude_code.py:117-120 | for a block of a fence, an optional `json` tag, a newline, a body without backticks and a closing fence, the stripped capture equals the stripped body |
| JsonExtraction.FirstBalanced | src/enricher/llm_claude_code.py:131-136 | the position where the depth first returns to zero, if any; the depth stays non-zero before it |
| JsonExtraction.DepthPositiveBefore | src/enricher/llm_claude_code.py:130-136 | between the opening bracket and the first return to zero the depth stays positive |
| JsonExtraction.CandidateBalanced | src/enricher/llm_claude_code.py:125-136 | the scan's candidate starts at the first opening bracket and ends with the closing bracket; it has equal counts and every proper prefix has positive depth |
| JsonExtraction.CandidateOfEmbedded | src/enricher/llm_claude_code.py:125-136 | conversely, a balanced slice that begins at the first opening bracket is the candidate, whatever follows it |
| JsonExtraction.ScanBrackets | src/enricher/llm_claude_code.py:125-140 | the depth loop returns the parse of the single candidate of one bracket kind, and abandons the kind when that parse fails |
| JsonExtraction.ScanAll | src/enricher/llm_claude_code.py:125-140 | `{` is tried before `[`; the first kind that yields a value wins |
| JsonExtraction.Extracted | src/enricher/llm_claude_code.py:98-142 | the extractor's specification, which `ExtractJsonFromResponse` computes and `ExtractionFailure` and `ExtractsEmbeddedValue` characterise (no contract of its own) |
| JsonExtraction.ExtractJsonFromResponse | src/enricher/llm_claude_code.py:98-142 | the method computes the extractor's specification: whole text, then fence interior, then bracket scan, else `ValueError` |
| JsonExtraction.ExtractionFailure | src/enricher/llm_claude_code.py:142 | raises exactly when no strategy parses, always with `ValueError`; the message embeds a preview of at most the first 200 characters |
| JsonExtraction.ExtractsEmbeddedValue | src/enricher/llm_claude_code.py:108-142 | commentary around a balanced JSON value that parses yields that value; an object is found before an enclosing array |
| Envelopes.DescriptionsFrom | src/enricher/llm_claude_code.py:153-163 | the description projection; `DescriptionsMeaning` states it (no contract of its own) |
| Envelopes.PiiFieldsFrom | src/enricher/llm_claude_code.py:174-187 | the PII projection; `PiiFieldsOfList`, `PiiFieldsFailure` and `PiiFieldsExample` state it (no contract of its own) |
| Envelopes.TagsFrom | src/enricher/llm_claude_code.py:198-207 | the tag projection; `TagsAllOrNothing` states it (no contract of its own) |
| Envelopes.ExtractFrom | src/enricher/llm_claude_code.py:151-154 | a string answer goes through the extractor; any other answer raises `TypeError` |
| Envelopes.DescriptionsMeaning | src/enricher/llm_claude_code.py:153-163 | fails only on an extraction error other than `ValueError`; an object yields every key in order with `str()` of its value; anything else yields the empty map |
| Envelopes.SelectPaths | src/enricher/llm_claude_code.py:177-181 | the selected paths are never more than the items |
| Envelopes.SelectPathsSucceeds | src/enricher/llm_claude_code.py:177-181 | the comprehension succeeds exactly when every item is a dict and every confident item has `field_path` |
| Envelopes.SelectPathsPicksConfident | src/enricher/llm_claude_code.py:177-181 | it yields, in order, the `field_path` of each item whose confidence is exactly "high" or "medium" |
| Envelopes.SelectPathsFailure | src/enricher/llm_claude_code.py:177-181 | a failure comes from the first bad item: `KeyError` for a confident dict without `field_path`, `AttributeError` for a non-dict |
| Envelopes.ConfidentItemsMembers | src/enricher/llm_claude_code.py:180 | the confident items are exactly the items with "high" or "medium" confidence |
| Envelopes.PiiFieldsOfList | src/enricher/llm_claude_code.py:174-183 | on an answer shaped as the prompt asks, the projection yields the confident field paths in order |
| Envelopes.PiiFieldsFailure | src/enricher/llm_claude_code.py:174-187 | the projection fails only through a non-dict item after good ones, or an extraction error it does not catch; other malformed answers give [] |
| Envelopes.PiiFieldsExample | src/enricher/llm_claude_code.py:174-187 | of a high-confidence `ssn` and a low-confidence `notes`, only `ssn` is reported |
| Envelopes.TagValuesMeaning | src/enricher/llm_claude_code.py:201 | the comprehension succeeds exactly when every item has `tag`, yields the tags in order, and otherwise fails with a caught exception |
| Envelopes.TagsAllOrNothing | src/enricher/llm_claude_code.py:198-207 | the tag projection never fails: a well-formed answer yields all its tags in order, anything else yields [] |
| LlmClaudeCode.HandleCliResult | src/enricher/llm_claude_code.py:63-96 | the handling of the process result, a start-up exception passed on unchanged; `CliFailures`, `FailureDetailMeaning` and `CliAnswer` state what it returns (no contract of its own) |
| LlmClaudeCode.InvokeClaude | src/enricher/llm_claude_code.py:40-96 | `_invoke_claude`: the command of `CliCommandReadsBack` run on the prompt, then `HandleCliResult` (no contract of its own) |
| LlmClaudeCode.GenerateColumnDescriptions | src/enricher/llm_claude_code.py:144-163 | the local description operation; `DescriptionsOutcome` states its outcomes (no contract of its own) |
| LlmClaudeCode.DetectPiiColumns | src/enricher/llm_claude_code.py:165-187 | the local PII operation; `PiiOutcome` states its outcomes (no contract of its own) |
| LlmClaudeCode.SuggestTags | src/enricher/llm_claude_code.py:189-207 | the local tag operation; `TagsOutcome` states its outcomes (no contract of its own) |
| LlmClaudeCode.BackendName | src/enricher/llm_claude_code.py:237-239 | the constant name "Claude Code (local)" (no contract of its own) |
| LlmClaudeCode.CliCommandReadsBack | src/enricher/llm_claude_code.py:53-58 | the command is the binary, `--print --output-format json --max-turns`, and a number that reads back as `max_turns` |
| LlmClaudeCode.CliFailures | src/enricher/llm_claude_code.py:74-83 | the call fails exactly when the process cannot be started, times out, exits non-zero, or prints an output that is blank once stripped; a start-up exception (such as `FileNotFoundError`) escapes unchanged, and every other failure is a `RuntimeError` |
| LlmClaudeCode.FailureDetailMeaning | src/enricher/llm_claude_code.py:77-79 | the exit failure carries the stripped standard error, or "Unknown error" when there is none |
| LlmClaudeCode.CliAnswer | src/enricher/llm_claude_code.py:81-96 | a successful call answers the `result` of a JSON object that has one, and otherwise the stripped output itself |
| LlmClaudeCode.NonStringResult | src/enricher/llm_claude_code.py:153-207 | a non-string `result` makes descriptions raise `TypeError`, while PII and tags catch it and answer [] |
| LlmClaudeCode.DescriptionsOutcome | src/enricher/llm_claude_code.py:144-163 | a prompt-builder error is raised as is; then a CLI failure: the start-up exception unchanged, otherwise `RuntimeError`; once the CLI answered, the call raises exactly when the answer is not a string, with `TypeError`; a string answer gives the description projection of the extracted text |
| LlmClaudeCode.DescriptionsOfResponse | src/enricher/llm_claude_code.py:153-163 | once the CLI answered, the description projection raises exactly when the answer is not a string, with `TypeError`; a string answer gives the projection of the extracted text |
| LlmClaudeCode.PiiOutcome | src/enricher/llm_claude_code.py:165-187 | a prompt-builder error is raised as is; then a CLI failure: the start-up exception unchanged, otherwise `RuntimeError`; once the CLI answered, only `AttributeError` can escape, a non-string answer gives [] and a string answer gives the PII projection of the extracted text |
| LlmClaudeCode.PiiAnsweredFailure | src/enricher/llm_claude_code.py:174-187 | on an extraction that can only fail with `ValueError`, the PII projection can only fail with `AttributeError` |
| LlmClaudeCode.PiiOfResponse | src/enricher/llm_claude_code.py:174-187 | once the CLI answered, the PII projection can only raise `AttributeError`; a non-string answer gives [] and a string answer the projection of the extracted text |
| LlmClaudeCode.TagsOutcome | src/enricher/llm_claude_code.py:189-207 | raises exactly when the prompt builder or the CLI does (the CLI with its start-up exception unchanged, otherwise `RuntimeError`); a non-string answer gives [] and a string answer gives the tag projection of the extracted text |
| LlmClaudeCode.TagsOfResponse | src/enricher/llm_claude_code.py:197-207 | once the CLI answered, the tag projection never raises; a non-string answer gives [] and a string answer the projection of the extracted text |
| LlmService.ResponseText | src/enricher/llm_service.py:97-102 | what `_get_response_text` returns; `ResponseTextIsFirstText` states it (no contract of its own) |
| LlmService.GenerateColumnDescriptions | src/enricher/llm_service.py:104-135 | the API description operation under the retry wrapper; `DescriptionsRetried` states its outcomes (no contract of its own) |
| LlmService.DetectPiiColumns | src/enricher/llm_service.py:137-171 | the API PII operation under the retry wrapper; `Retry.RetriedOutcome` and `LlmBase.ApiPii` state its outcomes (no contract of its own) |
| LlmService.SuggestTags | src/enricher/llm_service.py:173-203 | the API tag operation under the retry wrapper; `Retry.RetriedOutcome` and `LlmBase.ApiTags` state its outcomes (no contract of its own) |
| LlmService.BackendName | src/enricher/llm_service.py:219-221 | the backend name; `BackendNameShowsModel` states it (no contract of its own) |
| LlmService.NewAnthropicApiService | src/enricher/llm_service.py:45-52 | construction succeeds exactly when the key is non-empty and keeps the settings; otherwise it raises `ValueError` |
| LlmService.GetResponseText | src/enricher/llm_service.py:97-102 | the loop returns the specification's text of the first text block |
| LlmService.ResponseTextIsFirstText | src/enricher/llm_service.py:97-102 | the text is that of the first block of type "text", or "" when no block has that type |
| LlmService.RequestCarriesSettings | src/enricher/llm_service.py:117-122 | the request carries the configured model, token limit and temperature, and one user message holding the prompt |
| LlmService.BackendNameShowsModel | src/enricher/llm_service.py:219-221 | the name is "Anthropic API (", the model, then ")" |
| LlmService.ExtractedFailsWithValueError | src/enricher/llm_service.py:54-95 | on text, the extractor can only fail with `ValueError` |
| LlmService.AnsweredDescriptionsAndTagsSucceed | src/enricher/llm_service.py:124-135 | once the API answered, the description and tag projections never raise |
| LlmService.BadPromptIsReraised | src/enricher/llm_service.py:104-115 | a prompt that cannot be built fails all three attempts, and that error is re-raised |
| LlmService.DescriptionsRetried | src/enricher/llm_service.py:104-135 | descriptions succeed exactly when one of three API calls does, projecting the first success; otherwise they raise the third call's error |
| LlmService.DescriptionsAttemptIs | src/enricher/llm_service.py:115-135 | one attempt fails exactly when its API call does, with that call's exception |
| Retry.RetriedOutcome | src/enricher/llm_service.py:104-108 | the wrapper returns the first successful attempt of at most three; when all three fail it re-raises the last exception |
| Retry.RetriedFirst | src/enricher/llm_service.py:104-108 | a first attempt that succeeds is the result, and no later attempt is consulted |
| Retry.RetriedStable | src/enricher/datahub_client.py:42-46 | an operation that answers the same on every attempt is answered once, unchanged |
| LlmBase.DescriptionsAgree | src/enricher/llm_service.py:54-135 | when the CLI answers a string and the API's first attempt answers a response with the same text, both backends produce the same descriptions: the projection of the extracted text |
| LlmBase.LocalDescriptions | src/enricher/llm_claude_code.py:144-163 | the local backend's descriptions for a CLI answer |
| LlmBase.ApiDescriptions | src/enricher/llm_service.py:109-135 | an API whose first attempt answers gives the description projection of that answer's text; later attempts are never consulted |
| LlmBase.PiiAgree | src/enricher/llm_service.py:157-171 | when the CLI and every API attempt answer the same text, both backends report the same PII columns (every attempt, because the PII projection can raise after an answer and the wrapper then asks again) |
| LlmBase.LocalPii | src/enricher/llm_claude_code.py:165-187 | the local backend's PII columns for a CLI answer |
| LlmBase.ApiPii | src/enricher/llm_service.py:142-171 | the API backend's PII columns for an API answer |
| LlmBase.TagsAgree | src/enricher/llm_service.py:193-203 | when the CLI answers a string and the API's first attempt answers a response with the same text, both backends suggest the same tags |
| LlmBase.LocalTags | src/enricher/llm_claude_code.py:189-207 | the local backend's tags for a CLI answer |
| LlmBase.ApiTags | src/enricher/llm_service.py:178-203 | an API whose first attempt answers gives the tag projection of that answer's text; later attempts are never consulted |
| PromptColumnDescription.ColumnDescriptionPrompt | src/enricher/prompts/column_description.py:6-58 | the builder's specification, which `BuildColumnDescriptionPrompt` computes and the lemmas below characterise (no contract of its own) |
| PromptColumnDescription.FormatColumn | src/enricher/prompts/column_description.py:18-30 | the per-column statements build the column's entry |
| PromptColumnDescription.BuildColumnDescriptionPrompt | src/enricher/prompts/column_description.py:6-58 | the loop builds the specification's prompt, including the error a non-dict column raises |
| PromptColumnDescription.NotNullMarker | src/enricher/prompts/column_description.py:22-26 | " [NOT NULL]" ends the header exactly when `nullable` is falsy; a missing `nullable` adds no marker |
| PromptColumnDescription.HeaderIsOneLine | src/enricher/prompts/column_description.py:24 | the header is a single "- " line |
| PromptColumnDescription.DetailIsOneLine | src/enricher/prompts/column_description.py:28 | the description detail is a single line that is not a header |
| PromptColumnDescription.EntryJoinsLines | src/enricher/prompts/column_description.py:24-28 | the entry is the header, then the description line only when the description is non-empty |
| PromptColumnDescription.EntryShape | src/enricher/prompts/column_description.py:19-28 | each entry splits into its header and, when there is a description, one detail line |
| PromptColumnDescription.EntriesOfDicts | src/enricher/prompts/column_description.py:17-30 | dict columns give one entry each, in order |
| PromptColumnDescription.PromptOfDicts | src/enricher/prompts/column_description.py:17-40 | the prompt embeds the entries joined with newlines |
| PromptColumnDescription.OneEntryPerColumn | src/enricher/prompts/column_description.py:17-32 | the joined text has exactly one header line per column, in input order |
| PromptColumnDescription.NonDictColumnFails | src/enricher/prompts/column_description.py:18-19 | a column that is not a dict makes the builder raise `AttributeError` |
| PromptColumnDescription.PromptMentions | src/enricher/prompts/column_description.py:34-40 | the prompt contains the dataset line and the column block |
| PromptPiiDetection.PiiDetectionPrompt | src/enricher/prompts/pii_detection.py:6-67 | the builder's specification, which `BuildPiiDetectionPrompt` computes and the lemmas below characterise (no contract of its own) |
| PromptPiiDetection.FormatColumn | src/enricher/prompts/pii_detection.py:18-27 | the per-column statements build the column's entry |
| PromptPiiDetection.BuildPiiDetectionPrompt | src/enricher/prompts/pii_detection.py:6-67 | the loop builds the specification's prompt, including the error a non-dict column raises |
| PromptPiiDetection.EntryReadsThreeKeys | src/enricher/prompts/pii_detection.py:18-27 | an entry depends only on `fieldPath`, `nativeDataType` and `description`; `nullable` is not consulted |
| PromptPiiDetection.HeaderIsOneLine | src/enricher/prompts/pii_detection.py:23 | the header is a single "- " line |
| PromptPiiDetection.DetailIsOneLine | src/enricher/prompts/pii_detection.py:25 | the description detail is a single line that is not a header |
| PromptPiiDetection.EntryJoinsLines | src/enricher/prompts/pii_detection.py:23-25 | the entry is the header, then the description line only when the description is non-empty |
| PromptPiiDetection.EntryShape | src/enricher/prompts/pii_detection.py:19-25 | each entry splits into its header and, when there is a description, one detail line |
| PromptPiiDetection.EntriesOfDicts | src/enricher/prompts/pii_detection.py:17-27 | dict columns give one entry each, in order |
| PromptPiiDetection.PromptOfDicts | src/enricher/prompts/pii_detection.py:17-37 | the prompt embeds the entries joined with newlines |
| PromptPiiDetection.OneEntryPerColumn | src/enricher/prompts/pii_detection.py:17-29 | the joined text has exactly one header line per column, in input order |
| PromptPiiDetection.NonDictColumnFails | src/enricher/prompts/pii_detection.py:18-19 | a column that is not a dict makes the builder raise `AttributeError` |
| PromptPiiDetection.PromptMentions | src/enricher/prompts/pii_detection.py:31-37 | the prompt contains the dataset line and the column block |
| PromptTagSuggestion.TagSuggestionPrompt | src/enricher/prompts/tag_suggestion.py:6-76 | the builder; the lemmas below state what it returns (no contract of its own) |
| PromptTagSuggestion.ColumnNames | src/enricher/prompts/tag_suggestion.py:20 | one name per sampled column |
| PromptTagSuggestion.ColumnNamesOfDicts | src/enricher/prompts/tag_suggestion.py:20 | each dict column is named by its `fieldPath`, or "unknown" |
| PromptTagSuggestion.FirstNonString | src/enricher/prompts/tag_suggestion.py:21 | the position of the first name that is not a string, which is where the join fails |
| PromptTagSuggestion.SampleOfList | src/enricher/prompts/tag_suggestion.py:20-23 | at most the first twenty paths, in order, joined by ", ", then the note on the rest |
| PromptTagSuggestion.LaterColumnsIgnored | src/enricher/prompts/tag_suggestion.py:20-23 | columns after the twentieth change only the count in the note |
| PromptTagSuggestion.UnknownPath | src/enricher/prompts/tag_suggestion.py:20 | a column without `fieldPath` is listed as "unknown" |
| PromptTagSuggestion.MoreTextCounts | src/enricher/prompts/tag_suggestion.py:22-23 | the note is present exactly when there are more than twenty columns, and it reads back as the number left out |
| PromptTagSuggestion.NonStringPathFails | src/enricher/prompts/tag_suggestion.py:20-21 | a path that is not a string raises `TypeError` naming the first such position |
| PromptTagSuggestion.UnsliceableColumns | src/enricher/prompts/tag_suggestion.py:20 | only a list or a string can be sampled: a dict raises the `KeyError` of the slice `slice(None, 20, None)`, any other value `TypeError` |
| PromptTagSuggestion.DescriptionShown | src/enricher/prompts/tag_suggestion.py:25 | an empty description becomes "No description provided"; a non-empty one is used verbatim |
| PromptTagSuggestion.PromptMentions | src/enricher/prompts/tag_suggestion.py:27-31 | the prompt contains the dataset, description and sample-columns lines |
| DataHub.DataHubClient.constructor | src/enricher/datahub_client.py:20-30 | stores the normalised URL, the token and the headers built from it |
| DataHub.DataHubClient.QueryGraphql | src/enricher/datahub_client.py:42-69 | the request to the endpoint with the stored headers, under the retry wrapper |
| DataHub.DataHubClient.GetDatasetSchema | src/enricher/datahub_client.py:71-111 | `data.dataset` of the query's response, or the query's error |
| DataHub.DataHubClient.ListDatasets | src/enricher/datahub_client.py:113-157 | the entities of the search response, or the query's error |
| DataHub.DataHubClient.UpdateColumnDescription | src/enricher/datahub_client.py:159-177 | always reports success |
| DataHub.DataHubClient.AddTagToColumn | src/enricher/datahub_client.py:179-195 | always reports success |
| DataHub.BuildHeaders | src/enricher/datahub_client.py:32-40 | `_build_headers`; `HeadersMeaning` states it (no contract of its own) |
| DataHub.ListVariables | src/enricher/datahub_client.py:144-153 | the `list_datasets` variables; `ListVariablesMeaning` and `SearchInputLookups` state them (no contract of its own) |
| DataHub.EntitiesOf | src/enricher/datahub_client.py:156-157 | the projection of the search response; `EntitiesMeaning` and `MissingSearchResults` state it (no contract of its own) |
| DataHub.UrlNormalised | src/enricher/datahub_client.py:28 | the stored URL has no trailing "/", only trailing "/" were removed, and normalising again changes nothing |
| DataHub.HeadersMeaning | src/enricher/datahub_client.py:32-40 | content type and protocol version are always set; `Authorization: Bearer <token>` is set exactly when the token is non-empty |
| DataHub.RequestShape | src/enricher/datahub_client.py:62-64 | the endpoint is the URL plus "/api/graphql"; the body carries the query, the variables when they are truthy and `{}` otherwise (`variables or {}`) |
| DataHub.ListVariablesMeaning | src/enricher/datahub_client.py:144-153 | the input asks for DATASET, query "*", start 0, count = limit; it has a platform filter exactly when the platform is non-empty |
| DataHub.SearchInputLookups | src/enricher/datahub_client.py:144-151 | each key of the search input holds its value, the count reads back as the limit, and there is no filter |
| DataHub.DatasetOfMeaning | src/enricher/datahub_client.py:111 | `data.dataset`, or `{}` when either key is absent; a non-dict response or `data` raises `AttributeError` |
| DataHub.Entities | src/enricher/datahub_client.py:157 | one entity per search result |
| DataHub.EntitiesMeaning | src/enricher/datahub_client.py:157 | succeeds exactly when every result has `entity`, and yields them in order |
| DataHub.MissingSearchResults | src/enricher/datahub_client.py:156-157 | a response lacking data, search or searchResults lists nothing |
| Enrichment.ToDict | src/enricher/enrichment_engine.py:65-73 | `to_dict`; `ToDictKeys`, `ToDictLookups` and `ToDictRoundTrip` state it (no contract of its own) |
| Enrichment.CreateLlmService | src/enricher/enrichment_engine.py:13-35 | the corrected factory; `FactoryChoice` states it (no contract of its own) |
| Enrichment.CreateLlmServiceAsWritten | src/enricher/enrichment_engine.py:26-35 | the factory as written; `FactoryAsWrittenRaises` states it (no contract of its own) |
| Enrichment.ToDictKeys | src/enricher/enrichment_engine.py:65-73 | `to_dict` has exactly the five keys, in order |
| Enrichment.ToDictLookups | src/enricher/enrichment_engine.py:65-73 | each key of `to_dict` holds its field |
| Enrichment.ToDictRoundTrip | src/enricher/enrichment_engine.py:59-73 | a suggestion reads back from its dictionary unchanged |
| Enrichment.FactoryChoice | src/enricher/enrichment_engine.py:26-35 | "claude-code" gives the local backend for the command with one turn; "anthropic-api" gives the API backend (when the key is non-empty); any other name raises `ValueError` naming it |
| Enrichment.FactoryAsWrittenRaises | src/enricher/enrichment_engine.py:26-35 | as written (`CreateLlmServiceAsWritten`, see Findings) the factory raises `AttributeError` on every settings value; given the two values it is `CreateLlmService` |
| Enrichment.Run | src/enricher/enrichment_engine.py:100-176 | one `enrich_dataset` run as a value; `NothingWithoutFields`, `RunIsSteps`, `StepsInOrder`, `SuggestionShapes`, `FailureStops` and `MissingName` state it (no contract of its own) |
| Enrichment.NothingWithoutFields | src/enricher/enrichment_engine.py:113-126 | a falsy dataset, or empty or missing fields, yields [] and no backend call |
| Enrichment.RunIsSteps | src/enricher/enrichment_engine.py:120-126 | a dataset with fields goes through the three steps |
| Enrichment.StepsInOrder | src/enricher/enrichment_engine.py:129-173 | each step runs exactly when its flag is set; calls and suggestions come in the order descriptions, PII, tags, with as many suggestions as the backend returned |
| Enrichment.SuggestionShapes | src/enricher/enrichment_engine.py:133-173 | descriptions are typed "description" on their column; PII paths become "PII" tags on that path; dataset tags have no path; all carry the URN and confidence 1.0 |
| Enrichment.FailureStops | src/enricher/enrichment_engine.py:129-173 | a step that raises ends the run with its exception, and no later step calls the backend |
| Enrichment.MissingName | src/enricher/enrichment_engine.py:130-131 | with no `name`, the first enabled step raises `KeyError('name')` before any backend call |
| Enrichment.Batch | src/enricher/enrichment_engine.py:178-200 | the batch map of a sequence of runs; `BatchKeys` and `BatchLast` state it (no contract of its own) |
| Enrichment.BatchKeys | src/enricher/enrichment_engine.py:190-200 | the batch's keys are exactly the input URNs |
| Enrichment.BatchLast | src/enricher/enrichment_engine.py:192-198 | each URN maps to what its last run kept; a failed run gives [] without stopping later ones |
| Enrichment.EnrichmentEngine.constructor | src/enricher/enrichment_engine.py:84-95 | the client is built from the settings' URL and token, and the schema lookup is bound to it |
| Enrichment.EnrichmentEngine.EnrichDataset | src/enricher/enrichment_engine.py:100-176 | the result and the backend calls are those of the specified run for the dataset's schema |
| Enrichment.EnrichmentEngine.RunSteps | src/enricher/enrichment_engine.py:128-176 | the three steps in order, each appending to the list |
| Enrichment.EnrichmentEngine.DescribeAndDetect | src/enricher/enrichment_engine.py:128-157 | the description step, then the PII step unless the first raised |
| Enrichment.EnrichmentEngine.AddDescriptions | src/enricher/enrichment_engine.py:129-141 | appends one description suggestion per returned entry, in order, after one backend call |
| Enrichment.EnrichmentEngine.AddPiiTags | src/enricher/enrichment_engine.py:144-156 | appends one PII tag per returned path, in order, after one backend call |
| Enrichment.EnrichmentEngine.AddDatasetTags | src/enricher/enrichment_engine.py:159-173 | appends one dataset tag per returned tag, in order, sending the dataset description |
| Enrichment.EnrichmentEngine.EnrichDatasetsBatch | src/enricher/enrichment_engine.py:178-200 | the loop builds the batch map of the URNs' runs and logs their calls in order |
| Enrichment.EnrichmentEngine.EnrichInto | src/enricher/enrichment_engine.py:193-198 | one URN's run stored in the map, [] when it raised |
| Enrichment.EnrichmentEngine.ApplySuggestion | src/enricher/enrichment_engine.py:202-231 | succeeds exactly for the types "description" (through the client's writer) and "tag"; any other type gives false |
| Enrichment.NewEngine | src/enricher/enrichment_engine.py:84-95 | the factory's error is the engine's; otherwise a fresh engine with an empty call log, its backend and its schema lookup |

## Left out

- The process and network I/O are not modelled: running `claude` with its 120-second timeout and the executor hand-off, the Anthropic SDK client, and the httpx POST with `raise_for_status`. Each is a parameter that answers for it. The CLI runner answers with the completed process, the timeout, or the exception of a process that could not be started.
- Both `check_connection` methods are not modelled, because they are only I/O probes. Neither are `shutil.which` and the SDK import check.
- The exponential back-off waits of the retry wrapper are not modelled. Only the three attempts and the re-raised last exception are.
- `Json.Json` does not enforce distinct keys in an object, and lookups answer the first member with a key while `json.loads` keeps the last. The parser and the HTTP oracle are assumed to answer objects with distinct keys, as Python dicts have.
- PromptTagSuggestion.Sliced: a dict `columns` raises `KeyError(slice(None, 20, None))`, as Python 3.12 and later do. Earlier versions raise `TypeError: unhashable type: 'slice'` instead.
- `json.loads` is an abstract parser; the JSON grammar is not part of this model.
- `Json.Repr`: Python's `repr` of strings inside containers uses plain single quotes, without Python's escaping or quote selection.
- Text.Upper: `str.upper` is exact for ASCII and for ı (U+0131) and ſ (U+017F), the two characters whose upper case is a single ASCII letter. ß and the ligatures U+FB00–U+FB06, whose upper case is several ASCII letters, are left unchanged, as is every other character. This changes no log-level verdict, because no level contains SS, FF, FI, FL or ST.
- Floats are `real`. Temperature is only range-checked, and a confidence is kept as its printed text "1.0".
- Reading the environment and `.env` files is not modelled. The settings start from the supplied values.
- Config.NewConfig: pydantic reports every failing field in one `ValidationError`; the model reports the first, in field order.
- The GraphQL query documents are abbreviated to their first line, and the prompts' fixed prose is abbreviated to its opening sentence and the sentence that introduces the answer format. The column text and the lines about the dataset are exact.
- Logging is not modelled.
- Enrichment.CreateLlmService takes the backend name and the CLI command as parameters, because the settings class does not declare them (see Findings).
- Enrichment.EnrichmentEngine.ApplySuggestion: the `except Exception` branch is not modelled, because no modelled call in it can raise. The client's writer is a stub that reports success, so the ensures states success for "description" rather than "whatever the writer returns".
- LlmService.DescriptionsRetried: the retry lemma is stated for descriptions. PII detection and tags run under the same `Retry.Retried` wrapper, so `Retry.RetriedOutcome` applies to them, but they have no per-operation lemma.
- The engine reaches the backend and the schema lookup through functions bound at construction. `await` and `async` are sequential calls, because the source awaits one call at a time.
- `src/enricher/cli.py` and the usage example are not part of this model.

The model follows the code in these places, which a reader might expect to behave otherwise:
- The description projection catches only `ValueError`, so the `TypeError` of a non-string CLI `result` escapes (src/enricher/llm_claude_code.py:153-160).
- The PII projection catches `ValueError`, `KeyError` and `TypeError`, so the `AttributeError` of an item that is not a dict escapes (src/enricher/llm_claude_code.py:174-185).
- The bracket scan tries `{` before `[`, whichever of the two comes first in the text (src/enricher/llm_claude_code.py:125).
- The retry decorator wraps the whole API operation, prompt building and projection included (src/enricher/llm_service.py:104-135).
- The suggestion dictionary's keys are `dataset_urn`, `field_path`, `suggestion_type`, `suggested_value` and `confidence` (src/enricher/enrichment_engine.py:65-73).
- A "tag" suggestion is reported as applied without any call to DataHub (src/enricher/enrichment_engine.py:219-225).
- PII columns are a list, keeping order and duplicates (src/enricher/llm_claude_code.py:177-181).
- The three enrichment steps are awaited one after another (src/enricher/enrichment_engine.py:128-173).

## Findings

| source | as written | input that shows it | evidently intended | confidence | as-written member | corrected member |
|---|---|---|---|---|---|---|
| src/enricher/enrichment_engine.py:26-35 | `create_llm_service` reads `config.llm_backend` and `config.claude_command`, but `EnricherConfig` (src/enricher/config.py:9-85) declares neither, so the attribute access raises `AttributeError` | any settings value, e.g. `EnricherConfig(anthropic_api_key="k")` passed to `EnrichmentEngine` | the backend name and CLI command are settings fields choosing between "claude-code" and "anthropic-api" | high; not executed | Enrichment.FactoryAsWrittenRaises | Enrichment.FactoryChoice |
