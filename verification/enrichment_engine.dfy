/** `enrichment_engine`: the factory that picks the language-model backend, the
    suggestion record, and the engine that asks DataHub for a dataset's schema, asks the
    backend for descriptions, PII columns and tags, and turns the answers into
    suggestions. The awaits run one after another, so the engine is sequential. The
    backend calls are recorded in a ghost log, which is how the model states which
    calls were made. */
module Enrichment {
  import opened Wrappers
  import opened Json
  import opened Config
  import opened DataHub
  import opened LlmBase
  import LlmClaudeCode
  import LlmService

  // ---------------------------------------------------------------------------
  // Suggestions
  // ---------------------------------------------------------------------------

  /** The confidence every suggestion is created with: the float `1.0`. */
  const DefaultConfidence := JNum("1.0")

  /** `EnrichmentSuggestion`. A dataset-level suggestion has `JNull` as its field path. */
  datatype Suggestion = Suggestion(
    datasetUrn: string,
    fieldPath: Json,
    suggestionType: string,
    suggestedValue: Json,
    confidence: Json)

  /** `to_dict`. */
  function ToDict(s: Suggestion): Json {
    JObj([("dataset_urn", JStr(s.datasetUrn)), ("field_path", s.fieldPath),
          ("suggestion_type", JStr(s.suggestionType)), ("suggested_value", s.suggestedValue),
          ("confidence", s.confidence)])
  }

  const DictKeys: seq<string> := ["dataset_urn", "field_path", "suggestion_type", "suggested_value", "confidence"]

  function KeysOf(members: seq<(string, Json)>): (r: seq<string>)
    ensures |r| == |members| && forall i :: 0 <= i < |members| ==> r[i] == members[i].0
  {
    if members == [] then [] else [members[0].0] + KeysOf(members[1..])
  }

  /** Reading a suggestion back from its dictionary: the five keys must be there, and
      the URN and the type must be strings. */
  function FromDict(d: Json): Option<Suggestion> {
    if !d.JObj? then None
    else
      var urn := Lookup(d.members, "dataset_urn");
      var path := Lookup(d.members, "field_path");
      var kind := Lookup(d.members, "suggestion_type");
      var value := Lookup(d.members, "suggested_value");
      var confidence := Lookup(d.members, "confidence");
      if urn.Some? && urn.value.JStr? && path.Some? && kind.Some? && kind.value.JStr? && value.Some? && confidence.Some?
      then Some(Suggestion(urn.value.s, path.value, kind.value.s, value.value, confidence.value))
      else None
  }

  /** `to_dict` yields exactly the five keys, in order. */
  lemma ToDictKeys(s: Suggestion)
    ensures KeysOf(ToDict(s).members) == DictKeys
  {
    var k := KeysOf(ToDict(s).members);
    assert |k| == |DictKeys|;
    forall i | 0 <= i < |k| ensures k[i] == DictKeys[i] {
    }
  }

  /** Each key of `to_dict` holds its field, so the suggestion reads back from it
      unchanged. */
  lemma ToDictRoundTrip(s: Suggestion)
    ensures FromDict(ToDict(s)) == Some(s)
  {
    ToDictLookups(s);
  }

  lemma ToDictLookups(s: Suggestion)
    ensures var m := ToDict(s).members;
      Lookup(m, "dataset_urn") == Some(JStr(s.datasetUrn))
      && Lookup(m, "field_path") == Some(s.fieldPath)
      && Lookup(m, "suggestion_type") == Some(JStr(s.suggestionType))
      && Lookup(m, "suggested_value") == Some(s.suggestedValue)
      && Lookup(m, "confidence") == Some(s.confidence)
  {
    var m := ToDict(s).members;
    LaterLookups(s);
    LookupSkip(m, "field_path");
    LookupSkip(m, "suggestion_type");
    LookupSkip(m, "suggested_value");
    LookupSkip(m, "confidence");
    LookupFirst(m[1..], "dataset_urn", JStr(s.datasetUrn));
  }

  /** The four keys after `dataset_urn`. */
  lemma LaterLookups(s: Suggestion)
    ensures var t := ToDict(s).members[1..];
      Lookup(t, "field_path") == Some(s.fieldPath)
      && Lookup(t, "suggestion_type") == Some(JStr(s.suggestionType))
      && Lookup(t, "suggested_value") == Some(s.suggestedValue)
      && Lookup(t, "confidence") == Some(s.confidence)
  {
    var t := ToDict(s).members[1..];
    LastLookups(s);
    assert "field_path"[0] != "confidence"[0];
    LookupSkip(t, "suggestion_type");
    LookupSkip(t, "suggested_value");
    LookupSkip(t, "confidence");
    LookupFirst(t[1..], "field_path", s.fieldPath);
  }

  /** The three keys after `field_path`. */
  lemma LastLookups(s: Suggestion)
    ensures var t := ToDict(s).members[2..];
      Lookup(t, "suggestion_type") == Some(JStr(s.suggestionType))
      && Lookup(t, "suggested_value") == Some(s.suggestedValue)
      && Lookup(t, "confidence") == Some(s.confidence)
  {
    var t := ToDict(s).members[2..];
    assert t == [("suggestion_type", JStr(s.suggestionType)), ("suggested_value", s.suggestedValue), ("confidence", s.confidence)];
    assert "suggestion_type"[7] != "suggested_value"[7];
    assert t[1..][1..] == [("confidence", s.confidence)];
    LookupSkip(t, "suggested_value");
    LookupSkip(t, "confidence");
    LookupSkip(t[1..], "confidence");
  }

  // ---------------------------------------------------------------------------
  // The backend factory
  // ---------------------------------------------------------------------------

  /** `create_llm_service`, over the backend name and CLI command the caller gives. */
  function CreateLlmService(backend: string, claudeCommand: string, config: EnricherConfig): Result<LlmBackend, Exception> {
    if backend == "claude-code" then
      Ok(Local(LlmClaudeCode.ClaudeCodeLocalService(claudeCommand, LlmClaudeCode.DefaultMaxTurns)))
    else if backend == "anthropic-api" then
      var api :- LlmService.NewAnthropicApiService(config);
      Ok(Api(api))
    else Err(ValueError("Unknown LLM backend: " + backend))
  }

  /** `"claude-code"` selects the local backend running the given command for one turn,
      `"anthropic-api"` the API backend (which itself refuses an empty key), and any
      other name raises `ValueError` naming it. */
  lemma FactoryChoice(backend: string, claudeCommand: string, config: EnricherConfig)
    ensures var r := CreateLlmService(backend, claudeCommand, config);
      (r.Ok? && r.value.Local? <==> backend == "claude-code")
      && (r.Ok? && r.value.Api? <==> backend == "anthropic-api" && config.anthropicApiKey != "")
      && (r.Ok? && r.value.Local? ==> r.value.local == LlmClaudeCode.ClaudeCodeLocalService(claudeCommand, 1))
      && (r.Ok? && r.value.Api? ==> r.value.api.config == config)
      && (r.Err? ==> r.error.ValueError?)
      && (backend != "claude-code" && backend != "anthropic-api" ==> r == Err(ValueError("Unknown LLM backend: " + backend)))
  {
  }

  /** `create_llm_service` as written, on a settings object given by its string-valued
      attributes: it reads `config.llm_backend`, and `config.claude_command` for the
      local backend, and reading an attribute the object lacks raises `AttributeError`. */
  function CreateLlmServiceAsWritten(attrs: map<string, string>, config: EnricherConfig): Result<LlmBackend, Exception> {
    if "llm_backend" !in attrs then Err(AttributeError("'EnricherConfig' object has no attribute 'llm_backend'"))
    else if attrs["llm_backend"] != "claude-code" then CreateLlmService(attrs["llm_backend"], "", config)
    else if "claude_command" !in attrs then Err(AttributeError("'EnricherConfig' object has no attribute 'claude_command'"))
    else CreateLlmService("claude-code", attrs["claude_command"], config)
  }

  /** A settings object has only the attributes its class declares, and neither of the
      two the factory reads is among them: as written the factory raises on every
      settings value, and with it every engine construction. Given the two values, it
      is the factory over an explicit backend name. */
  lemma FactoryAsWrittenRaises(attrs: map<string, string>, config: EnricherConfig)
    ensures (forall a :: a in attrs ==> a in DeclaredFields) ==>
      CreateLlmServiceAsWritten(attrs, config).Err? && CreateLlmServiceAsWritten(attrs, config).error.AttributeError?
    ensures "llm_backend" in attrs && "claude_command" in attrs ==>
      CreateLlmServiceAsWritten(attrs, config) == CreateLlmService(attrs["llm_backend"], attrs["claude_command"], config)
  {
    assert forall i :: 0 <= i < |DeclaredFields| ==> DeclaredFields[i] != "llm_backend";
  }

  // ---------------------------------------------------------------------------
  // What one dataset yields
  // ---------------------------------------------------------------------------

  /** A call to the backend, with the arguments it was given. */
  datatype BackendCall =
    | DescriptionsCall(name: Json, columns: Json)
    | PiiCall(name: Json, columns: Json)
    | TagsCall(name: Json, description: Json, columns: Json)

  /** The three feature flags. */
  datatype Flags = Flags(descriptions: bool, pii: bool, tags: bool)

  function FlagsOf(config: EnricherConfig): Flags {
    Flags(config.enableColumnDescriptions, config.enablePiiDetection, config.enableTagSuggestions)
  }

  /** One step of `enrich_dataset`: the backend calls it makes, and the suggestions it
      adds or the exception it raises. */
  datatype Stage = Stage(calls: seq<BackendCall>, result: Result<seq<Suggestion>, Exception>)

  lemma AppendAssoc(a: seq<BackendCall>, b: seq<BackendCall>, c: seq<BackendCall>)
    ensures a + b + c == a + (b + c)
  {
  }

  /** Running `b` after `a`: `b` runs only when `a` did not raise. */
  function Then(a: Stage, b: Stage): Stage {
    if a.result.Err? then a
    else if b.result.Err? then Stage(a.calls + b.calls, Err(b.result.error))
    else Stage(a.calls + b.calls, Ok(a.result.value + b.result.value))
  }

  /** The suggestion made of one column description. */
  function DescriptionSuggestion(urn: string, entry: (string, string)): Suggestion {
    Suggestion(urn, JStr(entry.0), "description", JStr(entry.1), DefaultConfidence)
  }

  /** A PII path becomes a `PII` tag on that path; it is not checked against the schema. */
  function PiiSuggestion(urn: string, path: Json): Suggestion {
    Suggestion(urn, path, "tag", JStr("PII"), DefaultConfidence)
  }

  /** A dataset tag has no field path. */
  function DatasetTag(urn: string, tag: Json): Suggestion {
    Suggestion(urn, JNull, "tag", tag, DefaultConfidence)
  }

  function DescriptionSuggestions(urn: string, descriptions: seq<(string, string)>): (r: seq<Suggestion>)
    ensures |r| == |descriptions|
  {
    seq(|descriptions|, i requires 0 <= i < |descriptions| => DescriptionSuggestion(urn, descriptions[i]))
  }

  function PiiSuggestions(urn: string, paths: seq<Json>): (r: seq<Suggestion>)
    ensures |r| == |paths|
  {
    seq(|paths|, i requires 0 <= i < |paths| => PiiSuggestion(urn, paths[i]))
  }

  function TagSuggestions(urn: string, tags: seq<Json>): (r: seq<Suggestion>)
    ensures |r| == |tags|
  {
    seq(|tags|, i requires 0 <= i < |tags| => DatasetTag(urn, tags[i]))
  }

  lemma DescriptionSuggestionsSnoc(urn: string, items: seq<(string, string)>, i: nat)
    requires i < |items|
    ensures DescriptionSuggestions(urn, items[..i + 1]) == DescriptionSuggestions(urn, items[..i]) + [DescriptionSuggestion(urn, items[i])]
  {
  }

  lemma PiiSuggestionsSnoc(urn: string, paths: seq<Json>, i: nat)
    requires i < |paths|
    ensures PiiSuggestions(urn, paths[..i + 1]) == PiiSuggestions(urn, paths[..i]) + [PiiSuggestion(urn, paths[i])]
  {
  }

  lemma TagSuggestionsSnoc(urn: string, tags: seq<Json>, i: nat)
    requires i < |tags|
    ensures TagSuggestions(urn, tags[..i + 1]) == TagSuggestions(urn, tags[..i]) + [DatasetTag(urn, tags[i])]
  {
  }

  /** The description step: `dataset["name"]`, then the backend call. */
  function DescriptionStage(on: bool, svc: Service, urn: string, dataset: seq<(string, Json)>, fields: Json): Stage {
    if !on then Stage([], Ok([]))
    else
      match Index(JObj(dataset), "name")
      case Err(e) => Stage([], Err(e))
      case Ok(name) =>
        var answer := svc.describe(name, fields);
        Stage([DescriptionsCall(name, fields)],
              if answer.Err? then Err(answer.error) else Ok(DescriptionSuggestions(urn, answer.value)))
  }

  function PiiStage(on: bool, svc: Service, urn: string, dataset: seq<(string, Json)>, fields: Json): Stage {
    if !on then Stage([], Ok([]))
    else
      match Index(JObj(dataset), "name")
      case Err(e) => Stage([], Err(e))
      case Ok(name) =>
        var answer := svc.detectPii(name, fields);
        Stage([PiiCall(name, fields)], if answer.Err? then Err(answer.error) else Ok(PiiSuggestions(urn, answer.value)))
  }

  /** The tag step also sends `dataset.get("description", "")`. */
  function TagStage(on: bool, svc: Service, urn: string, dataset: seq<(string, Json)>, fields: Json): Stage {
    if !on then Stage([], Ok([]))
    else
      match Index(JObj(dataset), "name")
      case Err(e) => Stage([], Err(e))
      case Ok(name) =>
        var description := GetOr(dataset, "description", JStr(""));
        var answer := svc.suggestTags(name, description, fields);
        Stage([TagsCall(name, description, fields)], if answer.Err? then Err(answer.error) else Ok(TagSuggestions(urn, answer.value)))
  }

  /** `enrich_dataset` given what `get_dataset_schema` returned: nothing for a falsy
      dataset or a falsy field list, otherwise the three steps in order. */
  function Run(flags: Flags, svc: Service, urn: string, lookup: Result<Json, Exception>): Stage {
    match lookup
    case Err(e) => Stage([], Err(e))
    case Ok(dataset) =>
      if !Truthy(dataset) then Stage([], Ok([]))
      else
        match Get(dataset, "schemaMetadata", JObj([]))
        case Err(e) => Stage([], Err(e))
        case Ok(schema) =>
          match Get(schema, "fields", JArr([]))
          case Err(e) => Stage([], Err(e))
          case Ok(fields) =>
            if !Truthy(fields) then Stage([], Ok([]))
            else Steps(flags, svc, urn, dataset.members, fields)
  }

  /** The three steps, in order, on a dataset with fields. */
  function Steps(flags: Flags, svc: Service, urn: string, dataset: seq<(string, Json)>, fields: Json): Stage {
    Then(Then(DescriptionStage(flags.descriptions, svc, urn, dataset, fields),
              PiiStage(flags.pii, svc, urn, dataset, fields)),
         TagStage(flags.tags, svc, urn, dataset, fields))
  }

  /** The fields `enrich_dataset` works on: `dataset.get("schemaMetadata", {}).get("fields", [])`
      of a truthy dict. */
  function FieldsOf(dataset: Json): Option<Json> {
    if !dataset.JObj? then None
    else
      match Get(dataset, "schemaMetadata", JObj([]))
      case Err(_) => None
      case Ok(schema) => if schema.JObj? then Some(GetOr(schema.members, "fields", JArr([]))) else None
  }

  /** A falsy dataset, or one whose schema has no fields, yields no suggestions and no
      backend call at all. */
  lemma NothingWithoutFields(flags: Flags, svc: Service, urn: string, dataset: Json)
    requires !Truthy(dataset) || (FieldsOf(dataset).Some? && !Truthy(FieldsOf(dataset).value))
    ensures Run(flags, svc, urn, Ok(dataset)) == Stage([], Ok([]))
  {
  }

  /** The backend answers every enabled step. */
  predicate Answered(flags: Flags, svc: Service, name: Json, description: Json, fields: Json) {
    (flags.descriptions ==> svc.describe(name, fields).Ok?)
    && (flags.pii ==> svc.detectPii(name, fields).Ok?)
    && (flags.tags ==> svc.suggestTags(name, description, fields).Ok?)
  }

  /** The suggestions of an enabled step, `[]` for a disabled one. */
  function DescriptionsPart(flags: Flags, svc: Service, urn: string, name: Json, fields: Json): seq<Suggestion>
    requires flags.descriptions ==> svc.describe(name, fields).Ok?
  {
    if flags.descriptions then DescriptionSuggestions(urn, svc.describe(name, fields).value) else []
  }

  function PiiPart(flags: Flags, svc: Service, urn: string, name: Json, fields: Json): seq<Suggestion>
    requires flags.pii ==> svc.detectPii(name, fields).Ok?
  {
    if flags.pii then PiiSuggestions(urn, svc.detectPii(name, fields).value) else []
  }

  function TagsPart(flags: Flags, svc: Service, urn: string, name: Json, description: Json, fields: Json): seq<Suggestion>
    requires flags.tags ==> svc.suggestTags(name, description, fields).Ok?
  {
    if flags.tags then TagSuggestions(urn, svc.suggestTags(name, description, fields).value) else []
  }

  /** A named dataset with fields, whose every enabled step is answered: each step runs
      exactly when its flag is set, in the order descriptions, PII, tags, and the
      suggestions are the descriptions', then the PII tags, then the dataset tags, as
      many as the backend returned in all. */
  lemma StepsInOrder(flags: Flags, svc: Service, urn: string, members: seq<(string, Json)>)
    requires FieldsOf(JObj(members)).Some? && Truthy(FieldsOf(JObj(members)).value)
    requires Lookup(members, "name").Some?
    requires Answered(flags, svc, Lookup(members, "name").value, GetOr(members, "description", JStr("")), FieldsOf(JObj(members)).value)
    ensures
      var name, description, fields := Lookup(members, "name").value, GetOr(members, "description", JStr("")), FieldsOf(JObj(members)).value;
      var run := Run(flags, svc, urn, Ok(JObj(members)));
      run.calls == (if flags.descriptions then [DescriptionsCall(name, fields)] else [])
                   + (if flags.pii then [PiiCall(name, fields)] else [])
                   + (if flags.tags then [TagsCall(name, description, fields)] else [])
      && run.result == Ok(DescriptionsPart(flags, svc, urn, name, fields)
                          + PiiPart(flags, svc, urn, name, fields)
                          + TagsPart(flags, svc, urn, name, description, fields))
  {
    var name, description, fields := Lookup(members, "name").value, GetOr(members, "description", JStr("")), FieldsOf(JObj(members)).value;
    RunIsSteps(flags, svc, urn, members);
    DescriptionStageAnswered(flags, svc, urn, members, fields);
    PiiStageAnswered(flags, svc, urn, members, fields);
    TagStageAnswered(flags, svc, urn, members, fields);
  }

  /** A truthy dataset with truthy fields goes through the three steps. */
  lemma RunIsSteps(flags: Flags, svc: Service, urn: string, members: seq<(string, Json)>)
    requires FieldsOf(JObj(members)).Some? && Truthy(FieldsOf(JObj(members)).value)
    ensures Run(flags, svc, urn, Ok(JObj(members))) == Steps(flags, svc, urn, members, FieldsOf(JObj(members)).value)
  {
  }

  lemma DescriptionStageAnswered(flags: Flags, svc: Service, urn: string, members: seq<(string, Json)>, fields: Json)
    requires Lookup(members, "name").Some?
    requires flags.descriptions ==> svc.describe(Lookup(members, "name").value, fields).Ok?
    ensures var name, d := Lookup(members, "name").value, DescriptionStage(flags.descriptions, svc, urn, members, fields);
      d.calls == (if flags.descriptions then [DescriptionsCall(name, fields)] else [])
      && d.result == Ok(DescriptionsPart(flags, svc, urn, name, fields))
  {
  }

  lemma PiiStageAnswered(flags: Flags, svc: Service, urn: string, members: seq<(string, Json)>, fields: Json)
    requires Lookup(members, "name").Some?
    requires flags.pii ==> svc.detectPii(Lookup(members, "name").value, fields).Ok?
    ensures var name, p := Lookup(members, "name").value, PiiStage(flags.pii, svc, urn, members, fields);
      p.calls == (if flags.pii then [PiiCall(name, fields)] else [])
      && p.result == Ok(PiiPart(flags, svc, urn, name, fields))
  {
  }

  lemma TagStageAnswered(flags: Flags, svc: Service, urn: string, members: seq<(string, Json)>, fields: Json)
    requires Lookup(members, "name").Some?
    requires flags.tags ==> svc.suggestTags(Lookup(members, "name").value, GetOr(members, "description", JStr("")), fields).Ok?
    ensures var name, description, g := Lookup(members, "name").value, GetOr(members, "description", JStr("")), TagStage(flags.tags, svc, urn, members, fields);
      g.calls == (if flags.tags then [TagsCall(name, description, fields)] else [])
      && g.result == Ok(TagsPart(flags, svc, urn, name, description, fields))
  {
  }

  /** The shape of each suggestion: a description keeps its column as the field path and
      its text as the value; a PII path becomes a `PII` tag on that path; a dataset tag
      has no field path; all are made with confidence 1.0. */
  lemma SuggestionShapes(urn: string, descriptions: seq<(string, string)>, paths: seq<Json>, tags: seq<Json>)
    ensures forall i :: 0 <= i < |descriptions| ==>
      var s := DescriptionSuggestions(urn, descriptions)[i];
      s.suggestionType == "description" && s.fieldPath == JStr(descriptions[i].0)
      && s.suggestedValue == JStr(descriptions[i].1)
    ensures forall i :: 0 <= i < |paths| ==>
      var s := PiiSuggestions(urn, paths)[i];
      s.suggestionType == "tag" && s.fieldPath == paths[i] && s.suggestedValue == JStr("PII")
    ensures forall i :: 0 <= i < |tags| ==>
      var s := TagSuggestions(urn, tags)[i];
      s.suggestionType == "tag" && s.fieldPath == JNull && s.suggestedValue == tags[i]
    ensures forall s :: s in DescriptionSuggestions(urn, descriptions) + PiiSuggestions(urn, paths) + TagSuggestions(urn, tags) ==>
      s.datasetUrn == urn && s.confidence == DefaultConfidence
  {
  }

  /** A step that raises stops the run: its exception is the result, and no later step
      calls the backend. */
  lemma FailureStops(a: Stage, b: Stage)
    requires a.result.Err?
    ensures Then(a, b) == a
  {
  }

  /** With `dataset["name"]` missing, the first enabled step raises `KeyError('name')`
      before any backend call. */
  lemma MissingName(flags: Flags, svc: Service, urn: string, members: seq<(string, Json)>)
    requires FieldsOf(JObj(members)).Some? && Truthy(FieldsOf(JObj(members)).value)
    requires Lookup(members, "name").None?
    requires flags.descriptions || flags.pii || flags.tags
    ensures Run(flags, svc, urn, Ok(JObj(members))) == Stage([], Err(KeyError("name")))
  {
  }

  // ---------------------------------------------------------------------------
  // Batches
  // ---------------------------------------------------------------------------

  /** What a batch keeps of one dataset's run: its suggestions, `[]` when it raised. */
  function Kept(run: Stage): seq<Suggestion> {
    if run.result.Ok? then run.result.value else []
  }

  /** `enrich_datasets_batch` given the run of each URN: each URN, in order, stores what
      its run kept. */
  function Batch(urns: seq<string>, runs: seq<Stage>): map<string, seq<Suggestion>>
    requires |urns| == |runs|
  {
    if urns == [] then map[]
    else Batch(urns[..|urns| - 1], runs[..|urns| - 1])[urns[|urns| - 1] := Kept(runs[|urns| - 1])]
  }

  /** The backend calls of the runs, in order. */
  function CallsOf(runs: seq<Stage>): seq<BackendCall> {
    if runs == [] then [] else CallsOf(runs[..|runs| - 1]) + runs[|runs| - 1].calls
  }

  lemma BatchSnoc(urns: seq<string>, runs: seq<Stage>, urn: string, run: Stage)
    requires |urns| == |runs|
    ensures Batch(urns + [urn], runs + [run]) == Batch(urns, runs)[urn := Kept(run)]
    ensures CallsOf(runs + [run]) == CallsOf(runs) + run.calls
  {
    assert (urns + [urn])[..|urns|] == urns && (runs + [run])[..|runs|] == runs;
  }

  /** The batch holds exactly the given URNs. */
  lemma {:induction false} BatchKeys(urns: seq<string>, runs: seq<Stage>)
    requires |urns| == |runs|
    ensures forall u :: u in Batch(urns, runs) <==> u in urns
  {
    if urns != [] {
      var n := |urns| - 1;
      BatchKeys(urns[..n], runs[..n]);
      assert urns == urns[..n] + [urns[n]];
    }
  }

  /** Each URN maps to what its last run kept: a run that raised gives `[]` and does
      not stop the runs after it, and a repeated URN keeps its last run. */
  lemma {:induction false} BatchLast(urns: seq<string>, runs: seq<Stage>, i: nat)
    requires |urns| == |runs| && i < |urns|
    requires forall j :: i < j < |urns| ==> urns[j] != urns[i]
    ensures urns[i] in Batch(urns, runs) && Batch(urns, runs)[urns[i]] == Kept(runs[i])
  {
    var n := |urns| - 1;
    if i < n {
      assert urns[..n][i] == urns[i] && runs[..n][i] == runs[i];
      assert forall j :: i < j < n ==> urns[..n][j] == urns[j];
      BatchLast(urns[..n], runs[..n], i);
    }
  }

  // ---------------------------------------------------------------------------
  // The engine
  // ---------------------------------------------------------------------------

  class EnrichmentEngine {
    const config: EnricherConfig
    const client: DataHubClient
    /** The backend `create_llm_service` chose, bound to its transport. */
    const service: Service
    /** The client's `get_dataset_schema`, bound to the server it posts to. */
    const schemaOf: string -> Result<Json, Exception>
    /** The backend calls made so far. */
    ghost var calls: seq<BackendCall>

    constructor(config: EnricherConfig, service: Service, post: Poster)
      ensures this.config == config && this.service == service && calls == []
      ensures fresh(client) && client.gmsUrl == NormalisedUrl(config.datahubGmsUrl)
      ensures client.gmsToken == config.datahubGmsToken && client.headers == BuildHeaders(config.datahubGmsToken)
      ensures schemaOf == SchemaSource(client.gmsUrl, client.headers, post)
    {
      this.config := config;
      var c := new DataHubClient(config.datahubGmsUrl, config.datahubGmsToken);
      this.client := c;
      this.schemaOf := SchemaSource(c.gmsUrl, c.headers, post);
      this.service := service;
      this.calls := [];
    }

    /** `enrich_dataset` for `urn`, on what the client's server answers. */
    function Outcome(urn: string): Stage
    {
      Run(FlagsOf(config), service, urn, schemaOf(urn))
    }

    method EnrichDataset(urn: string) returns (r: Result<seq<Suggestion>, Exception>)
      modifies this`calls
      ensures r == Outcome(urn).result
      ensures calls == old(calls) + Outcome(urn).calls
    {
      var lookup := schemaOf(urn);
      if lookup.Err? {
        return Err(lookup.error);
      }
      var dataset := lookup.value;
      if !Truthy(dataset) {
        return Ok([]);
      }
      var schema := Get(dataset, "schemaMetadata", JObj([]));
      if schema.Err? {
        return Err(schema.error);
      }
      var fields := Get(schema.value, "fields", JArr([]));
      if fields.Err? {
        return Err(fields.error);
      }
      if !Truthy(fields.value) {
        return Ok([]);
      }
      assert Outcome(urn) == Steps(FlagsOf(config), service, urn, dataset.members, fields.value);
      r := RunSteps(urn, dataset.members, fields.value);
    }

    /** The three steps of `enrich_dataset`, once the dataset has fields. */
    method RunSteps(urn: string, dataset: seq<(string, Json)>, fields: Json) returns (r: Result<seq<Suggestion>, Exception>)
      modifies this`calls
      ensures r == Steps(FlagsOf(config), service, urn, dataset, fields).result
      ensures calls == old(calls) + Steps(FlagsOf(config), service, urn, dataset, fields).calls
    {
      ghost var dp := Then(DescriptionStage(config.enableColumnDescriptions, service, urn, dataset, fields),
                           PiiStage(config.enablePiiDetection, service, urn, dataset, fields));
      ghost var g := TagStage(config.enableTagSuggestions, service, urn, dataset, fields);
      var suggestions := DescribeAndDetect(urn, dataset, fields);
      if suggestions.Err? {
        return Err(suggestions.error);
      }
      r := AddDatasetTags(suggestions.value, urn, dataset, fields);
      AppendAssoc(old(calls), dp.calls, g.calls);
    }

    /** The description and PII steps. */
    method DescribeAndDetect(urn: string, dataset: seq<(string, Json)>, fields: Json) returns (r: Result<seq<Suggestion>, Exception>)
      modifies this`calls
      ensures var stage := Then(DescriptionStage(config.enableColumnDescriptions, service, urn, dataset, fields),
                                PiiStage(config.enablePiiDetection, service, urn, dataset, fields));
        r == stage.result && calls == old(calls) + stage.calls
    {
      ghost var d := DescriptionStage(config.enableColumnDescriptions, service, urn, dataset, fields);
      ghost var p := PiiStage(config.enablePiiDetection, service, urn, dataset, fields);
      var suggestions := AddDescriptions([], urn, dataset, fields);
      if suggestions.Err? {
        return Err(suggestions.error);
      }
      assert [] + d.result.value == d.result.value;
      r := AddPiiTags(suggestions.value, urn, dataset, fields);
    }

    /** The description step, appending to `suggestions`. */
    method AddDescriptions(suggestions: seq<Suggestion>, urn: string, dataset: seq<(string, Json)>, fields: Json)
      returns (r: Result<seq<Suggestion>, Exception>)
      modifies this`calls
      ensures var stage := DescriptionStage(config.enableColumnDescriptions, service, urn, dataset, fields);
        calls == old(calls) + stage.calls
        && r == if stage.result.Err? then Err(stage.result.error) else Ok(suggestions + stage.result.value)
    {
      assert calls + [] == calls;
      if !config.enableColumnDescriptions {
        assert suggestions + [] == suggestions;
        return Ok(suggestions);
      }
      var name := Index(JObj(dataset), "name");
      if name.Err? {
        return Err(name.error);
      }
      calls := calls + [DescriptionsCall(name.value, fields)];
      var descriptions := service.describe(name.value, fields);
      if descriptions.Err? {
        return Err(descriptions.error);
      }
      var items := descriptions.value;
      var out := suggestions;
      for i := 0 to |items|
        invariant out == suggestions + DescriptionSuggestions(urn, items[..i])
        invariant calls == old(calls) + [DescriptionsCall(name.value, fields)]
      {
        DescriptionSuggestionsSnoc(urn, items, i);
        out := out + [Suggestion(urn, JStr(items[i].0), "description", JStr(items[i].1), DefaultConfidence)];
      }
      assert items[..|items|] == items;
      r := Ok(out);
    }

    /** The PII step, appending to `suggestions`. */
    method AddPiiTags(suggestions: seq<Suggestion>, urn: string, dataset: seq<(string, Json)>, fields: Json)
      returns (r: Result<seq<Suggestion>, Exception>)
      modifies this`calls
      ensures var stage := PiiStage(config.enablePiiDetection, service, urn, dataset, fields);
        calls == old(calls) + stage.calls
        && r == if stage.result.Err? then Err(stage.result.error) else Ok(suggestions + stage.result.value)
    {
      assert calls + [] == calls;
      if !config.enablePiiDetection {
        assert suggestions + [] == suggestions;
        return Ok(suggestions);
      }
      var name := Index(JObj(dataset), "name");
      if name.Err? {
        return Err(name.error);
      }
      calls := calls + [PiiCall(name.value, fields)];
      var piiColumns := service.detectPii(name.value, fields);
      if piiColumns.Err? {
        return Err(piiColumns.error);
      }
      var paths := piiColumns.value;
      var out := suggestions;
      for i := 0 to |paths|
        invariant out == suggestions + PiiSuggestions(urn, paths[..i])
        invariant calls == old(calls) + [PiiCall(name.value, fields)]
      {
        PiiSuggestionsSnoc(urn, paths, i);
        out := out + [Suggestion(urn, paths[i], "tag", JStr("PII"), DefaultConfidence)];
      }
      assert paths[..|paths|] == paths;
      r := Ok(out);
    }

    /** The dataset tag step, appending to `suggestions`. */
    method AddDatasetTags(suggestions: seq<Suggestion>, urn: string, dataset: seq<(string, Json)>, fields: Json)
      returns (r: Result<seq<Suggestion>, Exception>)
      modifies this`calls
      ensures var stage := TagStage(config.enableTagSuggestions, service, urn, dataset, fields);
        calls == old(calls) + stage.calls
        && r == if stage.result.Err? then Err(stage.result.error) else Ok(suggestions + stage.result.value)
    {
      assert calls + [] == calls;
      if !config.enableTagSuggestions {
        assert suggestions + [] == suggestions;
        return Ok(suggestions);
      }
      var name := Index(JObj(dataset), "name");
      if name.Err? {
        return Err(name.error);
      }
      var description := GetOr(dataset, "description", JStr(""));
      calls := calls + [TagsCall(name.value, description, fields)];
      var suggested := service.suggestTags(name.value, description, fields);
      if suggested.Err? {
        return Err(suggested.error);
      }
      var tags := suggested.value;
      var out := suggestions;
      for i := 0 to |tags|
        invariant out == suggestions + TagSuggestions(urn, tags[..i])
        invariant calls == old(calls) + [TagsCall(name.value, description, fields)]
      {
        TagSuggestionsSnoc(urn, tags, i);
        out := out + [Suggestion(urn, JNull, "tag", tags[i], DefaultConfidence)];
      }
      assert tags[..|tags|] == tags;
      r := Ok(out);
    }

    lemma SliceSnoc(urns: seq<string>, i: nat)
      requires i < |urns|
      ensures urns[..i + 1] == urns[..i] + [urns[i]]
    {
    }

    lemma RunsExtend(urns: seq<string>, runs: seq<Stage>, run: Stage)
      requires |runs| < |urns| && forall j :: 0 <= j < |runs| ==> runs[j] == Outcome(urns[j])
      requires run == Outcome(urns[|runs|])
      ensures forall j :: 0 <= j < |runs| + 1 ==> (runs + [run])[j] == Outcome(urns[j])
    {
    }

    /** The runs of `enrich_dataset` on each URN in turn. */
    function Runs(urns: seq<string>): (r: seq<Stage>)
      ensures |r| == |urns|
    {
      if urns == [] then [] else Runs(urns[..|urns| - 1]) + [Outcome(urns[|urns| - 1])]
    }

    /** `enrich_datasets_batch`: every URN gets an entry, `[]` when its run raised; no
        exception escapes. */
    method EnrichDatasetsBatch(urns: seq<string>) returns (results: map<string, seq<Suggestion>>)
      modifies this`calls
      ensures results == Batch(urns, Runs(urns))
      ensures calls == old(calls) + CallsOf(Runs(urns))
    {
      ghost var runs: seq<Stage> := [];
      results := map[];
      for i := 0 to |urns|
        invariant |runs| == i && forall j :: 0 <= j < i ==> runs[j] == Outcome(urns[j])
        invariant results == Batch(urns[..i], runs)
        invariant calls == old(calls) + CallsOf(runs)
      {
        ghost var run;
        SliceSnoc(urns, i);
        results, run := EnrichInto(results, urns[i]);
        BatchSnoc(urns[..i], runs, urns[i], run);
        AppendAssoc(old(calls), CallsOf(runs), run.calls);
        RunsExtend(urns, runs, run);
        runs := runs + [run];
      }
      assert urns[..|urns|] == urns;
      RunsAre(urns, runs);
    }

    lemma {:induction false} RunsAre(urns: seq<string>, runs: seq<Stage>)
      requires |runs| == |urns| && forall j :: 0 <= j < |urns| ==> runs[j] == Outcome(urns[j])
      ensures Runs(urns) == runs
    {
      if urns != [] {
        var n := |urns| - 1;
        RunsAre(urns[..n], runs[..n]);
        assert runs == runs[..n] + [runs[n]];
      }
    }

    /** One turn of the batch loop: the run's suggestions, or `[]` when it raised. */
    method EnrichInto(results: map<string, seq<Suggestion>>, urn: string)
      returns (updated: map<string, seq<Suggestion>>, ghost run: Stage)
      modifies this`calls
      ensures run == Outcome(urn)
      ensures updated == results[urn := Kept(run)]
      ensures calls == old(calls) + run.calls
    {
      run := Outcome(urn);
      var suggestions := EnrichDataset(urn);
      if suggestions.Ok? {
        updated := results[urn := suggestions.value];
      } else {
        updated := results[urn := []];
      }
    }

    /** `apply_suggestion`: a description is written through the client, a tag is
        reported as applied without touching DataHub, any other type is refused. */
    method ApplySuggestion(s: Suggestion) returns (ok: bool)
      ensures ok <==> s.suggestionType == "description" || s.suggestionType == "tag"
    {
      if s.suggestionType == "description" {
        ok := client.UpdateColumnDescription(s.datasetUrn, s.fieldPath, s.suggestedValue);
      } else if s.suggestionType == "tag" {
        ok := true;
      } else {
        ok := false;
      }
    }
  }

  /** Building an engine: the backend is created first and its failure is the
      engine's; otherwise the engine and its DataHub client are built around it.
      `__init__` builds the client before the backend, but building the client has no
      effect, so the order cannot be observed. */
  method NewEngine(config: EnricherConfig, backend: string, claudeCommand: string, t: Transport, post: Poster)
    returns (r: Result<EnrichmentEngine, Exception>)
    ensures var svc := CreateLlmService(backend, claudeCommand, config);
      (svc.Err? ==> r == Err(svc.error))
      && (svc.Ok? ==>
            r.Ok? && fresh(r.value) && r.value.service == Connect(svc.value, t) && r.value.config == config && r.value.calls == []
            && r.value.schemaOf == SchemaSource(NormalisedUrl(config.datahubGmsUrl), BuildHeaders(config.datahubGmsToken), post))
  {
    var svc := CreateLlmService(backend, claudeCommand, config);
    if svc.Err? {
      return Err(svc.error);
    }
    var engine := new EnrichmentEngine(config, Connect(svc.value, t), post);
    r := Ok(engine);
  }
}
