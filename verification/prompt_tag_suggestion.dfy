/** `build_tag_suggestion_prompt`: the dataset's name, its description (or a
    placeholder) and the paths of at most its first twenty columns, with the number of
    columns left out. */
module PromptTagSuggestion {
  import opened Wrappers
  import opened Text
  import opened Json
  import opened PromptLines

  /** The opening sentence, and the sentence after the sample columns that introduces the
      answer format; the rest of the fixed prose is left out. */
  const Opening := "You are a data governance expert helping to classify and tag datasets in a data catalog."
  const Closing := "Format your response as a JSON object:"

  /** How many columns the prompt names. */
  const Limit := 20

  const NoDescription := "No description provided"

  /** `columns[:20]`: a list keeps its first twenty items, a string its first twenty
      characters. A dict looks the slice up as a key (Python 3.12 and later, where
      slices are hashable) and raises `KeyError`; any other value cannot be
      subscripted. */
  function Sliced(columns: Json): Result<seq<Json>, Exception> {
    match columns
    case JArr(items) => Ok(items[..Min(|items|, Limit)])
    case JStr(s) => Ok(seq(Min(|s|, Limit), i requires 0 <= i < Min(|s|, Limit) => JStr([s[i]])))
    case JObj(_) => Err(KeyError(SliceKey))
    case _ => Err(TypeError("'" + TypeName(columns) + "' object is not subscriptable"))
  }

  /** How Python renders the slice object of `[:20]`. */
  const SliceKey := "slice(None, 20, None)"

  function Min(a: nat, b: nat): nat {
    if a <= b then a else b
  }

  /** `len(columns)` for the values `Sliced` accepts. */
  function Length(columns: Json): nat {
    match columns
    case JArr(items) => |items|
    case JStr(s) => |s|
    case _ => 0
  }

  /** `[col.get("fieldPath", "unknown") for col in cols]`. */
  function ColumnNames(cols: seq<Json>): (r: Result<seq<Json>, Exception>)
    ensures r.Ok? ==> |r.value| == |cols|
  {
    if cols == [] then Ok([])
    else
      var name :- Get(cols[0], "fieldPath", JStr("unknown"));
      var rest :- ColumnNames(cols[1..]);
      Ok([name] + rest)
  }

  /** The index of the first name that is not a string, or `|names|`. */
  function FirstNonString(names: seq<Json>): (k: nat)
    ensures k <= |names|
    ensures forall i :: 0 <= i < k ==> names[i].JStr?
    ensures k < |names| ==> !names[k].JStr?
  {
    if names == [] then 0
    else if !names[0].JStr? then 0
    else 1 + FirstNonString(names[1..])
  }

  function Strings(names: seq<Json>): seq<string>
    requires forall i :: 0 <= i < |names| ==> names[i].JStr?
  {
    seq(|names|, i requires 0 <= i < |names| => names[i].s)
  }

  /** `", ".join(names)`: every item must be a `str`. */
  function JoinNames(names: seq<Json>): Result<string, Exception> {
    var k := FirstNonString(names);
    if k < |names| then
      Err(TypeError("sequence item " + IntToString(k) + ": expected str instance, " + TypeName(names[k]) + " found"))
    else Ok(Join(Strings(names), ", "))
  }

  /** The note on the columns left out, when there are more than twenty. */
  function MoreText(count: nat): string {
    if count > Limit then ", ... and " + IntToString(count - Limit) + " more" else ""
  }

  /** The text of the `Sample Columns:` line. */
  function ColumnsText(columns: Json): Result<string, Exception> {
    var sliced :- Sliced(columns);
    var names :- ColumnNames(sliced);
    var joined :- JoinNames(names);
    Ok(joined + MoreText(Length(columns)))
  }

  /** The description, or the placeholder when it is falsy. */
  function DescriptionText(description: Json): string {
    if Truthy(description) then Str(description) else NoDescription
  }

  function DatasetLine(name: Json): string {
    "Dataset: " + Str(name) + "\n"
  }

  function DescriptionLine(descriptionText: string): string {
    "Description: " + descriptionText + "\n"
  }

  function SampleColumnsLine(columnsText: string): string {
    "Sample Columns: " + columnsText + "\n"
  }

  function PromptText(name: Json, descriptionText: string, columnsText: string): string {
    Opening + "\n\n" + DatasetLine(name) + DescriptionLine(descriptionText) + SampleColumnsLine(columnsText) + "\n" + Closing
  }

  /** What the builder returns. */
  function TagSuggestionPrompt(name: Json, description: Json, columns: Json): Result<string, Exception> {
    var columnsText :- ColumnsText(columns);
    Ok(PromptText(name, DescriptionText(description), columnsText))
  }

  /** The path each dict column contributes: its `fieldPath`, or `"unknown"`. */
  function PathOf(col: Json): Json
    requires col.JObj?
  {
    GetOr(col.members, "fieldPath", JStr("unknown"))
  }

  /** The columns that the prompt names are all dicts with a string path. */
  predicate Nameable(cols: seq<Json>) {
    forall i :: 0 <= i < |cols| ==> cols[i].JObj? && PathOf(cols[i]).JStr?
  }

  /** Their paths, in order. */
  function Paths(cols: seq<Json>): (r: seq<string>)
    requires Nameable(cols)
    ensures |r| == |cols| && forall i :: 0 <= i < |cols| ==> r[i] == PathOf(cols[i]).s
  {
    seq(|cols|, i requires 0 <= i < |cols| => PathOf(cols[i]).s)
  }

  lemma {:induction false} ColumnNamesOfDicts(cols: seq<Json>)
    requires forall i :: 0 <= i < |cols| ==> cols[i].JObj?
    ensures ColumnNames(cols).Ok?
    ensures forall i :: 0 <= i < |cols| ==> ColumnNames(cols).value[i] == PathOf(cols[i])
  {
    if cols != [] {
      ColumnNamesOfDicts(cols[1..]);
      assert forall i :: 1 <= i < |cols| ==> cols[i] == cols[1..][i - 1];
    }
  }

  /** At most twenty columns, the first ones, in order: for a list whose first twenty
      columns are dicts with string paths, the sample is their paths joined with `, `,
      followed by the note on the rest. Nothing after the twentieth column is read. */
  lemma SampleOfList(items: seq<Json>)
    requires Nameable(items[..Min(|items|, Limit)])
    ensures ColumnsText(JArr(items)) == Ok(Join(Paths(items[..Min(|items|, Limit)]), ", ") + MoreText(|items|))
    ensures |Paths(items[..Min(|items|, Limit)])| <= Limit
  {
    var sliced := items[..Min(|items|, Limit)];
    ColumnNamesOfDicts(sliced);
    var names := ColumnNames(sliced).value;
    assert FirstNonString(names) == |names|;
    assert Strings(names) == Paths(sliced);
  }

  /** Two lists of the same length that agree on their first twenty columns give the
      same sample, whatever the later columns are. */
  lemma LaterColumnsIgnored(a: seq<Json>, b: seq<Json>)
    requires |a| == |b| && a[..Min(|a|, Limit)] == b[..Min(|b|, Limit)]
    ensures ColumnsText(JArr(a)) == ColumnsText(JArr(b))
  {
  }

  /** A dict column without `fieldPath` is named `unknown`. */
  lemma UnknownPath(col: Json)
    requires col.JObj? && !HasKey(col, "fieldPath")
    ensures ColumnNames([col]) == Ok([JStr("unknown")])
  {
    assert [JStr("unknown")] + [] == [JStr("unknown")];
  }

  /** The note says how many columns were left out, and is there only when some were:
      the digits between `, ... and ` and ` more` read back as the count minus twenty. */
  lemma MoreTextCounts(count: nat)
    ensures count <= Limit ==> MoreText(count) == ""
    ensures count > Limit ==> exists digits ::
      MoreText(count) == ", ... and " + digits + " more" && ParseInt(digits) == Some(count - Limit)
  {
    if count > Limit {
      IntToStringRoundTrip(count - Limit);
      var digits := IntToString(count - Limit);
      assert MoreText(count) == ", ... and " + digits + " more";
    }
  }

  /** A path that is not a string among the sampled columns makes the builder raise
      `TypeError`, naming the first such position. */
  lemma NonStringPathFails(items: seq<Json>, k: nat)
    requires k < Min(|items|, Limit)
    requires forall i :: 0 <= i < Min(|items|, Limit) ==> items[i].JObj?
    requires forall i :: 0 <= i < k ==> PathOf(items[i]).JStr?
    requires !PathOf(items[k]).JStr?
    ensures ColumnsText(JArr(items)) == Err(TypeError("sequence item " + IntToString(k) + ": expected str instance, " + TypeName(PathOf(items[k])) + " found"))
  {
    var sliced := items[..Min(|items|, Limit)];
    ColumnNamesOfDicts(sliced);
    var names := ColumnNames(sliced).value;
    assert forall i :: 0 <= i < k ==> names[i].JStr?;
    assert !names[k].JStr?;
    assert FirstNonString(names) == k;
  }

  /** Only a list or a string can be sampled: a dict raises the `KeyError` of the
      slice looked up as a key, and any other value `TypeError`. */
  lemma UnsliceableColumns(name: Json, description: Json, columns: Json)
    requires !columns.JArr? && !columns.JStr?
    ensures TagSuggestionPrompt(name, description, columns).Err?
    ensures columns.JObj? ==> TagSuggestionPrompt(name, description, columns).error == KeyError(SliceKey)
    ensures !columns.JObj? ==> TagSuggestionPrompt(name, description, columns).error.TypeError?
  {
  }

  /** The description line prints the description when it is truthy and the
      placeholder otherwise (missing, `None` or empty). */
  lemma DescriptionShown(description: Json)
    ensures Truthy(description) ==> DescriptionText(description) == Str(description)
    ensures !Truthy(description) ==> DescriptionText(description) == NoDescription
    ensures description.JStr? && description.s != "" ==> DescriptionText(description) == description.s
  {
  }

  /** The prompt holds the dataset line, the description line and the sample line. */
  lemma PromptMentions(name: Json, descriptionText: string, columnsText: string)
    ensures Contains(PromptText(name, descriptionText, columnsText), DatasetLine(name))
    ensures Contains(PromptText(name, descriptionText, columnsText), DescriptionLine(descriptionText))
    ensures Contains(PromptText(name, descriptionText, columnsText), SampleColumnsLine(columnsText))
  {
    var o, d, e, c := Opening + "\n\n", DatasetLine(name), DescriptionLine(descriptionText), SampleColumnsLine(columnsText);
    Regroup(o, d, e, c, "\n", Closing);
    ContainsMiddle(o, d, e + c + "\n" + Closing);
    ContainsMiddle(o + d, e, c + "\n" + Closing);
    ContainsMiddle(o + d + e, c, "\n" + Closing);
  }
}
