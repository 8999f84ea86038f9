/** `build_pii_detection_prompt`: one entry per column (path, type, the description on a
    second line), the entries joined with newlines, and the prompt around them. Unlike
    the column-description prompt it prints no `[NOT NULL]` marker. */
module PromptPiiDetection {
  import opened Wrappers
  import opened Text
  import opened Json
  import opened PromptLines

  /** The opening sentence, and the sentence after the column list that introduces the
      answer format; the rest of the fixed prose is left out. */
  const Opening := "You are a data privacy and security expert."
  const Closing := "Format your response as a JSON object:"

  /** `col.get(key, default)` for the three keys the builder reads. */
  function FieldPathOf(col: Json): Json requires col.JObj? { GetOr(col.members, "fieldPath", JStr("unknown")) }
  function DataTypeOf(col: Json): Json requires col.JObj? { GetOr(col.members, "nativeDataType", JStr("unknown")) }
  function DescriptionOf(col: Json): Json requires col.JObj? { GetOr(col.members, "description", JStr("")) }

  /** The first line of an entry: `- path (type)`. */
  function HeaderLine(col: Json): string
    requires col.JObj?
  {
    "- " + Str(FieldPathOf(col)) + " (" + Str(DataTypeOf(col)) + ")"
  }

  function DetailLine(col: Json): string
    requires col.JObj?
  {
    "  Description: " + Str(DescriptionOf(col))
  }

  /** The entry of one column: the header line, then the description line when the
      description is truthy. */
  function Entry(col: Json): string
    requires col.JObj?
  {
    if Truthy(DescriptionOf(col)) then HeaderLine(col) + "\n  Description: " + Str(DescriptionOf(col))
    else HeaderLine(col)
  }

  /** The entries of the columns, or the `AttributeError` `col.get` raises on the first
      column that is not a dict. */
  function Entries(cols: seq<Json>): Result<seq<string>, Exception> {
    if cols == [] then Ok([])
    else if !cols[0].JObj? then Err(AttributeError("'" + TypeName(cols[0]) + "' object has no attribute 'get'"))
    else Prepend([Entry(cols[0])], Entries(cols[1..]))
  }

  /** The line naming the dataset and the block holding the column text. */
  function DatasetLine(name: Json): string {
    "Dataset: " + Str(name) + "\n"
  }

  function ColumnsBlock(columnsText: string): string {
    "Columns:\n" + columnsText + "\n"
  }

  function PromptText(name: Json, columnsText: string): string {
    Opening + "\n\n" + DatasetLine(name) + "\n" + ColumnsBlock(columnsText) + "\n" + Closing
  }

  /** What the builder returns: the prompt around the newline-joined entries. */
  function PiiDetectionPrompt(name: Json, columns: Json): Result<string, Exception> {
    var cols :- Iterate(columns);
    var entries :- Entries(cols);
    Ok(PromptText(name, Join(entries, "\n")))
  }

  /** The body of the builder's loop for one dict column. */
  method FormatColumn(col: Json) returns (info: string)
    requires col.JObj?
    ensures info == Entry(col)
  {
    var fieldPath := GetOr(col.members, "fieldPath", JStr("unknown"));
    var dataType := GetOr(col.members, "nativeDataType", JStr("unknown"));
    var description := GetOr(col.members, "description", JStr(""));
    info := "- " + Str(fieldPath) + " (" + Str(dataType) + ")";
    if Truthy(description) {
      info := info + "\n  Description: " + Str(description);
    }
  }

  /** The entries from column `i` on: that column's entry and the rest, or the error
      it raises. */
  lemma EntriesStep(cols: seq<Json>, i: nat)
    requires i < |cols|
    ensures cols[i].JObj? ==> Entries(cols[i..]) == Prepend([Entry(cols[i])], Entries(cols[i + 1..]))
    ensures !cols[i].JObj? ==> Entries(cols[i..]) == Err(AttributeError("'" + TypeName(cols[i]) + "' object has no attribute 'get'"))
  {
    assert cols[i..][0] == cols[i] && cols[i..][1..] == cols[i + 1..];
  }

  /** The builder's loop: each column appends its entry to `column_info`. */
  method BuildPiiDetectionPrompt(name: Json, columns: Json) returns (r: Result<string, Exception>)
    ensures r == PiiDetectionPrompt(name, columns)
  {
    var iterated := Iterate(columns);
    if iterated.Err? {
      return Err(iterated.error);
    }
    var cols := iterated.value;
    var columnInfo: seq<string> := [];
    assert cols[0..] == cols;
    assert Prepend([], Entries(cols)) == Entries(cols) by {
      if Entries(cols).Ok? {
        assert [] + Entries(cols).value == Entries(cols).value;
      }
    }
    for i := 0 to |cols|
      invariant Entries(cols) == Prepend(columnInfo, Entries(cols[i..]))
    {
      EntriesStep(cols, i);
      var col := cols[i];
      if !col.JObj? {
        return Err(AttributeError("'" + TypeName(col) + "' object has no attribute 'get'"));
      }
      var info := FormatColumn(col);
      PrependSnoc(columnInfo, info, Entries(cols[i + 1..]));
      columnInfo := columnInfo + [info];
    }
    assert columnInfo + [] == columnInfo;
    r := Ok(PromptText(name, Join(columnInfo, "\n")));
  }

  /** Only the path, the type and the description reach the prompt: two columns that
      agree on those three keys get the same entry, whatever else (`nullable`,
      `type`, ...) they hold. */
  lemma EntryReadsThreeKeys(a: Json, b: Json)
    requires a.JObj? && b.JObj?
    requires Lookup(a.members, "fieldPath") == Lookup(b.members, "fieldPath")
    requires Lookup(a.members, "nativeDataType") == Lookup(b.members, "nativeDataType")
    requires Lookup(a.members, "description") == Lookup(b.members, "description")
    ensures Entry(a) == Entry(b)
  {
    assert FieldPathOf(a) == FieldPathOf(b) && DataTypeOf(a) == DataTypeOf(b) && DescriptionOf(a) == DescriptionOf(b);
  }

  /** The header line is a single line starting with `- `. */
  lemma HeaderIsOneLine(col: Json)
    requires col.JObj?
    requires NoNewline(Str(FieldPathOf(col))) && NoNewline(Str(DataTypeOf(col)))
    ensures NoNewline(HeaderLine(col)) && IsHeader(HeaderLine(col))
  {
    var h := HeaderLine(col);
    assert h[..2] == "- ";
  }

  /** The description line is a single line that is not a header. */
  lemma DetailIsOneLine(col: Json)
    requires col.JObj?
    requires NoNewline(Str(DescriptionOf(col)))
    ensures NoNewline(DetailLine(col)) && !IsHeader(DetailLine(col))
  {
    assert DetailLine(col)[..2] == "  ";
    assert '\n' !in "  Description: ";
  }

  lemma DetailAppended(header: string, description: string)
    ensures header + "\n  Description: " + description == header + ("\n" + ("  Description: " + description))
  {
    assert "\n  Description: " == "\n" + "  Description: ";
  }

  lemma EntryJoinsLines(col: Json)
    requires col.JObj?
    ensures Entry(col) == HeaderLine(col) + (if Truthy(DescriptionOf(col)) then "\n" + DetailLine(col) else "")
  {
    if Truthy(DescriptionOf(col)) {
      DetailAppended(HeaderLine(col), Str(DescriptionOf(col)));
    } else {
      assert HeaderLine(col) + "" == HeaderLine(col);
    }
  }

  /** An entry reads back as its header line, followed by the description line exactly
      when the description is truthy. */
  lemma EntryShape(col: Json)
    requires col.JObj?
    requires NoNewline(Str(FieldPathOf(col))) && NoNewline(Str(DataTypeOf(col))) && NoNewline(Str(DescriptionOf(col)))
    ensures Split(Entry(col), '\n') == [HeaderLine(col)] + (if Truthy(DescriptionOf(col)) then [DetailLine(col)] else [])
    ensures Headers(Split(Entry(col), '\n')) == [HeaderLine(col)]
  {
    HeaderIsOneLine(col);
    DetailIsOneLine(col);
    EntryJoinsLines(col);
    EntryLines(HeaderLine(col), DetailLine(col), Truthy(DescriptionOf(col)));
    EntryHeaders(HeaderLine(col), DetailLine(col), Truthy(DescriptionOf(col)));
  }

  /** Entries of dict columns: one per column, in order. */
  lemma {:induction false} EntriesOfDicts(cols: seq<Json>)
    requires forall i :: 0 <= i < |cols| ==> cols[i].JObj?
    ensures Entries(cols).Ok? && |Entries(cols).value| == |cols|
    ensures forall i :: 0 <= i < |cols| ==> Entries(cols).value[i] == Entry(cols[i])
  {
    if cols != [] {
      EntriesOfDicts(cols[1..]);
      var rest := Entries(cols[1..]).value;
      assert Entries(cols) == Ok([Entry(cols[0])] + rest);
      forall i | 1 <= i < |cols| ensures Entries(cols).value[i] == Entry(cols[i]) {
        assert cols[i] == cols[1..][i - 1];
      }
    }
  }

  /** A dict column whose path, type and description print without a newline. */
  predicate PlainColumn(col: Json) {
    col.JObj? && NoNewline(Str(FieldPathOf(col))) && NoNewline(Str(DataTypeOf(col)))
    && NoNewline(Str(DescriptionOf(col)))
  }

  /** The header lines of dict columns, in order. */
  function HeaderLines(cols: seq<Json>): (r: seq<string>)
    requires forall i :: 0 <= i < |cols| ==> cols[i].JObj?
    ensures |r| == |cols| && forall i :: 0 <= i < |cols| ==> r[i] == HeaderLine(cols[i])
  {
    seq(|cols|, i requires 0 <= i < |cols| => HeaderLine(cols[i]))
  }

  /** A list of dict columns makes the builder return the prompt around their entries. */
  lemma PromptOfDicts(name: Json, cols: seq<Json>)
    requires forall i :: 0 <= i < |cols| ==> cols[i].JObj?
    ensures Entries(cols).Ok?
    ensures PiiDetectionPrompt(name, JArr(cols)) == Ok(PromptText(name, Join(Entries(cols).value, "\n")))
  {
    EntriesOfDicts(cols);
  }

  /** One entry per column, in input order: for plain columns, the lines of the column
      text that start with `- ` are the columns' header lines, one per column, in
      order. */
  lemma OneEntryPerColumn(cols: seq<Json>)
    requires forall i :: 0 <= i < |cols| ==> cols[i].JObj?
    requires forall i :: 0 <= i < |cols| ==> PlainColumn(cols[i])
    ensures Entries(cols).Ok?
    ensures Headers(Split(Join(Entries(cols).value, "\n"), '\n')) == HeaderLines(cols)
  {
    EntriesOfDicts(cols);
    var entries := Entries(cols).value;
    var headers := HeaderLines(cols);
    forall i | 0 <= i < |entries| ensures Headers(Split(entries[i], '\n')) == [headers[i]] {
      EntryHeader(cols[i]);
    }
    LinesOfJoined(entries, headers);
  }

  lemma EntryHeader(col: Json)
    requires PlainColumn(col)
    ensures Headers(Split(Entry(col), '\n')) == [HeaderLine(col)]
  {
    EntryShape(col);
  }

  /** A column that is not a dict makes the builder raise `AttributeError`, whatever
      follows it. */
  lemma {:induction false} NonDictColumnFails(cols: seq<Json>, k: nat)
    requires k < |cols| && !cols[k].JObj?
    ensures Entries(cols).Err? && Entries(cols).error.AttributeError?
  {
    if k > 0 && cols[0].JObj? {
      assert cols[1..][k - 1] == cols[k];
      NonDictColumnFails(cols[1..], k - 1);
    }
  }

  /** The prompt names the dataset and holds the column text. */
  lemma PromptMentions(name: Json, columnsText: string)
    ensures Contains(PromptText(name, columnsText), DatasetLine(name))
    ensures Contains(PromptText(name, columnsText), ColumnsBlock(columnsText))
  {
    var o, d, c := Opening + "\n\n", DatasetLine(name), ColumnsBlock(columnsText);
    Regroup(o, d, "\n", c, "\n", Closing);
    ContainsMiddle(o, d, "\n" + c + "\n" + Closing);
    ContainsMiddle(o + d + "\n", c, "\n" + Closing);
  }
}
