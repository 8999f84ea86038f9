/** The projections both language-model backends apply to an extracted answer: a map
    of column descriptions, the field paths of confidently detected PII columns, and
    the suggested tags. A malformed answer degrades to an empty result, except where
    Python raises an exception the backend does not catch. */
module Envelopes {
  import opened Wrappers
  import opened Json
  import opened JsonExtraction

  /** The start of the `TypeError` `json.loads` raises on a value that is not text. */
  const NotTextMessage := "the JSON object must be str, bytes or bytearray, not "

  /** The extractor applied to what the backend received: `json.loads` accepts only a
      `str`, so any other answer raises `TypeError` before a strategy runs. */
  function ExtractFrom(answer: Json, parse: Parser): (r: Result<Json, Exception>)
    ensures answer.JStr? ==> r == Extracted(answer.s, parse)
    ensures !answer.JStr? ==> r.Err? && r.error.TypeError?
  {
    match answer
    case JStr(text) => Extracted(text, parse)
    case _ => Err(TypeError(NotTextMessage + TypeName(answer)))
  }

  /** The exceptions the PII and tag projections catch. */
  predicate CaughtByLists(e: Exception) {
    e.ValueError? || e.KeyError? || e.TypeError?
  }

  /** Leaves a result alone unless it failed with an exception the projection catches,
      which turns it into the empty list. */
  function Recover<T>(r: Result<seq<T>, Exception>, caught: Exception -> bool): Result<seq<T>, Exception> {
    if r.Err? && caught(r.error) then Ok([]) else r
  }

  // ---------------------------------------------------------------------------
  // Column descriptions

  /** `{str(k): str(v) for k, v in parsed.items()}`, in insertion order. */
  function Stringified(members: seq<(string, Json)>): seq<(string, string)> {
    seq(|members|, i requires 0 <= i < |members| => (members[i].0, Str(members[i].1)))
  }

  /** The description projection: an object becomes its members stringified; any other
      value, or an extraction `ValueError`, becomes the empty map. Only `ValueError` is
      caught, so the `TypeError` of a non-string answer escapes. */
  function DescriptionsFrom(extracted: Result<Json, Exception>): (r: Result<seq<(string, string)>, Exception>)
  {
    match extracted
    case Err(e) => if e.ValueError? then Ok([]) else Err(e)
    case Ok(parsed) => if parsed.JObj? then Ok(Stringified(parsed.members)) else Ok([])
  }

  /** The projection fails exactly when extraction failed with something other than
      `ValueError`; an object keeps every key in order, each value rendered by `str()`;
      anything else yields nothing. */
  lemma DescriptionsMeaning(extracted: Result<Json, Exception>)
    ensures DescriptionsFrom(extracted).Err? <==> extracted.Err? && !extracted.error.ValueError?
    ensures var r := DescriptionsFrom(extracted);
      extracted.Ok? && extracted.value.JObj? ==>
        r.Ok? && |r.value| == |extracted.value.members|
        && forall i :: 0 <= i < |r.value| ==>
             r.value[i].0 == extracted.value.members[i].0 && r.value[i].1 == Str(extracted.value.members[i].1)
    ensures var r := DescriptionsFrom(extracted);
      r.Ok? && r.value != [] ==> extracted.Ok? && extracted.value.JObj?
  {
  }

  // ---------------------------------------------------------------------------
  // PII detection

  /** `item.get("confidence") in ("high", "medium")` for a dict item. */
  predicate Confident(item: Json) {
    item.JObj? && (GetOr(item.members, "confidence", JNull) == JStr("high") || GetOr(item.members, "confidence", JNull) == JStr("medium"))
  }

  /** An item the comprehension passes without raising: a dict that, when it is
      confident, has a `field_path`. */
  predicate GoodItem(item: Json) {
    item.JObj? && (Confident(item) ==> HasKey(item, "field_path"))
  }

  /** The value under `field_path` of a dict item. */
  function FieldPath(item: Json): Json {
    if item.JObj? then GetOr(item.members, "field_path", JNull) else JNull
  }

  /** The comprehension `[item["field_path"] for item in items if item.get("confidence")
      in ("high", "medium")]`, evaluated left to right: the first exception ends it. */
  function SelectPaths(items: seq<Json>): (r: Result<seq<Json>, Exception>)
    ensures r.Ok? ==> |r.value| <= |items|
  {
    if items == [] then Ok([])
    else
      var confidence :- Get(items[0], "confidence", JNull);
      if confidence == JStr("high") || confidence == JStr("medium") then
        var path :- Index(items[0], "field_path");
        var rest :- SelectPaths(items[1..]);
        Ok([path] + rest)
      else
        SelectPaths(items[1..])
  }

  /** The confident items, in order: the reference the comprehension is proved
      against. */
  function ConfidentItems(items: seq<Json>): seq<Json> {
    if items == [] then []
    else if Confident(items[0]) then [items[0]] + ConfidentItems(items[1..])
    else ConfidentItems(items[1..])
  }

  /** The `field_path` of each item. */
  function PathsOf(cs: seq<Json>): seq<Json> {
    seq(|cs|, i requires 0 <= i < |cs| => FieldPath(cs[i]))
  }

  /** The reference keeps exactly the confident items. */
  lemma {:induction false} ConfidentItemsMembers(items: seq<Json>)
    ensures forall x :: x in ConfidentItems(items) <==> x in items && Confident(x)
  {
    if items != [] {
      ConfidentItemsMembers(items[1..]);
      assert items == [items[0]] + items[1..];
    }
  }

  lemma PathsOfCons(c: Json, cs: seq<Json>)
    ensures PathsOf([c] + cs) == [FieldPath(c)] + PathsOf(cs)
  {
  }

  /** The comprehension succeeds exactly when every item is good. */
  lemma {:induction false} SelectPathsSucceeds(items: seq<Json>)
    ensures SelectPaths(items).Ok? <==> forall i :: 0 <= i < |items| ==> GoodItem(items[i])
  {
    if items != [] {
      SelectPathsSucceeds(items[1..]);
      assert forall i :: 1 <= i < |items| ==> items[i] == items[1..][i - 1];
    }
  }

  /** A failing comprehension reports its first bad item: `KeyError` for a confident
      dict without `field_path`, `AttributeError` for an item that is not a dict. */
  lemma {:induction false} SelectPathsFailure(items: seq<Json>) returns (bad: nat)
    requires SelectPaths(items).Err?
    ensures bad < |items| && !GoodItem(items[bad])
    ensures forall i :: 0 <= i < bad ==> GoodItem(items[i])
    ensures SelectPaths(items).error == if items[bad].JObj? then KeyError("field_path") else AttributeError("'" + TypeName(items[bad]) + "' object has no attribute 'get'")
  {
    if GoodItem(items[0]) {
      var b := SelectPathsFailure(items[1..]);
      bad := b + 1;
      assert items[bad] == items[1..][b];
      forall i | 0 <= i < bad ensures GoodItem(items[i]) {
        if i > 0 {
          assert items[i] == items[1..][i - 1];
        }
      }
    } else {
      bad := 0;
    }
  }

  /** A successful comprehension yields the field paths of the confident items, in
      their order. */
  lemma {:induction false} SelectPathsPicksConfident(items: seq<Json>)
    requires SelectPaths(items).Ok?
    ensures forall i :: 0 <= i < |items| ==> GoodItem(items[i])
    ensures SelectPaths(items).value == PathsOf(ConfidentItems(items))
  {
    SelectPathsSucceeds(items);
    if items != [] {
      SelectPathsPicksConfident(items[1..]);
      if Confident(items[0]) {
        PathsOfCons(items[0], ConfidentItems(items[1..]));
      }
    }
  }

  /** The PII projection: the comprehension over `parsed["pii_columns"]` when the answer
      is an object holding that key, otherwise the empty list. `ValueError`, `KeyError`
      and `TypeError` are caught; the `AttributeError` of an item that is not a dict is
      not. */
  function PiiFieldsFrom(extracted: Result<Json, Exception>): (r: Result<seq<Json>, Exception>)
  {
    match extracted
    case Err(e) => Recover(Err(e), CaughtByLists)
    case Ok(parsed) =>
      if !HasKey(parsed, "pii_columns") then Ok([])
      else
        match Iterate(Lookup(parsed.members, "pii_columns").value)
        case Err(e) => Recover(Err(e), CaughtByLists)
        case Ok(items) => Recover(SelectPaths(items), CaughtByLists)
  }

  /** What the PII projection yields on an answer shaped as the prompt asks (an object
      whose `pii_columns` is a list of good items): the field paths of the confident
      items, in order. */
  lemma PiiFieldsOfList(parsed: Json, items: seq<Json>)
    requires parsed.JObj? && Lookup(parsed.members, "pii_columns") == Some(JArr(items))
    requires forall i :: 0 <= i < |items| ==> GoodItem(items[i])
    ensures PiiFieldsFrom(Ok(parsed)) == Ok(PathsOf(ConfidentItems(items)))
  {
    SelectPathsSucceeds(items);
    SelectPathsPicksConfident(items);
  }

  /** What `for item in parsed[key]` iterates over, when that succeeds. */
  function Listed(parsed: Json, key: string): seq<Json> {
    if HasKey(parsed, key) then
      match Iterate(Lookup(parsed.members, key).value)
      case Ok(items) => items
      case Err(_) => []
    else []
  }

  /** The PII projection fails only with the `AttributeError` of a first bad item that
      is not a dict, or with an extraction error it does not catch; every other
      malformed answer yields the empty list. */
  lemma PiiFieldsFailure(extracted: Result<Json, Exception>)
    requires PiiFieldsFrom(extracted).Err?
    ensures extracted.Err? ==> !CaughtByLists(extracted.error)
    ensures extracted.Ok? ==>
      var items := Listed(extracted.value, "pii_columns");
      exists bad :: 0 <= bad < |items| && !items[bad].JObj? && forall i :: 0 <= i < bad ==> GoodItem(items[i])
  {
    if extracted.Ok? {
      var items := Listed(extracted.value, "pii_columns");
      assert SelectPaths(items).Err? && !CaughtByLists(SelectPaths(items).error);
      var bad := SelectPathsFailure(items);
      assert !items[bad].JObj?;
    }
  }

  /** The example of the prompt: of a high-confidence `ssn` and a low-confidence
      `notes`, only `ssn` is reported. */
  lemma PiiFieldsExample()
    ensures var ssn := JObj([("field_path", JStr("ssn")), ("confidence", JStr("high"))]);
      var notes := JObj([("field_path", JStr("notes")), ("confidence", JStr("low"))]);
      PiiFieldsFrom(Ok(JObj([("pii_columns", JArr([ssn, notes]))]))) == Ok([JStr("ssn")])
  {
    var ssn := JObj([("field_path", JStr("ssn")), ("confidence", JStr("high"))]);
    var notes := JObj([("field_path", JStr("notes")), ("confidence", JStr("low"))]);
    var parsed := JObj([("pii_columns", JArr([ssn, notes]))]);
    assert Lookup(parsed.members, "pii_columns") == Some(JArr([ssn, notes]));
    assert Get(ssn, "confidence", JNull) == Ok(JStr("high"));
    assert Index(ssn, "field_path") == Ok(JStr("ssn"));
    assert Get(notes, "confidence", JNull) == Ok(JStr("low"));
    assert [ssn, notes][0] == ssn && [ssn, notes][1..] == [notes];
    assert SelectPaths([notes][1..]) == Ok([]);
    assert SelectPaths([notes]) == Ok([]);
    assert [JStr("ssn")] + [] == [JStr("ssn")];
  }

  // ---------------------------------------------------------------------------
  // Tags

  /** The comprehension `[item["tag"] for item in items]`. */
  function TagValues(items: seq<Json>): (r: Result<seq<Json>, Exception>)
    ensures r.Ok? ==> |r.value| == |items|
  {
    if items == [] then Ok([])
    else
      var tag :- Index(items[0], "tag");
      var rest :- TagValues(items[1..]);
      Ok([tag] + rest)
  }

  /** The tag projection: the tags of `parsed["suggested_tags"]` when the answer is an
      object holding that key, otherwise the empty list; every exception on the way is
      one the projection catches. */
  function TagsFrom(extracted: Result<Json, Exception>): (r: Result<seq<Json>, Exception>)
  {
    match extracted
    case Err(e) => Recover(Err(e), CaughtByLists)
    case Ok(parsed) =>
      if !HasKey(parsed, "suggested_tags") then Ok([])
      else
        match Iterate(Lookup(parsed.members, "suggested_tags").value)
        case Err(e) => Recover(Err(e), CaughtByLists)
        case Ok(items) => Recover(TagValues(items), CaughtByLists)
  }

  /** The comprehension succeeds exactly when every item has a `tag`, and then yields
      the tags in order; otherwise it fails with `KeyError` or `TypeError`. */
  lemma {:induction false} TagValuesMeaning(items: seq<Json>)
    ensures TagValues(items).Ok? <==> forall i :: 0 <= i < |items| ==> HasKey(items[i], "tag")
    ensures TagValues(items).Ok? ==> forall i :: 0 <= i < |items| ==>
      TagValues(items).value[i] == Lookup(items[i].members, "tag").value
    ensures TagValues(items).Err? ==> CaughtByLists(TagValues(items).error)
  {
    if items != [] {
      TagValuesMeaning(items[1..]);
      assert forall i :: 1 <= i < |items| ==> items[i] == items[1..][i - 1];
    }
  }

  /** All or nothing: the tag projection never fails on an extraction `ValueError` or
      `TypeError`; on an object whose `suggested_tags` is a list of items that all have
      a `tag` it yields those tags in order, and on any other answer it yields nothing. */
  lemma TagsAllOrNothing(extracted: Result<Json, Exception>)
    requires extracted.Err? ==> CaughtByLists(extracted.error)
    ensures TagsFrom(extracted).Ok?
    ensures var tags := TagsFrom(extracted).value;
      if extracted.Ok? && HasKey(extracted.value, "suggested_tags")
         && Lookup(extracted.value.members, "suggested_tags").value.JArr?
         && var items := Lookup(extracted.value.members, "suggested_tags").value.items;
            forall i :: 0 <= i < |items| ==> HasKey(items[i], "tag")
      then
        var items := Lookup(extracted.value.members, "suggested_tags").value.items;
        |tags| == |items| && forall i :: 0 <= i < |items| ==> tags[i] == Lookup(items[i].members, "tag").value
      else tags == []
  {
    if extracted.Ok? && HasKey(extracted.value, "suggested_tags") {
      var v := Lookup(extracted.value.members, "suggested_tags").value;
      match Iterate(v)
      case Err(_) =>
      case Ok(items) =>
        TagValuesMeaning(items);
        if !v.JArr? && items != [] {
          if v.JObj? {
            assert items[0] == JStr(v.members[0].0);
          } else {
            assert items[0] == JStr([v.s[0]]);
          }
          assert !HasKey(items[0], "tag");
        }
    }
  }
}
