/** The column lists the column-description and PII prompts print: each column becomes
    an entry made of a header line starting with `- ` and, optionally, a detail line
    indented by two spaces, and the entries are joined with newlines. */
module PromptLines {
  import opened Wrappers
  import opened Text
  import opened Json

  predicate NoNewline(s: string) {
    '\n' !in s
  }

  predicate IsHeader(line: string) {
    |line| >= 2 && line[..2] == "- "
  }

  predicate EndsWith(s: string, suffix: string) {
    |suffix| <= |s| && s[|s| - |suffix|..] == suffix
  }

  /** `s` holds `part` somewhere. */
  ghost predicate Contains(s: string, part: string) {
    exists i: nat :: OccursAt(s, part, i)
  }

  lemma ContainsMiddle(a: string, b: string, c: string)
    ensures Contains(a + b + c, b)
  {
    assert OccursAt(a + b + c, b, |a|) by {
      assert (a + b + c)[|a|..|a| + |b|] == b;
    }
  }

  /** The header lines among `lines`, in order. */
  function Headers(lines: seq<string>): seq<string> {
    if lines == [] then [] else (if IsHeader(lines[0]) then [lines[0]] else []) + Headers(lines[1..])
  }

  lemma {:induction false} HeadersAppend(a: seq<string>, b: seq<string>)
    ensures Headers(a + b) == Headers(a) + Headers(b)
  {
    if a == [] {
      assert a + b == b;
    } else {
      assert (a + b)[0] == a[0] && (a + b)[1..] == a[1..] + b;
      HeadersAppend(a[1..], b);
    }
  }

  /** An entry whose header and detail hold no newline reads back as one header line,
      followed by the detail line when there is one. */
  lemma EntryLines(header: string, detail: string, hasDetail: bool)
    requires NoNewline(header) && NoNewline(detail)
    ensures Split(header + (if hasDetail then "\n" + detail else ""), '\n') == [header] + (if hasDetail then [detail] else [])
  {
    if hasDetail {
      TwoLines(header, detail);
    } else {
      SplitSingle(header);
      assert header + "" == header;
    }
  }

  lemma TwoLines(header: string, detail: string)
    requires NoNewline(header) && NoNewline(detail)
    ensures Split(header + ("\n" + detail), '\n') == [header, detail]
  {
    SplitSingle(header);
    SplitSingle(detail);
    SplitAppend(header, detail, '\n');
    assert header + ("\n" + detail) == header + ['\n'] + detail;
  }

  lemma SplitSingle(s: string)
    requires NoNewline(s)
    ensures Split(s, '\n') == [s]
  {
    assert IndexOf(s, '\n').None?;
  }

  /** Such an entry holds exactly one header line when the detail is not one. */
  lemma EntryHeaders(header: string, detail: string, hasDetail: bool)
    requires NoNewline(header) && NoNewline(detail)
    requires IsHeader(header) && !IsHeader(detail)
    ensures Headers(Split(header + (if hasDetail then "\n" + detail else ""), '\n')) == [header]
  {
    EntryLines(header, detail, hasDetail);
    if hasDetail {
      assert [header, detail][1..] == [detail];
      assert Headers([detail]) == [];
    }
  }

  /** Joined entries that each hold exactly one header line: the header lines of the
      joined text are those headers, one per entry, in order. */
  lemma {:induction false} HeadersOfJoined(entries: seq<string>, headers: seq<string>)
    requires |entries| == |headers|
    requires forall i :: 0 <= i < |entries| ==> Headers(Split(entries[i], '\n')) == [headers[i]]
    ensures Headers(SplitEach(entries, '\n')) == headers
  {
    if entries != [] {
      assert forall i :: 0 <= i < |entries| - 1 ==> entries[1..][i] == entries[i + 1];
      HeadersOfJoined(entries[1..], headers[1..]);
      assert SplitEach(entries, '\n') == Split(entries[0], '\n') + SplitEach(entries[1..], '\n');
      HeadersAppend(Split(entries[0], '\n'), SplitEach(entries[1..], '\n'));
      assert headers == [headers[0]] + headers[1..];
    }
  }

  /** The same for the newline-joined text itself. */
  lemma LinesOfJoined(entries: seq<string>, headers: seq<string>)
    requires |entries| == |headers|
    requires forall i :: 0 <= i < |entries| ==> Headers(Split(entries[i], '\n')) == [headers[i]]
    ensures Headers(Split(Join(entries, "\n"), '\n')) == headers
  {
    if entries == [] {
      assert Split("", '\n') == [""];
    } else {
      SplitJoinEach(entries, '\n');
      HeadersOfJoined(entries, headers);
    }
  }

  /** `entries ++ rest`, failing when the rest failed. */
  function Prepend(entries: seq<string>, rest: Result<seq<string>, Exception>): Result<seq<string>, Exception> {
    match rest
    case Ok(r) => Ok(entries + r)
    case Err(e) => Err(e)
  }

  lemma PrependSnoc(done: seq<string>, entry: string, rest: Result<seq<string>, Exception>)
    ensures Prepend(done + [entry], rest) == Prepend(done, Prepend([entry], rest))
  {
    if rest.Ok? {
      assert done + [entry] + rest.value == done + ([entry] + rest.value);
    }
  }

  lemma Regroup(a: string, b: string, c: string, d: string, e: string, f: string)
    ensures a + b + c + d + e + f == a + b + (c + d + e + f)
    ensures a + b + c + d + e + f == (a + b + c) + d + (e + f)
    ensures a + b + c + d + e + f == (a + b) + c + (d + e + f)
  {
  }
}
