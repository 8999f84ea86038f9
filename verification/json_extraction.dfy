/** The JSON-in-text extractor that both language-model backends run on an answer:
    the whole text, then the interior of the first ``` fence, then a bracket-depth
    scan from the first `{` and from the first `[`. The first strategy whose text
    parses wins; when none does, a `ValueError` carries a preview of the text. */
module JsonExtraction {
  import opened Wrappers
  import opened Text
  import opened Json

  const Fence := "```"

  /** The index of the first non-space character at or after `i`: what `\s*` consumes. */
  function SkipSpace(s: string, i: nat): (r: nat)
    requires i <= |s|
    ensures i <= r <= |s|
    ensures forall j :: i <= j < r ==> IsSpace(s[j])
    ensures r == |s| || !IsSpace(s[r])
    decreases |s| - i
  {
    if i < |s| && IsSpace(s[i]) then SkipSpace(s, i + 1) else i
  }

  /** Where the white space after an opening fence at `p` starts: past the optional
      `json` tag. */
  function TagEnd(text: string, p: nat): (b: nat)
    requires p + 3 <= |text|
    ensures b <= |text|
    ensures b == p + 3 || (b == p + 7 && OccursAt(text, "json", p + 3))
  {
    if OccursAt(text, "json", p + 3) then p + 7 else p + 3
  }

  /** Group 1 of the first match of the fence pattern (three backticks, an optional
      `json` tag, white space, an optional newline, the shortest interior, an optional
      newline, three backticks): from the first fence, past the tag and the white
      space, to the first closing fence, less one newline just before it. The interior
      never holds a fence. */
  function FenceGroup(text: string): (r: Option<string>)
    ensures r.Some? ==> forall j :: !OccursAt(r.value, Fence, j)
  {
    match FindFrom(text, Fence, 0)
    case None => None
    case Some(p) => GroupAfter(text, TagEnd(text, p))
  }

  /** The rest of the match once the opening fence and its tag end at `b`: past the
      white space, up to the first closing fence, less one newline just before it. */
  function GroupAfter(text: string, b: nat): (r: Option<string>)
    requires b <= |text|
    ensures r.Some? ==> forall j :: !OccursAt(r.value, Fence, j)
  {
    var c := SkipSpace(text, b);
    match FindFrom(text, Fence, c)
    case None => None
    case Some(q) =>
      var g := if q > c && text[q - 1] == '\n' then q - 1 else q;
      InteriorHasNoFence(text, c, g, q);
      Some(text[c..g])
  }

  /** The pattern matches somewhere exactly when the text holds two fences that do not
      overlap: an opening fence with no later closing fence leaves no match at all, even
      when a later pair of fences exists. */
  lemma FenceMatchExists(text: string)
    ensures FenceGroup(text).Some? <==> exists p: nat, q: nat :: p + 3 <= q && OccursAt(text, Fence, p) && OccursAt(text, Fence, q)
  {
    match FindFrom(text, Fence, 0)
    case None =>
    case Some(p) =>
      var b := TagEnd(text, p);
      var c := SkipSpace(text, b);
      match FindFrom(text, Fence, c)
      case None => NoClosingFence(text, p, b, c);
      case Some(q) => assert OccursAt(text, Fence, p) && OccursAt(text, Fence, q);
  }

  /** No text between `c` and the first closing fence `q` holds a fence. */
  lemma InteriorHasNoFence(text: string, c: nat, g: nat, q: nat)
    requires c <= g <= q && q + 3 <= |text|
    requires forall j :: c <= j < q ==> !OccursAt(text, Fence, j)
    ensures forall j :: !OccursAt(text[c..g], Fence, j)
  {
    forall j: nat | OccursAt(text[c..g], Fence, j) ensures false {
      var t := text[c..g];
      assert |Fence| == 3 && j + 3 <= |t|;
      forall m | 0 <= m < 3 ensures text[c + j + m] == Fence[m] {
        assert t[j..j + 3][m] == Fence[m];
      }
      assert text[c + j..c + j + 3] == Fence;
      assert OccursAt(text, Fence, c + j);
    }
  }

  /** When nothing after `c` is a fence, no two non-overlapping fences exist at all:
      the first fence is at `p`, and `p + 3 .. c` holds only a `json` tag and white
      space, where no backtick can start. */
  lemma NoClosingFence(text: string, p: nat, b: nat, c: nat)
    requires OccursAt(text, Fence, p) && forall j :: 0 <= j < p ==> !OccursAt(text, Fence, j)
    requires b == p + 3 || (b == p + 7 && OccursAt(text, "json", p + 3))
    requires b <= c <= |text| && forall j :: b <= j < c ==> IsSpace(text[j])
    requires forall j :: c <= j ==> !OccursAt(text, Fence, j)
    ensures !exists p: nat, q: nat :: p + 3 <= q && OccursAt(text, Fence, p) && OccursAt(text, Fence, q)
  {
    forall q: nat | p + 3 <= q < c ensures !OccursAt(text, Fence, q) {
      if q + 3 <= |text| {
        assert text[q..q + 3][0] == text[q];
        if q < b {
          assert text[p + 3..p + 7][q - p - 3] == text[q];
        } else {
          assert IsSpace(text[q]);
        }
      }
    }
  }

  /** A bracket kind of the scan: its opening and closing character. */
  datatype Bracket = Bracket(open: char, close: char)

  /** The kinds the scan tries, in order: objects before arrays. */
  const Kinds: seq<Bracket> := [Bracket('{', '}'), Bracket('[', ']')]

  /** The number of occurrences of `c` in `s`. */
  function Count(s: string, c: char): nat {
    if s == [] then 0 else Count(s[..|s| - 1], c) + (if s[|s| - 1] == c then 1 else 0)
  }

  /** Nesting depth at the end of `s`: openings minus closings of one kind. Quotes are
      not understood, so a bracket inside a JSON string counts like any other. */
  function Depth(s: string, k: Bracket): int {
    Count(s, k.open) - Count(s, k.close)
  }

  /** Appending one character moves the depth by one step at most. */
  lemma DepthSnoc(s: string, ch: char, k: Bracket)
    requires k.open != k.close
    ensures Depth(s + [ch], k) == Depth(s, k) + (if ch == k.open then 1 else if ch == k.close then -1 else 0)
  {
    assert (s + [ch])[..|s|] == s;
  }

  /** The depth of a scan started at `s` once it has read `text[j]`. */
  function DepthAfter(text: string, s: nat, j: nat, k: Bracket): int
    requires s <= j < |text|
  {
    Depth(text[s..j + 1], k)
  }

  /** The first index `e >= i` at which `text[s..e+1]` is balanced: where the scan
      started at `s` stops. */
  function FirstBalanced(text: string, s: nat, i: nat, k: Bracket): (r: Option<nat>)
    requires s <= i <= |text|
    ensures r.Some? ==> i <= r.value < |text| && DepthAfter(text, s, r.value, k) == 0
    ensures r.Some? ==> forall j :: i <= j < r.value ==> DepthAfter(text, s, j, k) != 0
    ensures r.None? ==> forall j :: i <= j < |text| ==> DepthAfter(text, s, j, k) != 0
    decreases |text| - i
  {
    if i == |text| then None
    else if DepthAfter(text, s, i, k) == 0 then Some(i)
    else FirstBalanced(text, s, i + 1, k)
  }

  /** The scan's candidate for one kind: from the first opening bracket to the point
      where the depth first returns to zero; `None` when there is no opening bracket
      or the depth never returns to zero. */
  function Candidate(text: string, k: Bracket): Option<string> {
    match IndexOf(text, k.open)
    case None => None
    case Some(s) =>
      match FirstBalanced(text, s, s, k)
      case None => None
      case Some(e) => Some(text[s..e + 1])
  }

  /** What the scan of one kind yields: its single candidate, parsed. */
  function ScanKind(text: string, parse: Parser, k: Bracket): Option<Json> {
    match Candidate(text, k)
    case Some(c) => parse(c)
    case None => None
  }

  /** The bracket scan over the remaining kinds: the first kind whose single
      candidate parses. A candidate that does not parse abandons its kind. */
  function Scan(text: string, parse: Parser, kinds: seq<Bracket>): Option<Json> {
    if kinds == [] then None
    else if ScanKind(text, parse, kinds[0]).Some? then ScanKind(text, parse, kinds[0])
    else Scan(text, parse, kinds[1..])
  }

  const FailurePrefix := "Could not extract JSON from response: "

  /** The message of the `ValueError` raised when nothing parses. */
  function FailureMessage(text: string): string {
    FailurePrefix + text[..if |text| < 200 then |text| else 200] + "..."
  }

  /** What the extractor returns on `text`: the three strategies in order. */
  function Extracted(text: string, parse: Parser): Result<Json, Exception> {
    if parse(text).Some? then Ok(parse(text).value)
    else if FenceGroup(text).Some? && parse(Strip(FenceGroup(text).value)).Some? then
      Ok(parse(Strip(FenceGroup(text).value)).value)
    else
      match Scan(text, parse, Kinds)
      case Some(v) => Ok(v)
      case None => Err(ValueError(FailureMessage(text)))
  }

  /** The extractor raises exactly when no strategy parses, and then raises `ValueError`
      whose message is the fixed prefix, a preview made of at most the first 200
      characters of the text, and `...`. */
  lemma ExtractionFailure(text: string, parse: Parser)
    ensures Extracted(text, parse).Err? <==>
      parse(text).None? && (FenceGroup(text).None? || parse(Strip(FenceGroup(text).value)).None?)
      && Scan(text, parse, Kinds).None?
    ensures Extracted(text, parse).Err? ==> Extracted(text, parse).error.ValueError?
    ensures Extracted(text, parse).Err? && Extracted(text, parse).error.ValueError? ==>
      var m := Extracted(text, parse).error.message;
      |FailurePrefix| + 3 <= |m| <= |FailurePrefix| + 203
      && m[..|FailurePrefix|] == FailurePrefix && m[|m| - 3..] == "..."
      && m[|FailurePrefix|..|m| - 3] == text[..|m| - 3 - |FailurePrefix|]
      && (|text| <= 200 ==> m[|FailurePrefix|..|m| - 3] == text)
  {
    if Extracted(text, parse).Err? {
      var n := if |text| < 200 then |text| else 200;
      var m := FailurePrefix + text[..n] + "...";
      assert Extracted(text, parse).error.message == m;
      assert m[..|FailurePrefix|] == FailurePrefix;
      assert m[|FailurePrefix|..|m| - 3] == text[..n];
      assert m[|m| - 3..] == "...";
    }
  }

  /** A balanced candidate: it opens with the bracket, ends at depth zero, and every
      proper non-empty prefix is still open (positive depth). */
  predicate Balanced(c: string, k: Bracket) {
    |c| >= 1 && c[0] == k.open && Depth(c, k) == 0 && forall j :: 1 <= j < |c| ==> Depth(c[..j], k) > 0
  }

  /** Between its start and its first balancing point the scan's depth stays positive. */
  lemma {:induction false} DepthPositiveBefore(text: string, s: nat, e: nat, j: nat, k: Bracket)
    requires k.open != k.close
    requires s <= j < e < |text| && text[s] == k.open
    requires forall i :: s <= i < e ==> DepthAfter(text, s, i, k) != 0
    ensures DepthAfter(text, s, j, k) > 0
    decreases j - s
  {
    if j == s {
      DepthSnoc([], text[s], k);
      assert text[s..s + 1] == [] + [text[s]];
    } else {
      DepthPositiveBefore(text, s, e, j - 1, k);
      DepthSnoc(text[s..j], text[j], k);
      assert text[s..j + 1] == text[s..j] + [text[j]];
    }
  }

  /** What the scan of one kind captures: the slice starting at the first opening
      bracket that is balanced, ends with the closing bracket and is never closed
      earlier. */
  lemma CandidateBalanced(text: string, k: Bracket)
    requires k.open != k.close
    requires Candidate(text, k).Some?
    ensures var c := Candidate(text, k).value;
      Balanced(c, k) && |c| >= 2 && c[|c| - 1] == k.close
    ensures IndexOf(text, k.open).Some?
    ensures var c, s := Candidate(text, k).value, IndexOf(text, k.open).value;
      s + |c| <= |text| && text[s..s + |c|] == c
  {
    var s := IndexOf(text, k.open).value;
    var e := FirstBalanced(text, s, s, k).value;
    var c := text[s..e + 1];
    assert c == Candidate(text, k).value;
    forall j | 1 <= j < |c| ensures Depth(c[..j], k) > 0 {
      DepthPositiveBefore(text, s, e, s + j - 1, k);
      assert c[..j] == text[s..s + j];
    }
    assert Depth(c, k) == 0 by { assert DepthAfter(text, s, e, k) == 0; }
    var last := c[|c| - 1];
    DepthSnoc(c[..|c| - 1], last, k);
    assert c == c[..|c| - 1] + [last];
    assert text[s..s + |c|] == c;
  }

  /** Conversely, a balanced slice that starts at the first opening bracket is exactly
      what the scan captures, whatever follows it. */
  lemma CandidateOfEmbedded(pre: string, c: string, post: string, k: Bracket)
    requires forall i :: 0 <= i < |pre| ==> pre[i] != k.open
    requires Balanced(c, k)
    ensures Candidate(pre + c + post, k) == Some(c)
  {
    var text := pre + c + post;
    var s := |pre|;
    assert text[s] == k.open;
    assert IndexOf(text, k.open) == Some(s);
    forall j | s <= j < s + |c| ensures DepthAfter(text, s, j, k) == Depth(c[..j + 1 - s], k) {
      assert text[s..j + 1] == c[..j + 1 - s];
    }
    assert c[..|c|] == c;
    var e := s + |c| - 1;
    assert DepthAfter(text, s, e, k) == 0;
    var r := FirstBalanced(text, s, s, k);
    assert r.Some?;
    assert r.value == e;
    assert text[s..e + 1] == c;
  }

  /** Dropping leading white space does not change what `strip` keeps. */
  lemma {:induction false} StripLeftDrop(s: string, m: nat)
    requires m <= |s| && forall i :: 0 <= i < m ==> IsSpace(s[i])
    ensures StripLeft(s[m..]) == StripLeft(s)
  {
    if m > 0 {
      assert s[1..][m - 1..] == s[m..];
      StripLeftDrop(s[1..], m - 1);
    }
  }

  /** Nor does it change what `strip` keeps. */
  lemma StripDrop(s: string, m: nat)
    requires m <= |s| && forall i :: 0 <= i < m ==> IsSpace(s[i])
    ensures Strip(s[m..]) == Strip(s)
  {
    StripLeftDrop(s, m);
  }

  /** A JSON value embedded in prose: when neither the whole text nor a fence parses,
      the object that starts at the first `{` is returned, even when it sits inside an
      array that starts earlier; the same holds for an array when the text has no `{`. */
  lemma ExtractsEmbeddedValue(pre: string, c: string, post: string, parse: Parser, k: Bracket)
    requires k in Kinds
    requires forall i :: 0 <= i < |pre| ==> pre[i] != k.open
    requires k == Kinds[1] ==> forall i :: 0 <= i < |pre + c + post| ==> (pre + c + post)[i] != Kinds[0].open
    requires Balanced(c, k) && parse(c).Some?
    requires parse(pre + c + post).None?
    requires FenceGroup(pre + c + post).None? || parse(Strip(FenceGroup(pre + c + post).value)).None?
    ensures Extracted(pre + c + post, parse) == Ok(parse(c).value)
  {
    var text := pre + c + post;
    CandidateOfEmbedded(pre, c, post, k);
    if k == Kinds[1] {
      assert IndexOf(text, Kinds[0].open).None?;
      assert ScanKind(text, parse, Kinds[0]).None?;
      assert Kinds[1..][0] == Kinds[1];
      assert Scan(text, parse, Kinds[1..]) == Some(parse(c).value);
    }
  }

  /** The first fence of a text whose earlier characters hold no backtick. */
  lemma FenceFoundAt(text: string, from: nat, q: nat)
    requires from <= q && OccursAt(text, Fence, q)
    requires forall i :: from <= i < q ==> text[i] != '`'
    ensures FindFrom(text, Fence, from) == Some(q)
  {
    forall j: nat | from <= j < q ensures !OccursAt(text, Fence, j) {
      if j + 3 <= |text| {
        assert text[j..j + 3][0] == text[j];
      }
    }
  }

  /** The text of a fenced block: prose, the opening fence, the tag, a newline, the
      body, a newline, the closing fence and more prose. */
  function Block(pre: string, tag: string, body: string, post: string): string {
    pre + Fence + tag + "\n" + body + "\n" + Fence + post
  }

  /** A text holding, from `p`, a fence, the tag, a newline, the body (no backticks), a
      newline and a fence, with no backtick before `p`; `o` is where the tag ends. */
  predicate LaidOut(text: string, p: nat, o: nat, tag: string, body: string) {
    && (tag == "" || tag == "json")
    && o == p + 3 + |tag| && o + |body| + 5 <= |text|
    && OccursAt(text, Fence, p) && text[p + 3..o] == tag && text[o] == '\n'
    && (forall i :: 0 <= i < p ==> text[i] != '`')
    && (forall i {:trigger body[i]} :: 0 <= i < |body| ==> text[o + 1 + i] == body[i] && body[i] != '`')
    && text[o + 1 + |body|] == '\n' && OccursAt(text, Fence, o + |body| + 2)
  }

  /** Where each part of a block sits. */
  lemma BlockLayout(pre: string, tag: string, body: string, post: string)
    requires forall i :: 0 <= i < |pre| ==> pre[i] != '`'
    requires forall i :: 0 <= i < |body| ==> body[i] != '`'
    requires tag == "" || tag == "json"
    ensures LaidOut(Block(pre, tag, body, post), |pre|, |pre| + 3 + |tag|, tag, body)
  {
    var tail := "\n" + body + "\n" + Fence + post;
    var rest := Fence + tag + tail;
    BlockParts(pre, tag, body, post, tail, rest);
    TailLayout(body, post, tail);
    RestLayout(tag, body, tail, rest);
    ShiftLayout(pre, rest, 3 + |tag|, tag, body);
  }

  /** A block is the text before it followed by the fence, the tag and the rest. */
  lemma BlockParts(pre: string, tag: string, body: string, post: string, tail: string, rest: string)
    requires tail == "\n" + body + "\n" + Fence + post && rest == Fence + tag + tail
    ensures Block(pre, tag, body, post) == pre + rest
  {
  }

  /** The part of a block after its tag: a newline, the body, a newline and a fence. */
  lemma TailLayout(body: string, post: string, tail: string)
    requires tail == "\n" + body + "\n" + Fence + post
    ensures |body| + 5 <= |tail| && tail[0] == '\n' && tail[1..1 + |body|] == body
    ensures tail[1 + |body|] == '\n' && OccursAt(tail, Fence, |body| + 2)
  {
    assert tail[1..1 + |body|] == body;
    assert tail[|body| + 2..|body| + 5] == Fence;
  }

  /** A block that starts with its opening fence is laid out from position 0. */
  lemma RestLayout(tag: string, body: string, tail: string, rest: string)
    requires tag == "" || tag == "json"
    requires forall i :: 0 <= i < |body| ==> body[i] != '`'
    requires |body| + 5 <= |tail| && tail[0] == '\n' && tail[1..1 + |body|] == body
    requires tail[1 + |body|] == '\n' && OccursAt(tail, Fence, |body| + 2)
    requires rest == Fence + tag + tail
    ensures LaidOut(rest, 0, 3 + |tag|, tag, body)
  {
    var o := 3 + |tag|;
    assert rest[..3] == Fence;
    assert rest[3..o] == tag;
    assert rest[o..] == tail;
    assert rest[o + |body| + 2..o + |body| + 5] == tail[|body| + 2..|body| + 5];
    forall i | 0 <= i < |body| ensures rest[o + 1 + i] == body[i] {
      assert rest[o + 1 + i] == tail[1 + i] == tail[1..1 + |body|][i];
    }
  }

  /** Text without backticks placed before a laid-out block moves every position by its
      length. */
  lemma ShiftLayout(pre: string, rest: string, o: nat, tag: string, body: string)
    requires forall i :: 0 <= i < |pre| ==> pre[i] != '`'
    requires LaidOut(rest, 0, o, tag, body)
    ensures LaidOut(pre + rest, |pre|, |pre| + o, tag, body)
  {
    var text, p := pre + rest, |pre|;
    assert text[p..p + 3] == rest[..3];
    assert text[p + 3..p + o] == rest[3..o];
    assert text[p + o + |body| + 2..p + o + |body| + 5] == rest[o + |body| + 2..o + |body| + 5];
    forall i | 0 <= i < p ensures text[i] != '`' {
      assert text[i] == pre[i];
    }
    forall i | 0 <= i < |body| ensures text[p + o + 1 + i] == body[i] {
      assert text[p + o + 1 + i] == rest[o + 1 + i];
    }
  }

  /** After an opening fence, an optional `json` tag and then a newline, the white
      space the pattern skips starts at the newline. */
  lemma TagSkipped(text: string, p: nat, tag: string)
    requires tag == "" || tag == "json"
    requires p + 3 + |tag| < |text| && OccursAt(text, Fence, p)
    requires text[p + 3..p + 3 + |tag|] == tag && text[p + 3 + |tag|] == '\n'
    ensures TagEnd(text, p) == p + 3 + |tag|
  {
    if tag == "" {
      assert text[p + 3] == '\n';
    }
  }

  /** From a newline followed by a body without backticks, another newline and a fence:
      the white space the pattern skips ends inside the body (or at the fence when the
      body is blank), the fence closes the block, and the group is what is left of the
      body. */
  lemma ClosingFenceFound(text: string, o: nat, body: string) returns (m: nat)
    requires o + |body| + 5 <= |text| && text[o] == '\n'
    requires forall i {:trigger body[i]} :: 0 <= i < |body| ==> text[o + 1 + i] == body[i] && body[i] != '`'
    requires text[o + 1 + |body|] == '\n' && OccursAt(text, Fence, o + |body| + 2)
    ensures var c, q := SkipSpace(text, o), o + |body| + 2;
      && c <= q && FindFrom(text, Fence, c) == Some(q)
      && m <= |body| && text[c..if q > c && text[q - 1] == '\n' then q - 1 else q] == body[m..]
    ensures forall i :: 0 <= i < m ==> IsSpace(body[i])
    ensures GroupAfter(text, o) == Some(body[m..])
  {
    var q := o + |body| + 2;
    var c := SkipSpace(text, o);
    assert IsSpace(text[o]) && IsSpace(text[q - 1]);
    assert text[q] == '`' by { assert text[q..q + 3][0] == text[q]; }
    assert !IsSpace(text[q]);
    forall i | c <= i < q ensures text[i] != '`' {
      if i < q - 1 {
        assert text[i] == body[i - o - 1];
      }
    }
    FenceFoundAt(text, c, q);
    m := if c == q then |body| else c - (o + 1);
    var g := if q > c && text[q - 1] == '\n' then q - 1 else q;
    forall i | 0 <= i < |body| - m ensures text[c..g][i] == body[m..][i] {
      assert text[c + i] == body[m + i];
    }
    forall i | 0 <= i < m ensures IsSpace(body[i]) {
      assert text[o + 1 + i] == body[i];
    }
  }

  /** The fence strategy on a text laid out as a block (see `BlockLayout`): its group
      is the body less its leading white space. */
  lemma FenceGroupOfLayout(text: string, p: nat, o: nat, tag: string, body: string) returns (m: nat)
    requires LaidOut(text, p, o, tag, body)
    ensures m <= |body| && (forall i :: 0 <= i < m ==> IsSpace(body[i]))
    ensures FenceGroup(text) == Some(body[m..])
  {
    FenceFoundAt(text, 0, p);
    TagSkipped(text, p, tag);
    m := ClosingFenceFound(text, o, body);
  }

  /** A fenced block: text before the fence without backticks, then three backticks, an
      optional `json` tag, a newline, a body without backticks, a newline and the closing
      fence. The stripped body is what the fence strategy parses. */
  lemma FenceGroupOfBlock(pre: string, tag: string, body: string, post: string)
    requires tag == "" || tag == "json"
    requires forall i :: 0 <= i < |pre| ==> pre[i] != '`'
    requires forall i :: 0 <= i < |body| ==> body[i] != '`'
    ensures FenceGroup(Block(pre, tag, body, post)).Some?
    ensures Strip(FenceGroup(Block(pre, tag, body, post)).value) == Strip(body)
  {
    var text := Block(pre, tag, body, post);
    BlockLayout(pre, tag, body, post);
    var m := FenceGroupOfLayout(text, |pre|, |pre| + 3 + |tag|, tag, body);
    StripDrop(body, m);
  }

  /** One pass of the scan: find the first opening bracket, then walk right tracking
      the depth; at the first return to zero, parse that slice and stop either way. */
  method ScanBrackets(text: string, parse: Parser, k: Bracket) returns (r: Option<Json>)
    requires k.open != k.close
    ensures r == ScanKind(text, parse, k)
  {
    var found := IndexOf(text, k.open);
    if found.None? {
      return None;
    }
    var start := found.value;
    var depth := 0;
    var i := start;
    while i < |text|
      invariant start <= i <= |text|
      invariant depth == Depth(text[start..i], k)
      invariant i > start ==> depth > 0
      invariant FirstBalanced(text, start, start, k) == FirstBalanced(text, start, i, k)
    {
      var ch := text[i];
      ScanStep(text, start, i, k);
      if ch == k.open {
        depth := depth + 1;
      } else if ch == k.close {
        depth := depth - 1;
        if depth == 0 {
          return parse(text[start..i + 1]);
        }
      }
      i := i + 1;
    }
    return None;
  }

  /** One step of the scan: reading `text[i]` moves the depth by one, and a return to
      zero is where the scan stops. */
  lemma ScanStep(text: string, start: nat, i: nat, k: Bracket)
    requires k.open != k.close && start <= i < |text| && text[start] == k.open
    requires i > start ==> Depth(text[start..i], k) > 0
    requires FirstBalanced(text, start, start, k) == FirstBalanced(text, start, i, k)
    ensures var d := Depth(text[start..i], k) + (if text[i] == k.open then 1 else if text[i] == k.close then -1 else 0);
      d == Depth(text[start..i + 1], k)
      && (d == 0 ==> FirstBalanced(text, start, start, k) == Some(i))
      && (d != 0 ==> d > 0 && FirstBalanced(text, start, start, k) == FirstBalanced(text, start, i + 1, k))
  {
    DepthSnoc(text[start..i], text[i], k);
    assert text[start..i + 1] == text[start..i] + [text[i]];
    if i == start {
      assert text[start..i] == [];
    }
  }

  /** The scan for each bracket kind in turn; the first kind that yields a value wins. */
  method ScanAll(text: string, parse: Parser) returns (r: Option<Json>)
    ensures r == Scan(text, parse, Kinds)
  {
    for n := 0 to |Kinds|
      invariant Scan(text, parse, Kinds) == Scan(text, parse, Kinds[n..])
    {
      assert Kinds[n..][0] == Kinds[n] && Kinds[n..][1..] == Kinds[n + 1..];
      assert Kinds[n].open != Kinds[n].close by { assert n == 0 || n == 1; }
      var found := ScanBrackets(text, parse, Kinds[n]);
      if found.Some? {
        return found;
      }
    }
    assert Kinds[|Kinds|..] == [];
    return None;
  }

  /** The extractor as the backends run it: direct parse, the fence, then the scan for
      each bracket kind in order. */
  method ExtractJsonFromResponse(text: string, parse: Parser) returns (r: Result<Json, Exception>)
    ensures r == Extracted(text, parse)
  {
    var whole := parse(text);
    if whole.Some? {
      return Ok(whole.value);
    }
    var fenced := FenceGroup(text);
    if fenced.Some? {
      var inner := parse(Strip(fenced.value));
      if inner.Some? {
        return Ok(inner.value);
      }
    }
    var scanned := ScanAll(text, parse);
    if scanned.Some? {
      return Ok(scanned.value);
    }
    return Err(ValueError(FailureMessage(text)));
  }
}
