/**
 Reading a stored tool result page by page without cutting a character: bytes are
 UTF-8 as section 3 of RFC 3629 defines it.
 */
module Paging {
  import opened Base

  const DEFAULT_LIMIT: nat := 6000
  const MAX_LIMIT: nat := 8000

  // ----- UTF-8 -----------------------------------------------------------------------------------------

  predicate Tail(b: Byte) { 0x80 <= b <= 0xbf }

  /** utf8.RuneStart. */
  predicate RuneStart(b: Byte) { !Tail(b) }

  /** The length of the well-formed character at the head, or 0. */
  function Character(b: Bytes): (n: nat)
    ensures n <= |b| && n <= 4
  {
    if b == [] then 0
    else if b[0] < 0x80 then 1
    else if |b| >= 2 && 0xc2 <= b[0] <= 0xdf && Tail(b[1]) then 2
    else if |b| >= 3 && Tail(b[1]) && Tail(b[2])
        && (if b[0] == 0xe0 then b[1] >= 0xa0 else if b[0] == 0xed then b[1] <= 0x9f else 0xe1 <= b[0] <= 0xef) then 3
    else if |b| >= 4 && Tail(b[1]) && Tail(b[2]) && Tail(b[3])
            && (if b[0] == 0xf0 then b[1] >= 0x90 else
                if b[0] == 0xf4 then b[1] <= 0x8f else 0xf1 <= b[0] <= 0xf3) then 4
    else 0
  }

  predicate Valid(b: Bytes) {
    b == [] || (Character(b) > 0 && Valid(b[Character(b)..]))
  }

  lemma CharacterShape(b: Bytes)
    requires Character(b) > 0
    ensures RuneStart(b[0]) && forall k :: 1 <= k < Character(b) ==> Tail(b[k])
  {
  }

  /** One of the last four bytes up to `i` starts a character. */
  predicate StartNearby(b: Bytes, i: nat)
    requires i < |b|
  {
    RuneStart(b[i]) || (i >= 1 && RuneStart(b[i - 1])) || (i >= 2 && RuneStart(b[i - 2]))
        || (i >= 3 && RuneStart(b[i - 3]))
  }

  ghost predicate Spaced(b: Bytes) {
    (b != [] ==> RuneStart(b[0])) && forall i :: 0 <= i < |b| ==> StartNearby(b, i)
  }

  /** In valid text no more than three tails follow one another, and none comes first. */
  lemma {:induction false} ValidIsSpaced(b: Bytes)
    requires Valid(b)
    ensures Spaced(b)
    decreases |b|
  {
    if b != [] {
      var n := Character(b);
      CharacterShape(b);
      ValidIsSpaced(b[n..]);
      SpacedAppend(b, n);
    }
  }

  lemma SpacedAppend(b: Bytes, n: nat)
    requires 1 <= n <= 4 && n <= |b| && RuneStart(b[0]) && Spaced(b[n..])
    ensures Spaced(b)
  {
    forall i | 0 <= i < |b| ensures StartNearby(b, i) {
      if i >= n { assert StartNearby(b[n..], i - n); }
    }
  }

  /** Valid text cut at a character start leaves valid text on both sides. */
  lemma {:induction false} CutIsValid(b: Bytes, i: nat)
    requires Valid(b) && i <= |b| && (i < |b| ==> RuneStart(b[i]))
    ensures Valid(b[..i]) && Valid(b[i..])
    decreases |b|
  {
    if i == 0 {
      assert b[i..] == b;
    } else {
      var n := Character(b);
      CharacterShape(b);
      assert i >= n;
      CutIsValid(b[n..], i - n);
      assert b[n..][i - n..] == b[i..];
      CharacterPrefix(b, i);
      var front := b[..i];
      assert front[n..] == b[n..][..i - n];
      assert Character(front) == n && front != [];
    }
  }

  lemma CharacterPrefix(b: Bytes, i: nat)
    requires Character(b) > 0 && Character(b) <= i <= |b|
    ensures Character(b[..i]) == Character(b)
  {
  }

  // ----- one page -----------------------------------------------------------------------------------------

  /** Where an excerpt of at most `limit` bytes ends. */
  ghost predicate CutAt(value: Bytes, limit: nat, cut: nat) {
    if |value| <= limit then cut == |value|
    else && cut <= limit && (cut == 0 || RuneStart(value[cut]))
         && forall k :: cut < k <= limit ==> Tail(value[k])
  }

  /** operatorExcerpt. */
  method Excerpt(value: Bytes, limit: nat) returns (page: Bytes)
    ensures exists cut :: 0 <= cut <= |value| && CutAt(value, limit, cut) && page == value[..cut]
  {
    if |value| <= limit {
      page := value;
      assert value[..|value|] == value && CutAt(value, limit, |value|);
      return;
    }
    var cut := limit;
    while cut > 0 && !RuneStart(value[cut])
      invariant 0 <= cut <= limit && forall k :: cut < k <= limit ==> Tail(value[k])
    {
      cut := cut - 1;
    }
    assert CutAt(value, limit, cut);
    page := value[..cut];
  }

  datatype Page = Page(content: Bytes, offset: nat, next: nat, complete: bool)

  /** canter_read_result on a stored result. */
  method ReadPage(result: Bytes, offset: int, limit: int) returns (page: Option<Page>)
    ensures page.None? <==> offset < 0 || offset > |result| || limit < 0 || limit > MAX_LIMIT
    ensures page.Some? ==> PageOf(result, offset, if limit == 0 then DEFAULT_LIMIT else limit, page.value)
  {
    if offset < 0 || limit < 0 || limit > MAX_LIMIT || offset > |result| { return None; }
    var size := if limit == 0 then DEFAULT_LIMIT else limit;
    var start := offset;
    while start < |result| && !RuneStart(result[start])
      invariant offset <= start <= |result| && forall k :: offset <= k < start ==> Tail(result[k])
    {
      start := start + 1;
    }
    var content := Excerpt(result[start..], size);
    var next := start + |content|;
    page := Some(Page(content, start, next, next == |result|));
  }

  /** The page begins at the first character start from `offset` on, and is the text up to its next offset. */
  ghost predicate PageOf(result: Bytes, offset: nat, limit: nat, p: Page) {
    && offset <= p.offset <= p.next <= |result|
    && (forall k :: offset <= k < p.offset ==> Tail(result[k])) && (p.offset < |result| ==> RuneStart(result[p.offset]))
    && p.content == result[p.offset..p.next] && CutAt(result[p.offset..], limit, p.next - p.offset)
    && (p.complete <==> p.next == |result|)
  }

  /** In valid text a page of at least four bytes makes progress and ends between characters. */
  lemma PageAdvances(result: Bytes, offset: nat, limit: nat, p: Page)
    requires Spaced(result) && limit >= 4 && PageOf(result, offset, limit, p)
    requires offset < |result| && RuneStart(result[offset])
    ensures p.offset == offset < p.next && |p.content| <= limit
    ensures p.next < |result| ==> RuneStart(result[p.next])
  {
    assert p.offset == offset;
    var rest, cut := result[offset..], p.next - offset;
    if |rest| > limit {
      assert StartNearby(result, offset + limit);
      assert forall k :: cut < k <= limit ==> Tail(rest[k]) && rest[k] == result[offset + k];
    }
  }

  /** So each page of valid text is itself valid text. */
  lemma PageIsValid(result: Bytes, offset: nat, limit: nat, p: Page)
    requires Valid(result) && limit >= 4 && PageOf(result, offset, limit, p)
    requires offset < |result| && RuneStart(result[offset])
    ensures Valid(p.content)
  {
    ValidIsSpaced(result);
    PageAdvances(result, offset, limit, p);
    CutIsValid(result, p.next);
    CutIsValid(result[..p.next], offset);
    assert result[..p.next][offset..] == p.content;
  }

  /** Following nextOffset from the start until a page is complete ends, and yields the stored bytes. */
  method ReadAll(result: Bytes, limit: nat) returns (text: Bytes, pages: nat)
    requires Valid(result) && (limit == 0 || 4 <= limit <= MAX_LIMIT)
    ensures text == result
    ensures pages <= |result| + 1
  {
    text, pages := [], 0;
    var offset := 0;
    var complete := false;
    ValidIsSpaced(result);
    while !complete
      invariant 0 <= offset <= |result| && text == result[..offset] && (complete ==> offset == |result|)
      invariant offset < |result| ==> RuneStart(result[offset])
      invariant pages <= offset + (if complete then 1 else 0)
      invariant !complete ==> offset < |result| || result == []
      decreases !complete, |result| - offset
    {
      var page := ReadPage(result, offset, limit);
      var p := page.value;
      if offset < |result| { PageAdvances(result, offset, if limit == 0 then DEFAULT_LIMIT else limit, p); }
      assert result[..offset] + result[p.offset..p.next] == result[..p.next];
      text, offset, complete, pages := text + p.content, p.next, p.complete, pages + 1;
    }
    assert result[..offset] == result;
  }

  /** For any limit, exactly: a page makes progress if and only if the next character fits in it. */
  lemma ProgressIff(result: Bytes, offset: nat, limit: nat, p: Page)
    requires PageOf(result, offset, limit, p) && offset < |result| && Valid(result[offset..])
    ensures p.next > offset <==> Character(result[offset..]) <= limit
  {
    var rest := result[offset..];
    var n := Character(rest);
    CharacterShape(rest);
    assert p.offset == offset by { assert rest[0] == result[offset]; }
    if n < |rest| {
      CharacterShape(rest[n..]);
      assert RuneStart(rest[n]);
    }
    assert n > limit && |rest| > limit ==> forall k :: 1 <= k <= limit ==> Tail(rest[k]);
  }

  /** Four bytes are needed: with a limit of three, a four-byte character is never passed. */
  lemma ThreeBytesStall(p: Page)
    requires PageOf([0xf0, 0x9f, 0x98, 0x80], 0, 3, p)
    ensures Valid([0xf0, 0x9f, 0x98, 0x80]) && p.next == 0 && !p.complete
  {
    var b: Bytes := [0xf0, 0x9f, 0x98, 0x80];
    assert Character(b) == 4 && b[4..] == [];
    assert RuneStart(b[0]) && Tail(b[1]) && Tail(b[2]) && Tail(b[3]);
    assert b[0..] == b;
  }
}
