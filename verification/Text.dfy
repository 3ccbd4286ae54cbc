/** Blank and visible text, as strings.TrimSpace sees it, and the size of text in UTF-8. */
module Text {

  /** The characters with the Unicode White_Space property. */
  predicate Space(c: char) {
    || c == ' ' || '\t' <= c <= '\r' || c == '\U{0085}' || c == '\U{00A0}' || c == '\U{1680}'
    || '\U{2000}' <= c <= '\U{200A}' || c == '\U{2028}' || c == '\U{2029}' || c == '\U{202F}' || c == '\U{205F}'
        || c == '\U{3000}'
  }

  function TrimLeft(s: string): string {
    if s != "" && Space(s[0]) then TrimLeft(s[1..]) else s
  }

  function TrimRight(s: string): string {
    if s != "" && Space(s[|s| - 1]) then TrimRight(s[..|s| - 1]) else s
  }

  function Trim(s: string): string {
    TrimRight(TrimLeft(s))
  }

  /** Text that begins and ends with something visible. */
  predicate Tight(s: string) {
    s != "" && !Space(s[0]) && !Space(s[|s| - 1])
  }

  predicate Without(c: char, s: string) {
    forall i :: 0 <= i < |s| ==> s[i] != c
  }

  ghost predicate Spaces(s: string, from: nat, to: nat)
    requires from <= to <= |s|
  {
    forall j :: from <= j < to ==> Space(s[j])
  }

  lemma {:induction false} TrimLeftSplit(s: string) returns (k: nat)
    ensures k <= |s| && TrimLeft(s) == s[k..] && Spaces(s, 0, k)
  {
    if s != "" && Space(s[0]) {
      k := TrimLeftSplit(s[1..]);
      assert forall j :: 1 <= j < k + 1 ==> s[j] == s[1..][j - 1];
      k := k + 1;
    } else {
      k := 0;
    }
  }

  lemma {:induction false} TrimRightSplit(s: string) returns (k: nat)
    ensures k <= |s| && TrimRight(s) == s[..k] && Spaces(s, k, |s|)
  {
    if s != "" && Space(s[|s| - 1]) {
      var f := s[..|s| - 1];
      k := TrimRightSplit(f);
      assert forall j :: k <= j < |f| ==> s[j] == f[j];
    } else {
      k := |s|;
    }
  }

  lemma {:induction false} TrimLeftSkips(s: string, k: nat)
    requires k <= |s| && Spaces(s, 0, k)
    ensures TrimLeft(s) == TrimLeft(s[k..])
  {
    if k == 0 {
      assert s[0..] == s;
    } else {
      assert forall j :: 0 <= j < k - 1 ==> s[1..][j] == s[j + 1];
      TrimLeftSkips(s[1..], k - 1);
      assert s[1..][k - 1..] == s[k..];
    }
  }

  lemma TrimSplit(m: string) returns (a: nat, b: nat)
    ensures a <= b <= |m| && Trim(m) == m[a..b] && Spaces(m, 0, a) && Spaces(m, b, |m|)
  {
    a := TrimLeftSplit(m);
    var l := m[a..];
    b := TrimRightSplit(l);
    assert l[..b] == m[a..a + b];
    assert forall j :: a + b <= j < |m| ==> m[j] == l[j - a];
    b := a + b;
  }

  /** Nothing is left of a text exactly if all of it is blank. */
  lemma TrimEmpty(s: string)
    ensures Trim(s) == "" <==> Spaces(s, 0, |s|)
  {
    var a, b := TrimSplit(s);
    if Trim(s) != "" {
      TrimVisible(s);
      assert Trim(s)[0] == s[a];
    }
  }

  lemma {:induction false} TrimLeftVisible(s: string)
    ensures TrimLeft(s) == "" || !Space(TrimLeft(s)[0])
  {
    if s != "" && Space(s[0]) { TrimLeftVisible(s[1..]); }
  }

  lemma {:induction false} TrimRightHead(s: string)
    ensures TrimRight(s) == "" || (s != "" && TrimRight(s)[0] == s[0])
  {
    if s != "" && Space(s[|s| - 1]) { TrimRightHead(s[..|s| - 1]); }
  }

  lemma TrimVisible(s: string)
    ensures Trim(s) == "" || !Space(Trim(s)[0])
  {
    TrimLeftVisible(s);
    TrimRightHead(TrimLeft(s));
  }

  // ----- size in bytes ------------------------------------------------------------------------

  /** The bytes of one character in UTF-8. */
  function Width(c: char): nat {
    if c < '\U{0080}' then 1 else if c < '\U{0800}' then 2 else if c < '\U{10000}' then 3 else 4
  }

  function Size(s: string): nat {
    if s == "" then 0 else Width(s[0]) + Size(s[1..])
  }

  lemma {:induction false} SizeAppend(a: string, b: string)
    ensures Size(a + b) == Size(a) + Size(b)
  {
    if a == "" {
      assert a + b == b;
    } else {
      SizeAppend(a[1..], b);
      assert (a + b)[1..] == a[1..] + b;
    }
  }

  lemma SizeOne(c: char)
    ensures Size([c]) == Width(c)
  {
    assert [c][1..] == "";
  }
}
