/** Slash-separated paths: splitting, joining, lexical cleaning, and what a canonical path is. */
module Paths {

  predicate Plain(s: string) {
    forall i :: 0 <= i < |s| ==> s[i] != '/'
  }

  /** One more character at the head of the first segment. */
  function Glue(c: char, segments: seq<string>): (r: seq<string>)
    requires |segments| >= 1
    ensures |r| == |segments|
  {
    [[c] + segments[0]] + segments[1..]
  }

  lemma GlueAppend(c: char, a: seq<string>, b: seq<string>)
    requires |a| >= 1
    ensures Glue(c, a + b) == Glue(c, a) + b
  {
    assert (a + b)[1..] == a[1..] + b;
  }

  /** The segments between slashes; the empty string has one empty segment. */
  function Split(s: string): (r: seq<string>)
    ensures |r| >= 1
  {
    if s == "" then [""]
    else
      var rest := Split(s[1..]);
      if s[0] == '/' then [""] + rest else Glue(s[0], rest)
  }

  function Join(segments: seq<string>): string {
    if segments == [] then ""
    else if |segments| == 1 then segments[0]
    else segments[0] + "/" + Join(segments[1..])
  }

  lemma {:induction false} SplitPlain(s: string)
    ensures forall i :: 0 <= i < |Split(s)| ==> Plain(Split(s)[i])
  {
    if s != "" { SplitPlain(s[1..]); }
  }

  lemma {:induction false} JoinSplit(s: string)
    ensures Join(Split(s)) == s
  {
    if s != "" {
      var rest := Split(s[1..]);
      JoinSplit(s[1..]);
      if s[0] == '/' {
        assert ([""] + rest)[1..] == rest;
        assert s == "/" + s[1..];
      } else {
        if |rest| > 1 { assert Glue(s[0], rest)[1..] == rest[1..]; }
        assert s == [s[0]] + s[1..];
      }
    }
  }

  /** A slash always separates. */
  lemma {:induction false} SplitAppend(x: string, y: string)
    ensures Split(x + "/" + y) == Split(x) + Split(y)
  {
    var s := x + "/" + y;
    if x == "" {
      assert s[1..] == y;
    } else {
      SplitAppend(x[1..], y);
      var a, b := Split(x[1..]), Split(y);
      assert s[1..] == x[1..] + "/" + y && s[0] == x[0];
      assert Split(s[1..]) == a + b;
      if x[0] == '/' {
        assert [""] + (a + b) == [""] + a + b;
      } else {
        GlueAppend(x[0], a, b);
      }
    }
  }

  lemma {:induction false} SplitOnePlain(s: string)
    requires Plain(s)
    ensures Split(s) == [s]
  {
    if s != "" {
      SplitOnePlain(s[1..]);
      assert s == [s[0]] + s[1..];
    }
  }

  ghost predicate AllPlain(segments: seq<string>) {
    forall i :: 0 <= i < |segments| ==> Plain(segments[i])
  }

  lemma {:induction false} SplitJoin(segments: seq<string>)
    requires segments != [] && AllPlain(segments)
    ensures Split(Join(segments)) == segments
  {
    SplitOnePlain(segments[0]);
    if |segments| > 1 {
      SplitJoin(segments[1..]);
      SplitAppend(segments[0], Join(segments[1..]));
      assert segments == [segments[0]] + segments[1..];
    }
  }

  lemma {:induction false} JoinAppend(a: seq<string>, b: seq<string>)
    requires a != [] && b != []
    ensures Join(a + b) == Join(a) + "/" + Join(b)
  {
    if |a| == 1 {
      assert (a + b)[1..] == b;
    } else {
      JoinAppend(a[1..], b);
      assert (a + b)[1..] == a[1..] + b;
    }
  }

  // ----- lexical cleaning --------------------------------------------------------------------------

  /** path.Clean's treatment of one segment of a relative path. */
  function Push(stack: seq<string>, segment: string): seq<string> {
    if segment == "" || segment == "." then stack
    else if segment == ".." && stack != [] && stack[|stack| - 1] != ".." then stack[..|stack| - 1]
    else stack + [segment]
  }

  function Fold(stack: seq<string>, segments: seq<string>): seq<string>
    decreases |segments|
  {
    if segments == [] then stack else Fold(Push(stack, segments[0]), segments[1..])
  }

  /** path.Clean of a path that is not rooted. */
  function Clean(s: string): string {
    var stack := Fold([], Split(s));
    if stack == [] then "." else Join(stack)
  }

  /** A segment that names an entry of its directory. */
  predicate Proper(segment: string) {
    segment != "" && segment != "." && segment != ".." && Plain(segment)
  }

  predicate ProperPath(p: seq<string>) {
    p != [] && forall i :: 0 <= i < |p| ==> Proper(p[i])
  }

  /** What a stack of Clean can look like: dot-dots first, then proper segments. */
  ghost predicate Stacked(stack: seq<string>) {
    && (forall i :: 0 <= i < |stack| ==> stack[i] == ".." || Proper(stack[i]))
    && (forall i, j :: 0 <= i < j < |stack| && stack[j] == ".." ==> stack[i] == "..")
  }

  lemma {:induction false} FoldStacked(stack: seq<string>, segments: seq<string>)
    requires Stacked(stack) && AllPlain(segments)
    ensures Stacked(Fold(stack, segments))
    decreases |segments|
  {
    if segments != [] { FoldStacked(Push(stack, segments[0]), segments[1..]); }
  }

  lemma {:induction false} FoldProper(stack: seq<string>, segments: seq<string>)
    requires forall i :: 0 <= i < |segments| ==> Proper(segments[i])
    ensures Fold(stack, segments) == stack + segments
    decreases |segments|
  {
    if segments != [] {
      FoldProper(stack + [segments[0]], segments[1..]);
      assert stack + segments == stack + [segments[0]] + segments[1..];
    } else {
      assert stack + segments == stack;
    }
  }

  lemma {:induction false} FoldTrailing(stack: seq<string>, segments: seq<string>)
    ensures Fold(stack, segments + [""]) == Fold(stack, segments)
    decreases |segments|
  {
    if segments == [] {
      assert segments + [""] == [""];
      assert Fold(stack, [""]) == Fold(stack, []);
    } else {
      assert (segments + [""])[1..] == segments[1..] + [""];
      FoldTrailing(Push(stack, segments[0]), segments[1..]);
    }
  }

  // ----- the path test of both archive readers --------------------------------------------------------

  function TrimSlash(name: string): string {
    if name != "" && name[|name| - 1] == '/' then name[..|name| - 1] else name
  }

  /** The name an entry is known under: a directory may carry one trailing slash. */
  function Canonical(name: string, directory: bool): string {
    if directory then TrimSlash(name) else name
  }

  /** The test as written: cleaning changes nothing, and the result is neither rooted nor upward. */
  predicate SafeName(name: string, directory: bool) {
    var clean := Clean(name);
    && name != "" && name[0] != '/'
    && clean == Canonical(name, directory) && clean != "." && clean != ".." && !(|clean| >= 3 && clean[..3] == "../")
  }

  lemma CleanOfProper(name: string, directory: bool)
    requires ProperPath(Split(Canonical(name, directory)))
    ensures Clean(name) == Canonical(name, directory)
  {
    var c := Canonical(name, directory);
    FoldProper([], Split(c));
    JoinSplit(c);
    assert [] + Split(c) == Split(c);
    if c != name {
      assert name == c + "/" + "";
      SplitAppend(c, "");
      FoldTrailing([], Split(c));
    }
  }

  lemma CleanHead(stack: seq<string>)
    requires Stacked(stack) && stack != [] && stack[0] == ".."
    ensures Join(stack) == ".." || (|Join(stack)| >= 3 && Join(stack)[..3] == "../")
  {
    if |stack| > 1 { assert Join(stack)[..3] == (".." + "/" + Join(stack[1..]))[..3]; }
  }

  /** The test accepts exactly the names all of whose segments are proper: no empty, dot or dot-dot segment. */
  lemma SafeNameIsProper(name: string, directory: bool)
    ensures SafeName(name, directory) <==> ProperPath(Split(Canonical(name, directory)))
  {
    var c := Canonical(name, directory);
    SplitPlain(name);
    var stack := Fold([], Split(name));
    FoldStacked([], Split(name));
    if SafeName(name, directory) {
      if stack[0] == ".." { CleanHead(stack); }
      SplitJoin(stack);
    }
    if ProperPath(Split(c)) {
      CleanOfProper(name, directory);
      JoinSplit(c);
      assert Proper(Split(c)[0]);
      ProperNotUpward(c);
    }
  }

  lemma ProperNotUpward(c: string)
    requires Split(c)[0] != "" && Split(c)[0] != "." && Split(c)[0] != ".."
    ensures c != "" && c[0] != '/' && c != "." && c != ".." && !(|c| >= 3 && c[..3] == "../")
  {
    DottedHead(c);
    ClimbingHead(c);
  }

  lemma ClimbingHead(c: string)
    ensures |c| >= 3 && c[..3] == "../" ==> Split(c)[0] == ".."
  {
    if |c| >= 3 && c[..3] == "../" { UpwardHead(c); }
  }

  lemma DottedHead(c: string)
    ensures c == "" || c[0] == '/' ==> Split(c)[0] == ""
    ensures c == "." || c == ".." ==> Split(c)[0] == c
  {
    if c == "." || c == ".." { SplitOnePlain(c); }
  }

  lemma UpwardHead(c: string)
    requires |c| >= 3 && c[..3] == "../"
    ensures Split(c)[0] == ".."
  {
    var rest := c[3..];
    assert c == ".." + "/" + rest;
    SplitAppend("..", rest);
    SplitOnePlain("..");
  }

  /** The string test for a child path is the ancestor relation on segments. */
  lemma PrefixIsAncestor(a: seq<string>, b: seq<string>)
    requires ProperPath(a) && ProperPath(b)
    ensures Join(a) + "/" <= Join(b) <==> a < b
  {
    if a < b {
      JoinAppend(a, b[|a|..]);
      assert a + b[|a|..] == b;
    }
    if Join(a) + "/" <= Join(b) {
      var t := Join(b)[|Join(a)| + 1..];
      assert Join(b) == Join(a) + "/" + t;
      SplitAppend(Join(a), t);
      SplitJoin(a);
      SplitJoin(b);
    }
  }
}
