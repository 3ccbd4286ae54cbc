/** Node identifiers of the execution graph and how they are rendered and ordered. */
module GraphIds {

  datatype Id =
    | Namespace
    | HostId(host: nat)
    | FirecrackerRuntime(host: nat)
    | ProcessRuntime(host: nat)
    | MicroVm(name: string, instance: nat)
    | ProcessInstance(name: string, instance: nat)
    | ServiceNode(name: string, instance: nat)

  // ----- decimal rendering -------------------------------------------------------------------

  function Digit(n: nat): char
    requires n < 10
  {
    '0' + n as char
  }

  function Decimal(n: nat): string {
    if n < 10 then [Digit(n)] else Decimal(n / 10) + [Digit(n % 10)]
  }

  lemma {:induction false} DecimalDigits(n: nat)
    ensures |Decimal(n)| >= 1 && forall i :: 0 <= i < |Decimal(n)| ==> '0' <= Decimal(n)[i] <= '9'
  {
    if n >= 10 { DecimalDigits(n / 10); }
  }

  /** The number that a string of digits stands for. */
  function Value(digits: string): int {
    if digits == "" then 0 else Value(digits[..|digits| - 1]) * 10 + (digits[|digits| - 1] as int - '0' as int)
  }

  /** Reading a rendered number gives it back. */
  lemma {:induction false} ValueDecimal(n: nat)
    ensures Value(Decimal(n)) == n
  {
    if n < 10 {
      assert Decimal(n)[..0] == "";
    } else {
      ValueDecimal(n / 10);
      assert Decimal(n)[..|Decimal(n)| - 1] == Decimal(n / 10);
    }
  }

  lemma {:induction false} DecimalInjective(a: nat, b: nat)
    requires Decimal(a) == Decimal(b)
    ensures a == b
    decreases a
  {
    DecimalDigits(a / 10);
    DecimalDigits(b / 10);
    var s := Decimal(a);
    assert |Decimal(a)| >= 2 <==> a >= 10;
    assert |Decimal(b)| >= 2 <==> b >= 10;
    if a >= 10 && b >= 10 {
      assert s[|s| - 1] == Digit(a % 10) == Digit(b % 10);
      assert s[..|s| - 1] == Decimal(a / 10) == Decimal(b / 10);
      DecimalInjective(a / 10, b / 10);
    }
  }

  function Numbered(name: string, n: nat): string {
    name + "-" + Decimal(n)
  }

  /** The last dash separates name and number, even when the name has dashes and digits of its own. */
  lemma NumberedInjective(a: string, m: nat, b: string, n: nat)
    requires Numbered(a, m) == Numbered(b, n)
    ensures a == b && m == n
  {
    DecimalDigits(m);
    DecimalDigits(n);
    SameLength(a, Decimal(m), b, Decimal(n));
    SameLength(b, Decimal(n), a, Decimal(m));
    var s := Numbered(a, m);
    assert s[..|a|] == a && s[..|b|] == b;
    assert s[|a| + 1..] == Decimal(m) && s[|b| + 1..] == Decimal(n);
    DecimalInjective(m, n);
  }

  lemma SameLength(a: string, x: string, b: string, y: string)
    requires a + "-" + x == b + "-" + y
    requires forall i :: 0 <= i < |y| ==> '0' <= y[i] <= '9'
    ensures |a| <= |b|
  {
    var s := a + "-" + x;
    assert s[|a|] == '-';
    assert forall k :: |b| < k < |s| ==> s[k] == y[k - |b| - 1];
  }

  // ----- rendered identifiers -----------------------------------------------------------------

  function Stem(id: Id): string {
    match id
    case Namespace => "m1/system"
    case HostId(_) => "compute/host-"
    case FirecrackerRuntime(_) => "runtime/firecracker-host-"
    case ProcessRuntime(_) => "runtime/process-host-"
    case MicroVm(_, _) => "microvm/"
    case ProcessInstance(_, _) => "process/"
    case ServiceNode(_, _) => "service/"
  }

  function Tail(id: Id): string {
    match id
    case Namespace => ""
    case HostId(i) => Decimal(i)
    case FirecrackerRuntime(i) => Decimal(i)
    case ProcessRuntime(i) => Decimal(i)
    case MicroVm(name, n) => Numbered(name, n)
    case ProcessInstance(name, n) => Numbered(name, n)
    case ServiceNode(name, n) => Numbered(name, n)
  }

  function Render(id: Id): string {
    Stem(id) + Tail(id)
  }

  lemma StemOf(id: Id)
    ensures |Stem(id)| >= 8 && Render(id)[..|Stem(id)|] == Stem(id) && Render(id)[|Stem(id)|..] == Tail(id)
    ensures Render(id)[0] == Stem(id)[0] && Render(id)[1] == Stem(id)[1]
    ensures |Stem(id)| > 8 ==> Render(id)[8] == Stem(id)[8]
  {
  }

  lemma SameKind(a: Id, b: Id)
    requires Render(a) == Render(b)
    ensures Stem(a) == Stem(b) && Tail(a) == Tail(b)
  {
    StemOf(a);
    StemOf(b);
    var x, y := Stem(a), Stem(b);
    assert x[0] == y[0] && x[1] == y[1];
    assert |x| > 8 && |y| > 8 ==> x[8] == y[8];
  }

  /** Two identifiers that render alike are the same identifier. */
  lemma RenderInjective(a: Id, b: Id)
    requires Render(a) == Render(b)
    ensures a == b
  {
    SameKind(a, b);
    match a
    case Namespace => assert Stem(b)[1] == '1';
    case HostId(i) => assert Stem(b)[0] == 'c'; DecimalInjective(i, b.host);
    case FirecrackerRuntime(i) => assert Stem(b)[8] == 'f'; DecimalInjective(i, b.host);
    case ProcessRuntime(i) => assert Stem(b)[8] == 'p'; DecimalInjective(i, b.host);
    case MicroVm(name, n) => assert Stem(b)[1] == 'i'; NumberedInjective(name, n, b.name, b.instance);
    case ProcessInstance(name, n) => assert Stem(b)[0] == 'p'; NumberedInjective(name, n, b.name, b.instance);
    case ServiceNode(name, n) => assert Stem(b)[0] == 's'; NumberedInjective(name, n, b.name, b.instance);
  }

  // ----- the order of rendered identifiers -------------------------------------------------------

  /** Strict lexicographic order of strings. */
  predicate Before(a: string, b: string) {
    |b| > 0 && (|a| == 0 || a[0] < b[0] || (a[0] == b[0] && Before(a[1..], b[1..])))
  }

  lemma {:induction false} BeforeTotal(a: string, b: string)
    ensures Before(a, b) || a == b || Before(b, a)
  {
    if |a| > 0 && |b| > 0 && a[0] == b[0] {
      BeforeTotal(a[1..], b[1..]);
      if a[1..] == b[1..] { assert a == [a[0]] + a[1..] == b; }
    }
  }

  lemma {:induction false} BeforeTransitive(a: string, b: string, c: string)
    requires Before(a, b) && Before(b, c)
    ensures Before(a, c)
  {
    if |a| > 0 && a[0] == b[0] == c[0] { BeforeTransitive(a[1..], b[1..], c[1..]); }
  }

  lemma {:induction false} Irreflexive(a: string)
    ensures !Before(a, a)
  {
    if a != [] { Irreflexive(a[1..]); }
  }

  /** `a` comes before `b` in a dictionary: it is a proper beginning of it, or smaller where they first differ. */
  ghost predicate Smaller(a: string, b: string) {
    exists k: nat :: FirstDifference(a, b, k)
  }

  predicate FirstDifference(a: string, b: string, k: nat) {
    k <= |a| && k < |b| && a[..k] == b[..k] && (k < |a| ==> a[k] < b[k])
  }

  lemma {:induction false} BeforeIs(a: string, b: string)
    ensures Before(a, b) <==> Smaller(a, b)
  {
    if |a| == 0 || |b| == 0 || a[0] != b[0] {
      if |b| > 0 && (|a| == 0 || a[0] < b[0]) { assert FirstDifference(a, b, 0); }
      forall k: nat | k > 0 && k <= |a| && k <= |b| && a[0] != b[0] ensures a[..k] != b[..k] {
        assert a[..k][0] == a[0] && b[..k][0] == b[0];
      }
    } else {
      BeforeIs(a[1..], b[1..]);
      if k: nat :| FirstDifference(a[1..], b[1..], k) {
        assert a[..k + 1] == [a[0]] + a[1..][..k] && b[..k + 1] == [b[0]] + b[1..][..k];
        assert FirstDifference(a, b, k + 1);
      }
      if k: nat :| FirstDifference(a, b, k) {
        assert a[1..][..k - 1] == a[..k][1..] && b[1..][..k - 1] == b[..k][1..];
        assert FirstDifference(a[1..], b[1..], k - 1);
      }
    }
  }
}
