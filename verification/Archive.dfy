/**
 The two readers of an application archive: the control plane that accepts an
 upload and the node that extracts it. A header carries what both of them look at.
 */
module Archive {
  import opened Base
  import opened Text
  import opened Paths

  datatype Kind = Directory | Regular | Other

  datatype Header = Header(name: string, kind: Kind, metadata: nat, pax: nat, xattrs: nat, mode: int, size: int)

  /**
   An archive: its compressed size, its entries, how many bytes of member data and how many
   bytes in all the expanded stream delivers, whether that stream ends soundly and in zeroes,
   and how many compressed bytes follow it.
   */
  datatype Bundle = Bundle(compressed: nat, headers: seq<Header>, data: nat, expanded: nat, sound: bool, trailing: nat)

  datatype Limits = Limits(entries: nat, path: nat, metadata: nat, expanded: nat)

  datatype File = File(path: string, mode: int, size: int)

  const CONTROL_PLANE: Limits := Limits(4096, 512, 16 * 1024, 512 * 1024 * 1024)
  const NODE: Limits := Limits(4096, 512, 16 * 1024, 512 * 1024 * 1024)

  /** The largest upload, which only the control plane tests. */
  const MAX_UPLOAD: nat := 64 * 1024 * 1024

  const MAX_SIZE: int := 0x7fff_ffff_ffff_ffff

  // ----- what an acceptable list of headers is ---------------------------------------------------------

  function NameOf(h: Header): string {
    Canonical(h.name, h.kind == Directory)
  }

  function PathOf(h: Header): seq<string> {
    Split(NameOf(h))
  }

  predicate HeaderOk(h: Header, limits: Limits) {
    && h.name != "" && Size(h.name) <= limits.path && '\\' !in h.name && ProperPath(PathOf(h))
    && h.pax <= 32 && h.xattrs <= 32 && h.metadata <= limits.metadata && 0 <= h.mode <= 0x1ff
    && 0 <= h.size <= MAX_SIZE && h.kind != Other && (h.kind == Directory ==> h.size == 0)
  }

  /** Neither is the other, and neither lies below the other's regular file. */
  predicate Compatible(a: Header, b: Header) {
    && PathOf(a) != PathOf(b)
    && !(a.kind == Regular && PathOf(a) < PathOf(b))
    && !(b.kind == Regular && PathOf(b) < PathOf(a))
  }

  function Total(headers: seq<Header>): int {
    if headers == [] then 0 else Total(headers[..|headers| - 1]) + headers[|headers| - 1].size
  }

  /** The order of the entries plays no part in it. */
  ghost predicate Acceptable(headers: seq<Header>, limits: Limits, stream: nat) {
    && |headers| <= limits.entries
    && (forall i :: 0 <= i < |headers| ==> HeaderOk(headers[i], limits))
    && (forall i, j :: 0 <= i < j < |headers| ==> Compatible(headers[i], headers[j]))
    && Total(headers) <= limits.expanded && Total(headers) <= stream
  }

  predicate HasFile(headers: seq<Header>) {
    exists i :: 0 <= i < |headers| && headers[i].kind == Regular
  }

  /** The end of the stream: sound, within the limit, and the end of the upload. */
  predicate EndOk(b: Bundle, limits: Limits) {
    b.sound && b.expanded <= limits.expanded && b.trailing == 0
  }

  ghost predicate ControlPlaneAccepts(b: Bundle) {
    && 1 <= b.compressed <= MAX_UPLOAD && Acceptable(b.headers, CONTROL_PLANE, b.data)
    && EndOk(b, CONTROL_PLANE) && HasFile(b.headers)
  }

  ghost predicate NodeAccepts(b: Bundle) {
    b.compressed >= 1 && Acceptable(b.headers, NODE, b.data) && EndOk(b, NODE)
  }

  // ----- the tests of one entry -------------------------------------------------------------------------

  /** Everything about one header that does not depend on the others. */
  predicate Tested(h: Header, limits: Limits) {
    && |h.name| != 0 && Size(h.name) <= limits.path && '\\' !in h.name
    && SafeName(h.name, h.kind == Directory)
    && h.pax <= 32 && h.xattrs <= 32 && h.metadata <= limits.metadata && 0 <= h.mode <= 0x1ff && 0 <= h.size <= MAX_SIZE
    && (h.kind == Regular || (h.kind == Directory && h.size == 0))
  }

  lemma TestedIsOk(h: Header, limits: Limits)
    ensures Tested(h, limits) <==> HeaderOk(h, limits)
  {
    SafeNameIsProper(h.name, h.kind == Directory);
  }

  /** `seen` maps the names of the entries before `upto` to their kinds. */
  ghost predicate Seen(headers: seq<Header>, upto: nat, seen: map<string, Kind>)
    requires upto <= |headers|
  {
    && (forall i :: 0 <= i < upto ==> NameOf(headers[i]) in seen && seen[NameOf(headers[i])] == headers[i].kind)
    && (forall n :: n in seen ==> exists i :: 0 <= i < upto && NameOf(headers[i]) == n)
  }

  /** The loop over path.Dir: no entry seen before is a regular file above this one. */
  method Ancestors(p: seq<string>, seen: map<string, Kind>) returns (clear: bool)
    requires ProperPath(p)
    ensures clear <==> forall k :: 1 <= k < |p| ==> !(Join(p[..k]) in seen && seen[Join(p[..k])] == Regular)
  {
    var k := |p| - 1;
    while k >= 1
      invariant 0 <= k < |p|
      invariant forall j :: k < j < |p| ==> !(Join(p[..j]) in seen && seen[Join(p[..j])] == Regular)
    {
      if Join(p[..k]) in seen && seen[Join(p[..k])] == Regular { return false; }
      k := k - 1;
    }
    clear := true;
  }

  predicate Fits(seen: map<string, Kind>, h: Header) {
    var p := PathOf(h);
    && NameOf(h) !in seen
    && (forall k :: 1 <= k < |p| ==> !(Join(p[..k]) in seen && seen[Join(p[..k])] == Regular))
    && (h.kind == Regular ==> forall n :: n in seen ==> !(NameOf(h) + "/" <= n))
  }

  /** The map test of one entry is compatibility with every entry before it. */
  lemma FitsIsCompatible(headers: seq<Header>, upto: nat, seen: map<string, Kind>, limits: Limits)
    requires upto < |headers| && Seen(headers, upto, seen)
    requires forall i :: 0 <= i <= upto ==> HeaderOk(headers[i], limits)
    ensures Fits(seen, headers[upto]) <==> forall i :: 0 <= i < upto ==> Compatible(headers[i], headers[upto])
  {
    var h := headers[upto];
    if Fits(seen, h) {
      forall i | 0 <= i < upto ensures Compatible(headers[i], h) { FitsOne(seen, headers[i], h, limits); }
    }
    if forall i :: 0 <= i < upto ==> Compatible(headers[i], h) {
      CompatibleAll(headers, upto, seen, limits);
    }
  }

  lemma FitsOne(seen: map<string, Kind>, a: Header, h: Header, limits: Limits)
    requires HeaderOk(a, limits) && HeaderOk(h, limits) && NameOf(a) in seen && seen[NameOf(a)] == a.kind
              && Fits(seen, h)
    ensures Compatible(a, h)
  {
    var p, q := PathOf(a), PathOf(h);
    JoinSplit(NameOf(a));
    JoinSplit(NameOf(h));
    PrefixIsAncestor(q, p);
    if p < q { assert q[..|p|] == p; }
  }

  lemma CompatibleAll(headers: seq<Header>, upto: nat, seen: map<string, Kind>, limits: Limits)
    requires upto < |headers| && Seen(headers, upto, seen)
    requires forall i :: 0 <= i <= upto ==> HeaderOk(headers[i], limits)
    requires forall i :: 0 <= i < upto ==> Compatible(headers[i], headers[upto])
    ensures Fits(seen, headers[upto])
  {
    var h := headers[upto];
    var p := PathOf(h);
    JoinSplit(NameOf(h));
    forall k | 1 <= k < |p| ensures !(Join(p[..k]) in seen && seen[Join(p[..k])] == Regular) {
      if Join(p[..k]) in seen {
        var i :| 0 <= i < upto && NameOf(headers[i]) == Join(p[..k]);
        SplitJoin(p[..k]);
        assert PathOf(headers[i]) == p[..k] < p;
      }
    }
    forall n | n in seen ensures n != NameOf(h) && (h.kind == Regular ==> !(NameOf(h) + "/" <= n)) {
      var i :| 0 <= i < upto && NameOf(headers[i]) == n;
      JoinSplit(n);
      PrefixIsAncestor(p, PathOf(headers[i]));
      assert Compatible(headers[i], h);
    }
  }

  // ----- the sequential reader ------------------------------------------------------------------------------

  /** Addition of 64-bit integers wraps around. */
  function Wrap(x: int): int {
    (x + WORD / 2) % WORD - WORD / 2
  }

  lemma {:induction false} TotalGrows(headers: seq<Header>, i: nat, limits: Limits)
    requires i <= |headers| && forall k :: 0 <= k < |headers| ==> HeaderOk(headers[k], limits)
    ensures 0 <= Total(headers[..i]) <= Total(headers)
    decreases |headers|
  {
    if i == |headers| {
      assert headers[..i] == headers;
      if headers != [] { TotalGrows(headers[..|headers| - 1], |headers| - 1, limits); }
    } else {
      TotalGrows(headers[..|headers| - 1], i, limits);
      assert headers[..|headers| - 1][..i] == headers[..i];
    }
  }

  lemma NextTotal(headers: seq<Header>, i: nat)
    requires i < |headers|
    ensures Total(headers[..i + 1]) == Total(headers[..i]) + headers[i].size
  {
    assert headers[..i + 1][..i] == headers[..i];
  }

  /** The test of one entry against all before it. */
  method CheckEntry(ghost headers: seq<Header>, ghost upto: nat, h: Header, limits: Limits, seen: map<string, Kind>)
    returns (ok: bool)
    requires upto < |headers| && headers[upto] == h && Seen(headers, upto, seen)
    requires forall i :: 0 <= i < upto ==> HeaderOk(headers[i], limits)
    ensures ok <==> HeaderOk(h, limits) && forall i :: 0 <= i < upto ==> Compatible(headers[i], h)
  {
    TestedIsOk(h, limits);
    if !Tested(h, limits) { return false; }
    FitsIsCompatible(headers, upto, seen, limits);
    if NameOf(h) in seen { return false; }
    var clear := Ancestors(PathOf(h), seen);
    if !clear { return false; }
    ok := h.kind == Regular ==> forall n :: n in seen ==> !(NameOf(h) + "/" <= n);
  }

  /** The running byte count against the limit. A count that wraps around passes, too. */
  method AddPayload(payload: int, size: int, limit: nat) returns (ok: bool, sum: int)
    requires 0 <= payload <= limit < WORD / 4 && 0 <= size <= MAX_SIZE
    ensures ok <==> payload + size <= limit || payload + size > MAX_SIZE
    ensures payload + size <= limit ==> sum == payload + size
  {
    sum := Wrap(payload + size);
    ok := sum <= limit;
  }

  /** What a reader limited to one byte more than `limit` can deliver of the stream. */
  function Deliverable(stream: nat, limit: nat): nat {
    if stream <= limit + 1 then stream else limit + 1
  }

  /** Count the bytes of an entry and read past them, which no size that wrapped around allows. */
  method Consume(h: Header, limit: nat, payload: int, remaining: nat) returns (ok: bool, payload': int, remaining': nat)
    requires 0 <= h.size <= MAX_SIZE && 0 <= payload <= limit < WORD / 4 && remaining <= limit + 1
    ensures ok <==> payload + h.size <= limit && h.size <= remaining
    ensures ok ==> payload' == payload + h.size && remaining' == remaining - h.size
  {
    remaining' := remaining;
    ok, payload' := AddPayload(payload, h.size, limit);
    if !ok { return; }
    if h.size > remaining { return false, payload', remaining; }
    remaining' := remaining - h.size;
  }

  ghost predicate ReadSoFar(headers: seq<Header>, i: nat, limits: Limits, stream: nat, seen: map<string, Kind>)
    requires i <= |headers|
  {
    Seen(headers, i, seen) && Acceptable(headers[..i], limits, stream)
  }

  /** The control plane's loop accepts exactly the acceptable lists. */
  method Read(headers: seq<Header>, stream: nat) returns (ok: bool, files: seq<File>)
    ensures ok <==> Acceptable(headers, CONTROL_PLANE, stream)
    ensures ok ==> files == FilesOf(headers)
  {
    ok, files := false, [];
    var seen: map<string, Kind> := map[];
    var payload, remaining := 0, Deliverable(stream, CONTROL_PLANE.expanded);
    var i, totalEntries := 0, 0;
    while i < |headers|
      invariant 0 <= i == totalEntries <= |headers| && ReadSoFar(headers, i, CONTROL_PLANE, stream, seen)
      invariant payload == Total(headers[..i]) >= 0
                && remaining == Deliverable(stream, CONTROL_PLANE.expanded) - payload
      invariant files == FilesOf(headers[..i])
    {
      var h := headers[i];
      NextTotal(headers, i);
      if totalEntries >= CONTROL_PLANE.entries { return; }
      totalEntries := totalEntries + 1;
      var fits := CheckEntry(headers, i, h, CONTROL_PLANE, seen);
      if !fits { return; }
      var there, p, rest := Consume(h, CONTROL_PLANE.expanded, payload, remaining);
      if !there {
        TooMuch(headers, i, CONTROL_PLANE, stream);
        return;
      }
      payload, remaining := p, rest;
      NextFiles(headers, i);
      if h.kind == Regular { files := files + [FileOf(h)]; }
      SeenNext(headers, i, seen, CONTROL_PLANE, stream);
      seen := seen[NameOf(h) := h.kind];
      i := i + 1;
    }
    assert headers[..i] == headers;
    ok := true;
  }

  lemma TooMuch(headers: seq<Header>, i: nat, limits: Limits, stream: nat)
    requires i < |headers|
    requires Total(headers[..i]) + headers[i].size > limits.expanded || Total(headers[..i]) + headers[i].size > stream
    ensures !Acceptable(headers, limits, stream)
  {
    NextTotal(headers, i);
    if forall k :: 0 <= k < |headers| ==> HeaderOk(headers[k], limits) { TotalGrows(headers, i + 1, limits); }
  }

  lemma SeenNext(headers: seq<Header>, i: nat, seen: map<string, Kind>, limits: Limits, stream: nat)
    requires i < |headers| && i < limits.entries && ReadSoFar(headers, i, limits, stream, seen)
    requires HeaderOk(headers[i], limits) && forall k :: 0 <= k < i ==> Compatible(headers[k], headers[i])
    requires Total(headers[..i + 1]) <= limits.expanded && Total(headers[..i + 1]) <= stream
    ensures ReadSoFar(headers, i + 1, limits, stream, seen[NameOf(headers[i]) := headers[i].kind])
  {
    SeenMore(headers, i, seen);
    AcceptableMore(headers, i, limits, stream);
  }

  lemma SeenMore(headers: seq<Header>, i: nat, seen: map<string, Kind>)
    requires i < |headers| && Seen(headers, i, seen) && forall k :: 0 <= k < i ==> Compatible(headers[k], headers[i])
    ensures Seen(headers, i + 1, seen[NameOf(headers[i]) := headers[i].kind])
  {
    forall k | 0 <= k < i
        ensures NameOf(headers[k]) != NameOf(headers[i]) { assert Compatible(headers[k], headers[i]); }
    forall n | n in seen ensures exists j :: 0 <= j < i + 1 && NameOf(headers[j]) == n {
      var j :| 0 <= j < i && NameOf(headers[j]) == n;
    }
  }

  lemma AcceptableMore(headers: seq<Header>, i: nat, limits: Limits, stream: nat)
    requires i < |headers| && i < limits.entries && Acceptable(headers[..i], limits, stream)
    requires HeaderOk(headers[i], limits) && forall k :: 0 <= k < i ==> Compatible(headers[k], headers[i])
    requires Total(headers[..i + 1]) <= limits.expanded && Total(headers[..i + 1]) <= stream
    ensures Acceptable(headers[..i + 1], limits, stream)
  {
    var part := headers[..i + 1];
    forall a, b | 0 <= a < b < |part| ensures Compatible(part[a], part[b]) {
      if b < i { assert Compatible(headers[..i][a], headers[..i][b]); }
    }
    forall a | 0 <= a < |part| ensures HeaderOk(part[a], limits) {
      if a < i { assert HeaderOk(headers[..i][a], limits); }
    }
  }

  function FileOf(h: Header): File {
    File(NameOf(h), h.mode, h.size)
  }

  function FilesOf(headers: seq<Header>): seq<File> {
    if headers == [] then []
    else
      var h := headers[|headers| - 1];
      FilesOf(headers[..|headers| - 1]) + (if h.kind == Regular then [FileOf(h)] else [])
  }

  lemma NextFiles(headers: seq<Header>, i: nat)
    requires i < |headers|
    ensures FilesOf(headers[..i + 1]) ==
              FilesOf(headers[..i]) + (if headers[i].kind == Regular then [FileOf(headers[i])] else [])
  {
    assert headers[..i + 1][..i] == headers[..i];
  }

  lemma {:induction false} FilesNone(headers: seq<Header>)
    ensures FilesOf(headers) == [] <==> !HasFile(headers)
  {
    if headers != [] {
      var n := |headers| - 1;
      FilesNone(headers[..n]);
      if HasFile(headers[..n]) {
        var i :| 0 <= i < n && headers[..n][i].kind == Regular;
        assert headers[i].kind == Regular;
      }
      if HasFile(headers) && headers[n].kind != Regular {
        var i :| 0 <= i < |headers| && headers[i].kind == Regular;
        assert headers[..n][i].kind == Regular;
      }
    }
  }

  /**
   Draining a stream that is limited to one byte more than `limit`: whether it is sound, and how
   many bytes are left to read.
   */
  method Drain(b: Bundle, limit: nat) returns (ok: bool, left: nat)
    ensures ok == b.sound && (left == 0 <==> b.expanded > limit)
  {
    ok := b.sound;
    left := limit + 1 - Deliverable(b.expanded, limit);
  }

  /** validateApplicationArtifact. */
  method ValidateArtifact(b: Bundle) returns (r: Option<seq<File>>)
    ensures r.Some? <==> ControlPlaneAccepts(b)
    ensures r.Some? ==> r.value == FilesOf(b.headers)
  {
    if b.compressed == 0 || b.compressed > MAX_UPLOAD { return None; }
    var ok, files := Read(b.headers, b.data);
    if !ok { return None; }
    var drained, left := Drain(b, CONTROL_PLANE.expanded);
    if !drained || left == 0 || b.trailing != 0 { return None; }
    FilesNone(b.headers);
    if |files| == 0 { return None; }
    r := Some(files);
  }

  lemma {:induction false} FilesAre(headers: seq<Header>)
    ensures forall f :: f in FilesOf(headers) <==>
              exists i :: 0 <= i < |headers| && headers[i].kind == Regular && FileOf(headers[i]) == f
  {
    if headers != [] {
      var front, last := headers[..|headers| - 1], headers[|headers| - 1];
      FilesAre(front);
      forall f | f in FilesOf(front) ensures exists i ::
          0 <= i < |headers| && headers[i].kind == Regular && FileOf(headers[i]) == f {
        var i :| 0 <= i < |front| && front[i].kind == Regular && FileOf(front[i]) == f;
        assert headers[i] == front[i];
      }
      forall i | 0 <= i < |headers| && headers[i].kind == Regular ensures FileOf(headers[i]) in FilesOf(headers) {
        if i < |front| { assert front[i] == headers[i]; }
      }
    }
  }

  // ----- the order of the entries -----------------------------------------------------------------------------

  lemma {:induction false} TotalWithout(headers: seq<Header>, k: nat)
    requires k < |headers|
    ensures Total(headers) == Total(headers[..k] + headers[k + 1..]) + headers[k].size
  {
    var n := |headers| - 1;
    if k == n {
      assert headers[..k] + headers[k + 1..] == headers[..n];
    } else {
      TotalWithout(headers[..n], k);
      var rest := headers[..k] + headers[k + 1..];
      assert rest[..|rest| - 1] == headers[..n][..k] + headers[..n][k + 1..];
    }
  }

  lemma {:induction false} TotalPermuted(a: seq<Header>, b: seq<Header>)
    requires multiset(a) == multiset(b)
    ensures |a| == |b| && Total(a) == Total(b)
  {
    assert |multiset(a)| == |a| && |multiset(b)| == |b|;
    if a != [] {
      var n := |a| - 1;
      var k := Find(b, a, n);
      WithoutCount(a, n);
      assert a[..n] + a[n + 1..] == a[..n];
      WithoutCount(b, k);
      TotalWithout(b, k);
      Peel(multiset(a[..n]), multiset(b[..k] + b[k + 1..]), a[n]);
      TotalPermuted(a[..n], b[..k] + b[k + 1..]);
    }
  }

  lemma Peel(x: multiset<Header>, y: multiset<Header>, h: Header)
    requires x + multiset{h} == y + multiset{h}
    ensures x == y
  {
    assert x == (x + multiset{h}) - multiset{h};
    assert y == (y + multiset{h}) - multiset{h};
  }

  /** An acceptable list stays acceptable in any other order. */
  lemma AnyOrder(a: seq<Header>, b: seq<Header>, limits: Limits, stream: nat)
    requires multiset(a) == multiset(b) && Acceptable(a, limits, stream)
    ensures Acceptable(b, limits, stream)
  {
    TotalPermuted(a, b);
    forall i | 0 <= i < |b| ensures HeaderOk(b[i], limits) {
      var k := Find(a, b, i);
    }
    forall i, j | 0 <= i < j < |b| ensures Compatible(b[i], b[j]) {
      var k := Find(a, b, i);
      var l := Find(a, b, j);
      Apart(a, b, i, j);
    }
  }

  lemma Find(a: seq<Header>, b: seq<Header>, i: nat) returns (k: nat)
    requires multiset(a) == multiset(b) && i < |b|
    ensures k < |a| && a[k] == b[i]
  {
    assert b[i] in multiset(b);
    assert b[i] in multiset(a);
    k :| 0 <= k < |a| && a[k] == b[i];
  }

  /** Compatible entries are all different, in either order. */
  lemma Apart(a: seq<Header>, b: seq<Header>, i: nat, j: nat)
    requires multiset(a) == multiset(b) && i < j < |b|
    requires forall k, l :: 0 <= k < l < |a| ==> Compatible(a[k], a[l])
    ensures b[i] != b[j]
  {
    forall k, l | 0 <= k < l < |a| ensures a[k] != a[l] { assert Compatible(a[k], a[l]); }
    DistinctMultiset(a, b[i]);
    if b[i] == b[j] { RepeatedMultiset(b, i, j); }
  }

  // ----- extraction --------------------------------------------------------------------------------------------

  /** What stands at a path below the destination. */
  datatype Item = Folder | Plain(mode: int, size: int)

  type Tree = map<seq<string>, Item>

  /** The permission bits 0o750 of a mode that has no others than 0o777. */
  function Masked(mode: int): int {
    mode / 64 * 64 + mode / 32 % 2 * 32 + mode / 8 % 2 * 8
  }

  /** The owner keeps every permission, the group may read and execute if it might, and others get none. */
  lemma MaskedIs(owner: int, read: int, write: int, execute: int, others: int)
    requires 0 <= owner < 8 && 0 <= read < 2 && 0 <= write < 2 && 0 <= execute < 2 && 0 <= others < 8
    ensures Masked(owner * 64 + read * 32 + write * 16 + execute * 8 + others) ==
              owner * 64 + read * 32 + execute * 8
  {
    var low := write * 16 + execute * 8 + others;
    var mode := owner * 64 + read * 32 + low;
    assert mode / 64 == owner && mode / 32 == owner * 2 + read;
    assert mode / 8 == owner * 8 + read * 4 + write * 2 + execute;
  }

  function ItemOf(h: Header): Item {
    if h.kind == Regular then Plain(Masked(h.mode), h.size) else Folder
  }

  /** os.MkdirAll meets a regular file on its way. */
  predicate Blocked(tree: Tree, p: seq<string>) {
    exists k :: 1 <= k <= |p| && p[..k] in tree && tree[p[..k]].Plain?
  }

  function MakeAll(tree: Tree, p: seq<string>): Tree {
    if p == [] then tree else MakeAll(tree, p[..|p| - 1])[p := Folder]
  }

  /** `q` is the path `p` or a directory above it. */
  predicate Along(q: seq<string>, p: seq<string>) {
    q != [] && q <= p
  }

  lemma AlongFront(q: seq<string>, p: seq<string>)
    requires p != []
    ensures Along(q, p) <==> q == p || Along(q, p[..|p| - 1])
  {
    var front := p[..|p| - 1];
    if q <= p && q != p { assert q == p[..|q|] == front[..|q|]; }
    if q <= front { assert q == front[..|q|] == p[..|q|]; }
  }

  lemma {:induction false} MakeAllIs(tree: Tree, p: seq<string>)
    ensures forall q :: q in MakeAll(tree, p) <==> q in tree || Along(q, p)
    ensures forall q :: q in MakeAll(tree, p) ==> MakeAll(tree, p)[q] == (if Along(q, p) then Folder else tree[q])
  {
    if p != [] {
      MakeAllIs(tree, p[..|p| - 1]);
      forall q ensures Along(q, p) <==> q == p || Along(q, p[..|p| - 1]) { AlongFront(q, p); }
    }
  }

  /** Some entry before `upto` is `q` or lies below it. */
  ghost predicate Needed(headers: seq<Header>, upto: nat, q: seq<string>)
    requires upto <= |headers|
  {
    exists i :: 0 <= i < upto && Along(q, PathOf(headers[i]))
  }

  ghost predicate FileAt(headers: seq<Header>, upto: nat, q: seq<string>)
    requires upto <= |headers|
  {
    exists i :: 0 <= i < upto && headers[i].kind == Regular && PathOf(headers[i]) == q
  }

  predicate Stands(tree: Tree, h: Header) {
    PathOf(h) in tree && tree[PathOf(h)] == ItemOf(h)
  }

  /** The tree holds exactly the extracted entries and the directories above them. */
  ghost predicate TreeOf(headers: seq<Header>, upto: nat, tree: Tree)
    requires upto <= |headers|
  {
    Grown(headers, upto, tree) && Filled(headers, upto, tree) && Sourced(headers, upto, tree)
  }

  ghost predicate Grown(headers: seq<Header>, upto: nat, tree: Tree)
    requires upto <= |headers|
  {
    forall q :: q in tree <==> Needed(headers, upto, q)
  }

  ghost predicate Filled(headers: seq<Header>, upto: nat, tree: Tree)
    requires upto <= |headers|
  {
    forall i {:trigger Stands(tree, headers[i])} :: 0 <= i < upto ==> Stands(tree, headers[i])
  }

  ghost predicate Sourced(headers: seq<Header>, upto: nat, tree: Tree)
    requires upto <= |headers|
  {
    forall q :: q in tree && tree[q].Plain? ==> FileAt(headers, upto, q)
  }

  /** Directories above an entry are never in the way, and its own place is free. */
  lemma WayIsClear(headers: seq<Header>, i: nat, tree: Tree, limits: Limits)
    requires i < |headers| && TreeOf(headers, i, tree)
    requires forall k :: 0 <= k <= i ==> HeaderOk(headers[k], limits)
    requires forall k :: 0 <= k < i ==> Compatible(headers[k], headers[i])
    ensures var p := PathOf(headers[i]); !Blocked(tree, p[..|p| - 1]) && !Blocked(tree, p)
    ensures headers[i].kind == Regular ==> PathOf(headers[i]) !in tree
  {
    var p := PathOf(headers[i]);
    forall j | 0 <= j < i ensures PathOf(headers[j]) != p
        && (headers[i].kind == Regular ==> !Along(p, PathOf(headers[j]))) {
      assert Compatible(headers[j], headers[i]);
    }
    forall k, j | 1 <= k <= |p| && 0 <= j < i && headers[j].kind == Regular ensures PathOf(headers[j]) != p[..k] {
      assert Compatible(headers[j], headers[i]);
      assert p[..k] == p || p[..k] < p;
    }
    forall k | 1 <= k <= |p| - 1 ensures p[..|p| - 1][..k] == p[..k] {}
  }

  /** The tree after one more entry. */
  function Placed(tree: Tree, h: Header): Tree {
    var p := PathOf(h);
    if h.kind == Regular then MakeAll(tree, p[..|p| - 1])[p := ItemOf(h)] else MakeAll(tree, p)
  }

  lemma PlacedIs(tree: Tree, h: Header, q: seq<string>)
    requires ProperPath(PathOf(h))
    ensures q in Placed(tree, h) <==> q in tree || Along(q, PathOf(h))
    ensures q in Placed(tree, h) ==>
              Placed(tree, h)[q] ==
                  (if q == PathOf(h) then ItemOf(h) else if Along(q, PathOf(h)) then Folder else tree[q])
  {
    var p := PathOf(h);
    MakeAllIs(tree, p[..|p| - 1]);
    MakeAllIs(tree, p);
    AlongFront(q, p);
  }

  lemma NeededNext(headers: seq<Header>, i: nat, q: seq<string>)
    requires i < |headers|
    ensures Needed(headers, i + 1, q) <==> Needed(headers, i, q) || Along(q, PathOf(headers[i]))
  {
  }

  /** An earlier entry keeps its place. */
  lemma StandsNext(tree: Tree, a: Header, h: Header)
    requires Stands(tree, a) && Compatible(a, h) && ProperPath(PathOf(h))
    ensures Stands(Placed(tree, h), a)
  {
    PlacedIs(tree, h, PathOf(a));
  }

  lemma PlainNext(headers: seq<Header>, i: nat, tree: Tree, q: seq<string>)
    requires i < |headers| && ProperPath(PathOf(headers[i]))
    requires q in tree && tree[q].Plain? ==> FileAt(headers, i, q)
    requires q in Placed(tree, headers[i]) && Placed(tree, headers[i])[q].Plain?
    ensures FileAt(headers, i + 1, q)
  {
    PlacedIs(tree, headers[i], q);
    if q != PathOf(headers[i]) {
      var k :| 0 <= k < i && headers[k].kind == Regular && PathOf(headers[k]) == q;
    }
  }

  lemma GrownNext(headers: seq<Header>, i: nat, tree: Tree)
    requires i < |headers| && Grown(headers, i, tree) && ProperPath(PathOf(headers[i]))
    ensures Grown(headers, i + 1, Placed(tree, headers[i]))
  {
    forall q ensures q in Placed(tree, headers[i]) <==> Needed(headers, i + 1, q) {
      PlacedIs(tree, headers[i], q);
      NeededNext(headers, i, q);
    }
  }

  lemma FilledNext(headers: seq<Header>, i: nat, tree: Tree)
    requires i < |headers| && Filled(headers, i, tree) && ProperPath(PathOf(headers[i]))
    requires forall k :: 0 <= k < i ==> Compatible(headers[k], headers[i])
    ensures Filled(headers, i + 1, Placed(tree, headers[i]))
  {
    PlacedIs(tree, headers[i], PathOf(headers[i]));
    forall k | 0 <= k < i ensures Stands(Placed(tree, headers[i]), headers[k]) {
      assert Stands(tree, headers[k]);
      StandsNext(tree, headers[k], headers[i]);
    }
  }

  lemma SourcedNext(headers: seq<Header>, i: nat, tree: Tree)
    requires i < |headers| && Sourced(headers, i, tree) && ProperPath(PathOf(headers[i]))
    ensures Sourced(headers, i + 1, Placed(tree, headers[i]))
  {
    var after := Placed(tree, headers[i]);
    forall q | q in after && after[q].Plain? ensures FileAt(headers, i + 1, q) {
      PlainNext(headers, i, tree, q);
    }
  }

  lemma NextTree(headers: seq<Header>, i: nat, tree: Tree, limits: Limits)
    requires i < |headers| && TreeOf(headers, i, tree) && HeaderOk(headers[i], limits)
    requires forall k :: 0 <= k < i ==> Compatible(headers[k], headers[i])
    ensures TreeOf(headers, i + 1, Placed(tree, headers[i]))
  {
    GrownNext(headers, i, tree);
    FilledNext(headers, i, tree);
    SourcedNext(headers, i, tree);
  }

  /** The file system's part of one entry: false when it refuses. */
  method Place(tree: Tree, h: Header) returns (ok: bool, after: Tree)
    requires ProperPath(PathOf(h)) && h.kind != Other
    ensures ok <==> (if h.kind == Regular then !Blocked(tree, PathOf(h)[..|PathOf(h)| - 1]) && PathOf(h) !in tree
                     else !Blocked(tree, PathOf(h)))
    ensures ok ==> after == Placed(tree, h)
    ensures forall q :: q in after ==> q in tree || Along(q, PathOf(h))
  {
    var p := PathOf(h);
    MakeAllIs(tree, p[..|p| - 1]);
    MakeAllIs(tree, p);
    assert forall q :: Along(q, p[..|p| - 1]) ==> Along(q, p) by {
      forall q ensures Along(q, p[..|p| - 1]) ==> Along(q, p) { AlongFront(q, p); }
    }
    ok, after := false, tree;
    if h.kind == Regular {
      if Blocked(tree, p[..|p| - 1]) { return; }
      after := MakeAll(tree, p[..|p| - 1]);
      if p in after { return; }
      after := after[p := ItemOf(h)];
    } else {
      if Blocked(tree, p) { return; }
      after := MakeAll(tree, p);
    }
    ok := true;
  }

  /** Nothing stands outside the destination. */
  ghost predicate Inside(tree: Tree) {
    forall q :: q in tree ==> ProperPath(q)
  }

  lemma AlongProper(q: seq<string>, p: seq<string>)
    requires Along(q, p) && ProperPath(p)
    ensures ProperPath(q)
  {
  }

  /** Read so far, and everything read so far is in its place. */
  ghost predicate ExtractedSoFar(headers: seq<Header>, i: nat, stream: nat, seen: map<string, Kind>, tree: Tree)
    requires i <= |headers|
  {
    ReadSoFar(headers, i, NODE, stream, seen) && TreeOf(headers, i, tree) && Inside(tree)
  }

  /** An entry that passed its tests: count it, place it, and only then copy its bytes. */
  method Unpack(ghost headers: seq<Header>, ghost i: nat, ghost stream: nat, ghost seen: map<string, Kind>,
                h: Header, tree: Tree, payload: int, remaining: nat)
    returns (ok: bool, after: Tree, payload': int, remaining': nat)
    requires i < |headers| && headers[i] == h && HeaderOk(h, NODE) && ExtractedSoFar(headers, i, stream, seen, tree)
    requires forall k :: 0 <= k < i ==> Compatible(headers[k], h)
    requires 0 <= payload <= NODE.expanded && remaining <= NODE.expanded + 1
    ensures Inside(after)
    ensures ok <==> payload + h.size <= NODE.expanded && h.size <= remaining
    ensures ok ==> TreeOf(headers, i + 1, after) && payload' == payload + h.size && remaining' == remaining - h.size
  {
    forall k | 0 <= k < i ensures HeaderOk(headers[k], NODE) { assert headers[..i][k] == headers[k]; }
    WayIsClear(headers, i, tree, NODE);
    NextTree(headers, i, tree, NODE);
    after, payload', remaining' := tree, payload, remaining;
    if h.kind == Regular {
      ok, payload' := AddPayload(payload, h.size, NODE.expanded);
      if !ok { return; }
    }
    ok, after := Place(tree, h);
    forall q | q in after ensures ProperPath(q) {
      if q !in tree { AlongProper(q, PathOf(h)); }
    }
    if h.kind == Regular {
      if h.size > remaining { return false, after, payload', remaining; }
      remaining' := remaining - h.size;
    }
  }

  /** One turn of the node's loop after the count: test, place, copy, and only then record the name. */
  method ExtractNext(ghost headers: seq<Header>, ghost i: nat, ghost stream: nat, h: Header,
                     before: map<string, Kind>, from: Tree, payload: int, remaining: nat)
    returns (ok: bool, seen: map<string, Kind>, tree: Tree, payload': int, remaining': nat)
    requires i < |headers| && headers[i] == h && i < NODE.entries && ExtractedSoFar(headers, i, stream, before, from)
    requires payload == Total(headers[..i]) >= 0 && remaining == Deliverable(stream, NODE.expanded) - payload
    ensures Inside(tree)
    ensures ok ==> ExtractedSoFar(headers, i + 1, stream, seen, tree)
    ensures ok ==> payload' == payload + h.size >= 0 && remaining' == remaining - h.size
    ensures !ok ==> !Acceptable(headers, NODE, stream)
  {
    seen, tree, payload', remaining' := before, from, payload, remaining;
    ok := CheckEntry(headers, i, h, NODE, before);
    if !ok { return; }
    NextTotal(headers, i);
    ok, tree, payload', remaining' := Unpack(headers, i, stream, before, h, from, payload, remaining);
    if !ok {
      TooMuch(headers, i, NODE, stream);
      return;
    }
    SeenNext(headers, i, before, NODE, stream);
    seen := before[NameOf(h) := h.kind];
  }

  /**
   The node tests, places and records one entry after the other. It succeeds
   exactly on the acceptable lists: extracting one, in whatever order it comes, never
   meets a file where it needs a directory or anything where it needs a file. It leaves
   exactly the listed entries and the directories above them; and whether it succeeds
   or not, nothing outside the destination.
   */
  method ExtractAll(headers: seq<Header>, stream: nat) returns (ok: bool, tree: Tree)
    ensures ok <==> Acceptable(headers, NODE, stream)
    ensures ok ==> TreeOf(headers, |headers|, tree)
    ensures Inside(tree)
  {
    ok, tree := false, map[];
    var seen: map<string, Kind> := map[];
    var payload, remaining := 0, Deliverable(stream, NODE.expanded);
    var i, entries := 0, 0;
    while i < |headers|
      invariant 0 <= i == entries <= |headers| && ExtractedSoFar(headers, i, stream, seen, tree)
      invariant payload == Total(headers[..i]) >= 0 && remaining == Deliverable(stream, NODE.expanded) - payload
    {
      NextTotal(headers, i);
      entries := entries + 1;
      if entries > NODE.entries { return; }
      var on;
      on, seen, tree, payload, remaining := ExtractNext(headers, i, stream, headers[i], seen, tree, payload, remaining);
      if !on { return; }
      i := i + 1;
    }
    assert headers[..i] == headers;
    ok := true;
  }

  /** extractTarGz: the entries, then the end of the stream. */
  method Extract(b: Bundle) returns (ok: bool, tree: Tree)
    ensures ok <==> NodeAccepts(b)
    ensures ok ==> TreeOf(b.headers, |b.headers|, tree)
    ensures Inside(tree)
  {
    ok, tree := false, map[];
    if b.compressed == 0 { return; }
    ok, tree := ExtractAll(b.headers, b.data);
    if !ok { return; }
    var drained, left := Drain(b, NODE.expanded);
    ok := drained && left != 0 && b.trailing == 0;
  }

  // ----- the two readers ---------------------------------------------------------------------------------------

  /**
   An upload and its extraction: the control plane accepts an archive exactly if the
   node extracts it, it holds a file and it is not too large to upload; and then the files
   that the control plane recorded are exactly the files on the node, with their sizes
   and the permissions that the node grants.
   */
  method ReadersAgree(b: Bundle) returns (recorded: Option<seq<File>>, extracted: bool, tree: Tree)
    ensures recorded.Some? <==> extracted && HasFile(b.headers) && b.compressed <= MAX_UPLOAD
    ensures recorded.Some? ==>
              forall f :: f in recorded.value ==>
                  Split(f.path) in tree && tree[Split(f.path)] == Plain(Masked(f.mode), f.size)
    ensures recorded.Some? ==> forall q :: q in tree && tree[q].Plain? ==>
              exists f :: f in recorded.value && Split(f.path) == q
  {
    recorded := ValidateArtifact(b);
    extracted, tree := Extract(b);
    if recorded.Some? { RecordedIsPlaced(b.headers, recorded.value, tree); }
  }

  lemma RecordedIsPlaced(headers: seq<Header>, files: seq<File>, tree: Tree)
    requires files == FilesOf(headers) && TreeOf(headers, |headers|, tree)
    ensures forall f :: f in files ==> Split(f.path) in tree && tree[Split(f.path)] == Plain(Masked(f.mode), f.size)
    ensures forall q :: q in tree && tree[q].Plain? ==> exists f :: f in files && Split(f.path) == q
  {
    FilesAre(headers);
    forall f | f in files ensures Split(f.path) in tree && tree[Split(f.path)] == Plain(Masked(f.mode), f.size) {
      var i :| 0 <= i < |headers| && headers[i].kind == Regular && FileOf(headers[i]) == f;
      assert Stands(tree, headers[i]);
    }
    forall q | q in tree && tree[q].Plain? ensures exists f :: f in files && Split(f.path) == q {
      var i :| 0 <= i < |headers| && headers[i].kind == Regular && PathOf(headers[i]) == q;
      assert FileOf(headers[i]) in files;
    }
  }
}
