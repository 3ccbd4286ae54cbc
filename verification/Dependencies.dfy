/**
 The service dependency relation and the worklist that looks for cycles in it.
 A relation maps each declared name to the names it depends on.
 */
module Dependencies {
  import opened Base

  /** A machine integer of the validator. */
  newtype Int = x: int | -0x8000_0000_0000_0000 <= x <= 0x7fff_ffff_ffff_ffff

  type Relation = map<string, seq<string>>

  ghost predicate Linked(g: Relation) {
    forall n :: n in g ==> NoDuplicates(g[n]) && forall d :: d in g[n] ==> d in g && d != n
  }

  predicate Edge(g: Relation, a: string, b: string) {
    a in g && b in g[a]
  }

  ghost predicate Walk(g: Relation, p: seq<string>) {
    forall i :: 0 <= i < |p| - 1 ==> Edge(g, p[i], p[i + 1])
  }

  ghost predicate Cycle(g: Relation, p: seq<string>) {
    |p| >= 2 && Walk(g, p) && p[0] == p[|p| - 1]
  }

  ghost predicate Acyclic(g: Relation) {
    forall p :: !Cycle(g, p)
  }

  // ----- counting what is still missing -----------------------------------------------------

  ghost function Missing(ds: seq<string>, order: seq<string>): nat {
    if ds == [] then 0
    else Missing(ds[..|ds| - 1], order) + (if ds[|ds| - 1] in order then 0 else 1)
  }

  lemma {:induction false} MissingNone(ds: seq<string>, order: seq<string>)
    ensures Missing(ds, order) == 0 <==> forall d :: d in ds ==> d in order
    ensures Missing(ds, []) == |ds|
  {
    if ds != [] {
      MissingNone(ds[..|ds| - 1], order);
      assert ds == ds[..|ds| - 1] + [ds[|ds| - 1]];
    }
  }

  lemma {:induction false} MissingAppend(ds: seq<string>, order: seq<string>, x: string)
    requires NoDuplicates(ds) && x !in order
    ensures Missing(ds, order + [x]) == Missing(ds, order) - (if x in ds then 1 else 0)
    ensures x in ds ==> Missing(ds, order) > 0
  {
    if ds != [] {
      MissingAppend(ds[..|ds| - 1], order, x);
      assert ds == ds[..|ds| - 1] + [ds[|ds| - 1]];
    }
  }

  // ----- the two sides of the verdict ---------------------------------------------------------

  /** An order in which every name comes after all it depends on. */
  ghost predicate Topological(g: Relation, order: seq<string>) {
    && NoDuplicates(order)
    && (forall n :: n in order ==> n in g)
    && forall i, d :: 0 <= i < |order| && d in g[order[i]] ==> d in order[..i]
  }

  /** A walk from an ordered name only ever meets earlier names. */
  lemma {:induction false} WalkDescends(g: Relation, order: seq<string>, p: seq<string>, at: nat) returns (to: nat)
    requires Topological(g, order) && |p| >= 1 && Walk(g, p) && at < |order| && order[at] == p[0]
    ensures to < |order| && order[to] == p[|p| - 1] && to <= at && (|p| > 1 ==> to < at)
    decreases |p|
  {
    if |p| == 1 {
      to := at;
    } else {
      assert Edge(g, p[0], p[1]);
      assert p[1] in order[..at];
      var next :| 0 <= next < at && order[next] == p[1];
      forall i | 0 <= i < |p[1..]| - 1 ensures Edge(g, p[1..][i], p[1..][i + 1]) {
        assert Edge(g, p[i + 1], p[i + 2]);
      }
      to := WalkDescends(g, order, p[1..], next);
    }
  }

  /** Soundness: a complete topological order leaves no room for a cycle. */
  lemma OrderedIsAcyclic(g: Relation, order: seq<string>)
    requires Topological(g, order) && forall n :: n in g ==> n in order
    ensures Acyclic(g)
  {
    forall p ensures !Cycle(g, p) {
      if Cycle(g, p) {
        assert Edge(g, p[0], p[1]);
        var at :| 0 <= at < |order| && order[at] == p[0];
        var to := WalkDescends(g, order, p, at);
      }
    }
  }

  /** Every stuck name waits for another stuck name, the one `next` gives. */
  ghost predicate Stuck(g: Relation, u: set<string>, next: map<string, string>) {
    u <= next.Keys && forall n {:trigger next[n]} :: n in u ==> next[n] in u && Edge(g, n, next[n])
  }

  lemma {:induction false} StuckWalk(g: Relation, u: set<string>, next: map<string, string>, start: string, length: nat)
    returns (p: seq<string>)
    requires Stuck(g, u, next) && start in u && length >= 1
    ensures |p| == length && Walk(g, p) && forall i :: 0 <= i < |p| ==> p[i] in u
  {
    if length == 1 {
      p := [start];
    } else {
      var q := StuckWalk(g, u, next, start, length - 1);
      var last := q[|q| - 1];
      p := q + [next[last]];
      forall i | 0 <= i < |p| - 1 ensures Edge(g, p[i], p[i + 1]) {
        if i < |q| - 1 { assert Edge(g, q[i], q[i + 1]); }
      }
    }
  }

  /** Completeness: names that can never be released lead to a cycle. */
  lemma StuckIsCyclic(g: Relation, u: set<string>, next: map<string, string>, start: string)
    requires Stuck(g, u, next) && start in u
    ensures !Acyclic(g)
  {
    var p := StuckWalk(g, u, next, start, |u| + 1);
    var i, j := Pigeonhole(p, u);
    var q := p[i..j + 1];
    forall k | 0 <= k < |q| - 1 ensures Edge(g, q[k], q[k + 1]) {
      assert Edge(g, p[i + k], p[i + k + 1]);
    }
    assert Cycle(g, q);
  }

  // ----- the worklist ----------------------------------------------------------------------------

  /** A lookup in a map of lists; an absent key reads as the empty list. */
  function Listed(m: map<string, seq<string>>, key: string): seq<string> {
    if key in m then m[key] else []
  }

  /** `dependents` lists under each name, once each, the names that depend on it. */
  ghost predicate Reversed(g: Relation, dependents: map<string, seq<string>>) {
    && (forall d :: NoDuplicates(Listed(dependents, d)))
    && forall d, n :: n in Listed(dependents, d) <==> Edge(g, n, d)
  }

  ghost predicate Counted(g: Relation, order: seq<string>, counts: map<string, Int>) {
    counts.Keys == g.Keys && forall n :: n in g ==> counts[n] as int == Missing(g[n], order)
  }

  /** A name is waiting to be popped or was popped exactly when nothing it depends on is missing. */
  ghost predicate Released(g: Relation, order: seq<string>, ready: seq<string>, counts: map<string, Int>) {
    && counts.Keys == g.Keys && NoDuplicates(ready)
    && (forall n :: n in ready ==> n in g && n !in order)
    && forall n :: n in g ==> (counts[n] == 0 <==> n in ready || n in order)
  }

  lemma Pops(g: Relation, order: seq<string>, rest: seq<string>, name: string, counts: map<string, Int>)
    requires Linked(g) && Topological(g, order) && Counted(g, order, counts)
              && Released(g, order, rest + [name], counts)
    ensures name in g && name !in order && name !in rest
    ensures Topological(g, order + [name]) && |order| < |g.Keys|
  {
    assert (rest + [name])[|rest|] == name;
    assert forall i :: 0 <= i < |rest| ==> rest[i] == (rest + [name])[i];
    MissingNone(g[name], order);
    forall i, d | 0 <= i < |order + [name]| && d in g[(order + [name])[i]] ensures d in (order + [name])[..i] {
      if i < |order| { assert (order + [name])[..i] == order[..i]; } else { assert (order + [name])[..i] == order; }
    }
    DistinctBound(order + [name], g.Keys);
  }

  /** How far the inner loop got: `done` are the dependents it has visited. */
  ghost predicate Partial(g: Relation, rest: seq<string>, before: map<string, Int>, done: seq<string>,
                          counts: map<string, Int>, ready: seq<string>)
  {
    && before.Keys == g.Keys && counts.Keys == g.Keys && NoDuplicates(ready)
    && (forall n :: n in g ==> counts[n] as int == before[n] as int - (if n in done then 1 else 0))
    && forall n :: n in ready <==> n in rest || (n in g && n in done && counts[n] == 0)
  }

  lemma Visit(g: Relation, rest: seq<string>, before: map<string, Int>, done: seq<string>,
              counts: map<string, Int>, ready: seq<string>, d: string)
    requires Partial(g, rest, before, done, counts, ready) && d in g && d !in done && d !in rest && before[d] > 0
    ensures counts[d] > 0
    ensures Partial(g, rest, before, done + [d], counts[d := counts[d] - 1], if counts[d] == 1 then
              ready + [d] else ready)
  {
  }

  /** A dependent of the popped name was still missing it, so it was not released before. */
  lemma WasWaiting(g: Relation, order: seq<string>, name: string, rest: seq<string>, before: map<string, Int>,
                   d: string)
    requires Linked(g) && name !in order && Edge(g, d, name)
    requires Counted(g, order, before) && Released(g, order, rest + [name], before)
    ensures before[d] > 0 && d !in rest
  {
    MissingAppend(g[d], order, name);
    assert d in rest ==> d in rest + [name];
  }

  /** The inner loop over the dependents of the popped name. */
  method VisitAll(ghost g: Relation, rest: seq<string>, before: map<string, Int>, dependents: seq<string>)
    returns (counts: map<string, Int>, ready: seq<string>)
    requires before.Keys == g.Keys && NoDuplicates(rest) && NoDuplicates(dependents)
    requires forall d :: d in dependents ==> d in before && before[d] > 0 && d !in rest
    ensures Partial(g, rest, before, dependents, counts, ready)
  {
    counts, ready := before, rest;
    var j := 0;
    while j < |dependents|
      invariant 0 <= j <= |dependents| && Partial(g, rest, before, dependents[..j], counts, ready)
    {
      var d := dependents[j];
      Visit(g, rest, before, dependents[..j], counts, ready, d);
      assert dependents[..j + 1] == dependents[..j] + [d];
      counts := counts[d := counts[d] - 1];
      if counts[d] == 0 { ready := ready + [d]; }
      j := j + 1;
    }
    assert dependents[..j] == dependents;
  }

  /** Popping a name: every dependent misses one thing less. */
  method Release(ghost g: Relation, ghost order: seq<string>, name: string, rest: seq<string>,
                 before: map<string, Int>, dependents: seq<string>)
    returns (counts: map<string, Int>, ready: seq<string>)
    requires Linked(g) && name in g && name !in order && name !in rest && NoDuplicates(dependents)
    requires forall n :: n in dependents <==> Edge(g, n, name)
    requires Counted(g, order, before) && Released(g, order, rest + [name], before)
    ensures Counted(g, order + [name], counts) && Released(g, order + [name], ready, counts)
  {
    assert NoDuplicates(rest) by { assert rest == (rest + [name])[..|rest|]; }
    forall d | d in dependents ensures d in before && before[d] > 0 && d !in rest {
      assert Edge(g, d, name);
      WasWaiting(g, order, name, rest, before, d);
    }
    counts, ready := VisitAll(g, rest, before, dependents);
    CountedAfter(g, order, name, before, dependents, counts);
    ReleasedAfter(g, order, name, rest, before, dependents, counts, ready);
  }

  lemma CountedAfter(g: Relation, order: seq<string>, name: string, before: map<string, Int>,
                     dependents: seq<string>, counts: map<string, Int>)
    requires Linked(g) && name !in order && Counted(g, order, before) && counts.Keys == g.Keys
    requires forall n :: n in dependents <==> Edge(g, n, name)
    requires forall n :: n in g ==> counts[n] as int == before[n] as int - (if n in dependents then 1 else 0)
    ensures Counted(g, order + [name], counts)
  {
    forall n | n in g ensures counts[n] as int == Missing(g[n], order + [name]) {
      MissingAppend(g[n], order, name);
      assert n in dependents <==> Edge(g, n, name);
    }
  }

  lemma ReleasedAfter(g: Relation, order: seq<string>, name: string, rest: seq<string>, before: map<string, Int>,
                      dependents: seq<string>, counts: map<string, Int>, ready: seq<string>)
    requires Linked(g) && name in g && name !in order && name !in rest && NoDuplicates(ready)
    requires Counted(g, order, before) && Released(g, order, rest + [name], before) && counts.Keys == g.Keys
    requires forall n :: n in dependents <==> Edge(g, n, name)
    requires forall n :: n in g ==> counts[n] as int == before[n] as int - (if n in dependents then 1 else 0)
    requires forall n :: n in ready <==> n in rest || (n in g && n in dependents && counts[n] == 0)
    ensures Released(g, order + [name], ready, counts)
  {
    assert forall n :: n in rest ==> n in rest + [name];
    forall n | n in g
      ensures counts[n] == 0 <==> n in ready || n in order + [name]
      ensures n in ready ==> n !in order + [name]
    {
      assert n in rest + [name] <==> n in rest || n == name;
      if n in dependents {
        assert Edge(g, n, name);
        MissingAppend(g[n], order, name);
      }
    }
  }

  /** What the worklist keeps: `order` is the names popped so far. */
  ghost predicate Work(g: Relation, order: seq<string>, ready: seq<string>, counts: map<string, Int>) {
    Topological(g, order) && Counted(g, order, counts) && Released(g, order, ready, counts)
  }

  /** One turn of the outer loop. */
  method Pop(ghost g: Relation, ghost order: seq<string>, ready: seq<string>, before: map<string, Int>,
             dependents: map<string, seq<string>>)
    returns (counts: map<string, Int>, next: seq<string>)
    requires Linked(g) && Reversed(g, dependents) && Work(g, order, ready, before) && ready != []
    ensures |order| < |g.Keys| && Work(g, order + [ready[|ready| - 1]], next, counts)
  {
    var name := ready[|ready| - 1];
    var rest := ready[..|ready| - 1];
    assert ready == rest + [name];
    Pops(g, order, rest, name, before);
    counts, next := Release(g, order, name, rest, before, Listed(dependents, name));
  }

  /** The worklist ends with every count at zero exactly when the relation has no cycle. */
  method Drain(ghost g: Relation, initial: map<string, Int>, dependents: map<string, seq<string>>, first: seq<string>)
    returns (counts: map<string, Int>)
    requires Linked(g) && Reversed(g, dependents) && Work(g, [], first, initial)
    ensures counts.Keys == g.Keys
    ensures (forall n :: n in counts ==> counts[n] == 0) <==> Acyclic(g)
  {
    counts := initial;
    var ready := first;
    ghost var order: seq<string> := [];
    while ready != []
      invariant Work(g, order, ready, counts)
      decreases |g.Keys| - |order|
    {
      ghost var popped := ready[|ready| - 1];
      counts, ready := Pop(g, order, ready, counts, dependents);
      order := order + [popped];
    }
    Verdict(g, order, counts);
  }

  lemma Verdict(g: Relation, order: seq<string>, counts: map<string, Int>)
    requires Linked(g) && Work(g, order, [], counts)
    ensures counts.Keys == g.Keys
    ensures (forall n :: n in counts ==> counts[n] == 0) <==> Acyclic(g)
  {
    if forall n :: n in counts ==> counts[n] == 0 {
      OrderedIsAcyclic(g, order);
    } else {
      var start :| start in counts && counts[start] != 0;
      Unreleased(g, order, counts, start);
    }
  }

  lemma Unreleased(g: Relation, order: seq<string>, counts: map<string, Int>, start: string)
    requires Linked(g) && Work(g, order, [], counts) && start in g && start !in order
    ensures !Acyclic(g)
  {
    var u := set n | n in g && n !in order;
    var next := map n | n in u :: Unordered(g[n], order);
    forall n | n in u ensures next[n] in u && Edge(g, n, next[n]) {
      UnorderedWaits(g, order, counts, n);
    }
    StuckIsCyclic(g, u, next, start);
  }

  ghost function Unordered(ds: seq<string>, order: seq<string>): string {
    if exists d :: d in ds && d !in order then var d :| d in ds && d !in order; d else ""
  }

  lemma UnorderedWaits(g: Relation, order: seq<string>, counts: map<string, Int>, n: string)
    requires Linked(g) && Work(g, order, [], counts) && n in g && n !in order
    ensures Unordered(g[n], order) in g[n] && Unordered(g[n], order) in g && Unordered(g[n], order) !in order
  {
    MissingNone(g[n], order);
  }
}
