/**
 The resource meter: exact fractional cents per resource, carried as a remainder
 from one snapshot to the next within a subscription period. Resource identifiers
 are natural numbers, times are whole seconds.
 */
module Meter {
  import opened Base

  /** Whole seconds of the longest gap that is charged. */
  const MAX_GAP: int := 300

  datatype Kind = Compute | Storage

  datatype Resource = Resource(id: nat, units: int)

  datatype Sample = Sample(subscription: nat, period: int, observed: int, units: int, remainder: int)

  datatype Event = Event(resource: nat, subscription: nat, cents: int, occurred: int)

  datatype Billing = Billing(active: bool, subscription: nat, start: int, end: int)

  function Denominator(k: Kind): int {
    if k == Storage then 25920000000000000 else 720 * 3600
  }

  /** A product with the cents per unit and 720 hours, on the scale of `Denominator`. */
  function Rated(x: int, k: Kind): int {
    if k == Storage then x * 14 else x * 300
  }

  /** Whole cents in units of 1/Denominator. */
  function Whole(cents: int, k: Kind): int {
    if k == Storage then cents * 25920000000000000 else cents * 2592000
  }

  // ----- what is due ------------------------------------------------------------------------------

  datatype Observation = Observation(at: int, units: int)

  function Min(a: int, b: int): int {
    if a < b then a else b
  }

  /** Two neighbouring observations: the smaller amount for the time between them, unless the gap is too long. */
  function Charge(a: Observation, b: Observation, k: Kind): int {
    if b.at - a.at <= MAX_GAP then Rated(Min(a.units, b.units) * (b.at - a.at), k) else 0
  }

  /** The exact amount due for a run of observations, in units of 1/Denominator cents. */
  function Due(run: seq<Observation>, k: Kind): int {
    if |run| < 2 then 0 else Due(run[..|run| - 1], k) + Charge(run[|run| - 2], run[|run| - 1], k)
  }

  function CentsOf(events: seq<Event>, id: nat): int {
    if events == [] then 0
    else CentsOf(events[..|events| - 1], id) + (if events[|events| - 1].resource == id then
        events[|events| - 1].cents else 0)
  }

  lemma CentsAppend(events: seq<Event>, e: Event)
    ensures forall id :: CentsOf(events + [e], id) == CentsOf(events, id) + (if e.resource == id then e.cents else 0)
  {
    assert (events + [e])[..|events|] == events;
  }

  /** Amounts are not negative and time goes forward. */
  predicate Run(run: seq<Observation>) {
    && run != [] && run[|run| - 1].units >= 0
    && (|run| > 1 ==> run[|run| - 2].at < run[|run| - 1].at && Run(run[..|run| - 1]))
  }

  /** An amount cut into whole cents and a remainder. */
  method Cut(total: int, k: Kind) returns (cents: int, remainder: int)
    requires total >= 0
    ensures cents >= 0 && 0 <= remainder < Denominator(k) && Whole(cents, k) + remainder == total
  {
    cents := total / Denominator(k);
    remainder := total;
    if cents > 0 { remainder := remainder - cents * Denominator(k); }
  }

  /** The event belongs to the billing period and is worth something. */
  predicate Inside(e: Event, b: Billing) {
    b.start <= e.occurred < b.end && e.cents > 0 && e.subscription == b.subscription
  }

  lemma Join(u: int, x: int, y: int)
    ensures u * x + u * y == u * (x + y)
  {
  }

  /** The stored sample is of the same subscription period. */
  predicate Continues(samples: map<nat, Sample>, id: nat, b: Billing) {
    id in samples && samples[id].subscription == b.subscription && samples[id].period == b.start
  }

  /** A repeated or older observation changes nothing; another period starts a new run. */
  ghost function NextRun(samples: map<nat, Sample>, accounts: map<nat, Account>, r: Resource, at: int,
                         b: Billing): seq<Observation>
    requires r.id in samples ==> r.id in accounts
  {
    if r.id in samples && at <= samples[r.id].observed then accounts[r.id].run
    else if Continues(samples, r.id, b) then accounts[r.id].run + [Observation(at, r.units)]
    else [Observation(at, r.units)]
  }

  lemma RunGrows(run: seq<Observation>, o: Observation, k: Kind)
    requires Run(run) && o.units >= 0 && run[|run| - 1].at < o.at
    ensures Run(run + [o]) && Due(run + [o], k) == Due(run, k) + Charge(run[|run| - 1], o, k)
    ensures Charge(run[|run| - 1], o, k) >= 0 && run[0].at <= run[|run| - 1].at
  {
    assert (run + [o])[..|run|] == run;
    RunFirst(run);
    var last := run[|run| - 1];
    Positive(Min(last.units, o.units), o.at - last.at);
  }

  lemma {:induction false} RunFirst(run: seq<Observation>)
    requires Run(run)
    ensures run[0].at <= run[|run| - 1].at
  {
    if |run| > 1 { RunFirst(run[..|run| - 1]); }
  }

  lemma Positive(a: int, b: int)
    requires a >= 0 && b >= 0
    ensures a * b >= 0
  {
  }

  /** Nothing is lost or charged twice: the cents billed and the remainder make up exactly what is due. */
  ghost predicate Exact(s: Sample, run: seq<Observation>, cents: int, k: Kind) {
    && Run(run) && run[|run| - 1] == Observation(s.observed, s.units) && s.period <= run[0].at
    && 0 <= s.remainder < Denominator(k)
    && Whole(cents, k) + s.remainder == Due(run, k)
  }

  lemma StartsExact(r: Resource, at: int, b: Billing, k: Kind)
    requires r.units >= 0 && b.start <= at
    ensures Exact(Sample(b.subscription, b.start, at, r.units, 0), [Observation(at, r.units)], 0, k)
  {
  }

  /** The run of observations behind a stored sample, and what had been billed when it began. */
  datatype Account = Account(run: seq<Observation>, before: int)

  ghost predicate RowOk(s: Sample, a: Account, cents: int, k: Kind) {
    Exact(s, a.run, cents - a.before, k)
  }

  ghost predicate BooksOk(kind: nat -> Kind, samples: map<nat, Sample>, accounts: map<nat, Account>,
                          events: seq<Event>) {
    samples.Keys == accounts.Keys && forall id ::
        id in samples ==> RowOk(samples[id], accounts[id], CentsOf(events, id), kind(id))
  }

  /** Storing one exact row leaves the other rows exact. */
  lemma Stored(kind: nat -> Kind, samples: map<nat, Sample>, accounts: map<nat, Account>, was: seq<Event>,
               events: seq<Event>,
               id: nat, s: Sample, a: Account)
    requires BooksOk(kind, samples, accounts, was)
    requires forall i :: i != id ==> CentsOf(events, i) == CentsOf(was, i)
    requires RowOk(s, a, CentsOf(events, id), kind(id))
    ensures BooksOk(kind, samples[id := s], accounts[id := a], events)
  {
  }

  function Restrict<T>(m: map<nat, T>, ids: set<nat>): map<nat, T>
    requires ids <= m.Keys
  {
    map id | id in ids :: m[id]
  }

  /** Deleting rows leaves the others exact. */
  lemma Dropped(kind: nat -> Kind, samples: map<nat, Sample>, accounts: map<nat, Account>, events: seq<Event>,
                ids: set<nat>)
    requires BooksOk(kind, samples, accounts, events) && ids <= samples.Keys
    ensures BooksOk(kind, Restrict(samples, ids), Restrict(accounts, ids), events)
  {
  }

  function IdsOf(resources: seq<Resource>): set<nat> {
    if resources == [] then {} else IdsOf(resources[..|resources| - 1]) + {resources[|resources| - 1].id}
  }

  lemma Extended(resources: seq<Resource>, i: nat)
    requires i < |resources|
    ensures resources[..i + 1] == resources[..i] + [resources[i]]
  {
  }

  lemma {:induction false} IdsAre(resources: seq<Resource>)
    ensures forall id :: id in IdsOf(resources) <==> exists i :: 0 <= i < |resources| && resources[i].id == id
  {
    if resources != [] {
      var front, last := resources[..|resources| - 1], resources[|resources| - 1];
      IdsAre(front);
      forall i | 0 <= i < |resources| ensures resources[i].id in IdsOf(resources) {
        if i < |front| { assert front[i] == resources[i]; }
      }
      forall id | id in IdsOf(front) ensures exists i :: 0 <= i < |resources| && resources[i].id == id {
        var i :| 0 <= i < |front| && front[i].id == id;
        assert resources[i] == front[i];
      }
    }
  }

  /** The first entry of the snapshot for its resource; the code ignores any later one. */
  predicate Leads(resources: seq<Resource>, i: nat)
    requires i < |resources|
  {
    forall j :: 0 <= j < i ==> resources[j].id != resources[i].id
  }

  ghost predicate SameRow(samples: map<nat, Sample>, accounts: map<nat, Account>, samples': map<nat, Sample>,
                          accounts': map<nat, Account>, id: nat) {
    && (id in samples <==> id in samples') && (id in samples && id in samples' ==> samples'[id] == samples[id])
    && (id in accounts <==> id in accounts') && (id in accounts && id in accounts' ==> accounts'[id] == accounts[id])
  }

  /** Every resource of the snapshot has its run carried on, once. */
  ghost predicate Observed(samples: map<nat, Sample>, accounts: map<nat, Account>, after: map<nat, Account>,
                           resources: seq<Resource>, at: int, b: Billing) {
    && samples.Keys == accounts.Keys
    && forall i :: 0 <= i < |resources| ==>
         resources[i].id in after
             && (Leads(resources, i) ==> after[resources[i].id].run == NextRun(samples, accounts, resources[i], at, b))
  }

  lemma ObservedNext(samples: map<nat, Sample>, accounts: map<nat, Account>, rows: map<nat, Sample>,
                     books: map<nat, Account>,
                     after: map<nat, Account>, done: seq<Resource>, r: Resource, at: int, b: Billing)
    requires Observed(samples, accounts, books, done, at, b) && rows.Keys == books.Keys && r.id in after
    requires after == books[r.id := after[r.id]] && after[r.id].run == NextRun(rows, books, r, at, b)
    requires forall id :: id in IdsOf(done) ==> id in rows && at <= rows[id].observed
    requires forall id :: id !in IdsOf(done) ==> SameRow(samples, accounts, rows, books, id)
    ensures Observed(samples, accounts, after, done + [r], at, b)
  {
    IdsAre(done);
    var all := done + [r];
    assert forall j :: 0 <= j < |done| ==> all[j] == done[j];
    forall i | 0 <= i < |all|
      ensures all[i].id in after
                && (Leads(all, i) ==> after[all[i].id].run == NextRun(samples, accounts, all[i], at, b))
    {
      if i < |done| {
        if Leads(all, i) { assert Leads(done, i); }
      } else if Leads(all, i) {
        assert SameRow(samples, accounts, rows, books, r.id);
      }
    }
  }

  /** Part of the snapshot is recorded, and the rows of no other resource have been touched. */
  ghost predicate Swept(samples: map<nat, Sample>, accounts: map<nat, Account>, rows: map<nat, Sample>,
                        books: map<nat, Account>,
                        done: seq<Resource>, at: int, b: Billing) {
    && Observed(samples, accounts, books, done, at, b) && rows.Keys == books.Keys
    && (forall id :: id in IdsOf(done) ==> id in rows && at <= rows[id].observed)
    && forall id :: id !in IdsOf(done) ==> SameRow(samples, accounts, rows, books, id)
  }

  lemma SweptNext(samples: map<nat, Sample>, accounts: map<nat, Account>, rows: map<nat, Sample>,
                  books: map<nat, Account>,
                  rows': map<nat, Sample>, books': map<nat, Account>, done: seq<Resource>, r: Resource, at: int,
                  b: Billing)
    requires Swept(samples, accounts, rows, books, done, at, b) && r.id in rows' && r.id in books'
    requires rows' == rows[r.id := rows'[r.id]] && books' == books[r.id := books'[r.id]]
    requires books'[r.id].run == NextRun(rows, books, r, at, b) && at <= rows'[r.id].observed
    ensures Swept(samples, accounts, rows', books', done + [r], at, b)
    ensures IdsOf(done + [r]) == IdsOf(done) + {r.id}
  {
    ObservedNext(samples, accounts, rows, books, books', done, r, at, b);
    assert (done + [r])[..|done|] == done;
  }

  /** Events are only ever appended, and those appended now belong to the billing period. */
  ghost predicate Grew(was: seq<Event>, now: seq<Event>, b: Billing) {
    was <= now && forall k :: |was| <= k < |now| ==> Inside(now[k], b)
  }

  // ----- the meter ------------------------------------------------------------------------------------

  class Table {
    /** The kind of a resource is fixed by its identifier. */
    const kind: nat -> Kind
    var samples: map<nat, Sample>
    var events: seq<Event>
    ghost var accounts: map<nat, Account>

    ghost function Billed(id: nat): int
      requires id in accounts
      reads this
    {
      CentsOf(events, id) - accounts[id].before
    }

    ghost predicate Valid()
      reads this
    {
      BooksOk(kind, samples, accounts, events)
    }

    constructor (kind: nat -> Kind)
      ensures Valid() && samples == map[] && events == [] && this.kind == kind
    {
      this.kind := kind;
      samples, events, accounts := map[], [], map[];
    }

    /** The event a charge produces, if it comes to a whole cent. */
    method Emit(id: nat, b: Billing, total: int, at: int) returns (remainder: int)
      requires total >= 0 && b.start < at < b.end
      modifies this`events
      ensures Grew(old(events), events, b)
      ensures forall i :: i != id ==> CentsOf(events, i) == CentsOf(old(events), i)
      ensures 0 <= remainder < Denominator(kind(id))
      ensures Whole(CentsOf(events, id) - CentsOf(old(events), id), kind(id)) + remainder == total
    {
      var cents;
      cents, remainder := Cut(total, kind(id));
      if cents > 0 {
        var e := Event(id, b.subscription, cents, at - 1);
        CentsAppend(events, e);
        events := events + [e];
      }
    }

    /** Charge the time since the last sample of this period. */
    method Accrue(r: Resource, at: int, b: Billing) returns (remainder: int)
      requires Valid() && r.units >= 0 && b.start <= at < b.end && Continues(samples, r.id, b)
                && at > samples[r.id].observed
      modifies this`events
      ensures Grew(old(events), events, b)
      ensures forall i :: i != r.id ==> CentsOf(events, i) == CentsOf(old(events), i)
      ensures Exact(Sample(b.subscription, b.start, at, r.units, remainder),
                accounts[r.id].run + [Observation(at, r.units)], Billed(r.id), kind(r.id))
    {
      var s, k := samples[r.id], kind(r.id);
      assert RowOk(s, accounts[r.id], CentsOf(events, r.id), k);
      RunGrows(accounts[r.id].run, Observation(at, r.units), k);
      remainder := s.remainder;
      if at - s.observed <= MAX_GAP && s.observed >= b.start {
        remainder := Emit(r.id, b, s.remainder + Rated(Min(s.units, r.units) * (at - s.observed), k), at);
      }
    }

    /** The upsert of one sample whose row is exact again. */
    method Store(id: nat, s: Sample, ghost was: seq<Event>, ghost a: Account)
      requires BooksOk(kind, samples, accounts, was) && forall i :: i != id ==> CentsOf(events, i) == CentsOf(was, i)
      requires RowOk(s, a, CentsOf(events, id), kind(id))
      modifies this`samples, this`accounts
      ensures Valid() && samples == old(samples)[id := s] && accounts == old(accounts)[id := a]
    {
      Stored(kind, samples, accounts, was, events, id, s, a);
      samples, accounts := samples[id := s], accounts[id := a];
    }

    /** A sample of the same period: charge the time since, and go on with its run. */
    method Extend(r: Resource, at: int, b: Billing)
      requires Valid() && r.units >= 0 && b.start <= at < b.end && Continues(samples, r.id, b)
                && at > samples[r.id].observed
      modifies this`samples, this`accounts, this`events
      ensures Valid() && Grew(old(events), events, b)
      ensures r.id in samples && samples == old(samples)[r.id := samples[r.id]]
                && accounts == old(accounts)[r.id := accounts[r.id]]
      ensures accounts[r.id].run == old(accounts)[r.id].run + [Observation(at, r.units)]
      ensures Continues(samples, r.id, b) && samples[r.id].observed == at
    {
      ghost var was, a := events, accounts[r.id];
      var remainder := Accrue(r, at, b);
      Store(r.id, Sample(b.subscription, b.start, at, r.units, remainder), was,
          a.(run := a.run + [Observation(at, r.units)]));
    }

    /** A first sample, or the first of a new period: nothing to charge, and no remainder. */
    method Restart(r: Resource, at: int, b: Billing)
      requires Valid() && r.units >= 0 && b.start <= at < b.end
      modifies this`samples, this`accounts
      ensures Valid() && r.id in samples && samples == old(samples)[r.id := samples[r.id]]
                && accounts == old(accounts)[r.id := accounts[r.id]]
      ensures accounts[r.id].run == [Observation(at, r.units)] && Continues(samples, r.id, b)
                && samples[r.id].observed == at
    {
      StartsExact(r, at, b, kind(r.id));
      Store(r.id, Sample(b.subscription, b.start, at, r.units, 0), events,
          Account([Observation(at, r.units)], CentsOf(events, r.id)));
    }

    /** One turn of the loop. */
    method Observe(r: Resource, at: int, b: Billing)
      requires Valid() && r.units >= 0 && b.start <= at < b.end
      modifies this`samples, this`accounts, this`events
      ensures Valid() && Grew(old(events), events, b)
      ensures r.id in samples && samples == old(samples)[r.id := samples[r.id]]
                && accounts == old(accounts)[r.id := accounts[r.id]]
      ensures accounts[r.id].run == NextRun(old(samples), old(accounts), r, at, b) && at <= samples[r.id].observed
      ensures Continues(samples, r.id, b) || (r.id in old(samples) && at <= old(samples)[r.id].observed)
    {
      if r.id in samples && at <= samples[r.id].observed { return; }
      if Continues(samples, r.id, b) { Extend(r, at, b); } else { Restart(r, at, b); }
    }

    method ObserveNext(ghost done: seq<Resource>, r: Resource, at: int, b: Billing,
                       ghost first: map<nat, Sample>, ghost books: map<nat, Account>, ghost was: seq<Event>)
      requires Valid() && r.units >= 0 && b.start <= at < b.end
      requires Swept(first, books, samples, accounts, done, at, b) && Grew(was, events, b)
      modifies this`samples, this`accounts, this`events
      ensures Valid() && Grew(was, events, b)
      ensures Swept(first, books, samples, accounts, done + [r], at, b) && IdsOf(done + [r]) == IdsOf(done) + {r.id}
    {
      Observe(r, at, b);
      SweptNext(first, books, old(samples), old(accounts), samples, accounts, done, r, at, b);
    }

    method ObserveAll(resources: seq<Resource>, at: int, b: Billing) returns (ids: set<nat>)
      requires Valid() && b.start <= at < b.end && forall i :: 0 <= i < |resources| ==> resources[i].units >= 0
      modifies this`samples, this`accounts, this`events
      ensures Valid() && Grew(old(events), events, b) && ids == IdsOf(resources) && ids <= samples.Keys
      ensures Observed(old(samples), old(accounts), accounts, resources, at, b)
    {
      ghost var was, done: seq<Resource> := events, [];
      ghost var first, books := samples, accounts;
      ids := {};
      var i := 0;
      while i < |resources|
        invariant 0 <= i <= |resources| && Valid() && done == resources[..i] && ids == IdsOf(done)
        invariant Grew(was, events, b) && Swept(first, books, samples, accounts, done, at, b)
      {
        Extended(resources, i);
        ObserveNext(done, resources[i], at, b, first, books, was);
        done := done + [resources[i]];
        ids := ids + {resources[i].id};
        i := i + 1;
      }
      assert done == resources;
    }

    /**
     recordResourceSnapshot. A resource that is missing from the snapshot loses its
     sample, and with it less than one cent of remainder.
     */
    method Record(resources: seq<Resource>, at: int, b: Billing) returns (ok: bool)
      requires Valid() && forall i :: 0 <= i < |resources| ==> resources[i].units >= 0
      modifies this`samples, this`accounts, this`events
      ensures Valid() && Grew(old(events), events, b) && (ok <==> b.active && b.start <= at < b.end)
      ensures !ok ==> samples == old(samples) && events == old(events)
      ensures ok ==>
                samples.Keys == IdsOf(resources) && Observed(old(samples), old(accounts), accounts, resources, at, b)
    {
      if !b.active || at < b.start || at >= b.end { return false; }
      var ids := ObserveAll(resources, at, b);
      IdsAre(resources);
      Dropped(kind, samples, accounts, events, ids);
      samples, accounts := Restrict(samples, ids), Restrict(accounts, ids);
      ok := true;
    }
  }

  // ----- the theorems -----------------------------------------------------------------------------

  /** What was billed for a run of observations is exactly the amount due, rounded down to whole cents. */
  lemma BilledIsFloor(t: Table, id: nat)
    requires t.Valid() && id in t.samples
    ensures t.Billed(id) == Due(t.accounts[id].run, t.kind(id)) / Denominator(t.kind(id))
  {
    assert RowOk(t.samples[id], t.accounts[id], CentsOf(t.events, id), t.kind(id));
    Quotient(Due(t.accounts[id].run, t.kind(id)), Denominator(t.kind(id)), t.Billed(id), t.samples[id].remainder);
  }

  lemma Quotient(x: int, d: int, q: int, r: int)
    requires d > 0 && 0 <= r < d && q * d + r == x
    ensures x / d == q
  {
    var k := q - x / d;
    assert k * d == x % d - r;
    assert k >= 1 ==> k * d >= d;
    assert k <= -1 ==> k * d <= -d;
  }

  ghost predicate Constant(run: seq<Observation>, units: int) {
    && (forall i :: 0 <= i < |run| ==> run[i].units == units)
    && (forall i :: 0 < i < |run| ==> Close(run, i))
  }

  predicate Close(run: seq<Observation>, i: nat)
    requires 0 < i < |run|
  {
    run[i].at - run[i - 1].at <= MAX_GAP
  }

  /** With constant units and no long gap, what is due depends only on the first and the last instant. */
  lemma {:induction false} ScheduleIndependent(run: seq<Observation>, units: int, k: Kind)
    requires Run(run) && Constant(run, units)
    ensures Due(run, k) == Rated(units * (run[|run| - 1].at - run[0].at), k)
  {
    var first, last := run[0].at, run[|run| - 1].at;
    if |run| == 1 {
      assert units * (last - first) == 0;
    } else {
      var front := run[..|run| - 1];
      var mid := run[|run| - 2].at;
      forall i | 0 < i < |front| ensures Close(front, i) { assert Close(run, i); }
      ScheduleIndependent(front, units, k);
      assert Close(run, |run| - 1);
      assert Charge(run[|run| - 2], run[|run| - 1], k) == Rated(units * (last - mid), k);
      Join(units, mid - first, last - mid);
      RatedSum(units * (mid - first), units * (last - mid), k);
    }
  }

  lemma RatedSum(x: int, y: int, k: Kind)
    ensures Rated(x, k) + Rated(y, k) == Rated(x + y, k)
  {
  }

  /** Hence two sampling schedules over the same stretch of time bill the same cents. */
  lemma SameBill(a: Table, b: Table, id: nat, units: int)
    requires a.Valid() && b.Valid() && id in a.samples && id in b.samples && a.kind == b.kind
    requires Constant(a.accounts[id].run, units) && Constant(b.accounts[id].run, units)
    requires a.accounts[id].run[0].at == b.accounts[id].run[0].at && a.samples[id].observed == b.samples[id].observed
    ensures a.Billed(id) == b.Billed(id) && a.samples[id].remainder == b.samples[id].remainder
  {
    BilledIsFloor(a, id);
    BilledIsFloor(b, id);
    ScheduleIndependent(a.accounts[id].run, units, a.kind(id));
    ScheduleIndependent(b.accounts[id].run, units, b.kind(id));
  }

  /**
   Any snapshots at any times, in any periods: what stands billed for a run is always the amount
   due, rounded down.
   */
  method AnySnapshots(kind: nat -> Kind) returns (t: Table)
    ensures t.Valid() && t.kind == kind
    ensures forall id :: id in t.samples ==> t.Billed(id) == Due(t.accounts[id].run, kind(id)) / Denominator(kind(id))
    ensures forall k :: 0 <= k < |t.events| ==> t.events[k].cents > 0
  {
    t := new Table(kind);
    var snapshots: nat := *;
    while snapshots > 0
      invariant fresh(t) && t.Valid() && t.kind == kind && forall k :: 0 <= k < |t.events| ==> t.events[k].cents > 0
    {
      var resources: seq<Resource> := *;
      var at: int, b: Billing := *, *;
      if forall i :: 0 <= i < |resources| ==> resources[i].units >= 0 {
        ghost var before := t.events;
        var _ := t.Record(resources, at, b);
        assert forall k :: 0 <= k < |t.events| ==>
            if k < |before| then t.events[k] == before[k] else Inside(t.events[k], b);
      }
      snapshots := snapshots - 1;
    }
    forall id | id in t.samples ensures t.Billed(id) == Due(t.accounts[id].run, kind(id)) / Denominator(kind(id)) {
      BilledIsFloor(t, id);
    }
  }

  // ----- the listed prices -----------------------------------------------------------------------------------

  /** The price of so many unit-seconds: 300 cents a unit for 720 hours, 14 cents ten decimal gigabytes. */
  ghost predicate Priced(due: int, unitSeconds: int, k: Kind) {
    match k
    case Compute => due == 300 * unitSeconds && Denominator(k) == 720 * 3600
    case Storage => due == 14 * unitSeconds && Denominator(k) == 10_000_000_000 * (720 * 3600)
  }

  /** Between two observations the smaller amount is charged for the time between them; after a long gap, nothing. */
  lemma ChargeIs(a: Observation, b: Observation, k: Kind)
    ensures b.at - a.at > 300 ==> Charge(a, b, k) == 0
    ensures b.at - a.at <= 300 && a.units <= b.units ==> Priced(Charge(a, b, k), a.units * (b.at - a.at), k)
    ensures b.at - a.at <= 300 && b.units <= a.units ==> Priced(Charge(a, b, k), b.units * (b.at - a.at), k)
  {
  }

  /** A constant resource, observed often enough over 720 hours, is billed its listed price, rounded down. */
  lemma MonthlyBill(t: Table, id: nat, units: int)
    requires t.Valid() && id in t.samples && Constant(t.accounts[id].run, units)
    requires t.samples[id].observed == t.accounts[id].run[0].at + 720 * 3600
    ensures t.kind(id) == Compute ==> t.Billed(id) == 300 * units && t.samples[id].remainder == 0
    ensures t.kind(id) == Storage ==> t.Billed(id) == 14 * units / 10_000_000_000
  {
    var run, k := t.accounts[id].run, t.kind(id);
    assert RowOk(t.samples[id], t.accounts[id], CentsOf(t.events, id), k);
    BilledIsFloor(t, id);
    ScheduleIndependent(run, units, k);
    assert Due(run, k) == Rated(units * (720 * 3600), k);
    if k == Compute {
      Quotient(Due(run, k), Denominator(k), 300 * units, 0);
    } else {
      Reduce(14 * units, 10_000_000_000, 720 * 3600);
    }
  }

  /** A common factor of an amount and its denominator does not matter to the quotient. */
  lemma Reduce(x: int, d: int, f: int)
    requires d > 0 && f > 0
    ensures d * f > 0 && (x * f) / (d * f) == x / d
  {
    var q, r := x / d, x % d;
    assert x == q * d + r;
    assert x * f == q * (d * f) + r * f;
    assert r * f < d * f && r * f >= 0;
    assert d * f > 0;
    Quotient(x * f, d * f, q, r * f);
  }
}
