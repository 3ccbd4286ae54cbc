/**
 The compare-and-swap retry loops behind every lifecycle transition. Between any two
 steps of a call others may write anything; the log keeps every value that was ever
 durable, so that a call's effect can be placed at one moment of it.
 */
module StateRegister {
  import opened Base
  import opened LifecycleState

  const RETRIES: nat := 8

  /** How a call ended: `Settled` with the state it stands on, fenced, or without knowing. */
  datatype Ending = Settled(state: State) | Fenced | Unknown

  type Transition = State -> Outcome

  /**
   What one pass of the loop meets: what others write before its read and between read and write, whether
   the read succeeds, and whether its write lands and is acknowledged.
   */
  datatype Pass = Pass(before: seq<Option<State>>, seen: bool, between: seq<Option<State>>, lands: bool, acked: bool)

  /** Nothing fails and nobody else writes between the read and the write. */
  predicate Clear(p: Pass) {
    p.seen && p.acked && p.between == []
  }

  function Last(was: Option<State>, writes: seq<Option<State>>): Option<State> {
    if writes == [] then was else writes[|writes| - 1]
  }

  function Apply(transition: Transition, s: Option<State>): Outcome {
    if s.None? then Fence else transition(s.value)
  }

  class Register {
    var version: nat
    var state: Option<State>
    /** What each pass of any call meets, and how many have been made. */
    const passes: nat -> Pass
    var made: nat
    ghost var log: seq<Option<State>>
    /** The versions that the current call has written. */
    ghost var mine: set<nat>

    ghost predicate Valid()
      reads this
    {
      |log| == version + 1 && log[version] == state && forall v :: v in mine ==> 0 < v <= version
    }

    constructor (passes: nat -> Pass)
      ensures Valid() && state == None && mine == {} && made == 0 && this.passes == passes
    {
      this.passes := passes;
      version, state, log, mine, made := 0, None, [None], {}, 0;
    }

    /** Writes by anybody else. */
    method Others(writes: seq<Option<State>>)
      requires Valid()
      modifies this`version, this`state, this`log
      ensures Valid() && log == old(log) + writes && state == Last(old(state), writes)
    {
      var i := 0;
      while i < |writes|
        invariant 0 <= i <= |writes| && Valid() && log == old(log) + writes[..i]
        invariant state == Last(old(state), writes[..i])
      {
        state := writes[i];
        version := version + 1;
        log := log + [state];
        assert writes[..i + 1] == writes[..i] + [writes[i]];
        i := i + 1;
      }
      assert writes[..i] == writes;
    }

    /** PutJSONIfMatch: written if the version still matches, acknowledged or not. */
    method PutIfMatch(etag: nat, s: State, lands: bool, acked: bool) returns (written: bool)
      requires Valid()
      modifies this`version, this`state, this`log, this`mine
      ensures Valid() && old(log) <= log
      ensures written ==> etag == old(version) && log == old(log) + [Some(s)] && mine == old(mine) + {version}
      ensures !written ==> log == old(log) && mine == old(mine)
      ensures written <==> etag == old(version) && (acked || lands)
    {
      written := false;
      if etag == version && (acked || lands) {
        version, state := version + 1, Some(s);
        log, mine := log + [Some(s)], mine + {version};
        written := true;
      }
    }

    /** What a finished call may claim: it changed nothing, or exactly one moment, by its transition. */
    ghost predicate Atomic(from: nat, transition: Transition)
      reads this
    {
      || mine == {}
      || exists v :: from < v < |log| && mine == {v} && log[v].Some?
          && Apply(transition, log[v - 1]) == Write(log[v].value)
    }

    /** What a call that knows its end may say: it stands on a state that was durable during the call. */
    ghost predicate Grounded(from: nat, transition: Transition, ending: Ending)
      reads this
    {
      match ending
      case Settled(s) =>
        || (exists v :: from <= v < |log| && log[v] == Some(s) && Apply(transition, log[v]) == Keep)
        || (mine != {} && exists v :: v in mine && v < |log| && log[v] == Some(s))
      case Fenced => mine == {} && exists v :: from <= v < |log| && Apply(transition, log[v]) == Fence
      case Unknown => true
    }

    /** One pass of the loop: read, decide, write. */
    method Attempt(transition: Transition) returns (ending: Ending, again: bool)
      requires Valid() && mine == {}
      modifies this
      ensures Valid() && old(log) <= log && Atomic(old(version), transition) && made == old(made) + 1
      ensures if again then mine == {} else Grounded(old(version), transition, ending)
      ensures again ==> passes(old(made)).between != []
      ensures ending.Unknown? && !again ==> !passes(old(made)).seen || !passes(old(made)).acked
      ensures Clear(passes(old(made))) ==> !again && Effect(old(state), old(log), transition, old(made), ending)
    {
      var p := passes(made);
      made, again := made + 1, false;
      Others(p.before);
      if !p.seen { return Unknown, false; }
      var etag, current := version, state;
      assert log[etag] == current;
      var outcome := Apply(transition, current);
      Others(p.between);
      assert log[etag] == current;
      match outcome
      case Fence => ending := Fenced;
      case Keep => ending := Settled(current.value);
      case Write(s) =>
        ghost var before := log;
        var written := PutIfMatch(etag, s, p.lands, p.acked);
        assert written ==> log[version - 1] == before[etag] == current;
        if !p.acked { return Unknown, false; }
        if written { return Settled(s), false; }
        return Unknown, true;
    }

    /** What an undisturbed pass does: exactly its transition of the state that it finds. */
    ghost predicate Effect(was: Option<State>, before: seq<Option<State>>, transition: Transition, n: nat,
                           ending: Ending)
      reads this
    {
      var found := Last(was, passes(n).before);
      match Apply(transition, found)
      case Fence => ending == Fenced && state == found && log == before + passes(n).before
      case Keep => found.Some? && ending == Settled(found.value) && state == found && log == before + passes(n).before
      case Write(s) => ending == Settled(s) && state == Some(s) && log == before + passes(n).before + [Some(s)]
    }

    /**
     The retry loop of mutateCreationState, mutateDestroyState and mutateExposureState:
     however others interfere and wherever acknowledgements are lost, the call is one
     atomic transition of the state it found at that moment, or nothing at all. It ends
     without knowing only after a failure or eight conflicts, and its first pass that is
     not disturbed carries the transition out.
     */
    method Mutate(transition: Transition) returns (ending: Ending)
      requires Valid()
      modifies this
      ensures Valid() && old(log) <= log && Atomic(old(version), transition)
      ensures Grounded(old(version), transition, ending) && old(made) < made <= old(made) + RETRIES
      ensures ending.Unknown? ==>
                || (exists i :: old(made) <= i < made && (!passes(i).seen || !passes(i).acked))
                || (made == old(made) + 8 && forall i :: old(made) <= i < made ==> passes(i).between != [])
      ensures Clear(passes(old(made))) ==>
                made == old(made) + 1 && Effect(old(state), old(log), transition, old(made), ending)
    {
      mine := {};
      var retries := 0;
      while retries < RETRIES
        invariant 0 <= retries <= RETRIES && Valid() && old(log) <= log && mine == {} && version >= old(version)
        invariant made == old(made) + retries && (retries == 0 ==> state == old(state) && log == old(log))
        invariant forall i :: old(made) <= i < made ==> passes(i).between != []
      {
        var again;
        ending, again := Attempt(transition);
        if !again { return; }
        retries := retries + 1;
      }
      ending := Unknown;
    }

    /** mutateCreationState: a write always finds its own operation, outside Destroy's fence. */
    method MutateCreationState(op: nat, index: nat, attempt: nat, m: Mutation) returns (ending: Ending)
      requires Valid()
      modifies this
      ensures Valid() && old(log) <= log
      ensures mine == {} ||
              exists v :: old(version) < v < |log| && mine == {v} && log[v].Some? && log[v - 1].Some?
                && MutateCreation(log[v - 1].value, op, index, attempt, m) == Write(log[v].value)
                && log[v - 1].value.creation.Some? && log[v - 1].value.creation.value.op == op
                && log[v - 1].value.phase !in {Destroying, Destroyed}
      ensures Clear(passes(old(made))) ==>
                Effect(old(state), old(log), s => MutateCreation(s, op, index, attempt, m), old(made), ending)
    {
      ending := Mutate(s => MutateCreation(s, op, index, attempt, m));
    }
  }
}
