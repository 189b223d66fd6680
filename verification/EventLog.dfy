/** The canonical append-only log: dense sequences, idempotent ids, compare-and-append.

    An event at index i of the log has canonical sequence i + 1. Content-addressed
    ids are modelled by the datatype `I`: equal identity fields, equal id. */
module EventLog {
  import opened Basics
  import opened Sequences

  datatype Event<+I, +P> = Event(id: I, body: P)

  type Log<I, P> = seq<Event<I, P>>

  datatype AppendResult =
    | Stored(sequence: nat)
    | HeadMoved(expected: nat, actual: nat)
    | NegativeHead

  /** The event with canonical sequence s. */
  function At<I, P>(log: Log<I, P>, s: nat): Event<I, P>
    requires 1 <= s <= |log|
  {
    log[s - 1]
  }

  /** The sequence under which an id is stored; 0 when it is absent. */
  function SequenceOf<I(==), P>(log: Log<I, P>, id: I): (s: nat)
    ensures s <= |log|
    ensures s != 0 ==> log[s - 1].id == id
  {
    if |log| == 0 then 0
    else
      var n := |log| - 1;
      var s := SequenceOf(log[..n], id);
      if s != 0 then s else if log[n].id == id then n + 1 else 0
  }

  ghost predicate UniqueIds<I, P>(log: Log<I, P>) {
    forall i, j :: 0 <= i < j < |log| ==> log[i].id != log[j].id
  }

  /** Append, or find the event already stored under this id. */
  function AppendTo<I(==), P>(log: Log<I, P>, e: Event<I, P>): (Log<I, P>, nat) {
    var s := SequenceOf(log, e.id);
    if s != 0 then (log, s) else (log + [e], |log| + 1)
  }

  /** Compare-and-append: an existing id wins over the head comparison. */
  function AppendAtHead<I(==), P>(log: Log<I, P>, e: Event<I, P>, expected: int): (Log<I, P>, AppendResult) {
    if expected < 0 then (log, NegativeHead)
    else
      var s := SequenceOf(log, e.id);
      if s != 0 then (log, Stored(s))
      else if expected != |log| then (log, HeadMoved(expected, |log|))
      else (log + [e], Stored(|log| + 1))
  }

  lemma {:induction false} AbsentIs<I, P>(log: Log<I, P>, id: I)
    ensures SequenceOf(log, id) == 0 <==> forall i :: 0 <= i < |log| ==> log[i].id != id
  {
    if log != [] {
      var n := |log| - 1;
      AbsentIs(log[..n], id);
      if SequenceOf(log, id) == 0 {
        forall i | 0 <= i < |log| ensures log[i].id != id {
          if i < n { assert log[i] == log[..n][i]; }
        }
      } else {
        assert log[SequenceOf(log, id) - 1].id == id;
      }
    }
  }

  lemma SequenceOfIs<I, P>(log: Log<I, P>, s: nat)
    requires UniqueIds(log) && 1 <= s <= |log|
    ensures SequenceOf(log, log[s - 1].id) == s
  {
    AbsentIs(log, log[s - 1].id);
    assert log[SequenceOf(log, log[s - 1].id) - 1].id == log[s - 1].id;
  }

  /** A stored sequence never changes: later appends only add ids. */
  lemma {:induction false} SequenceOfStable<I, P>(log: Log<I, P>, more: Log<I, P>, id: I)
    requires SequenceOf(log, id) != 0
    ensures SequenceOf(log + more, id) == SequenceOf(log, id)
  {
    if more == [] {
      assert log + more == log;
    } else {
      var n := |more| - 1;
      assert (log + more)[..|log| + n] == log + more[..n];
      SequenceOfStable(log, more[..n], id);
    }
  }

  lemma OnePosition<I, P>(log: Log<I, P>, s: nat, t: nat)
    requires UniqueIds(log) && 1 <= s <= |log| && 1 <= t <= |log| && At(log, s).id == At(log, t).id
    ensures s == t
  {
  }

  lemma AppendIsFound<I, P>(log: Log<I, P>, e: Event<I, P>)
    requires SequenceOf(log, e.id) == 0
    ensures SequenceOf(log + [e], e.id) == |log| + 1
  {
    assert (log + [e])[..|log|] == log;
  }

  lemma UniqueAppend<I, P>(log: Log<I, P>, e: Event<I, P>)
    requires UniqueIds(log)
    ensures SequenceOf(log, e.id) == 0 ==> UniqueIds(log + [e]) && SequenceOf(log + [e], e.id) == |log| + 1
  {
    hide SequenceOf;
    AbsentIs(log, e.id);
    if SequenceOf(log, e.id) == 0 { AppendIsFound(log, e); }
  }

  /** What every append keeps: ids stay unique, stored history is never rewritten,
      and the returned sequence is where that id lives. */
  lemma AppendKeeps<I, P>(log: Log<I, P>, e: Event<I, P>)
    requires UniqueIds(log)
    ensures var (after, s) := AppendTo(log, e);
            UniqueIds(after) && log <= after && 1 <= s <= |after| && after[s - 1].id == e.id
            && SequenceOf(after, e.id) == s && AppendTo(after, e) == (after, s)
  {
    UniqueAppend(log, e);
    if SequenceOf(log, e.id) == 0 { SequenceOfIs(log + [e], |log| + 1); }
  }

  /** Compare-and-append changes the log exactly when the id is new and the head is the
      one that was observed; the event then sits directly behind that head. */
  lemma CompareAndAppendIsExact<I, P>(log: Log<I, P>, e: Event<I, P>, expected: int)
    requires UniqueIds(log)
    ensures var (after, r) := AppendAtHead(log, e, expected);
            && UniqueIds(after) && log <= after
            && (after != log <==> expected == |log| && SequenceOf(log, e.id) == 0)
            && (after != log ==> after == log + [e] && r == Stored(expected + 1))
            && (r.Stored? ==> SequenceOf(after, e.id) == r.sequence)
  {
    UniqueAppend(log, e);
  }

  /** The same for whoever reads the log afterwards. */
  lemma CompareAndAppendFinds<I, P>(log: Log<I, P>, e: Event<I, P>, expected: nat)
    requires UniqueIds(log)
    ensures var (after, r) := AppendAtHead(log, e, expected);
            && (after == log || (after == log + [e] && expected == |log|))
            && (r.Stored? ==> 1 <= r.sequence <= |after| && after[r.sequence - 1].id == e.id
                              && (after[r.sequence - 1] != e ==> after == log))
            && (!r.Stored? ==> expected != |log| && after == log)
  {
    CompareAndAppendIsExact(log, e, expected);
    hide SequenceOf, UniqueIds;
  }

  function Behind<I, P>(log: Log<I, P>, afterSequence: int): Log<I, P> {
    if afterSequence <= 0 then log else if afterSequence <= |log| then log[afterSequence..] else []
  }

  /** At most that many from the front; a negative limit leaves that many out at the end. */
  function Cut<T>(xs: seq<T>, limit: Option<int>): seq<T> {
    if limit.None? then xs
    else if limit.value >= 0 then (if limit.value <= |xs| then xs[..limit.value] else xs)
    else if -limit.value <= |xs| then xs[..|xs| + limit.value] else []
  }

  lemma SelectNothing<I, P>(log: Log<I, P>, afterSequence: int, wanted: Event<I, P> -> bool)
    ensures Select(Behind(log[..0], afterSequence), wanted) == []
  {
  }

  lemma SelectNext<I, P>(log: Log<I, P>, i: nat, afterSequence: int, wanted: Event<I, P> -> bool)
    requires i < |log|
    ensures Select(Behind(log[..i + 1], afterSequence), wanted)
            == Select(Behind(log[..i], afterSequence), wanted) + if i + 1 > afterSequence && wanted(log[i]) then [log[i]] else []
  {
    var now, before := Behind(log[..i + 1], afterSequence), Behind(log[..i], afterSequence);
    if i + 1 > afterSequence {
      assert now == before + [log[i]];
      assert now[..|now| - 1] == before && now[|now| - 1] == log[i];
    } else {
      assert now == before;
    }
  }

  /** The store object: an ordered list of events and an index by id, changed in place. */
  class InMemoryEventStore<I(==), P> {
    var events: Log<I, P>
    var byId: map<I, nat>

    ghost predicate Valid()
      reads this
    {
      && UniqueIds(events)
      && (forall i :: 0 <= i < |events| ==> events[i].id in byId)
      && (forall id :: id in byId ==> SequenceOf(events, id) == byId[id] != 0)
    }

    constructor ()
      ensures Valid() && events == []
    {
      events, byId := [], map[];
    }

    method Append(e: Event<I, P>) returns (sequence: nat)
      requires Valid()
      modifies this
      ensures Valid()
      ensures (events, sequence) == AppendTo(old(events), e)
    {
      if e.id in byId {
        sequence := byId[e.id];
      } else {
        AbsentIs(events, e.id);
        forall id | id in byId ensures SequenceOf(events + [e], id) == byId[id] {
          SequenceOfStable(events, [e], id);
        }
        UniqueAppend(events, e);
        hide SequenceOf;
        sequence := |events| + 1;
        events := events + [e];
        byId := byId[e.id := sequence];
      }
    }

    method AppendIfHead(e: Event<I, P>, expected: int) returns (r: AppendResult)
      requires Valid()
      modifies this
      ensures Valid()
      ensures (events, r) == AppendAtHead(old(events), e, expected)
    {
      if expected < 0 {
        return NegativeHead;
      }
      if e.id in byId {
        return Stored(byId[e.id]);
      }
      if |events| != expected {
        return HeadMoved(expected, |events|);
      }
      var s := Append(e);
      r := Stored(s);
    }

    /** History after a sequence, in canonical order. */
    method Read(afterSequence: nat) returns (history: Log<I, P>)
      requires Valid()
      ensures history == if afterSequence <= |events| then events[afterSequence..] else []
    {
      history := [];
      for i := 0 to |events|
        invariant history == if afterSequence <= i then events[afterSequence..i] else []
      {
        if i + 1 > afterSequence {
          history := history + [events[i]];
        }
      }
    }

    /** The same with a filter on events and a limit. */
    method ReadSelected(afterSequence: int, wanted: Event<I, P> -> bool, limit: Option<int>) returns (history: Log<I, P>)
      requires Valid()
      ensures history == Cut(Select(Behind(events, afterSequence), wanted), limit)
    {
      hide *;
      history := [];
      SelectNothing(events, afterSequence, wanted);
      for i := 0 to |events|
        invariant history == Select(Behind(events[..i], afterSequence), wanted)
      {
        SelectNext(events, i, afterSequence, wanted);
        if i + 1 > afterSequence && wanted(events[i]) {
          history := history + [events[i]];
        }
      }
      assert events[..|events|] == events;
      history := Cut(history, limit);
    }

    method LatestSequence() returns (head: nat)
      requires Valid()
      ensures head == |events|
    {
      head := |events|;
    }
  }
}

/** Optimistic writers on one log, in every interleaving.

    A writer reads the log, decides an event that its rule admits on what it read, and
    later tries to append it behind the head it saw. It may crash in between, and other
    writers and foreign processes append at any time. */
module GuardedLog {
  import opened EventLog

  /** `rule(prefix, e)`: e may follow exactly this prefix. */
  type Rule<!I, !P> = (Log<I, P>, Event<I, P>) -> bool

  ghost predicate Admitted<I, P>(rule: Rule<I, P>, log: Log<I, P>) {
    UniqueIds(log) && forall i :: 0 <= i < |log| ==> rule(log[..i], log[i])
  }

  datatype Attempt<I, P> = Attempt(head: nat, event: Event<I, P>)
  datatype System<I, P> = System(log: Log<I, P>, attempts: map<nat, Attempt<I, P>>)
  datatype Step<I, P> =
    | Observe(writer: nat, event: Event<I, P>)
    | Commit(writer: nat)
    | Crash(writer: nat)
    | Foreign(event: Event<I, P>)

  function Next<I(==), P>(rule: Rule<I, P>, s: System<I, P>, step: Step<I, P>): System<I, P> {
    match step
    case Observe(w, e) =>
      if rule(s.log, e) then s.(attempts := s.attempts[w := Attempt(|s.log|, e)]) else s
    case Commit(w) =>
      if w in s.attempts then
        System(AppendAtHead(s.log, s.attempts[w].event, s.attempts[w].head).0, s.attempts - {w})
      else s
    case Crash(w) => s.(attempts := s.attempts - {w})
    case Foreign(e) =>
      if rule(s.log, e) then s.(log := AppendTo(s.log, e).0) else s
  }

  function Run<I(==), P>(rule: Rule<I, P>, s: System<I, P>, steps: seq<Step<I, P>>): System<I, P> {
    if steps == [] then s
    else Next(rule, Run(rule, s, steps[..|steps| - 1]), steps[|steps| - 1])
  }

  ghost predicate Inv<I, P>(rule: Rule<I, P>, s: System<I, P>) {
    && Admitted(rule, s.log)
    && forall w :: w in s.attempts ==>
         s.attempts[w].head <= |s.log| && rule(s.log[..s.attempts[w].head], s.attempts[w].event)
  }

  lemma AdmittedExtends<I, P>(rule: Rule<I, P>, log: Log<I, P>, e: Event<I, P>)
    requires Admitted(rule, log) && SequenceOf(log, e.id) == 0 && rule(log, e)
    ensures Admitted(rule, log + [e])
  {
    var after := log + [e];
    UniqueAppend(log, e);
    forall i | 0 <= i < |after| ensures rule(after[..i], after[i]) {
      assert after[..i] == log[..i];
      if i == |log| { assert log[..i] == log; }
    }
  }

  lemma PrefixAdmitted<I, P>(rule: Rule<I, P>, log: Log<I, P>, n: nat)
    requires Admitted(rule, log) && n <= |log|
    ensures Admitted(rule, log[..n])
  {
    forall i | 0 <= i < n ensures rule(log[..n][..i], log[..n][i]) {
      assert log[..n][..i] == log[..i];
    }
  }

  lemma NextKeeps<I, P>(rule: Rule<I, P>, s: System<I, P>, step: Step<I, P>)
    requires Inv(rule, s)
    ensures Inv(rule, Next(rule, s, step)) && s.log <= Next(rule, s, step).log
  {
    var t := Next(rule, s, step);
    if t.log != s.log {
      var e := t.log[|s.log|];
      if step.Commit? {
        assert s.log[..s.attempts[step.writer].head] == s.log;
      }
      assert t.log == s.log + [e];
      AdmittedExtends(rule, s.log, e);
    }
    forall w | w in t.attempts
      ensures t.attempts[w].head <= |t.log| && rule(t.log[..t.attempts[w].head], t.attempts[w].event)
    {
      var h := t.attempts[w].head;
      assert h <= |s.log| && t.log[..h] == s.log[..h];
      if h == |s.log| { assert s.log[..h] == s.log; }
    }
  }

  /** Every run, every interleaving, every crash: whatever a writer's decision relied on
      holds of exactly the history its event follows. */
  lemma {:induction false} DecisionsHoldWhereTheyLand<I, P>(rule: Rule<I, P>, s: System<I, P>, steps: seq<Step<I, P>>)
    requires Inv(rule, s)
    ensures Inv(rule, Run(rule, s, steps)) && s.log <= Run(rule, s, steps).log
  {
    if steps != [] {
      DecisionsHoldWhereTheyLand(rule, s, steps[..|steps| - 1]);
      NextKeeps(rule, Run(rule, s, steps[..|steps| - 1]), steps[|steps| - 1]);
    }
  }

  /** The log as one process sees it. Between any two of its steps other processes append
      whatever the rule admits: `others` is their schedule, and it is arbitrary. */
  class SharedLog<I(==), P> {
    const store: InMemoryEventStore<I, P>
    const rule: Rule<I, P>
    const others: nat -> seq<Event<I, P>>
    var round: nat

    ghost predicate Valid()
      reads this, store
    {
      store.Valid() && Admitted(rule, store.events)
    }

    constructor (store: InMemoryEventStore<I, P>, rule: Rule<I, P>, others: nat -> seq<Event<I, P>>)
      requires store.Valid() && Admitted(rule, store.events)
      ensures Valid() && this.store == store && this.rule == rule && this.others == others
    {
      this.store, this.rule, this.others, round := store, rule, others, 0;
    }

    /** Some other process may append this event. */
    ghost predicate Foreign(e: Event<I, P>) {
      exists n :: e in others(n)
    }

    method Interfere()
      requires Valid()
      modifies this`round, store
      ensures Valid() && old(store.events) <= store.events
      ensures forall i :: |old(store.events)| <= i < |store.events| ==> Foreign(store.events[i])
    {
      var batch := others(round);
      round := round + 1;
      for i := 0 to |batch|
        invariant Valid() && old(store.events) <= store.events
        invariant forall i :: |old(store.events)| <= i < |store.events| ==> Foreign(store.events[i])
      {
        assert batch[i] in batch && Foreign(batch[i]);
        if rule(store.events, batch[i]) {
          AppendKeeps(store.events, batch[i]);
          if SequenceOf(store.events, batch[i].id) == 0 {
            AdmittedExtends(rule, store.events, batch[i]);
          }
          var _ := store.Append(batch[i]);
        }
      }
    }

    /** Compare-and-append of an event that was admitted on the history that was read. */
    method Commit(e: Event<I, P>, head: nat) returns (r: AppendResult)
      requires Valid() && head <= |store.events|
      requires SequenceOf(store.events[..head], e.id) == 0 ==> rule(store.events[..head], e)
      modifies store
      ensures Valid() && old(store.events) <= store.events
      ensures (store.events, r) == AppendAtHead(old(store.events), e, head)
    {
      CompareAndAppendIsExact(store.events, e, head);
      assert store.events[..|store.events|] == store.events;
      if head == |store.events| && SequenceOf(store.events, e.id) == 0 {
        AdmittedExtends(rule, store.events, e);
      }
      r := store.AppendIfHead(e, head);
    }
  }
}
