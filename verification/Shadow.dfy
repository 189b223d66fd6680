/** The shadow worker's signal cache: what it holds in memory against what a restart would
    rebuild from the durable traces, through partial attempts, failures and restarts. */
module Shadow {
  import opened Basics
  import opened Salience
  import opened Sequences

  /** What the log holds for one worker. A trace is identified by its trigger and its signal. */
  datatype Entry = Trigger(time: int) | Traced(trigger: nat, signal: Signal) | Checkpointed(completed: nat) | Other

  type Journal = seq<Entry>

  /** Evaluation of a trigger: the signals of its traces, a function of the log up to it. */
  type Evaluation = Journal -> seq<Signal>

  predicate IsTrigger(log: Journal, s: nat) { 1 <= s <= |log| && log[s - 1].Trigger? }

  function Signals(evaluate: Evaluation, log: Journal, s: nat): seq<Signal>
    requires s <= |log|
  {
    evaluate(log[..s])
  }

  /** Store traces in order; one that is already stored is found, not stored again. */
  function Emit(log: Journal, s: nat, signals: seq<Signal>): (after: Journal)
    ensures log <= after
  {
    if signals == [] then log
    else
      var before := Emit(log, s, signals[..|signals| - 1]);
      var trace := Traced(s, signals[|signals| - 1]);
      if trace in before then before else before + [trace]
  }

  /** The signals of the traces among the first p entries. */
  function Durable(log: Journal, p: nat): set<Signal>
    requires p <= |log|
  {
    if p == 0 then {}
    else Durable(log, p - 1) + if log[p - 1].Traced? then {log[p - 1].signal} else {}
  }

  function Live(signals: set<Signal>, t: int): set<Signal> { set s | s in signals && s.validUntil > t }

  function Later(a: int, b: int): int { if a < b then b else a }

  /** `unstored` are signals put in memory whose trace was not stored; `forgotten` are durable
      signals that a restart did not load because they lie behind its checkpoint; `open` is a
      trigger that was attempted and has not completed. */
  datatype Worker = Worker(
    log: Journal,
    memory: set<Signal>,
    checkpoint: nat,
    completed: nat,
    clock: int,
    unstored: set<Signal>,
    forgotten: set<Signal>,
    open: Option<nat>)

  datatype Action =
    | Arrive(time: int)
    | Foreign
    | Attempt(trigger: nat, stored: nat, put: nat)
    | FailLate(trigger: nat)
    | Complete(trigger: nat, decisions: nat)
    | Restart

  function Others(n: nat): Journal { seq(n, _ => Other) }

  /** An emission that fails has already put its signal in memory, and may or may not have
      stored its trace. */
  predicate Possible(evaluate: Evaluation, w: Worker, a: Action) {
    match a
    case Attempt(s, stored, put) =>
      IsTrigger(w.log, s) && s > w.completed && stored <= put <= |Signals(evaluate, w.log, s)| && put <= stored + 1
    case FailLate(s) => IsTrigger(w.log, s) && s > w.completed
    case Complete(s, _) => IsTrigger(w.log, s) && s > w.completed
    case _ => true
  }

  /** Put and store some of a trigger's signals. */
  function Partly(evaluate: Evaluation, w: Worker, s: nat, stored: nat, put: nat): Worker
    requires IsTrigger(w.log, s) && stored <= put <= |Signals(evaluate, w.log, s)|
  {
    var signals := Signals(evaluate, w.log, s);
    var saved, held := Elements(signals[..stored]), Elements(signals[..put]);
    var log := Emit(w.log, s, signals[..stored]);
    w.(log := log,
       memory := w.memory + held,
       unstored := (w.unstored + held) - Durable(log, |log|),
       forgotten := w.forgotten - held,
       clock := Later(w.clock, w.log[s - 1].time),
       open := Some(s))
  }

  function Wholly(evaluate: Evaluation, w: Worker, s: nat): Worker
    requires IsTrigger(w.log, s)
  {
    var n := |Signals(evaluate, w.log, s)|;
    var after := Partly(evaluate, w, s, n, n);
    after.(memory := Live(after.memory, w.log[s - 1].time))
  }

  function Next(evaluate: Evaluation, w: Worker, a: Action): Worker {
    if !Possible(evaluate, w, a) then w
    else
      match a
      case Arrive(t) => w.(log := w.log + [Trigger(t)])
      case Foreign => w.(log := w.log + [Other])
      case Attempt(s, stored, put) => Partly(evaluate, w, s, stored, put)
      case FailLate(s) => Wholly(evaluate, w, s)
      case Complete(s, decisions) =>
        var after := Wholly(evaluate, w, s);
        var log := after.log + Others(decisions) + [Checkpointed(s)];
        after.(log := log, checkpoint := |log|, completed := s, open := None)
      case Restart =>
        if w.checkpoint > |w.log| then w
        else
          var restored := Durable(w.log, w.checkpoint);
          w.(memory := restored, unstored := {}, forgotten := Durable(w.log, |w.log|) - restored)
  }

  function Run(evaluate: Evaluation, w: Worker, actions: seq<Action>): Worker {
    if actions == [] then w else Next(evaluate, Run(evaluate, w, actions[..|actions| - 1]), actions[|actions| - 1])
  }

  /** A worker that has just started on a log without traces of its own. */
  ghost predicate Fresh(w: Worker) {
    && w.memory == {} && w.checkpoint == |w.log| && w.unstored == {} && w.forgotten == {} && w.open == None
    && forall i :: 0 <= i < |w.log| ==> !w.log[i].Traced?
  }

  // ---------------------------------------------------------------- the invariant

  lemma {:induction false} DurableMembers(log: Journal, p: nat, x: Signal)
    requires p <= |log|
    ensures x in Durable(log, p) <==> exists i :: 0 <= i < p && log[i].Traced? && log[i].signal == x
  {
    if p != 0 {
      DurableMembers(log, p - 1, x);
    }
  }

  lemma {:induction false} DurableExtends(log: Journal, more: Journal, p: nat)
    requires p <= |log|
    ensures Durable(log + more, p) == Durable(log, p)
  {
    if p != 0 {
      DurableExtends(log, more, p - 1);
    }
  }

  lemma {:induction false} DurableGrows(log: Journal, p: nat, q: nat)
    requires p <= q <= |log|
    ensures Durable(log, p) <= Durable(log, q)
  {
    if p < q {
      DurableGrows(log, p, q - 1);
    }
  }

  lemma DurableSnoc(log: Journal, e: Entry)
    ensures Durable(log + [e], |log| + 1) == Durable(log, |log|) + if e.Traced? then {e.signal} else {}
  {
    DurableExtends(log, [e], |log|);
  }

  lemma {:induction false} DurableOthers(log: Journal, n: nat)
    ensures Durable(log + Others(n), |log| + n) == Durable(log, |log|)
  {
    if n == 0 {
      assert log + Others(0) == log;
    } else {
      DurableOthers(log, n - 1);
      assert log + Others(n) == log + Others(n - 1) + [Other];
      DurableSnoc(log + Others(n - 1), Other);
    }
  }

  /** Emitting stores exactly the emitted signals besides what was stored already. */
  lemma {:induction false} EmitStores(log: Journal, s: nat, signals: seq<Signal>)
    ensures Durable(Emit(log, s, signals), |Emit(log, s, signals)|) == Durable(log, |log|) + Elements(signals)
  {
    if signals != [] {
      var n := |signals| - 1;
      EmitStores(log, s, signals[..n]);
      var before, trace := Emit(log, s, signals[..n]), Traced(s, signals[n]);
      assert signals == signals[..n] + [signals[n]];
      assert Elements(signals) == Elements(signals[..n]) + {signals[n]};
      if trace in before {
        DurableMembers(before, |before|, signals[n]);
      } else {
        DurableSnoc(before, trace);
      }
    }
  }

  /** What a step does, in terms of what it is given. A trigger behind the checkpoint is passed
      over. An attempt at a later one puts a first part of its signals in memory and stores the
      traces of those, except perhaps the last; a late failure and a completion put and store all
      of them and drop what is no longer valid, and only a completion moves the checkpoint. */
  lemma StepsAreExact(evaluate: Evaluation, w: Worker, a: Action)
    ensures a.Arrive? ==> Next(evaluate, w, a).log == w.log + [Trigger(a.time)]
    ensures a.Foreign? ==> Next(evaluate, w, a).log == w.log + [Other]
    ensures a.Attempt? || a.FailLate? || a.Complete? ==>
              (!IsTrigger(w.log, a.trigger) || a.trigger <= w.completed ==> Next(evaluate, w, a) == w)
    ensures a.Attempt? && IsTrigger(w.log, a.trigger) && a.trigger > w.completed ==>
              var t, signals := Next(evaluate, w, a), Signals(evaluate, w.log, a.trigger);
              if a.stored <= a.put <= |signals| && a.put <= a.stored + 1
              then t.memory == w.memory + Elements(signals[..a.put])
                   && Durable(t.log, |t.log|) == Durable(w.log, |w.log|) + Elements(signals[..a.stored])
                   && t.checkpoint == w.checkpoint && t.completed == w.completed
              else t == w
    ensures a.FailLate? && IsTrigger(w.log, a.trigger) && a.trigger > w.completed ==>
              var t, signals := Next(evaluate, w, a), Signals(evaluate, w.log, a.trigger);
              && (forall x :: x in t.memory <==> (x in w.memory || x in signals) && x.validUntil > w.log[a.trigger - 1].time)
              && Durable(t.log, |t.log|) == Durable(w.log, |w.log|) + Elements(signals)
              && t.checkpoint == w.checkpoint && t.completed == w.completed
    ensures a.Complete? && IsTrigger(w.log, a.trigger) && a.trigger > w.completed ==>
              var t, signals := Next(evaluate, w, a), Signals(evaluate, w.log, a.trigger);
              && (forall x :: x in t.memory <==> (x in w.memory || x in signals) && x.validUntil > w.log[a.trigger - 1].time)
              && Durable(t.log, |t.log|) == Durable(w.log, |w.log|) + Elements(signals)
              && t.checkpoint == |t.log| > 0 && t.log[|t.log| - 1] == Checkpointed(a.trigger) && t.completed == a.trigger
  {
    hide Emit, Durable;
    if (a.Attempt? || a.FailLate? || a.Complete?) && Possible(evaluate, w, a) {
      var signals := Signals(evaluate, w.log, a.trigger);
      var stored := if a.Attempt? then a.stored else |signals|;
      EmitStores(w.log, a.trigger, signals[..stored]);
      assert signals[..|signals|] == signals;
      if a.Complete? {
        var log := Emit(w.log, a.trigger, signals);
        DurableOthers(log, a.decisions);
        DurableSnoc(log + Others(a.decisions), Checkpointed(a.trigger));
      }
    }
  }

  function Stored(w: Worker): set<Signal> { Durable(w.log, |w.log|) }

  /** Up to what has expired, memory is what is durable, less what a restart could not load,
      plus what was put in memory but never stored. */
  ghost predicate Inv(w: Worker) {
    && w.checkpoint <= |w.log|
    && w.unstored !! Stored(w) && w.forgotten <= Stored(w)
    && forall x: Signal :: x.validUntil > w.clock ==> (x in w.memory <==> (x in Stored(w) && x !in w.forgotten) || x in w.unstored)
  }

  lemma PartlyInv(evaluate: Evaluation, w: Worker, s: nat, stored: nat, put: nat)
    requires Inv(w) && IsTrigger(w.log, s) && stored <= put <= |Signals(evaluate, w.log, s)|
    ensures Inv(Partly(evaluate, w, s, stored, put))
    ensures Stored(Partly(evaluate, w, s, stored, put)) == Stored(w) + Elements(Signals(evaluate, w.log, s)[..stored])
  {
    var signals := Signals(evaluate, w.log, s);
    EmitStores(w.log, s, signals[..stored]);
    var saved, held := Elements(signals[..stored]), Elements(signals[..put]);
    assert saved <= held by {
      assert signals[..put][..stored] == signals[..stored];
      assert signals[..put] == signals[..stored] + signals[stored..put];
    }
    hide Durable, Emit, Elements;
  }

  lemma WhollyInv(evaluate: Evaluation, w: Worker, s: nat)
    requires Inv(w) && IsTrigger(w.log, s)
    ensures Inv(Wholly(evaluate, w, s))
    ensures Stored(Wholly(evaluate, w, s)) == Stored(w) + Elements(Signals(evaluate, w.log, s))
    ensures Wholly(evaluate, w, s).unstored == w.unstored - (Stored(w) + Elements(Signals(evaluate, w.log, s)))
    ensures Wholly(evaluate, w, s).forgotten == w.forgotten - Elements(Signals(evaluate, w.log, s))
  {
    var signals := Signals(evaluate, w.log, s);
    PartlyInv(evaluate, w, s, |signals|, |signals|);
    assert signals[..|signals|] == signals;
    hide Durable, Emit, Elements;
  }

  lemma NextInv(evaluate: Evaluation, w: Worker, a: Action)
    requires Inv(w)
    ensures Inv(Next(evaluate, w, a))
  {
    if Possible(evaluate, w, a) {
      match a
      case Arrive(t) => DurableSnoc(w.log, Trigger(t));
      case Foreign => DurableSnoc(w.log, Other);
      case Attempt(s, stored, put) => PartlyInv(evaluate, w, s, stored, put);
      case FailLate(s) => WhollyInv(evaluate, w, s);
      case Complete(s, decisions) =>
        WhollyInv(evaluate, w, s);
        CompleteStores(Wholly(evaluate, w, s).log, s, decisions);
        hide Durable, Wholly;
      case Restart => DurableGrows(w.log, w.checkpoint, |w.log|);
    }
  }

  lemma CompleteStores(log: Journal, s: nat, decisions: nat)
    ensures var after := log + Others(decisions) + [Checkpointed(s)];
            Durable(after, |after|) == Durable(log, |log|)
  {
    DurableOthers(log, decisions);
    DurableSnoc(log + Others(decisions), Checkpointed(s));
  }

  lemma FreshInv(w: Worker)
    requires Fresh(w)
    ensures Inv(w) && Stored(w) == {}
  {
    forall x ensures x !in Stored(w) {
      DurableMembers(w.log, |w.log|, x);
    }
  }

  lemma {:induction false} RunInv(evaluate: Evaluation, w: Worker, actions: seq<Action>)
    requires Fresh(w)
    ensures Inv(Run(evaluate, w, actions))
  {
    if actions == [] {
      FreshInv(w);
    } else {
      RunInv(evaluate, w, actions[..|actions| - 1]);
      NextInv(evaluate, Run(evaluate, w, actions[..|actions| - 1]), actions[|actions| - 1]);
    }
  }

  // ---------------------------------------------------------------- when memory and history agree

  /** What is in memory and what a restart would rebuild hold the same signals at any trigger
      time still to come. */
  ghost predicate Agrees(w: Worker)
    requires w.checkpoint <= |w.log|
  {
    forall t :: t >= w.clock ==> Live(w.memory, t) == Live(Durable(w.log, w.checkpoint), t)
  }

  lemma AgreementByDifference(w: Worker)
    requires Inv(w) && w.checkpoint == |w.log|
    ensures Agrees(w) <==> forall x: Signal :: x.validUntil > w.clock ==> x !in w.unstored && x !in w.forgotten
  {
    hide Durable;
    if Agrees(w) {
      forall x: Signal | x.validUntil > w.clock ensures x !in w.unstored && x !in w.forgotten {
        assert x in Live(w.memory, w.clock) <==> x in Live(Durable(w.log, w.checkpoint), w.clock);
      }
    } else if forall x: Signal :: x.validUntil > w.clock ==> x !in w.unstored && x !in w.forgotten {
      NoneLeft(w);
    }
  }

  lemma NoneLeft(w: Worker)
    requires Inv(w) && w.checkpoint == |w.log| && forall x: Signal :: x.validUntil > w.clock ==> x !in w.unstored && x !in w.forgotten
    ensures Agrees(w)
  {
    hide Durable;
  }

  // ---------------------------------------------------------------- what a run leaves behind

  /** The signals an action puts in memory, and those whose traces it stores. */
  function PutBy(evaluate: Evaluation, w: Worker, a: Action): set<Signal> {
    if !Possible(evaluate, w, a) then {}
    else
      match a
      case Attempt(s, _, put) => Elements(Signals(evaluate, w.log, s)[..put])
      case FailLate(s) => Elements(Signals(evaluate, w.log, s))
      case Complete(s, _) => Elements(Signals(evaluate, w.log, s))
      case _ => {}
  }

  function StoredBy(evaluate: Evaluation, w: Worker, a: Action): set<Signal> {
    if !Possible(evaluate, w, a) then {}
    else
      match a
      case Attempt(s, stored, _) => Elements(Signals(evaluate, w.log, s)[..stored])
      case FailLate(s) => Elements(Signals(evaluate, w.log, s))
      case Complete(s, _) => Elements(Signals(evaluate, w.log, s))
      case _ => {}
  }

  /** A run so far: the evaluation, the worker it started from, and its actions. */
  datatype History = History(evaluate: Evaluation, start: Worker, actions: seq<Action>)
  {
    function At(i: nat): Worker
      requires i <= |actions|
    {
      Run(evaluate, start, actions[..i])
    }

    predicate Puts(i: nat, x: Signal) { i < |actions| && x in PutBy(evaluate, At(i), actions[i]) }

    predicate Stores(i: nat, x: Signal) { i < |actions| && x in StoredBy(evaluate, At(i), actions[i]) }

    predicate Restarts(i: nat) { i < |actions| && actions[i].Restart? }

    predicate Completes(i: nat) { i < |actions| && actions[i].Complete? && Possible(evaluate, At(i), actions[i]) }

    /** Before action n: some action has stored the trace. */
    ghost predicate StoredBefore(n: nat, x: Signal) { exists i :: 0 <= i < n && Stores(i, x) }

    /** Before action n: the trace was stored no later than some trigger completed. */
    ghost predicate CoveredBefore(n: nat, x: Signal) { exists i, c :: 0 <= i <= c < n && Stores(i, x) && Completes(c) }

    /** Put in memory since the last restart. */
    ghost predicate HeldBefore(n: nat, x: Signal) { exists i :: 0 <= i < n && Puts(i, x) && forall j :: i < j < n ==> !Restarts(j) }

    /** Stored, but behind the checkpoint that the last restart loaded, and not put since. */
    ghost predicate MissedBefore(n: nat, x: Signal) {
      exists r :: 0 <= r < n && Restarts(r) && StoredBefore(r, x) && !CoveredBefore(r, x)
                  && forall j :: r < j < n ==> !Restarts(j) && !Puts(j, x)
    }

    /** In memory although its trace was never stored. */
    ghost predicate PutButNeverStored(x: Signal) { HeldBefore(|actions|, x) && !StoredBefore(|actions|, x) }

    /** Not in memory although its trace is stored. */
    ghost predicate StoredButMissed(x: Signal) { MissedBefore(|actions|, x) }
  }

  function Loadable(w: Worker): set<Signal> { if w.checkpoint <= |w.log| then Durable(w.log, w.checkpoint) else {} }

  lemma AttemptLeaves(evaluate: Evaluation, w: Worker, s: nat, stored: nat, put: nat)
    requires Inv(w) && Possible(evaluate, w, Attempt(s, stored, put))
    ensures var t := Next(evaluate, w, Attempt(s, stored, put));
            var found := Signals(evaluate, w.log, s);
            && Stored(t) == Stored(w) + Elements(found[..stored]) && Loadable(t) == Loadable(w)
            && t.unstored == w.unstored + Elements(found[..put]) - Stored(t)
            && t.forgotten == w.forgotten - Elements(found[..put])
  {
    PartlyInv(evaluate, w, s, stored, put);
    CheckpointStays(w.log, Partly(evaluate, w, s, stored, put).log, w.checkpoint);
    hide Durable, Signals, Emit;
  }

  lemma WhollyLeaves(evaluate: Evaluation, w: Worker, s: nat)
    requires Inv(w) && IsTrigger(w.log, s)
    ensures var t, found := Wholly(evaluate, w, s), Elements(Signals(evaluate, w.log, s));
            && Stored(t) == Stored(w) + found && Loadable(t) == Loadable(w)
            && t.unstored == w.unstored + found - Stored(t) && t.forgotten == w.forgotten - found
  {
    WhollyInv(evaluate, w, s);
    CheckpointStays(w.log, Wholly(evaluate, w, s).log, w.checkpoint);
    hide Durable, Signals, Emit;
  }

  /** One action: what is stored, what a restart could load, and the two differences. */
  lemma NextLeaves(evaluate: Evaluation, w: Worker, a: Action)
    requires Inv(w)
    ensures var t := Next(evaluate, w, a);
            && Stored(t) == Stored(w) + StoredBy(evaluate, w, a)
            && Loadable(t) == (if a.Complete? && Possible(evaluate, w, a) then Stored(t) else Loadable(w))
            && t.unstored == (if a.Restart? then {} else w.unstored + PutBy(evaluate, w, a) - Stored(t))
            && t.forgotten == (if a.Restart? then Stored(w) - Loadable(w) else w.forgotten - PutBy(evaluate, w, a))
  {
    if Possible(evaluate, w, a) {
      match a
      case Arrive(t) =>
        DurableSnoc(w.log, Trigger(t));
        CheckpointStays(w.log, w.log + [Trigger(t)], w.checkpoint);
      case Foreign =>
        DurableSnoc(w.log, Other);
        CheckpointStays(w.log, w.log + [Other], w.checkpoint);
      case Attempt(s, stored, put) =>
        AttemptLeaves(evaluate, w, s, stored, put);
        hide Durable, Signals, Partly;
      case FailLate(s) =>
        WhollyLeaves(evaluate, w, s);
        hide Durable, Signals, Wholly;
      case Complete(s, decisions) =>
        WhollyLeaves(evaluate, w, s);
        CompleteStores(Wholly(evaluate, w, s).log, s, decisions);
        hide Durable, Signals, Wholly;
      case Restart => hide Durable;
    }
  }

  lemma AtNext(h: History, n: nat)
    requires n < |h.actions|
    ensures h.At(n + 1) == Next(h.evaluate, h.At(n), h.actions[n])
  {
    hide Next;
    assert h.actions[..n + 1][..n] == h.actions[..n];
  }

  lemma AtInv(h: History, n: nat)
    requires Fresh(h.start) && n <= |h.actions|
    ensures Inv(h.At(n))
  {
    RunInv(h.evaluate, h.start, h.actions[..n]);
  }

  lemma StoredNext(h: History, n: nat, x: Signal)
    ensures h.StoredBefore(n + 1, x) <==> h.StoredBefore(n, x) || h.Stores(n, x)
  {
    hide History.Stores;
  }

  lemma HeldNext(h: History, n: nat, x: Signal)
    requires h.Restarts(n) ==> !h.Puts(n, x)
    ensures h.HeldBefore(n + 1, x) <==> h.Puts(n, x) || (h.HeldBefore(n, x) && !h.Restarts(n))
  {
    hide History.Puts, History.Restarts;
    if h.HeldBefore(n + 1, x) {
      var i :| 0 <= i < n + 1 && h.Puts(i, x) && forall j :: i < j < n + 1 ==> !h.Restarts(j);
      assert i == n || (i < n && !h.Restarts(n));
    }
    if h.HeldBefore(n, x) && !h.Restarts(n) {
      var i :| 0 <= i < n && h.Puts(i, x) && forall j :: i < j < n ==> !h.Restarts(j);
      assert forall j :: i < j < n + 1 ==> !h.Restarts(j);
    }
  }

  lemma CoveredNext(h: History, n: nat, x: Signal)
    ensures h.CoveredBefore(n + 1, x) <==> h.CoveredBefore(n, x) || (h.Completes(n) && h.StoredBefore(n + 1, x))
  {
    hide History.Stores, History.Completes;
    if h.CoveredBefore(n + 1, x) {
      var i, c :| 0 <= i <= c < n + 1 && h.Stores(i, x) && h.Completes(c);
      assert c == n || c < n;
    }
  }

  lemma CoveredIsStored(h: History, n: nat, x: Signal)
    ensures h.CoveredBefore(n, x) ==> h.StoredBefore(n, x)
  {
    hide History.Stores, History.Completes;
  }

  lemma MissedNext(h: History, n: nat, x: Signal)
    requires h.Restarts(n) ==> !h.Puts(n, x)
    ensures h.MissedBefore(n + 1, x) <==>
              if h.Restarts(n) then h.StoredBefore(n, x) && !h.CoveredBefore(n, x) else h.MissedBefore(n, x) && !h.Puts(n, x)
  {
    hide History.Puts, History.Restarts, History.StoredBefore, History.CoveredBefore;
    if h.MissedBefore(n + 1, x) {
      var r :| 0 <= r < n + 1 && h.Restarts(r) && h.StoredBefore(r, x) && !h.CoveredBefore(r, x)
               && forall j :: r < j < n + 1 ==> !h.Restarts(j) && !h.Puts(j, x);
      assert r == n || (r < n && !h.Restarts(n) && !h.Puts(n, x));
    }
    if !h.Restarts(n) && h.MissedBefore(n, x) && !h.Puts(n, x) {
      var r :| 0 <= r < n && h.Restarts(r) && h.StoredBefore(r, x) && !h.CoveredBefore(r, x)
               && forall j :: r < j < n ==> !h.Restarts(j) && !h.Puts(j, x);
      assert forall j :: r < j < n + 1 ==> !h.Restarts(j) && !h.Puts(j, x);
    }
  }

  lemma NothingYet(h: History, x: Signal)
    requires Fresh(h.start)
    ensures x !in Stored(h.At(0)) && x !in Loadable(h.At(0)) && x !in h.At(0).unstored && x !in h.At(0).forgotten
    ensures !h.StoredBefore(0, x) && !h.CoveredBefore(0, x) && !h.HeldBefore(0, x) && !h.MissedBefore(0, x)
  {
    assert h.actions[..0] == [] && h.At(0) == h.start;
    FreshInv(h.start);
  }

  /** The worker's state, read off its actions. */
  lemma {:induction false} StateIsHistory(h: History, n: nat, x: Signal)
    requires Fresh(h.start) && n <= |h.actions|
    ensures x in Stored(h.At(n)) <==> h.StoredBefore(n, x)
    ensures x in Loadable(h.At(n)) <==> h.CoveredBefore(n, x)
    ensures x in h.At(n).unstored <==> h.HeldBefore(n, x) && !h.StoredBefore(n, x)
    ensures x in h.At(n).forgotten <==> h.MissedBefore(n, x)
  {
    hide *;
    if n == 0 {
      NothingYet(h, x);
    } else {
      StateIsHistory(h, n - 1, x);
      AtNext(h, n - 1);
      AtInv(h, n - 1);
      NextLeaves(h.evaluate, h.At(n - 1), h.actions[n - 1]);
      OneAction(h, n - 1, x);
      StoredNext(h, n - 1, x);
      HeldNext(h, n - 1, x);
      CoveredNext(h, n - 1, x);
      MissedNext(h, n - 1, x);
      CoveredIsStored(h, n - 1, x);
    }
  }

  lemma OneAction(h: History, i: nat, x: Signal)
    requires i < |h.actions|
    ensures h.Stores(i, x) <==> x in StoredBy(h.evaluate, h.At(i), h.actions[i])
    ensures h.Puts(i, x) <==> x in PutBy(h.evaluate, h.At(i), h.actions[i])
    ensures h.Restarts(i) <==> h.actions[i].Restart?
    ensures h.Completes(i) <==> h.actions[i].Complete? && Possible(h.evaluate, h.At(i), h.actions[i])
    ensures h.Restarts(i) ==> !h.Puts(i, x)
  {
    hide Run;
  }

  /** Exactly when memory and history agree, in any run that ends at a checkpoint, by what its
      actions did: no signal that is still valid was put in memory, since the last restart,
      without its trace ever being stored, and none was stored behind the checkpoint that the
      last restart loaded and not put again since. */
  lemma AgreementExactly(h: History)
    requires Fresh(h.start) && h.At(|h.actions|).checkpoint == |h.At(|h.actions|).log|
    ensures var w := h.At(|h.actions|);
            Agrees(w) <==> forall x: Signal :: x.validUntil > w.clock ==> !h.PutButNeverStored(x) && !h.StoredButMissed(x)
  {
    AtInv(h, |h.actions|);
    hide Agrees, History.At, Inv;
    var w := h.At(|h.actions|);
    AgreementByDifference(w);
    forall x ensures x in w.unstored <==> h.PutButNeverStored(x)
             ensures x in w.forgotten <==> h.StoredButMissed(x)
    {
      StateIsHistory(h, |h.actions|, x);
    }
  }

  /** Triggers are taken one at a time: one that was attempted is taken again, after a failure or
      a restart, before any other. */
  predicate TakenInOrder(w: Worker, a: Action) {
    match a
    case Attempt(s, _, _) => w.open == None || w.open == Some(s)
    case FailLate(s) => w.open == None || w.open == Some(s)
    case Complete(s, _) => w.open == None || w.open == Some(s)
    case _ => true
  }

  predicate InOrder(evaluate: Evaluation, w: Worker, actions: seq<Action>) {
    actions == [] ||
    (InOrder(evaluate, w, actions[..|actions| - 1])
     && TakenInOrder(Run(evaluate, w, actions[..|actions| - 1]), actions[|actions| - 1]))
  }

  /** The signals of the trigger that is being worked on. */
  function OpenSignals(evaluate: Evaluation, w: Worker): set<Signal> {
    if w.open.Some? && w.open.value <= |w.log| then Elements(Signals(evaluate, w.log, w.open.value)) else {}
  }

  /** Whatever is unsettled belongs to the open trigger. */
  ghost predicate Unsettled(evaluate: Evaluation, w: Worker) {
    && w.checkpoint <= |w.log|
    && (w.open.Some? ==> w.open.value <= |w.log|)
    && w.unstored <= OpenSignals(evaluate, w) && w.forgotten <= OpenSignals(evaluate, w)
    && Stored(w) - Durable(w.log, w.checkpoint) <= OpenSignals(evaluate, w)
  }

  lemma SignalsStay(evaluate: Evaluation, log: Journal, later: Journal, s: nat)
    requires log <= later && s <= |log|
    ensures Signals(evaluate, later, s) == Signals(evaluate, log, s)
  {
    assert later[..s] == log[..s];
  }

  lemma CheckpointStays(log: Journal, later: Journal, p: nat)
    requires log <= later && p <= |log|
    ensures Durable(later, p) == Durable(log, p)
  {
    DurableExtends(log, later[|log|..], p);
    assert later == log + later[|log|..];
  }

  lemma PartlyUnsettled(evaluate: Evaluation, w: Worker, s: nat, stored: nat, put: nat)
    requires Inv(w) && Unsettled(evaluate, w) && IsTrigger(w.log, s) && stored <= put <= |Signals(evaluate, w.log, s)|
    requires w.open == None || w.open == Some(s)
    ensures Unsettled(evaluate, Partly(evaluate, w, s, stored, put))
  {
    var after := Partly(evaluate, w, s, stored, put);
    var signals := Signals(evaluate, w.log, s);
    PartlyInv(evaluate, w, s, stored, put);
    SignalsStay(evaluate, w.log, after.log, s);
    CheckpointStays(w.log, after.log, w.checkpoint);
    assert Elements(signals[..stored]) <= Elements(signals) && Elements(signals[..put]) <= Elements(signals);
    hide Durable, Emit, Elements, Signals;
  }

  lemma OtherUnsettled(evaluate: Evaluation, w: Worker, e: Entry)
    requires Unsettled(evaluate, w) && !e.Traced?
    ensures Unsettled(evaluate, w.(log := w.log + [e]))
  {
    DurableSnoc(w.log, e);
    CheckpointStays(w.log, w.log + [e], w.checkpoint);
    if w.open.Some? { SignalsStay(evaluate, w.log, w.log + [e], w.open.value); }
    hide Durable, Signals;
  }

  lemma CompleteSettles(evaluate: Evaluation, w: Worker, s: nat, decisions: nat)
    requires Inv(w) && Unsettled(evaluate, w) && Possible(evaluate, w, Complete(s, decisions)) && TakenInOrder(w, Complete(s, decisions))
    ensures var after := Next(evaluate, w, Complete(s, decisions));
            && Unsettled(evaluate, after) && after.unstored == {} && after.forgotten == {} && after.checkpoint == |after.log|
  {
    WhollyInv(evaluate, w, s);
    CompleteStores(Wholly(evaluate, w, s).log, s, decisions);
    hide Durable, Wholly, Signals;
  }

  lemma NextUnsettled(evaluate: Evaluation, w: Worker, a: Action)
    requires Inv(w) && Unsettled(evaluate, w) && TakenInOrder(w, a)
    ensures Unsettled(evaluate, Next(evaluate, w, a))
  {
    if Possible(evaluate, w, a) {
      match a
      case Arrive(t) => OtherUnsettled(evaluate, w, Trigger(t));
      case Foreign => OtherUnsettled(evaluate, w, Other);
      case Attempt(s, stored, put) => PartlyUnsettled(evaluate, w, s, stored, put);
      case FailLate(s) =>
        PartlyUnsettled(evaluate, w, s, |Signals(evaluate, w.log, s)|, |Signals(evaluate, w.log, s)|);
        hide Partly, Durable;
      case Complete(s, decisions) => CompleteSettles(evaluate, w, s, decisions);
      case Restart => hide Durable;
    }
  }

  lemma {:induction false} RunUnsettled(evaluate: Evaluation, w: Worker, actions: seq<Action>)
    requires Fresh(w) && InOrder(evaluate, w, actions)
    ensures Unsettled(evaluate, Run(evaluate, w, actions))
  {
    if actions == [] {
      FreshInv(w);
    } else {
      RunInv(evaluate, w, actions[..|actions| - 1]);
      RunUnsettled(evaluate, w, actions[..|actions| - 1]);
      NextUnsettled(evaluate, Run(evaluate, w, actions[..|actions| - 1]), actions[|actions| - 1]);
    }
  }

  lemma CompleteLeaves(evaluate: Evaluation, w: Worker, s: nat, decisions: nat)
    requires Inv(w) && Possible(evaluate, w, Complete(s, decisions))
    ensures var t, found := Next(evaluate, w, Complete(s, decisions)), Elements(Signals(evaluate, w.log, s));
            && Inv(t) && t.checkpoint == |t.log| && t.clock >= w.log[s - 1].time
            && t.unstored == w.unstored - found && t.forgotten == w.forgotten - found
  {
    NextInv(evaluate, w, Complete(s, decisions));
    NextLeaves(evaluate, w, Complete(s, decisions));
    hide Durable, Signals, Emit;
  }

  /** Completing a trigger after a run in order, whether it is the open one, none is open, or the
      open one is skipped: memory and history agree if and only if whatever the open trigger's
      attempts left unsettled, in memory without a trace or traced behind the loaded checkpoint,
      has expired or is also a signal of the trigger that is completed. */
  lemma SkippingAgreesExactly(h: History, s: nat, decisions: nat)
    requires Fresh(h.start) && InOrder(h.evaluate, h.start, h.actions)
    requires Possible(h.evaluate, h.At(|h.actions|), Complete(s, decisions))
    ensures var w := h.At(|h.actions|);
            var t := Next(h.evaluate, w, Complete(s, decisions));
            && t.checkpoint == |t.log|
            && (Agrees(t) <==>
                  forall x :: x in OpenSignals(h.evaluate, w) && x.validUntil > t.clock && x !in Signals(h.evaluate, w.log, s)
                    ==> !h.PutButNeverStored(x) && !h.StoredButMissed(x))
  {
    AtInv(h, |h.actions|);
    assert h.actions[..|h.actions|] == h.actions;
    RunUnsettled(h.evaluate, h.start, h.actions);
    var w := h.At(|h.actions|);
    var t := Next(h.evaluate, w, Complete(s, decisions));
    assert w.unstored <= OpenSignals(h.evaluate, w) && w.forgotten <= OpenSignals(h.evaluate, w);
    CompleteLeaves(h.evaluate, w, s, decisions);
    hide Agrees, History.At, Inv, Next, Signals, OpenSignals;
    AgreementByDifference(t);
    forall x ensures x in w.unstored <==> h.PutButNeverStored(x)
             ensures x in w.forgotten <==> h.StoredButMissed(x)
    {
      StateIsHistory(h, |h.actions|, x);
    }
  }

  /** Crash safety: while triggers are taken in order, through any partial attempts, failures and
      restarts, memory and history agree at every checkpoint. */
  lemma CheckpointsAgree(evaluate: Evaluation, start: Worker, actions: seq<Action>, s: nat, decisions: nat)
    requires Fresh(start) && InOrder(evaluate, start, actions + [Complete(s, decisions)])
    requires Possible(evaluate, Run(evaluate, start, actions), Complete(s, decisions))
    ensures var w := Run(evaluate, start, actions + [Complete(s, decisions)]);
            w.checkpoint == |w.log| && Agrees(w) && w.clock >= Run(evaluate, start, actions).log[s - 1].time
  {
    var all, h := actions + [Complete(s, decisions)], History(evaluate, start, actions);
    assert all[..|all| - 1] == actions == actions[..|actions|];
    RunInv(evaluate, start, actions);
    CompleteLeaves(evaluate, Run(evaluate, start, actions), s, decisions);
    SkippingAgreesExactly(h, s, decisions);
  }

  /** Hence a restart resolves the next trigger as the running worker would have: any listing of
      the one cache and any listing of the other resolve to the same decisions. */
  lemma RestartResolvesAlike(r: Resolver, w: Worker, held: seq<Signal>, restored: seq<Signal>, t: int)
    requires w.checkpoint <= |w.log| && Agrees(w) && t >= w.clock
    requires Elements(held) == w.memory && Elements(restored) == Durable(w.log, w.checkpoint)
    requires r.scale > 0.0 && AllWellFormed(held) && AllWellFormed(restored)
    ensures ResolutionOf(r, held, t) == ResolutionOf(r, restored, t)
  {
    ActiveElements(held, t);
    ActiveElements(restored, t);
    forall x ensures x in held && x.ActiveAt(t) <==> x in restored && x.ActiveAt(t) {
      assert x in held <==> x in Elements(held);
      assert x in restored <==> x in Elements(restored);
      if x.ActiveAt(t) { assert x in Live(w.memory, t) <==> x in Live(Durable(w.log, w.checkpoint), t); }
    }
    assert Elements(Active(held, t)) == Elements(Active(restored, t));
    SameActive(Active(held, t), Active(restored, t));
    ResolutionIs(r, held, t);
    ResolutionIs(r, restored, t);
    hide ResolutionOf, PreBudget, AfterBudget, SortUnique, Active, Conflicting;
  }

  /** Out of order it fails: the first trigger's only trace is put in memory but not stored, the
      next trigger completes, and the signal lives in memory that no restart will rebuild. */
  lemma SkippedTriggerDisagrees(x: Signal)
    requires x.validUntil > 0
    ensures var evaluate: Evaluation := log => if |log| == 1 then [x] else [];
            var start := Worker([Trigger(0), Trigger(0)], {}, 2, 0, 0, {}, {}, None);
            var w := Run(evaluate, start, [Attempt(1, 0, 1), Complete(2, 0)]);
            && Fresh(start) && w.checkpoint == |w.log| && w.completed == 2
            && Live(w.memory, 0) == {x} && Live(Durable(w.log, w.checkpoint), 0) == {} && !Agrees(w)
  {
    var evaluate: Evaluation := log => if |log| == 1 then [x] else [];
    var log := [Trigger(0), Trigger(0)];
    var start := Worker(log, {}, 2, 0, 0, {}, {}, None);
    assert log[..1] == [Trigger(0)] && log[..2] == log;
    assert Durable(log, 2) == {};
    var middle := Next(evaluate, start, Attempt(1, 0, 1));
    assert middle == Worker(log, {x}, 2, 0, 0, {x}, {}, Some(1)) by {
      assert Signals(evaluate, log, 1) == [x] && [x][..1] == [x] && [x][..0] == [];
      assert Elements([x]) == {x};
      assert Emit(log, 1, []) == log;
    }
    var last := Next(evaluate, middle, Complete(2, 0));
    assert Signals(evaluate, log, 2) == [];
    assert Emit(log, 2, []) == log;
    CompleteStores(log, 2, 0);
    assert last.memory == {x};
    var actions := [Attempt(1, 0, 1), Complete(2, 0)];
    assert actions[..1] == [Attempt(1, 0, 1)] && actions[..1][..0] == [];
    assert Run(evaluate, start, actions) == last;
    assert x in Live(last.memory, 0);
  }

  // ---------------------------------------------------------------- the object

  lemma EmitNothing(log: Journal, s: nat, found: seq<Signal>)
    ensures Elements(found[..0]) == {} && Emit(log, s, found[..0]) == log
  {
  }

  lemma EmitOneMore(log: Journal, s: nat, found: seq<Signal>, i: nat)
    requires i < |found|
    ensures Elements(found[..i + 1]) == Elements(found[..i]) + {found[i]}
    ensures var before := Emit(log, s, found[..i]);
            Emit(log, s, found[..i + 1]) == if Traced(s, found[i]) in before then before else before + [Traced(s, found[i])]
  {
    assert found[..i + 1] == found[..i] + [found[i]] && found[..i + 1][..i] == found[..i];
  }

  class AutonomicShadowWorker {
    const evaluate: Evaluation
    var journal: Journal
    var signals: set<Signal>
    var checkpoint: nat
    var completed: nat

    constructor (evaluate: Evaluation, journal: Journal)
      ensures this.evaluate == evaluate && this.journal == journal && signals == {} && checkpoint == |journal| && completed == 0
    {
      this.evaluate, this.journal, signals, checkpoint, completed := evaluate, journal, {}, |journal|, 0;
    }

    ghost predicate Mirrors(w: Worker)
      reads this
    {
      w.log == journal && w.memory == signals && w.checkpoint == checkpoint && w.completed == completed
    }

    /** The signals of the durable traces through a sequence. */
    method SignalsFromHistory(through: nat) returns (restored: set<Signal>)
      requires through <= |journal|
      ensures restored == Durable(journal, through)
    {
      restored := {};
      for i := 0 to through
        invariant restored == Durable(journal, i)
      {
        if journal[i].Traced? {
          restored := restored + {journal[i].signal};
        }
      }
    }

    method Restore(ghost w: Worker)
      requires Mirrors(w) && checkpoint <= |journal|
      modifies this`signals
      ensures Mirrors(Next(evaluate, w, Restart))
    {
      signals := SignalsFromHistory(checkpoint);
    }

    /** Put and store the first signals of a trigger, as far as the store accepts them. */
    method EmitTraces(s: nat, found: seq<Signal>, put: nat, stored: nat)
      requires stored <= put <= |found| && put <= stored + 1
      modifies this`signals, this`journal
      ensures signals == old(signals) + Elements(found[..put]) && journal == Emit(old(journal), s, found[..stored])
    {
      hide Elements, Emit;
      EmitNothing(journal, s, found);
      for i := 0 to put
        invariant signals == old(signals) + Elements(found[..i])
        invariant journal == Emit(old(journal), s, found[..if i < stored then i else stored])
      {
        EmitOneMore(old(journal), s, found, i);
        signals := signals + {found[i]};
        if i < stored {
          var trace := Traced(s, found[i]);
          if trace !in journal {
            journal := journal + [trace];
          }
        }
      }
    }

    /** One trigger to its end: traces, pruning, decisions, checkpoint. */
    method ProcessTrigger(s: nat, decisions: nat, ghost w: Worker)
      requires Mirrors(w) && Possible(evaluate, w, Complete(s, decisions))
      modifies this
      ensures Mirrors(Next(evaluate, w, Complete(s, decisions)))
    {
      var found := Signals(evaluate, journal, s);
      var time := journal[s - 1].time;
      EmitTraces(s, found, |found|, |found|);
      signals := Live(signals, time);
      journal := journal + Others(decisions);
      journal := journal + [Checkpointed(s)];
      checkpoint, completed := |journal|, s;
    }

    /** An attempt whose emission fails leaves what it had put and stored so far. */
    method FailTrigger(s: nat, stored: nat, put: nat, ghost w: Worker)
      requires Mirrors(w) && Possible(evaluate, w, Attempt(s, stored, put))
      modifies this`signals, this`journal
      ensures Mirrors(Next(evaluate, w, Attempt(s, stored, put)))
    {
      var found := Signals(evaluate, journal, s);
      EmitTraces(s, found, put, stored);
    }
  }
}
