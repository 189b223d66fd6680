/** The agent's intent lifecycle: authorization, dispatch, invocation, retries, and recovery
    after crashes, with any number of executions in flight. */
module Agent {
  import opened Basics

  datatype Intent = Intent(id: string, capability: string, key: Option<string>)

  datatype Spec = Spec(idempotent: bool, maxRetries: nat)
  {
    function Retries(): nat { if idempotent then maxRetries else 0 }
  }

  /** How one invocation ends: a timeout is a retryable failure, an exception is not. */
  datatype Outcome = Success | Failure(retryable: bool)

  datatype Ending = Succeeded | Failed | Skipped | Abandoned

  datatype Record = Authorized(intent: Intent) | Deferred(intent: Intent) | Ended(intent: Intent, ending: Ending)

  /** `Waiting`: authorized in the log, but not yet leased. */
  datatype Stage = Waiting | Ready | Started | Tried(attempts: nat, outcome: Outcome)
  datatype Execution = Execution(intent: Intent, stage: Stage)

  /** A recovery pass: what is left of the intents that were pending when it read the log, and
      the execution it waits for. The log is not read again before the pass is over. */
  datatype Pass = Pass(pending: seq<Intent>, awaiting: Option<nat>)

  /** `ledger` holds the idempotency keys this process knows to have succeeded. */
  datatype State = State(
    log: seq<Record>,
    executions: map<nat, Execution>,
    spawned: nat,
    ledger: set<string>,
    invocations: multiset<string>,
    passes: map<nat, Pass>)

  datatype Action =
    | Authorize(intent: Intent)
    | Lease(execution: nat, granted: bool)
    | Advance(execution: nat, outcome: Outcome)
    | Drop(execution: nat)
    | ReadLog(pass: nat)
    | Recover(pass: nat, allowed: bool, leased: bool)
    | Crash

  type Registry = map<string, Spec>

  /** The intents that were authorized, and the ids of those that have ended. */
  function Intents(log: seq<Record>): set<Intent> {
    if log == [] then {}
    else Intents(log[..|log| - 1]) + if log[|log| - 1].Authorized? then {log[|log| - 1].intent} else {}
  }

  function EndedIds(log: seq<Record>): set<string> {
    if log == [] then {}
    else EndedIds(log[..|log| - 1]) + if log[|log| - 1].Ended? then {log[|log| - 1].intent.id} else {}
  }

  predicate WasAuthorized(log: seq<Record>, id: string) { exists i :: i in Intents(log) && i.id == id }

  function SucceededKeys(log: seq<Record>): set<string> {
    if log == [] then {}
    else
      var last := log[|log| - 1];
      SucceededKeys(log[..|log| - 1]) +
      if last.Ended? && last.ending == Succeeded && last.intent.key.Some? then {last.intent.key.value} else {}
  }

  /** The authorized intents whose ids are not among the ended ones, in order of authorization. */
  function PendingOf(log: seq<Record>, ended: set<string>): seq<Intent> {
    if log == [] then []
    else
      var last := log[|log| - 1];
      PendingOf(log[..|log| - 1], ended) + if last.Authorized? && last.intent.id !in ended then [last.intent] else []
  }

  function Spawn(s: State, intent: Intent, stage: Stage): State {
    s.(executions := s.executions[s.spawned := Execution(intent, stage)], spawned := s.spawned + 1)
  }

  function End(s: State, n: nat, intent: Intent, ending: Ending): State {
    s.(log := s.log + [Ended(intent, ending)],
       executions := s.executions - {n},
       ledger := if ending == Succeeded && intent.key.Some? then s.ledger + {intent.key.value} else s.ledger)
  }

  function MoveTo(s: State, n: nat, intent: Intent, stage: Stage): State {
    s.(executions := s.executions[n := Execution(intent, stage)])
  }

  function Invoke(s: State, n: nat, intent: Intent, attempts: nat, outcome: Outcome): State {
    MoveTo(s.(invocations := s.invocations + multiset{intent.id}), n, intent, Tried(attempts, outcome))
  }

  /** Whether another attempt follows this one. */
  predicate Retries(spec: Spec, attempts: nat, outcome: Outcome) {
    outcome.Failure? && outcome.retryable && attempts <= spec.Retries()
  }

  function Leased(s: State, n: nat, granted: bool): State
    requires n in s.executions
  {
    var intent := s.executions[n].intent;
    if !s.executions[n].stage.Waiting? then s
    else if granted then MoveTo(s, n, intent, Ready)
    else s.(log := s.log + [Deferred(intent)], executions := s.executions - {n})
  }

  function Step(caps: Registry, s: State, n: nat, outcome: Outcome): State
    requires n in s.executions && s.executions[n].intent.capability in caps
  {
    var intent := s.executions[n].intent;
    match s.executions[n].stage
    case Waiting => s
    case Ready =>
      if intent.key.Some? && intent.key.value in s.ledger then End(s, n, intent, Skipped) else MoveTo(s, n, intent, Started)
    case Started => Invoke(s, n, intent, 1, outcome)
    case Tried(attempts, last) =>
      if Retries(caps[intent.capability], attempts, last) then Invoke(s, n, intent, attempts + 1, outcome)
      else End(s, n, intent, if last.Success? then Succeeded else Failed)
  }

  /** Without a record: cancelled, or its next append failed. The pass that waits for it fails. */
  function Dropped(s: State, n: nat): State {
    s.(executions := s.executions - {n},
       passes := map p | p in s.passes :: if s.passes[p].awaiting == Some(n) then Pass([], None) else s.passes[p])
  }

  predicate CanRead(s: State, p: nat) { p in s.passes ==> s.passes[p].pending == [] }

  predicate CanRecover(s: State, p: nat) {
    && p in s.passes && s.passes[p].pending != []
    && (s.passes[p].awaiting.Some? ==> s.passes[p].awaiting.value !in s.executions)
  }

  /** Recovery does not run this intent again, whatever attention is available. */
  predicate Abandons(caps: Registry, i: Intent, allowed: bool) {
    i.capability !in caps || !caps[i.capability].idempotent || !allowed
  }

  /** The next intent of a pass, settled without another look at the log. */
  function RecoverNext(caps: Registry, s: State, p: nat, allowed: bool, leased: bool): State
    requires CanRecover(s, p)
  {
    var i, rest := s.passes[p].pending[0], s.passes[p].pending[1..];
    if Abandons(caps, i, allowed) then s.(log := s.log + [Ended(i, Abandoned)], passes := s.passes[p := Pass(rest, None)])
    else if leased then Spawn(s.(passes := s.passes[p := Pass(rest, Some(s.spawned))]), i, Ready)
    else s.(passes := s.passes[p := Pass(rest, None)])
  }

  function Next(caps: Registry, s: State, a: Action): State {
    match a
    case Authorize(intent) =>
      if WasAuthorized(s.log, intent.id) || intent.capability !in caps then s
      else Spawn(s.(log := s.log + [Authorized(intent)]), intent, Waiting)
    case Lease(n, granted) => if n in s.executions then Leased(s, n, granted) else s
    case Advance(n, outcome) =>
      if n in s.executions && s.executions[n].intent.capability in caps then Step(caps, s, n, outcome) else s
    case Drop(n) => Dropped(s, n)
    case ReadLog(p) =>
      if CanRead(s, p) then
        s.(ledger := s.ledger + SucceededKeys(s.log), passes := s.passes[p := Pass(PendingOf(s.log, EndedIds(s.log)), None)])
      else s
    case Recover(p, allowed, leased) => if CanRecover(s, p) then RecoverNext(caps, s, p, allowed, leased) else s
    case Crash => s.(executions := map[], ledger := {}, passes := map[])
  }

  function Run(caps: Registry, s: State, actions: seq<Action>): State {
    if actions == [] then s else Next(caps, Run(caps, s, actions[..|actions| - 1]), actions[|actions| - 1])
  }

  const EMPTY := State([], map[], 0, {}, multiset{}, map[])

  // ---------------------------------------------------------------- at most once

  predicate NonIdempotent(caps: Registry, intent: Intent) {
    intent.capability in caps && !caps[intent.capability].idempotent
  }

  /** What one execution has behind it. */
  ghost predicate ExecutionInv(caps: Registry, s: State, n: nat)
    requires n in s.executions
  {
    var e := s.executions[n];
    && n < s.spawned && e.intent in Intents(s.log) && e.intent.capability in caps
    && (NonIdempotent(caps, e.intent) ==>
          && (e.stage.Tried? ==> e.stage.attempts == 1)
          && s.invocations[e.intent.id] == if e.stage.Tried? then 1 else 0)
  }

  ghost predicate Alone(caps: Registry, s: State, m: nat, n: nat)
    requires m in s.executions && n in s.executions
  {
    m != n && NonIdempotent(caps, s.executions[m].intent) ==> s.executions[m].intent.id != s.executions[n].intent.id
  }

  ghost predicate IntentInv(caps: Registry, s: State, i: Intent) {
    NonIdempotent(caps, i) ==> s.invocations[i.id] <= 1
  }

  ghost predicate PassInv(s: State, p: nat)
    requires p in s.passes
  {
    forall i :: i in s.passes[p].pending ==> i in Intents(s.log)
  }

  ghost predicate Inv(caps: Registry, s: State) {
    && (forall n :: n in s.executions ==> ExecutionInv(caps, s, n))
    && (forall m, n :: m in s.executions && n in s.executions ==> Alone(caps, s, m, n))
    && (forall a, b :: a in Intents(s.log) && b in Intents(s.log) && a.id == b.id ==> a == b)
    && (forall id :: id in s.invocations ==> WasAuthorized(s.log, id))
    && (forall i :: i in Intents(s.log) ==> IntentInv(caps, s, i))
    && (forall p :: p in s.passes ==> PassInv(s, p))
  }

  lemma IntentsSnoc(log: seq<Record>, r: Record)
    ensures Intents(log + [r]) == Intents(log) + if r.Authorized? then {r.intent} else {}
    ensures EndedIds(log + [r]) == EndedIds(log) + if r.Ended? then {r.intent.id} else {}
  {
    assert (log + [r])[..|log|] == log;
  }

  lemma {:induction false} PendingMembers(log: seq<Record>, ended: set<string>, i: Intent)
    ensures i in PendingOf(log, ended) <==> i in Intents(log) && i.id !in ended
  {
    if log != [] {
      PendingMembers(log[..|log| - 1], ended, i);
    }
  }

  predicate Fresh(caps: Registry, s: State, a: Action) {
    a.Authorize? && !WasAuthorized(s.log, a.intent.id) && a.intent.capability in caps
  }

  /** The one record a step may append. */
  ghost predicate Appends(caps: Registry, s: State, a: Action, r: Record) {
    match a
    case Authorize(intent) => Fresh(caps, s, a) && r == Authorized(intent)
    case Lease(n, _) => n in s.executions && r == Deferred(s.executions[n].intent)
    case Advance(n, _) => n in s.executions && r.Ended? && r.intent == s.executions[n].intent
    case Recover(p, _, _) => CanRecover(s, p) && r == Ended(s.passes[p].pending[0], Abandoned)
    case _ => false
  }

  lemma LogStep(caps: Registry, s: State, a: Action)
    ensures var t := Next(caps, s, a);
            t.log == s.log || (exists r :: Appends(caps, s, a, r) && t.log == s.log + [r])
    ensures Fresh(caps, s, a) ==> Next(caps, s, a).log == s.log + [Authorized(a.intent)]
  {
    hide Intents, EndedIds, PendingOf, SucceededKeys, WasAuthorized, Retries;
    match a
    case Authorize(intent) => assert Fresh(caps, s, a) ==> Appends(caps, s, a, Authorized(intent));
    case Lease(n, _) => if n in s.executions { assert Appends(caps, s, a, Deferred(s.executions[n].intent)); }
    case Advance(n, outcome) =>
      if n in s.executions && s.executions[n].intent.capability in caps {
        var i := s.executions[n].intent;
        assert Appends(caps, s, a, Ended(i, Skipped)) && Appends(caps, s, a, Ended(i, Succeeded)) && Appends(caps, s, a, Ended(i, Failed));
      }
    case Drop(_) =>
    case ReadLog(_) =>
    case Recover(p, _, _) => if CanRecover(s, p) { assert Appends(caps, s, a, Ended(s.passes[p].pending[0], Abandoned)); }
    case Crash =>
  }

  lemma LogNext(caps: Registry, s: State, a: Action)
    ensures Intents(Next(caps, s, a).log) == Intents(s.log) + if Fresh(caps, s, a) then {a.intent} else {}
    ensures EndedIds(s.log) <= EndedIds(Next(caps, s, a).log)
  {
    hide Next, Intents, EndedIds;
    LogStep(caps, s, a);
    if Next(caps, s, a).log != s.log {
      var r :| Appends(caps, s, a, r) && Next(caps, s, a).log == s.log + [r];
      IntentsSnoc(s.log, r);
    }
  }

  /** Recovery spawns this intent again. */
  predicate Respawns(caps: Registry, s: State, a: Action) {
    && a.Recover? && CanRecover(s, a.pass) && a.leased
    && !Abandons(caps, s.passes[a.pass].pending[0], a.allowed)
  }

  /** Where an execution comes from: it was there, or a fresh authorization or the recovery of
      an idempotent intent has just spawned it. */
  lemma SpawnedNext(caps: Registry, s: State, a: Action, n: nat)
    requires Inv(caps, s) && n in Next(caps, s, a).executions
    ensures n in s.executions ==> Next(caps, s, a).executions[n].intent == s.executions[n].intent
    ensures n !in s.executions ==>
              && n == s.spawned
              && (|| (Fresh(caps, s, a) && Next(caps, s, a).executions[n] == Execution(a.intent, Waiting))
                  || (Respawns(caps, s, a) && Next(caps, s, a).executions[n] == Execution(s.passes[a.pass].pending[0], Ready)))
  {
    assert s.spawned in s.executions ==> ExecutionInv(caps, s, s.spawned);
    hide Intents, EndedIds, SucceededKeys, PendingOf, WasAuthorized, Inv, ExecutionInv, Step, Leased, Dropped, Abandons;
    match a
    case Authorize(_) =>
    case Lease(m, granted) => if m in s.executions { LeaseKeepsIntents(s, m, granted, n); }
    case Advance(m, outcome) => if m in s.executions { StepKeepsIntents(caps, s, m, outcome, n); }
    case Drop(m) => assert Dropped(s, m).executions == s.executions - {m} by { DropKeepsIntents(s, m); }
    case ReadLog(_) =>
    case Recover(_, _, _) =>
    case Crash =>
  }

  lemma DropKeepsIntents(s: State, m: nat)
    ensures Dropped(s, m).executions == s.executions - {m}
  {
  }

  lemma LeaseKeepsIntents(s: State, m: nat, granted: bool, n: nat)
    requires m in s.executions && n in Leased(s, m, granted).executions
    ensures n in s.executions && Leased(s, m, granted).executions[n].intent == s.executions[n].intent
  {
  }

  lemma StepKeepsIntents(caps: Registry, s: State, m: nat, outcome: Outcome, n: nat)
    requires m in s.executions
    ensures s.executions[m].intent.capability in caps && n in Step(caps, s, m, outcome).executions ==>
              n in s.executions && Step(caps, s, m, outcome).executions[n].intent == s.executions[n].intent
  {
    hide Retries;
  }

  lemma RespawnedIsIdempotent(caps: Registry, s: State, a: Action)
    requires Inv(caps, s) && Respawns(caps, s, a)
    ensures var i := s.passes[a.pass].pending[0];
            i in Intents(s.log) && i.capability in caps && !NonIdempotent(caps, i)
  {
    assert PassInv(s, a.pass);
    hide Intents;
    assert s.passes[a.pass].pending[0] in s.passes[a.pass].pending;
  }

  /** One execution moves at a time, and only its own intent is invoked. */
  lemma Unmoved(caps: Registry, s: State, a: Action, n: nat)
    requires n in s.executions && n in Next(caps, s, a).executions && s.spawned !in s.executions
    ensures !a.Advance? ==> Next(caps, s, a).invocations == s.invocations
    ensures Next(caps, s, a).spawned >= s.spawned
    ensures ((a.Advance? || a.Lease?) && a.execution == n) || Next(caps, s, a).executions[n] == s.executions[n]
    ensures a.Lease? ==> Next(caps, s, a).executions[n].stage in {s.executions[n].stage, Ready}
    ensures a.Lease? && !s.executions[n].stage.Waiting? ==> Next(caps, s, a).executions[n] == s.executions[n]
    ensures a.Advance? && a.execution in s.executions ==>
              forall id :: id != s.executions[a.execution].intent.id ==> Next(caps, s, a).invocations[id] == s.invocations[id]
    ensures a.Advance? && a.execution !in s.executions ==> Next(caps, s, a) == s
  {
    hide Intents, EndedIds, SucceededKeys, PendingOf, WasAuthorized;
  }

  lemma AdvanceSelf(caps: Registry, s: State, n: nat, outcome: Outcome)
    requires n in s.executions && ExecutionInv(caps, s, n) && n in Next(caps, s, Advance(n, outcome)).executions
    ensures var t, intent := Next(caps, s, Advance(n, outcome)), s.executions[n].intent;
            && t.executions[n].intent == intent
            && (NonIdempotent(caps, intent) ==>
                  && (t.executions[n].stage.Tried? ==> t.executions[n].stage.attempts == 1)
                  && t.invocations[intent.id] == if t.executions[n].stage.Tried? then 1 else 0)
  {
    hide Intents;
  }

  lemma AdvancedNext(caps: Registry, s: State, a: Action, n: nat)
    requires Inv(caps, s) && n in Next(caps, s, a).executions && n in s.executions
    ensures ExecutionInv(caps, Next(caps, s, a), n)
  {
    LogNext(caps, s, a);
    SpawnedNext(caps, s, a, n);
    assert s.spawned in s.executions ==> ExecutionInv(caps, s, s.spawned);
    assert ExecutionInv(caps, s, n);
    Unmoved(caps, s, a, n);
    if a.Advance? && a.execution in s.executions {
      assert Alone(caps, s, n, a.execution);
      if a.execution == n { AdvanceSelf(caps, s, n, a.outcome); }
    }
    hide Next, Intents, Inv;
  }

  lemma ExecutionNext(caps: Registry, s: State, a: Action, n: nat)
    requires Inv(caps, s) && n in Next(caps, s, a).executions
    ensures ExecutionInv(caps, Next(caps, s, a), n)
  {
    if n in s.executions {
      AdvancedNext(caps, s, a, n);
    } else {
      LogNext(caps, s, a);
      SpawnedNext(caps, s, a, n);
      SpawnCounts(caps, s, a);
      if Respawns(caps, s, a) { RespawnedIsIdempotent(caps, s, a); }
      hide Next, Intents;
      if Fresh(caps, s, a) { assert a.intent.id !in s.invocations; }
    }
  }

  lemma SpawnCounts(caps: Registry, s: State, a: Action)
    requires Fresh(caps, s, a) || Respawns(caps, s, a)
    ensures Next(caps, s, a).invocations == s.invocations && Next(caps, s, a).spawned == s.spawned + 1
  {
    hide Intents, EndedIds, PendingOf, WasAuthorized;
  }

  lemma AloneNext(caps: Registry, s: State, a: Action, m: nat, n: nat)
    requires Inv(caps, s) && m in Next(caps, s, a).executions && n in Next(caps, s, a).executions
    ensures Alone(caps, Next(caps, s, a), m, n)
  {
    SpawnedNext(caps, s, a, m);
    SpawnedNext(caps, s, a, n);
    if Respawns(caps, s, a) { RespawnedIsIdempotent(caps, s, a); }
    hide Next, Intents;
    if m in s.executions { assert ExecutionInv(caps, s, m); }
    if n in s.executions { assert ExecutionInv(caps, s, n); }
    if m in s.executions && n in s.executions { assert Alone(caps, s, m, n); }
  }

  lemma InvocationsNext(caps: Registry, s: State, a: Action, id: string)
    ensures Next(caps, s, a).invocations[id] != s.invocations[id] ==>
              a.Advance? && a.execution in s.executions && s.executions[a.execution].intent.id == id
              && Next(caps, s, a).invocations[id] == s.invocations[id] + 1 && a.execution in Next(caps, s, a).executions
              && Next(caps, s, a).executions[a.execution].stage.Tried?
    ensures id in Next(caps, s, a).invocations ==> id in s.invocations || Next(caps, s, a).invocations[id] != s.invocations[id]
  {
    hide Intents, EndedIds, SucceededKeys, PendingOf, WasAuthorized;
  }

  lemma IntentNext(caps: Registry, s: State, a: Action, i: Intent)
    requires Inv(caps, s) && i in Intents(Next(caps, s, a).log)
    ensures IntentInv(caps, Next(caps, s, a), i)
  {
    LogNext(caps, s, a);
    InvocationsNext(caps, s, a, i.id);
    if Next(caps, s, a).invocations[i.id] != s.invocations[i.id] {
      assert ExecutionInv(caps, s, a.execution);
      ExecutionNext(caps, s, a, a.execution);
      SpawnedNext(caps, s, a, a.execution);
    }
    hide Next, Intents, EndedIds;
    if i in Intents(s.log) { assert IntentInv(caps, s, i); }
  }

  lemma InvokedNext(caps: Registry, s: State, a: Action, id: string)
    requires Inv(caps, s) && id in Next(caps, s, a).invocations
    ensures WasAuthorized(Next(caps, s, a).log, id)
  {
    LogNext(caps, s, a);
    InvocationsNext(caps, s, a, id);
    hide Next, Intents, EndedIds;
    if id !in s.invocations { assert ExecutionInv(caps, s, a.execution); }
    assert WasAuthorized(s.log, id);
  }

  lemma PassNext(caps: Registry, s: State, a: Action, p: nat)
    requires Inv(caps, s) && p in Next(caps, s, a).passes
    ensures PassInv(Next(caps, s, a), p)
  {
    hide Next, Intents, EndedIds, PendingOf, ExecutionInv, Alone, IntentInv;
    LogNext(caps, s, a);
    PassStep(caps, s, a, p);
    if a == ReadLog(p) && CanRead(s, p) {
      ReadIsAuthorized(s.log);
    } else {
      assert PassInv(s, p);
    }
  }

  lemma ReadIsAuthorized(log: seq<Record>)
    ensures forall i :: i in PendingOf(log, EndedIds(log)) ==> i in Intents(log)
  {
    forall i | i in PendingOf(log, EndedIds(log)) ensures i in Intents(log) { PendingMembers(log, EndedIds(log), i); }
  }

  /** A pass is what it was, less what it has handled, unless it has just read the log. */
  lemma PassStep(caps: Registry, s: State, a: Action, p: nat)
    requires p in Next(caps, s, a).passes
    ensures var t := Next(caps, s, a);
            if a == ReadLog(p) && CanRead(s, p) then t.passes[p].pending == PendingOf(s.log, EndedIds(s.log)) && t.log == s.log
            else p in s.passes
                 && (|| t.passes[p].pending == s.passes[p].pending || t.passes[p].pending == []
                     || (s.passes[p].pending != [] && t.passes[p].pending == s.passes[p].pending[1..]))
    ensures a.Recover? && a.pass == p && CanRecover(s, p) ==> Next(caps, s, a).passes[p].pending == s.passes[p].pending[1..]
  {
    hide Intents, EndedIds, PendingOf, WasAuthorized, SucceededKeys;
  }

  lemma NextInv(caps: Registry, s: State, a: Action)
    requires Inv(caps, s)
    ensures Inv(caps, Next(caps, s, a))
  {
    hide Next, Intents;
    var t := Next(caps, s, a);
    LogNext(caps, s, a);
    forall n | n in t.executions ensures ExecutionInv(caps, t, n) { ExecutionNext(caps, s, a, n); }
    forall m, n | m in t.executions && n in t.executions ensures Alone(caps, t, m, n) { AloneNext(caps, s, a, m, n); }
    forall i | i in Intents(t.log) ensures IntentInv(caps, t, i) { IntentNext(caps, s, a, i); }
    forall id | id in t.invocations ensures WasAuthorized(t.log, id) { InvokedNext(caps, s, a, id); }
    forall p | p in t.passes ensures PassInv(t, p) { PassNext(caps, s, a, p); }
  }

  lemma {:induction false} RunInv(caps: Registry, actions: seq<Action>)
    ensures Inv(caps, Run(caps, EMPTY, actions))
  {
    if actions != [] {
      RunInv(caps, actions[..|actions| - 1]);
      NextInv(caps, Run(caps, EMPTY, actions[..|actions| - 1]), actions[|actions| - 1]);
    }
  }

  /** At most once: over any number of crashes, restarts and recoveries, and however executions
      overlap, a non-idempotent capability is invoked at most once for an intent, and only for
      an intent that was authorized. */
  lemma NonIdempotentAtMostOnce(caps: Registry, actions: seq<Action>, intent: Intent)
    requires intent in Intents(Run(caps, EMPTY, actions).log) && NonIdempotent(caps, intent)
    ensures Run(caps, EMPTY, actions).invocations[intent.id] <= 1
  {
    RunInv(caps, actions);
    assert IntentInv(caps, Run(caps, EMPTY, actions), intent);
  }

  lemma OnlyAuthorizedIsInvoked(caps: Registry, actions: seq<Action>, id: string)
    requires id in Run(caps, EMPTY, actions).invocations
    ensures WasAuthorized(Run(caps, EMPTY, actions).log, id)
  {
    RunInv(caps, actions);
  }

  // ---------------------------------------------------------------- how often one execution invokes, and where it ends up

  /** The invocations that execution n made in a run. */
  function InvokedBy(caps: Registry, actions: seq<Action>, n: nat): nat {
    if actions == [] then 0
    else
      var s, a := Run(caps, EMPTY, actions[..|actions| - 1]), actions[|actions| - 1];
      InvokedBy(caps, actions[..|actions| - 1], n)
      + if a.Advance? && a.execution == n && Next(caps, s, a).invocations != s.invocations then 1 else 0
  }

  /** Retries are bounded: in every run a live execution has invoked its capability as often as it
      has attempts behind it, once at first, and again only for an idempotent one, up to the
      number of retries that capability allows. */
  lemma {:induction false} AttemptsAreBounded(caps: Registry, actions: seq<Action>, n: nat)
    ensures var s := Run(caps, EMPTY, actions);
            && (n in s.executions ==>
                  var e := s.executions[n];
                  && InvokedBy(caps, actions, n) == (if e.stage.Tried? then e.stage.attempts else 0)
                  && e.intent.capability in caps
                  && InvokedBy(caps, actions, n) <= 1 + if caps[e.intent.capability].idempotent then caps[e.intent.capability].maxRetries else 0)
            && (n >= s.spawned ==> InvokedBy(caps, actions, n) == 0)
  {
    if actions != [] {
      var before := actions[..|actions| - 1];
      AttemptsAreBounded(caps, before, n);
      RunInv(caps, before);
      AttemptsNext(caps, Run(caps, EMPTY, before), actions[|actions| - 1], n, InvokedBy(caps, before, n));
    }
  }

  ghost predicate Counted(caps: Registry, s: State, n: nat, count: nat) {
    && (n in s.executions ==>
          var e := s.executions[n];
          && count == (if e.stage.Tried? then e.stage.attempts else 0)
          && e.intent.capability in caps
          && count <= 1 + if caps[e.intent.capability].idempotent then caps[e.intent.capability].maxRetries else 0)
    && (n >= s.spawned ==> count == 0)
  }

  lemma AttemptsNext(caps: Registry, s: State, a: Action, n: nat, count: nat)
    requires Inv(caps, s) && Counted(caps, s, n, count)
    ensures var more := if a.Advance? && a.execution == n && Next(caps, s, a).invocations != s.invocations then 1 else 0;
            Counted(caps, Next(caps, s, a), n, count + more)
  {
    hide Next, Inv, ExecutionInv, Intents, Retries, CanRecover, Abandons, WasAuthorized;
    NextInv(caps, s, a);
    var t := Next(caps, s, a);
    if s.spawned in s.executions { LiveIs(caps, s, s.spawned); }
    SpawnedGrows(caps, s, a);
    if n in s.executions { LiveIs(caps, s, n); }
    if n in t.executions {
      LiveIs(caps, t, n);
      SpawnedNext(caps, s, a, n);
      if n in s.executions {
        Unmoved(caps, s, a, n);
        if a.Advance? && a.execution == n { OneAttempt(caps, s, n, a.outcome); }
      }
    }
  }

  lemma LiveIs(caps: Registry, s: State, n: nat)
    requires Inv(caps, s) && n in s.executions
    ensures n < s.spawned && s.executions[n].intent.capability in caps
  {
    assert ExecutionInv(caps, s, n);
  }

  lemma SpawnedGrows(caps: Registry, s: State, a: Action)
    ensures Next(caps, s, a).spawned >= s.spawned
    ensures a.Advance? && a.execution !in s.executions ==> Next(caps, s, a) == s
  {
    hide Intents, EndedIds, SucceededKeys, PendingOf, WasAuthorized;
  }

  lemma OneAttempt(caps: Registry, s: State, n: nat, outcome: Outcome)
    requires n in s.executions && n in Next(caps, s, Advance(n, outcome)).executions && s.executions[n].intent.capability in caps
    ensures var t, e := Next(caps, s, Advance(n, outcome)), s.executions[n];
            var attempts := if e.stage.Tried? then e.stage.attempts else 0;
            && t.executions[n].intent == e.intent
            && (if t.invocations != s.invocations
                then t.executions[n].stage.Tried? && t.executions[n].stage.attempts == attempts + 1
                     && (attempts > 0 ==> attempts <= caps[e.intent.capability].Retries())
                else attempts == if t.executions[n].stage.Tried? then t.executions[n].stage.attempts else 0)
  {
    var e, t := s.executions[n], Next(caps, s, Advance(n, outcome));
    if t.invocations == s.invocations + multiset{e.intent.id} {
      assert t.invocations[e.intent.id] == s.invocations[e.intent.id] + 1;
    }
  }

  /** No process dies, and no execution is cancelled. */
  predicate NoLoss(actions: seq<Action>) { forall i :: 0 <= i < |actions| ==> !actions[i].Crash? && !actions[i].Drop? }

  /** An intent has ended, is on its way, or was put off for lack of attention, with a record. */
  ghost predicate Accounted(s: State, i: Intent) {
    || i.id in EndedIds(s.log)
    || (exists n :: n in s.executions && s.executions[n].intent == i)
    || Deferred(i) in s.log
  }

  /** As long as nothing crashes or is cancelled, no authorized intent gets lost: each has ended,
      is being executed, or was put off with a record. */
  lemma {:induction false} NothingIsLost(caps: Registry, actions: seq<Action>, i: Intent)
    requires NoLoss(actions) && i in Intents(Run(caps, EMPTY, actions).log)
    ensures Accounted(Run(caps, EMPTY, actions), i)
  {
    var n := |actions| - 1;
    if actions != [] {
      var s := Run(caps, EMPTY, actions[..n]);
      RunInv(caps, actions[..n]);
      if i in Intents(s.log) { NothingIsLost(caps, actions[..n], i); }
      AccountedNext(caps, s, actions[n], i);
    }
  }

  lemma AccountedNext(caps: Registry, s: State, a: Action, i: Intent)
    requires Inv(caps, s) && !a.Crash? && !a.Drop? && (i in Intents(s.log) ==> Accounted(s, i))
    ensures i in Intents(Next(caps, s, a).log) ==> Accounted(Next(caps, s, a), i)
  {
    hide Next, Inv, ExecutionInv, Intents, EndedIds, WasAuthorized, CanRecover, Abandons;
    var t := Next(caps, s, a);
    LogNext(caps, s, a);
    LogGrows(caps, s, a);
    if s.spawned in s.executions { LiveIs(caps, s, s.spawned); }
    if i in Intents(s.log) {
      if n :| n in s.executions && s.executions[n].intent == i {
        if n in t.executions { SpawnedNext(caps, s, a, n); } else { LeavesWithRecord(caps, s, a, n); }
      }
    } else if i in Intents(t.log) {
      FreshIsLive(caps, s, a);
    }
  }

  lemma LogGrows(caps: Registry, s: State, a: Action)
    ensures s.log <= Next(caps, s, a).log
  {
    hide Next;
    LogStep(caps, s, a);
  }

  lemma FreshIsLive(caps: Registry, s: State, a: Action)
    requires Fresh(caps, s, a)
    ensures var t := Next(caps, s, a); s.spawned in t.executions && t.executions[s.spawned].intent == a.intent
  {
    hide WasAuthorized;
  }

  /** An execution leaves with a record of how it ended or that it was put off. */
  lemma LeavesWithRecord(caps: Registry, s: State, a: Action, n: nat)
    requires n in s.executions && n !in Next(caps, s, a).executions && !a.Crash? && !a.Drop?
    ensures var t, i := Next(caps, s, a), s.executions[n].intent; i.id in EndedIds(t.log) || Deferred(i) in t.log
  {
    hide Intents, EndedIds, SucceededKeys, PendingOf, WasAuthorized, Retries;
    var i := s.executions[n].intent;
    IntentsSnoc(s.log, Ended(i, Skipped));
    IntentsSnoc(s.log, Ended(i, Succeeded));
    IntentsSnoc(s.log, Ended(i, Failed));
    match a
    case Advance(_, _) =>
    case Lease(_, _) => assert Next(caps, s, a).log == s.log + [Deferred(i)];
    case _ =>
  }

  // ---------------------------------------------------------------- how often an intent ends

  function Endings(log: seq<Record>, id: string): nat {
    if log == [] then 0
    else Endings(log[..|log| - 1], id) + if log[|log| - 1].Ended? && log[|log| - 1].intent.id == id then 1 else 0
  }

  lemma EndingsSnoc(log: seq<Record>, r: Record, id: string)
    ensures Endings(log + [r], id) == Endings(log, id) + if r.Ended? && r.intent.id == id then 1 else 0
  {
    assert (log + [r])[..|log|] == log;
  }

  lemma {:induction false} EndedMeans(log: seq<Record>, id: string)
    ensures id in EndedIds(log) <==> Endings(log, id) > 0
  {
    if log != [] {
      EndedMeans(log[..|log| - 1], id);
    }
  }

  /** Each id is authorized once, for one intent. */
  ghost predicate FreshIds(log: seq<Record>) {
    forall i, j :: 0 <= i < j < |log| && log[i].Authorized? && log[j].Authorized? ==> log[i].intent.id != log[j].intent.id
  }

  lemma {:induction false} IntentIsLogged(log: seq<Record>, i: Intent)
    ensures i in Intents(log) <==> Authorized(i) in log
  {
    if log != [] {
      IntentIsLogged(log[..|log| - 1], i);
      assert log == log[..|log| - 1] + [log[|log| - 1]];
    }
  }

  predicate DistinctIds(intents: seq<Intent>) {
    forall j, k :: 0 <= j < k < |intents| ==> intents[j].id != intents[k].id
  }

  lemma {:induction false} PendingDistinct(log: seq<Record>, ended: set<string>)
    requires FreshIds(log)
    ensures DistinctIds(PendingOf(log, ended))
  {
    if log != [] {
      var n := |log| - 1;
      PendingDistinct(log[..n], ended);
      forall i | i in PendingOf(log[..n], ended) ensures log[n].Authorized? ==> i.id != log[n].intent.id {
        PendingMembers(log[..n], ended, i);
        IntentIsLogged(log[..n], i);
        var k :| 0 <= k < n && log[..n][k] == Authorized(i);
        assert log[k] == Authorized(i);
      }
    }
  }

  /** Nothing that was authorized is still under way, neither live nor left to another pass. */
  predicate Clear(s: State) {
    s.executions == map[] && forall p :: p in s.passes ==> s.passes[p].pending == []
  }

  /** Recovery reads the log only when the state is clear. What happens afterwards, while the
      pass acts on what it read, is not restricted. */
  predicate Quiet(s: State, a: Action) { a.ReadLog? && CanRead(s, a.pass) ==> Clear(s) }

  predicate QuietRun(caps: Registry, actions: seq<Action>) {
    actions == [] ||
    (QuietRun(caps, actions[..|actions| - 1]) && Quiet(Run(caps, EMPTY, actions[..|actions| - 1]), actions[|actions| - 1]))
  }

  ghost predicate Sole(s: State, m: nat, n: nat)
    requires m in s.executions && n in s.executions
  {
    m != n ==> s.executions[m].intent.id != s.executions[n].intent.id
  }

  /** An intent left to a pass has not ended, and nothing else is about to end it. */
  ghost predicate Untouched(s: State, i: Intent) {
    && Endings(s.log, i.id) == 0
    && forall n :: n in s.executions ==> s.executions[n].intent.id != i.id
  }

  ghost predicate OnePass(s: State, p: nat, q: nat)
    requires p in s.passes && q in s.passes
  {
    s.passes[p].pending != [] && s.passes[q].pending != [] ==> p == q
  }

  ghost predicate EndInv(s: State) {
    && FreshIds(s.log)
    && (forall n :: n in s.executions ==> Endings(s.log, s.executions[n].intent.id) == 0)
    && (forall m, n :: m in s.executions && n in s.executions ==> Sole(s, m, n))
    && (forall id :: Endings(s.log, id) <= 1)
    && (forall id :: Endings(s.log, id) > 0 ==> WasAuthorized(s.log, id))
    && (forall p, i :: p in s.passes && i in s.passes[p].pending ==> Untouched(s, i))
    && (forall p :: p in s.passes ==> DistinctIds(s.passes[p].pending))
    && (forall p, q :: p in s.passes && q in s.passes ==> OnePass(s, p, q))
  }

  /** Recovery abandons this intent. */
  predicate Gives(caps: Registry, s: State, a: Action, id: string) {
    a.Recover? && CanRecover(s, a.pass) && s.passes[a.pass].pending[0].id == id && Abandons(caps, s.passes[a.pass].pending[0], a.allowed)
  }

  predicate Moves(s: State, a: Action, id: string) {
    a.Advance? && a.execution in s.executions && s.executions[a.execution].intent.id == id
  }

  lemma EndingsNext(caps: Registry, s: State, a: Action, id: string)
    ensures Endings(s.log, id) <= Endings(Next(caps, s, a).log, id) <= Endings(s.log, id) + 1
    ensures Endings(Next(caps, s, a).log, id) != Endings(s.log, id) ==>
              Gives(caps, s, a, id) || (Moves(s, a, id) && a.execution !in Next(caps, s, a).executions)
    ensures Gives(caps, s, a, id) ==> Endings(Next(caps, s, a).log, id) == Endings(s.log, id) + 1
  {
    hide Intents, EndedIds, Endings, SucceededKeys, PendingOf, WasAuthorized;
    match a
    case Authorize(intent) => EndingsSnoc(s.log, Authorized(intent), id);
    case Lease(n, _) => if n in s.executions { EndingsSnoc(s.log, Deferred(s.executions[n].intent), id); }
    case Advance(n, outcome) =>
      if n in s.executions {
        EndingsSnoc(s.log, Ended(s.executions[n].intent, Skipped), id);
        EndingsSnoc(s.log, Ended(s.executions[n].intent, Succeeded), id);
        EndingsSnoc(s.log, Ended(s.executions[n].intent, Failed), id);
      }
    case Drop(_) =>
    case ReadLog(_) =>
    case Recover(p, _, _) => if CanRecover(s, p) { EndingsSnoc(s.log, Ended(s.passes[p].pending[0], Abandoned), id); }
    case Crash =>
  }

  lemma HeadIsUntouched(s: State, p: nat)
    requires EndInv(s) && p in s.passes && s.passes[p].pending != []
    ensures Untouched(s, s.passes[p].pending[0])
  {
    hide Untouched, FreshIds;
    assert s.passes[p].pending[0] in s.passes[p].pending;
  }

  lemma SoleNext(caps: Registry, s: State, a: Action, m: nat, n: nat)
    requires Inv(caps, s) && EndInv(s) && m in Next(caps, s, a).executions && n in Next(caps, s, a).executions
    ensures Sole(Next(caps, s, a), m, n)
  {
    SpawnedNext(caps, s, a, m);
    SpawnedNext(caps, s, a, n);
    if Respawns(caps, s, a) { HeadIsUntouched(s, a.pass); }
    hide Next, Intents, Endings, FreshIds, DistinctIds;
    if m in s.executions { assert ExecutionInv(caps, s, m); }
    if n in s.executions { assert ExecutionInv(caps, s, n); }
    if m in s.executions && n in s.executions { assert Sole(s, m, n); }
  }

  lemma OpenNext(caps: Registry, s: State, a: Action, n: nat)
    requires Inv(caps, s) && EndInv(s) && n in Next(caps, s, a).executions
    ensures Endings(Next(caps, s, a).log, Next(caps, s, a).executions[n].intent.id) == 0
  {
    var id := Next(caps, s, a).executions[n].intent.id;
    EndingsNext(caps, s, a, id);
    SpawnedNext(caps, s, a, n);
    if a.Recover? && CanRecover(s, a.pass) { HeadIsUntouched(s, a.pass); }
    hide Next, Intents, Endings, EndedIds, FreshIds, DistinctIds;
    if Moves(s, a, id) && n in s.executions { assert Sole(s, n, a.execution); }
  }

  /** A pass hands on what it has not handled, or has just read the log in a clear state. */
  lemma PendingNext(caps: Registry, s: State, a: Action, p: nat, i: Intent)
    requires Inv(caps, s) && EndInv(s) && Quiet(s, a) && p in Next(caps, s, a).passes && i in Next(caps, s, a).passes[p].pending
    ensures Untouched(Next(caps, s, a), i)
  {
    PassStep(caps, s, a, p);
    if a == ReadLog(p) && CanRead(s, p) {
      ReadIsUntouched(caps, s, p, i);
    } else {
      KeptIsUntouched(caps, s, a, p, i);
    }
  }

  lemma ReadIsUntouched(caps: Registry, s: State, p: nat, i: Intent)
    requires CanRead(s, p) && Clear(s) && i in PendingOf(s.log, EndedIds(s.log))
    ensures Untouched(Next(caps, s, ReadLog(p)), i)
  {
    PendingMembers(s.log, EndedIds(s.log), i);
    EndedMeans(s.log, i.id);
    hide Endings, EndedIds, PendingOf, Intents;
  }

  lemma KeptIsUntouched(caps: Registry, s: State, a: Action, p: nat, i: Intent)
    requires Inv(caps, s) && EndInv(s) && p in s.passes && i in s.passes[p].pending
    requires a.Recover? && a.pass == p && CanRecover(s, p) ==> i in s.passes[p].pending[1..]
    ensures Untouched(Next(caps, s, a), i)
  {
    var t := Next(caps, s, a);
    EndingsNext(caps, s, a, i.id);
    assert PassInv(s, p) && Untouched(s, i);
    if a.Recover? && CanRecover(s, a.pass) {
      assert OnePass(s, p, a.pass);
      assert s.passes[p].pending[0].id != i.id by {
        var k :| 0 <= k < |s.passes[p].pending| - 1 && s.passes[p].pending[1..][k] == i;
        assert s.passes[p].pending[k + 1] == i;
      }
    }
    forall n | n in t.executions ensures t.executions[n].intent.id != i.id {
      SpawnedNext(caps, s, a, n);
      hide Next, Intents, Endings, EndedIds, FreshIds, DistinctIds;
    }
    hide Next, Intents, Endings, EndedIds, FreshIds, DistinctIds;
  }

  lemma DistinctNext(caps: Registry, s: State, a: Action, p: nat)
    requires EndInv(s) && p in Next(caps, s, a).passes
    ensures DistinctIds(Next(caps, s, a).passes[p].pending)
  {
    PassStep(caps, s, a, p);
    if a == ReadLog(p) && CanRead(s, p) {
      PendingDistinct(s.log, EndedIds(s.log));
    } else {
      assert DistinctIds(s.passes[p].pending);
    }
  }

  lemma OnePassNext(caps: Registry, s: State, a: Action, p: nat, q: nat)
    requires EndInv(s) && Quiet(s, a) && p in Next(caps, s, a).passes && q in Next(caps, s, a).passes
    ensures OnePass(Next(caps, s, a), p, q)
  {
    PassStep(caps, s, a, p);
    PassStep(caps, s, a, q);
    hide Next, EndedIds, PendingOf, Endings, FreshIds, DistinctIds;
    if p in s.passes && q in s.passes { assert OnePass(s, p, q); }
  }

  lemma FreshNext(caps: Registry, s: State, a: Action)
    requires FreshIds(s.log)
    ensures FreshIds(Next(caps, s, a).log)
  {
    LogStep(caps, s, a);
    hide Next;
    if Next(caps, s, a).log != s.log {
      var r :| Appends(caps, s, a, r) && Next(caps, s, a).log == s.log + [r];
      if r.Authorized? {
        forall i | 0 <= i < |s.log| && s.log[i].Authorized? ensures s.log[i].intent.id != r.intent.id {
          IntentIsLogged(s.log, s.log[i].intent);
          assert s.log[i].intent in Intents(s.log);
        }
      }
    }
  }

  lemma EndNext(caps: Registry, s: State, a: Action)
    requires Inv(caps, s) && EndInv(s) && Quiet(s, a)
    ensures EndInv(Next(caps, s, a))
  {
    var t := Next(caps, s, a);
    hide Next, Intents, Endings, EndedIds, FreshIds, DistinctIds, Untouched, Sole, OnePass;
    LogNext(caps, s, a);
    FreshNext(caps, s, a);
    forall n | n in t.executions ensures Endings(t.log, t.executions[n].intent.id) == 0 { OpenNext(caps, s, a, n); }
    forall m, n | m in t.executions && n in t.executions ensures Sole(t, m, n) { SoleNext(caps, s, a, m, n); }
    forall id ensures Endings(t.log, id) <= 1 && (Endings(t.log, id) > 0 ==> WasAuthorized(t.log, id)) { CountNext(caps, s, a, id); }
    forall p, i | p in t.passes && i in t.passes[p].pending ensures Untouched(t, i) { PendingNext(caps, s, a, p, i); }
    forall p | p in t.passes ensures DistinctIds(t.passes[p].pending) { DistinctNext(caps, s, a, p); }
    forall p, q | p in t.passes && q in t.passes ensures OnePass(t, p, q) { OnePassNext(caps, s, a, p, q); }
  }

  lemma CountNext(caps: Registry, s: State, a: Action, id: string)
    requires Inv(caps, s) && EndInv(s)
    ensures Endings(Next(caps, s, a).log, id) <= 1
    ensures Endings(Next(caps, s, a).log, id) > 0 ==> WasAuthorized(Next(caps, s, a).log, id)
  {
    EndingsNext(caps, s, a, id);
    LogNext(caps, s, a);
    if a.Recover? && CanRecover(s, a.pass) {
      HeadIsUntouched(s, a.pass);
      assert PassInv(s, a.pass) && s.passes[a.pass].pending[0] in s.passes[a.pass].pending;
    }
    hide Next, Intents, Endings, EndedIds, FreshIds, DistinctIds;
    if a.Advance? && a.execution in s.executions { assert ExecutionInv(caps, s, a.execution); }
  }

  lemma {:induction false} QuietRunsEnd(caps: Registry, actions: seq<Action>)
    requires QuietRun(caps, actions)
    ensures EndInv(Run(caps, EMPTY, actions))
  {
    if actions != [] {
      RunInv(caps, actions[..|actions| - 1]);
      QuietRunsEnd(caps, actions[..|actions| - 1]);
      EndNext(caps, Run(caps, EMPTY, actions[..|actions| - 1]), actions[|actions| - 1]);
    }
  }

  /** As long as recovery reads the log in clear states only, every intent ends at most once:
      succeeded, failed, skipped or abandoned. */
  lemma IntentsEndOnce(caps: Registry, actions: seq<Action>, id: string)
    requires QuietRun(caps, actions)
    ensures Endings(Run(caps, EMPTY, actions).log, id) <= 1
  {
    QuietRunsEnd(caps, actions);
  }

  // ---------------------------------------------------------------- exactly when recovery is safe

  lemma {:induction false} RunAppend(caps: Registry, s: State, a: seq<Action>, b: seq<Action>)
    ensures Run(caps, s, a + b) == Run(caps, Run(caps, s, a), b)
  {
    hide Next;
    if b == [] {
      assert a + b == a;
    } else {
      var n := |b| - 1;
      RunAppend(caps, s, a, b[..n]);
      assert (a + b)[..|a + b| - 1] == a + b[..n];
    }
  }

  lemma RunCons(caps: Registry, s: State, a: Action, more: seq<Action>)
    ensures Run(caps, s, [a] + more) == Run(caps, Next(caps, s, a), more)
  {
    hide Next;
    RunAppend(caps, s, [a], more);
    assert [a][..0] == [];
    assert Run(caps, s, []) == s;
  }

  /** No pass reads the log in between. */
  predicate NoReads(more: seq<Action>) { forall i :: 0 <= i < |more| ==> !more[i].ReadLog? }

  /** How many successful steps are left of an execution, at most. */
  function StepsLeft(stage: Stage): nat {
    match stage
    case Waiting => 4
    case Ready => 3
    case Started => 2
    case Tried(_, outcome) => if outcome.Success? then 1 else 2
  }

  function Onwards(s: State, n: nat): Action
    requires n in s.executions
  {
    if s.executions[n].stage.Waiting? then Lease(n, true) else Advance(n, Success)
  }

  lemma GoesOnwards(caps: Registry, s: State, n: nat)
    requires n in s.executions && s.executions[n].intent.capability in caps
    ensures var t, intent := Next(caps, s, Onwards(s, n)), s.executions[n].intent;
            && (forall id :: Endings(t.log, id) >= Endings(s.log, id))
            && (if n in t.executions
                then t.executions[n].intent == intent && StepsLeft(t.executions[n].stage) < StepsLeft(s.executions[n].stage) && t.log == s.log
                else Endings(t.log, intent.id) == Endings(s.log, intent.id) + 1)
  {
    var intent := s.executions[n].intent;
    forall id ensures Endings(Next(caps, s, Onwards(s, n)).log, id) >= Endings(s.log, id) { EndingsNext(caps, s, Onwards(s, n), id); }
    hide Endings;
    var t := Next(caps, s, Onwards(s, n));
    if n !in t.executions {
      var ending := EndingOf(s, n);
      assert t == End(s, n, intent, ending);
      EndingsSnoc(s.log, Ended(intent, ending), intent.id);
    }
  }

  /** The ending an execution would record if its next step ended it. */
  function EndingOf(s: State, n: nat): Ending
    requires n in s.executions
  {
    match s.executions[n].stage
    case Tried(_, Success) => Succeeded
    case Tried(_, Failure(_)) => Failed
    case _ => Skipped
  }

  /** Left alone, a live execution runs to one more ending of its intent. */
  lemma {:induction false} RunsToItsEnd(caps: Registry, s: State, n: nat) returns (more: seq<Action>)
    requires n in s.executions && s.executions[n].intent.capability in caps
    ensures NoReads(more) && Endings(Run(caps, s, more).log, s.executions[n].intent.id) == Endings(s.log, s.executions[n].intent.id) + 1
    decreases StepsLeft(s.executions[n].stage)
  {
    hide Next;
    var a := Onwards(s, n);
    var t := Next(caps, s, a);
    GoesOnwards(caps, s, n);
    if n in t.executions {
      var rest := RunsToItsEnd(caps, t, n);
      more := [a] + rest;
      RunCons(caps, s, a, rest);
    } else {
      more := [a];
      RunCons(caps, s, a, []);
      assert [a] + [] == [a];
    }
  }

  lemma GivesUpOne(caps: Registry, s: State, p: nat)
    requires CanRecover(s, p)
    ensures var t, head := Next(caps, s, Recover(p, false, false)), s.passes[p].pending[0];
            && t.executions == s.executions && t.passes == s.passes[p := Pass(s.passes[p].pending[1..], None)]
            && Endings(t.log, head.id) == Endings(s.log, head.id) + 1
            && (forall id :: Endings(t.log, id) >= Endings(s.log, id))
  {
    var a := Recover(p, false, false);
    var head := s.passes[p].pending[0];
    EndingsNext(caps, s, a, head.id);
    forall id ensures Endings(Next(caps, s, a).log, id) >= Endings(s.log, id) { EndingsNext(caps, s, a, id); }
    hide Endings, Intents, EndedIds;
  }

  /** A pass that is not allowed to run anything gives up all it has left. */
  lemma {:induction false} GivesUpAll(caps: Registry, s: State, p: nat) returns (more: seq<Action>)
    requires p in s.passes && s.passes[p].awaiting == None
    ensures NoReads(more)
    ensures var t := Run(caps, s, more);
            && t.executions == s.executions && t.passes == s.passes[p := Pass([], None)]
            && (forall id :: Endings(t.log, id) >= Endings(s.log, id))
            && (forall i :: i in s.passes[p].pending ==> Endings(t.log, i.id) > Endings(s.log, i.id))
    decreases |s.passes[p].pending|
  {
    hide Next, Endings;
    if s.passes[p].pending == [] {
      more := [];
      assert s.passes == s.passes[p := Pass([], None)];
    } else {
      var a := Recover(p, false, false);
      var t := Next(caps, s, a);
      GivesUpOne(caps, s, p);
      var rest := GivesUpAll(caps, t, p);
      more := [a] + rest;
      RunCons(caps, s, a, rest);
      var pending := s.passes[p].pending;
      forall i | i in pending ensures Endings(Run(caps, s, more).log, i.id) > Endings(s.log, i.id) {
        assert pending == [pending[0]] + pending[1..];
        assert i == pending[0] || i in t.passes[p].pending;
      }
    }
  }

  /** An intent that is still under way is pending: the log shows it authorized and not ended. */
  lemma UnderWayIsPending(caps: Registry, s: State, i: Intent)
    requires EndInv(s) && i in Intents(s.log) && Endings(s.log, i.id) == 0
    ensures i in PendingOf(s.log, EndedIds(s.log))
  {
    hide EndInv;
    EndedMeans(s.log, i.id);
    PendingMembers(s.log, EndedIds(s.log), i);
  }

  lemma AfterRead(caps: Registry, s: State, p: nat)
    requires CanRead(s, p)
    ensures var t := Next(caps, s, ReadLog(p));
            && t.log == s.log && t.executions == s.executions
            && t.passes == s.passes[p := Pass(PendingOf(s.log, EndedIds(s.log)), None)]
  {
  }

  /** A pass that reads the log too early gives up an intent that someone else ends, too. */
  lemma EarlyReadEndsTwice(caps: Registry, s: State, p: nat) returns (more: seq<Action>, id: string)
    requires Inv(caps, s) && EndInv(s) && CanRead(s, p) && !Clear(s)
    ensures NoReads(more) && Endings(Run(caps, Next(caps, s, ReadLog(p)), more).log, id) >= 2
  {
    var t := Next(caps, s, ReadLog(p));
    AfterRead(caps, s, p);
    hide Next, Endings, PendingOf, EndedIds, Intents, FreshIds, DistinctIds, Untouched, OnePass, Sole;
    var first := GivesUpAll(caps, t, p);
    var u := Run(caps, t, first);
    var i, second;
    if s.executions != map[] {
      var n :| n in s.executions;
      i := s.executions[n].intent;
      assert ExecutionInv(caps, s, n);
      second := RunsToItsEnd(caps, u, n);
    } else {
      var q :| q in s.passes && s.passes[q].pending != [];
      i := s.passes[q].pending[0];
      NextIsUnended(s, q);
      assert PassInv(s, q) && i in s.passes[q].pending;
      second := GivesUpNext(caps, u, q);
    }
    UnderWayIsPending(caps, s, i);
    RunAppend(caps, t, first, second);
    more, id := first + second, i.id;
  }

  lemma NextIsUnended(s: State, q: nat)
    requires EndInv(s) && q in s.passes && s.passes[q].pending != []
    ensures Endings(s.log, s.passes[q].pending[0].id) == 0
  {
    HeadIsUntouched(s, q);
  }

  lemma GivesUpNext(caps: Registry, s: State, p: nat) returns (more: seq<Action>)
    requires CanRecover(s, p)
    ensures NoReads(more)
    ensures Endings(Run(caps, s, more).log, s.passes[p].pending[0].id) == Endings(s.log, s.passes[p].pending[0].id) + 1
  {
    hide Next, Endings;
    GivesUpOne(caps, s, p);
    RunCons(caps, s, Recover(p, false, false), []);
    more := [Recover(p, false, false)];
    assert more + [] == more;
  }

  lemma {:induction false} NoReadsAreQuiet(caps: Registry, actions: seq<Action>, more: seq<Action>)
    requires QuietRun(caps, actions) && NoReads(more)
    ensures QuietRun(caps, actions + more)
  {
    if more == [] {
      assert actions + more == actions;
    } else {
      hide Run;
      NoReadsAreQuiet(caps, actions, more[..|more| - 1]);
      assert (actions + more)[..|actions + more| - 1] == actions + more[..|more| - 1];
    }
  }

  /** Exactly when recovery is safe. A pass reads the log once and then acts on what it read,
      whatever has happened since. That no intent ends twice, however the run goes on, is the
      same as that nothing authorized was under way at the moment of that read. */
  lemma RecoveryIsSafeExactly(caps: Registry, actions: seq<Action>, p: nat)
    requires QuietRun(caps, actions) && CanRead(Run(caps, EMPTY, actions), p)
    ensures Clear(Run(caps, EMPTY, actions)) <==>
            forall more, id :: NoReads(more) ==> Endings(Run(caps, EMPTY, actions + [ReadLog(p)] + more).log, id) <= 1
  {
    hide Next, Endings;
    var s := Run(caps, EMPTY, actions);
    assert (actions + [ReadLog(p)])[..|actions + [ReadLog(p)]| - 1] == actions;
    if Clear(s) {
      forall more, id | NoReads(more) ensures Endings(Run(caps, EMPTY, actions + [ReadLog(p)] + more).log, id) <= 1 {
        NoReadsAreQuiet(caps, actions + [ReadLog(p)], more);
        IntentsEndOnce(caps, actions + [ReadLog(p)] + more, id);
      }
    } else {
      RunInv(caps, actions);
      QuietRunsEnd(caps, actions);
      var more, id := EarlyReadEndsTwice(caps, s, p);
      RunAppend(caps, EMPTY, actions + [ReadLog(p)], more);
      assert Run(caps, EMPTY, actions + [ReadLog(p)]) == Next(caps, s, ReadLog(p));
    }
  }

  // ---------------------------------------------------------------- what has succeeded is not repeated

  /** The process keeps running. */
  predicate NoCrash(more: seq<Action>) { forall i :: 0 <= i < |more| ==> !more[i].Crash? }

  /** Past the look at the ledger, with an invocation still ahead. */
  predicate WillInvoke(caps: Registry, e: Execution) {
    e.stage.Started? || (e.stage.Tried? && e.intent.capability in caps && Retries(caps[e.intent.capability], e.stage.attempts, e.stage.outcome))
  }

  /** The ledger knows nothing that has not succeeded. */
  ghost predicate LedgerInv(s: State) { s.ledger <= SucceededKeys(s.log) }

  lemma SucceededSnoc(log: seq<Record>, r: Record)
    ensures SucceededKeys(log + [r]) == SucceededKeys(log) + if r.Ended? && r.ending == Succeeded && r.intent.key.Some? then {r.intent.key.value} else {}
  {
    assert (log + [r])[..|log|] == log;
  }

  /** What a step does to ledger and log: a key enters the ledger with the record of its success,
      or because a pass has read it, and leaves it only in a crash. */
  lemma LedgerStep(caps: Registry, s: State, a: Action)
    ensures var t := Next(caps, s, a);
            && (!a.Crash? ==> s.ledger <= t.ledger)
            && (a.ReadLog? && CanRead(s, a.pass) ==> t.ledger == s.ledger + SucceededKeys(s.log) && t.log == s.log)
            && (!(a.ReadLog? && CanRead(s, a.pass)) && !a.Crash? ==>
                  || t.ledger == s.ledger
                  || exists i: Intent :: i.key.Some? && t.ledger == s.ledger + {i.key.value} && t.log == s.log + [Ended(i, Succeeded)])
            && (a.Crash? ==> t.ledger == {})
            && (t.log == s.log || exists r :: t.log == s.log + [r] && (r == Ended(r.intent, Skipped) ==> r.intent.key.Some? && r.intent.key.value in s.ledger))
  {
    hide Intents, EndedIds, PendingOf, SucceededKeys, WasAuthorized, Retries;
    var t := Next(caps, s, a);
    if a.Advance? && a.execution in s.executions && s.executions[a.execution].intent.capability in caps {
      var i := s.executions[a.execution].intent;
      assert t.ledger == s.ledger || (i.key.Some? && t.ledger == s.ledger + {i.key.value} && t.log == s.log + [Ended(i, Succeeded)]);
    }
    if t.log != s.log {
      LogStep(caps, s, a);
      var r :| Appends(caps, s, a, r) && t.log == s.log + [r];
      assert t.log[|s.log|] == r;
    }
  }

  /** A skip is justified where it lands: its key had succeeded before. */
  ghost predicate SkipsJustified(log: seq<Record>) {
    forall k :: 0 <= k < |log| && log[k].Ended? && log[k].ending == Skipped ==>
      log[k].intent.key.Some? && log[k].intent.key.value in SucceededKeys(log[..k])
  }

  lemma LedgerNext(caps: Registry, s: State, a: Action)
    requires LedgerInv(s) && SkipsJustified(s.log)
    ensures LedgerInv(Next(caps, s, a)) && SkipsJustified(Next(caps, s, a).log)
  {
    hide Next, SucceededKeys;
    LedgerStep(caps, s, a);
    var t := Next(caps, s, a);
    if t.log != s.log {
      var r :| t.log == s.log + [r] && (r == Ended(r.intent, Skipped) ==> r.intent.key.Some? && r.intent.key.value in s.ledger);
      SucceededSnoc(s.log, r);
      assert t.log[|s.log|] == r;
      forall k | 0 <= k < |t.log| && t.log[k].Ended? && t.log[k].ending == Skipped
        ensures t.log[k].intent.key.Some? && t.log[k].intent.key.value in SucceededKeys(t.log[..k])
      {
        assert t.log[..k] == s.log[..k];
        if k == |s.log| {
          assert s.log[..k] == s.log && r == Ended(r.intent, Skipped);
        } else {
          assert t.log[k] == s.log[k];
        }
      }
    }
  }

  lemma {:induction false} RunLedger(caps: Registry, actions: seq<Action>)
    ensures LedgerInv(Run(caps, EMPTY, actions)) && SkipsJustified(Run(caps, EMPTY, actions).log)
  {
    if actions != [] {
      RunLedger(caps, actions[..|actions| - 1]);
      LedgerNext(caps, Run(caps, EMPTY, actions[..|actions| - 1]), actions[|actions| - 1]);
    }
  }

  /** Over any crashes, restarts and recoveries an intent is skipped only under a key that had
      succeeded before the skip was recorded. */
  lemma OnlySucceededIsSkipped(caps: Registry, actions: seq<Action>, k: nat)
    requires var log := Run(caps, EMPTY, actions).log; k < |log| && log[k].Ended? && log[k].ending == Skipped
    ensures var log := Run(caps, EMPTY, actions).log;
            exists j: nat :: j < k && log[j].Ended? && log[j].ending == Succeeded && log[j].intent.key.Some? && log[j].intent.key == log[k].intent.key
  {
    RunLedger(caps, actions);
    hide Run, Next;
    var log := Run(caps, EMPTY, actions).log;
    var j := SuccessOf(log[..k], log[k].intent.key.value);
    assert log[..k][j] == log[j];
  }

  lemma {:induction false} SuccessOf(log: seq<Record>, key: string) returns (j: nat)
    requires key in SucceededKeys(log)
    ensures j < |log| && log[j].Ended? && log[j].ending == Succeeded && log[j].intent.key == Some(key)
  {
    var n := |log| - 1;
    if key in SucceededKeys(log[..n]) { j := SuccessOf(log[..n], key); } else { j := n; }
  }

  /** The key is in the ledger and no execution of the intent is past it. */
  ghost predicate Settled(caps: Registry, s: State, i: Intent) {
    && Inv(caps, s) && i in Intents(s.log) && i.key.Some? && i.key.value in s.ledger
    && forall n :: n in s.executions && s.executions[n].intent == i ==> !WillInvoke(caps, s.executions[n])
  }

  /** An execution that is not past the ledger stays in front of it. */
  lemma SettledExecution(caps: Registry, s: State, a: Action, i: Intent, n: nat)
    requires Settled(caps, s, i) && n in s.executions && s.executions[n].intent == i && n in Next(caps, s, a).executions
    ensures !WillInvoke(caps, Next(caps, s, a).executions[n])
  {
    assert s.spawned in s.executions ==> ExecutionInv(caps, s, s.spawned);
    Unmoved(caps, s, a, n);
    hide Intents, EndedIds, SucceededKeys, PendingOf, WasAuthorized, Inv;
  }

  lemma SettledNext(caps: Registry, s: State, a: Action, i: Intent)
    requires Settled(caps, s, i) && !a.Crash?
    ensures Settled(caps, Next(caps, s, a), i) && Next(caps, s, a).invocations[i.id] == s.invocations[i.id]
  {
    NextInv(caps, s, a);
    LogNext(caps, s, a);
    LedgerStep(caps, s, a);
    InvocationsNext(caps, s, a, i.id);
    var t := Next(caps, s, a);
    forall n | n in t.executions && t.executions[n].intent == i ensures !WillInvoke(caps, t.executions[n]) {
      SpawnedNext(caps, s, a, n);
      if n in s.executions { SettledExecution(caps, s, a, i, n); }
    }
    hide Next, Intents;
    if t.invocations[i.id] != s.invocations[i.id] {
      assert ExecutionInv(caps, s, a.execution);
      NotInvoked(caps, s, a, i);
    }
  }

  lemma NotInvoked(caps: Registry, s: State, a: Action, i: Intent)
    requires Settled(caps, s, i) && a.Advance? && a.execution in s.executions && s.executions[a.execution].intent == i
    ensures Next(caps, s, a).invocations == s.invocations
  {
    hide Intents, EndedIds, SucceededKeys, PendingOf, WasAuthorized, Inv;
  }

  lemma {:induction false} SettledRuns(caps: Registry, s: State, more: seq<Action>, i: Intent)
    requires Settled(caps, s, i) && NoCrash(more)
    ensures Settled(caps, Run(caps, s, more), i) && Run(caps, s, more).invocations[i.id] == s.invocations[i.id]
  {
    hide Next, Settled;
    if more != [] {
      var n := |more| - 1;
      SettledRuns(caps, s, more[..n], i);
      SettledNext(caps, Run(caps, s, more[..n]), more[n], i);
    }
  }

  lemma InvokesNext(caps: Registry, s: State, n: nat)
    requires n in s.executions && s.executions[n].intent.capability in caps && WillInvoke(caps, s.executions[n])
    ensures var id := s.executions[n].intent.id; Next(caps, s, Advance(n, Success)).invocations[id] == s.invocations[id] + 1
  {
  }

  lemma ReadingLearns(caps: Registry, actions: seq<Action>, p: nat)
    requires CanRead(Run(caps, EMPTY, actions), p)
    ensures var s, t := Run(caps, EMPTY, actions), Run(caps, EMPTY, actions + [ReadLog(p)]);
            && Inv(caps, t) && t.log == s.log && t.executions == s.executions && t.invocations == s.invocations
            && SucceededKeys(s.log) <= t.ledger
  {
    RunInv(caps, actions + [ReadLog(p)]);
    assert (actions + [ReadLog(p)])[..|actions + [ReadLog(p)]| - 1] == actions;
    AfterRead(caps, Run(caps, EMPTY, actions), p);
    LedgerStep(caps, Run(caps, EMPTY, actions), ReadLog(p));
    hide Intents, Inv, SucceededKeys, PendingOf, EndedIds;
  }

  lemma InvokesOnce(caps: Registry, s: State, n: nat)
    requires Inv(caps, s) && n in s.executions && WillInvoke(caps, s.executions[n])
    ensures var id := s.executions[n].intent.id; Run(caps, s, [Advance(n, Success)]).invocations[id] == s.invocations[id] + 1
  {
    assert ExecutionInv(caps, s, n);
    InvokesNext(caps, s, n);
    hide Next, Inv;
    RunCons(caps, s, Advance(n, Success), []);
    assert [Advance(n, Success)] + [] == [Advance(n, Success)];
  }

  /** A pass has read the log, and the key of an intent had succeeded there: this process never
      invokes the intent again, however the run goes on, exactly when no execution of it was
      past its look at the ledger, with an invocation ahead, at the moment of that read. */
  lemma SucceededIsNotRepeatedExactly(caps: Registry, actions: seq<Action>, p: nat, i: Intent)
    requires var s := Run(caps, EMPTY, actions);
             CanRead(s, p) && i in Intents(s.log) && i.key.Some? && i.key.value in SucceededKeys(s.log)
    ensures var s := Run(caps, EMPTY, actions);
            (forall n :: n in s.executions && s.executions[n].intent == i ==> !WillInvoke(caps, s.executions[n])) <==>
            (forall more :: NoCrash(more) ==> Run(caps, EMPTY, actions + [ReadLog(p)] + more).invocations[i.id] == s.invocations[i.id])
  {
    ReadingLearns(caps, actions, p);
    hide Run, Next, Intents, SucceededKeys, WillInvoke, Inv;
    var s, t := Run(caps, EMPTY, actions), Run(caps, EMPTY, actions + [ReadLog(p)]);
    forall more ensures Run(caps, EMPTY, actions + [ReadLog(p)] + more) == Run(caps, t, more) {
      RunAppend(caps, EMPTY, actions + [ReadLog(p)], more);
    }
    if forall n :: n in s.executions && s.executions[n].intent == i ==> !WillInvoke(caps, s.executions[n]) {
      assert Settled(caps, t, i);
      forall more | NoCrash(more) ensures Run(caps, t, more).invocations[i.id] == s.invocations[i.id] {
        SettledRuns(caps, t, more, i);
      }
    } else {
      var n :| n in s.executions && s.executions[n].intent == i && WillInvoke(caps, s.executions[n]);
      InvokesOnce(caps, t, n);
      assert NoCrash([Advance(n, Success)]);
    }
  }

  // ---------------------------------------------------------------- two runs that end an intent twice

  /** An action is running: authorized, leased, started and tried. */
  function Running(intent: Intent): seq<Action> { [Authorize(intent), Lease(0, true), Advance(0, Success), Advance(0, Success)] }

  function OneShot(intent: Intent): Registry { map[intent.capability := Spec(false, 0)] }

  function RunningState(intent: Intent): State {
    State([Authorized(intent)], map[0 := Execution(intent, Tried(1, Success))], 1, {}, multiset{intent.id}, map[])
  }

  lemma RunningRuns(intent: Intent)
    requires intent.key == None
    ensures Run(OneShot(intent), EMPTY, Running(intent)) == RunningState(intent)
  {
    var caps := OneShot(intent);
    var s1 := State([Authorized(intent)], map[0 := Execution(intent, Waiting)], 1, {}, multiset{}, map[]);
    var s2 := s1.(executions := map[0 := Execution(intent, Ready)]);
    var s3 := s1.(executions := map[0 := Execution(intent, Started)]);
    assert Next(caps, EMPTY, Authorize(intent)) == s1;
    assert Next(caps, s1, Lease(0, true)) == s2;
    assert Next(caps, s2, Advance(0, Success)) == s3;
    assert Next(caps, s3, Advance(0, Success)) == RunningState(intent);
    hide Next;
    RunFour(caps, EMPTY, Authorize(intent), Lease(0, true), Advance(0, Success), Advance(0, Success));
  }

  lemma RunThree(caps: Registry, s: State, a: Action, b: Action, c: Action)
    ensures Run(caps, s, [a, b, c]) == Next(caps, Next(caps, Next(caps, s, a), b), c)
  {
    hide Next;
    assert [a, b, c][..2] == [a, b] && [a, b][..1] == [a] && [a][..0] == [];
    assert Run(caps, s, [a]) == Next(caps, s, a);
    assert Run(caps, s, [a, b]) == Next(caps, Run(caps, s, [a]), b);
  }

  lemma RunFour(caps: Registry, s: State, a: Action, b: Action, c: Action, d: Action)
    ensures Run(caps, s, [a, b, c, d]) == Next(caps, Next(caps, Next(caps, Next(caps, s, a), b), c), d)
  {
    hide Next;
    RunThree(caps, s, a, b, c);
    assert [a, b, c, d][..3] == [a, b, c];
  }

  lemma ReadsRunning(intent: Intent)
    ensures Next(OneShot(intent), RunningState(intent), ReadLog(0))
            == RunningState(intent).(passes := map[0 := Pass([intent], None)])
  {
    var log := [Authorized(intent)];
    assert log[..|log| - 1] == [];
    assert EndedIds(log) == {} && SucceededKeys(log) == {};
    var empty: seq<Intent> := [];
    assert PendingOf(log, EndedIds(log)) == empty + [intent] == [intent];
    var s := RunningState(intent);
    assert s.ledger + SucceededKeys(s.log) == s.ledger;
    assert s.passes[0 := Pass([intent], None)] == map[0 := Pass([intent], None)];
    assert CanRead(s, 0);
  }

  lemma GivesUpRunning(s: State, intent: Intent)
    requires s.passes == map[0 := Pass([intent], None)]
    ensures Next(OneShot(intent), s, Recover(0, true, true)) == s.(log := s.log + [Ended(intent, Abandoned)], passes := map[0 := Pass([], None)])
  {
    hide Intents, EndedIds, PendingOf;
    assert [intent][1..] == [];
    assert s.passes[0 := Pass([], None)] == map[0 := Pass([], None)];
    assert CanRecover(s, 0) && Abandons(OneShot(intent), intent, true);
  }

  lemma SucceedsRunning(s: State, intent: Intent)
    requires intent.key == None && s.executions == map[0 := Execution(intent, Tried(1, Success))]
    ensures Next(OneShot(intent), s, Advance(0, Success)) == s.(log := s.log + [Ended(intent, Succeeded)], executions := map[])
  {
    hide Intents, EndedIds, PendingOf;
  }

  lemma TwoEndings(intent: Intent, a: Ending, b: Ending)
    ensures Endings([Authorized(intent), Ended(intent, a), Ended(intent, b)], intent.id) == 2
  {
    var l1, l2 := [Authorized(intent)], [Authorized(intent), Ended(intent, a)];
    EndingsSnoc([], Authorized(intent), intent.id);
    EndingsSnoc(l1, Ended(intent, a), intent.id);
    EndingsSnoc(l2, Ended(intent, b), intent.id);
    assert [] + [Authorized(intent)] == l1 && l1 + [Ended(intent, a)] == l2;
    assert l2 + [Ended(intent, b)] == [Authorized(intent), Ended(intent, a), Ended(intent, b)];
  }

  /** Workers start before recovery reads the log, so it may overlap: an action that is still
      running is recorded as abandoned, and then as succeeded. */
  lemma OverlappingRecoveryEndsTwice(intent: Intent)
    requires intent.key == None
    ensures var s := Run(OneShot(intent), EMPTY, Running(intent) + [ReadLog(0), Recover(0, true, true), Advance(0, Success)]);
            && s.log == [Authorized(intent), Ended(intent, Abandoned), Ended(intent, Succeeded)]
            && Endings(s.log, intent.id) == 2 && s.invocations[intent.id] == 1
  {
    var caps, s := OneShot(intent), RunningState(intent);
    var u := s.(passes := map[0 := Pass([intent], None)]);
    var v := u.(log := u.log + [Ended(intent, Abandoned)], passes := map[0 := Pass([], None)]);
    RunningRuns(intent);
    ReadsRunning(intent);
    GivesUpRunning(u, intent);
    SucceedsRunning(v, intent);
    hide Next, Run, Running, OneShot;
    RunAppend(caps, EMPTY, Running(intent), [ReadLog(0), Recover(0, true, true), Advance(0, Success)]);
    RunThree(caps, s, ReadLog(0), Recover(0, true, true), Advance(0, Success));
    TwoEndings(intent, Abandoned, Succeeded);
  }

  /** Nor does it help that the action has finished when recovery comes to it: the pass acts on
      the log it read before, and records an intent that has succeeded as abandoned. */
  lemma StaleRecoveryEndsTwice(intent: Intent)
    requires intent.key == None
    ensures var before := Run(OneShot(intent), EMPTY, Running(intent) + [ReadLog(0), Advance(0, Success)]);
            var s := Run(OneShot(intent), EMPTY, Running(intent) + [ReadLog(0), Advance(0, Success), Recover(0, true, true)]);
            && before.executions == map[]
            && s.log == [Authorized(intent), Ended(intent, Succeeded), Ended(intent, Abandoned)]
            && Endings(s.log, intent.id) == 2 && s.invocations[intent.id] == 1
  {
    var caps, s := OneShot(intent), RunningState(intent);
    var u := s.(passes := map[0 := Pass([intent], None)]);
    var v := u.(log := u.log + [Ended(intent, Succeeded)], executions := map[]);
    RunningRuns(intent);
    ReadsRunning(intent);
    SucceedsRunning(u, intent);
    GivesUpRunning(v, intent);
    hide Next, Running, OneShot;
    var all := Running(intent) + [ReadLog(0), Advance(0, Success), Recover(0, true, true)];
    assert all[..|all| - 1] == Running(intent) + [ReadLog(0), Advance(0, Success)];
    assert Run(caps, EMPTY, all) == Next(caps, Run(caps, EMPTY, all[..|all| - 1]), Recover(0, true, true));
    hide Run;
    RunAppend(caps, EMPTY, Running(intent), [ReadLog(0), Advance(0, Success), Recover(0, true, true)]);
    RunThree(caps, s, ReadLog(0), Advance(0, Success), Recover(0, true, true));
    RunAppend(caps, EMPTY, Running(intent), [ReadLog(0), Advance(0, Success)]);
    RunTwo(caps, s, ReadLog(0), Advance(0, Success));
    TwoEndings(intent, Succeeded, Abandoned);
  }

  lemma RunTwo(caps: Registry, s: State, a: Action, b: Action)
    ensures Run(caps, s, [a, b]) == Next(caps, Next(caps, s, a), b)
  {
    hide Next;
    assert [a, b][..1] == [a] && [a][..0] == [];
    assert Run(caps, s, [a]) == Next(caps, s, a);
  }

  // ---------------------------------------------------------------- the object

  /** What recovery recorded for each intent of its pending list, if anything. */
  function EndingsOf(pending: seq<Intent>, endings: seq<Option<Ending>>): seq<Record>
    requires |endings| == |pending|
  {
    if pending == [] then []
    else
      var n := |pending| - 1;
      EndingsOf(pending[..n], endings[..n]) + if endings[n].Some? then [Ended(pending[n], endings[n].value)] else []
  }

  /** How recovery settles one pending intent: executed to an ending when its capability is still
      there, may be repeated and is allowed again, otherwise abandoned; without an attention
      lease it is left as it is. */
  predicate Settles(caps: Registry, i: Intent, allowed: bool, leased: bool, ending: Option<Ending>) {
    if i.capability in caps && caps[i.capability].idempotent && allowed then
      if leased then ending in {Some(Skipped), Some(Succeeded), Some(Failed)} else ending == None
    else ending == Some(Abandoned)
  }

  /** Whether a pending intent is skipped: it is when its key had succeeded in the log that was
      read, and it is not unless its key has succeeded in the log as it is in the end. */
  predicate Skips(caps: Registry, i: Intent, allowed: bool, leased: bool, read: set<string>, later: set<string>, ending: Option<Ending>) {
    && (i.key.Some? && i.key.value in read && i.capability in caps && caps[i.capability].idempotent && allowed && leased ==>
          ending == Some(Skipped))
    && (ending == Some(Skipped) ==> i.key.Some? && i.key.value in later)
  }

  /** How often an intent was invoked for the ending it got: up to and including the first
      success, final failure or exhausted retry, whose outcome the ending is; not at all for any
      other ending. */
  predicate Invokes(caps: Registry, i: Intent, outcome: nat -> Outcome, ending: Option<Ending>, before: int, after: int) {
    var attempts := after - before;
    if ending in {Some(Succeeded), Some(Failed)} then
      && i.capability in caps && 1 <= attempts <= caps[i.capability].maxRetries + 1
      && (forall k :: 0 <= k < attempts - 1 ==> outcome(k).Failure? && outcome(k).retryable)
      && (attempts <= caps[i.capability].maxRetries ==> outcome(attempts - 1).Success? || !outcome(attempts - 1).retryable)
      && (ending == Some(Succeeded) <==> outcome(attempts - 1).Success?)
    else attempts == 0
  }

  /** After k attempts with these outcomes another one follows. */
  predicate GoesOn(spec: Spec, outcome: nat -> Outcome, k: nat) { k > 0 && Retries(spec, k, outcome(k - 1)) }

  lemma ExecutedInvokes(caps: Registry, i: Intent, outcome: nat -> Outcome, ending: Ending, attempts: nat, before: nat)
    requires i.capability in caps && caps[i.capability].idempotent && ending in {Skipped, Succeeded, Failed} && (ending == Skipped <==> attempts == 0)
    requires attempts <= caps[i.capability].Retries() + 1 && (attempts > 0 ==> (ending == Succeeded <==> outcome(attempts - 1).Success?))
    requires attempts > 0 ==> !GoesOn(caps[i.capability], outcome, attempts)
    requires forall k :: 1 <= k < attempts ==> GoesOn(caps[i.capability], outcome, k)
    ensures Invokes(caps, i, outcome, Some(ending), before, before + attempts)
  {
    forall k | 0 <= k < attempts - 1 ensures outcome(k).Failure? && outcome(k).retryable {
      var next: nat := k + 1;
      assert GoesOn(caps[i.capability], outcome, next);
    }
  }

  lemma {:induction false} SucceededAppend(a: seq<Record>, b: seq<Record>)
    ensures SucceededKeys(a + b) == SucceededKeys(a) + SucceededKeys(b)
  {
    if b == [] {
      assert a + b == a;
    } else {
      SucceededAppend(a, b[..|b| - 1]);
      assert (a + b)[..|a + b| - 1] == a + b[..|b| - 1];
    }
  }

  lemma {:induction false} EndingsAppend(a: seq<Record>, b: seq<Record>, id: string)
    ensures Endings(a + b, id) == Endings(a, id) + Endings(b, id)
  {
    if b == [] {
      assert a + b == a;
    } else {
      EndingsAppend(a, b[..|b| - 1], id);
      assert (a + b)[..|a + b| - 1] == a + b[..|b| - 1];
    }
  }

  /** The log is what was there first and what has been appended since, here and by others. */
  ghost predicate Balanced(log: seq<Record>, first: seq<Record>, own: seq<Record>, foreign: seq<Record>) {
    first <= log && forall id :: Endings(log, id) == Endings(first, id) + Endings(own, id) + Endings(foreign, id)
  }

  lemma BalancedAppend(log: seq<Record>, first: seq<Record>, own: seq<Record>, foreign: seq<Record>, more: seq<Record>)
    requires Balanced(log, first, own, foreign)
    ensures Balanced(log + more, first, own + more, foreign) && Balanced(log + more, first, own, foreign + more)
  {
    forall id ensures Endings(log + more, id) == Endings(log, id) + Endings(more, id)
                      && Endings(own + more, id) == Endings(own, id) + Endings(more, id)
                      && Endings(foreign + more, id) == Endings(foreign, id) + Endings(more, id)
    {
      EndingsAppend(log, more, id);
      EndingsAppend(own, more, id);
      EndingsAppend(foreign, more, id);
    }
  }

  /** The agent as its recovery sees it: whenever it waits, the workers that run beside it append
      what they like. */
  class AutonomousAgent {
    const capabilities: Registry
    const others: nat -> seq<Record>
    ghost const first: seq<Record>
    var log: seq<Record>
    var ledger: set<string>
    var invocations: multiset<string>
    var round: nat
    ghost var own: seq<Record>
    ghost var foreign: seq<Record>

    ghost predicate Valid()
      reads this
    {
      Balanced(log, first, own, foreign) && ledger <= SucceededKeys(log)
    }

    /** The ledger holds every key that has succeeded in the log. */
    ghost predicate Informed()
      reads this
    {
      ledger == SucceededKeys(log)
    }

    constructor (capabilities: Registry, log: seq<Record>, others: nat -> seq<Record>)
      ensures Valid() && this.capabilities == capabilities && this.others == others && first == this.log == log
      ensures ledger == {} && invocations == multiset{} && own == foreign == []
    {
      this.capabilities, this.others, this.log, first := capabilities, others, log, log;
      ledger, invocations, round, own, foreign := {}, multiset{}, 0, [], [];
    }

    /** What the workers have appended while recovery waited. */
    method Wait()
      requires Valid()
      modifies this
      ensures Valid() && old(log) <= log && old(foreign) <= foreign && old(ledger) <= ledger && (old(Informed()) ==> Informed())
      ensures own == old(own) && invocations == old(invocations)
    {
      hide Balanced, Endings, SucceededKeys;
      var more := others(round);
      SucceededAppend(log, more);
      BalancedAppend(log, first, own, foreign, more);
      log, foreign, ledger, round := log + more, foreign + more, ledger + SucceededKeys(more), round + 1;
    }

    method Append(r: Record)
      requires Valid()
      modifies this`log, this`own
      ensures Valid() && log == old(log) + [r] && own == old(own) + [r]
      ensures !(r.Ended? && r.ending == Succeeded) && old(Informed()) ==> Informed()
    {
      hide Balanced, Endings, SucceededKeys;
      BalancedAppend(log, first, own, foreign, [r]);
      SucceededSnoc(log, r);
      log, own := log + [r], own + [r];
    }

    /** The retry loop around the capability. */
    method InvokeUntilDone(intent: Intent, outcome: nat -> Outcome) returns (attempts: nat, result: Outcome)
      requires Valid() && intent.capability in capabilities
      modifies this
      ensures Valid() && old(log) <= log && old(foreign) <= foreign && own == old(own) && old(ledger) <= ledger
      ensures old(Informed()) ==> Informed()
      ensures 1 <= attempts <= capabilities[intent.capability].Retries() + 1 && result == outcome(attempts - 1)
      ensures invocations == old(invocations)[intent.id := old(invocations)[intent.id] + attempts]
      ensures !GoesOn(capabilities[intent.capability], outcome, attempts)
      ensures forall k :: 1 <= k < attempts ==> GoesOn(capabilities[intent.capability], outcome, k)
    {
      hide Balanced, Endings, SucceededKeys;
      var spec := capabilities[intent.capability];
      attempts := 1;
      invocations := invocations + multiset{intent.id};
      Wait();
      result := outcome(0);
      while Retries(spec, attempts, result)
        invariant Valid() && 1 <= attempts <= spec.Retries() + 1 && result == outcome(attempts - 1)
        invariant invocations == old(invocations)[intent.id := old(invocations)[intent.id] + attempts]
        invariant forall k :: 1 <= k < attempts ==> GoesOn(spec, outcome, k)
        invariant old(log) <= log && old(foreign) <= foreign && own == old(own) && old(ledger) <= ledger
        invariant old(Informed()) ==> Informed()
        decreases spec.Retries() + 1 - attempts
      {
        invocations := invocations + multiset{intent.id};
        Wait();
        result := outcome(attempts);
        attempts := attempts + 1;
      }
    }

    /** One authorized intent to its end: skipped when its key has already succeeded, otherwise
        invoked until it succeeds, fails for good, or exhausts its retries. */
    method ExecuteIntent(intent: Intent, outcome: nat -> Outcome) returns (ending: Ending, attempts: nat)
      requires Valid() && intent.capability in capabilities
      modifies this
      ensures Valid() && old(log) <= log && old(foreign) <= foreign && own == old(own) + [Ended(intent, ending)]
      ensures |old(log)| < |log| && log[|log| - 1] == Ended(intent, ending)
      ensures invocations == old(invocations)[intent.id := old(invocations)[intent.id] + attempts]
      ensures ending == Skipped <==> intent.key.Some? && intent.key.value in old(ledger)
      ensures ending == Skipped <==> attempts == 0
      ensures ending in {Skipped, Succeeded, Failed} && attempts <= capabilities[intent.capability].Retries() + 1
      ensures attempts > 0 ==> (ending == Succeeded <==> outcome(attempts - 1).Success?)
      ensures attempts > 0 ==> !GoesOn(capabilities[intent.capability], outcome, attempts)
      ensures forall k :: 1 <= k < attempts ==> GoesOn(capabilities[intent.capability], outcome, k)
      ensures old(ledger) <= ledger && (ending == Succeeded && intent.key.Some? ==> intent.key.value in ledger)
      ensures old(Informed()) ==> Informed()
    {
      hide SucceededKeys;
      if intent.key.Some? && intent.key.value in ledger {
        Append(Ended(intent, Skipped));
        return Skipped, 0;
      }
      hide Balanced, Endings, GoesOn;
      Wait();
      var result;
      attempts, result := InvokeUntilDone(intent, outcome);
      ending := if result.Success? then Succeeded else Failed;
      SucceededSnoc(log, Ended(intent, ending));
      Append(Ended(intent, ending));
      if ending == Succeeded && intent.key.Some? {
        ledger := ledger + {intent.key.value};
      }
    }

    /** What the log says before recovery: who is pending, and which keys have succeeded. */
    method ReadHistory() returns (pending: seq<Intent>, succeeded: set<string>)
      ensures pending == PendingOf(log, EndedIds(log)) && succeeded == SucceededKeys(log)
    {
      var terminal: set<string> := {};
      succeeded := {};
      for i := 0 to |log|
        invariant terminal == EndedIds(log[..i]) && succeeded == SucceededKeys(log[..i])
      {
        assert log[..i + 1][..i] == log[..i];
        if log[i].Ended? {
          terminal := terminal + {log[i].intent.id};
          if log[i].ending == Succeeded && log[i].intent.key.Some? {
            succeeded := succeeded + {log[i].intent.key.value};
          }
        }
      }
      assert log[..|log|] == log;
      pending := [];
      for i := 0 to |log|
        invariant pending == PendingOf(log[..i], terminal)
      {
        assert log[..i + 1][..i] == log[..i];
        if log[i].Authorized? && log[i].intent.id !in terminal {
          pending := pending + [log[i].intent];
        }
      }
    }

    /** Settle one intent of the pending list, without another look at the log. */
    method RecoverIntent(i: Intent, allowed: bool, leased: bool, outcome: nat -> Outcome) returns (ending: Option<Ending>)
      requires Valid()
      modifies this
      ensures Valid() && old(log) <= log && old(foreign) <= foreign
      ensures Settles(capabilities, i, allowed, leased, ending)
      ensures own == old(own) + if ending.Some? then [Ended(i, ending.value)] else []
      ensures ending.Some? ==> Ended(i, ending.value) in log
      ensures old(ledger) <= ledger && (old(Informed()) ==> Informed())
      ensures Skips(capabilities, i, allowed, leased, old(ledger), SucceededKeys(log), ending)
      ensures Invokes(capabilities, i, outcome, ending, old(invocations)[i.id], invocations[i.id])
      ensures forall id :: id != i.id ==> invocations[id] == old(invocations)[id]
    {
      hide Balanced, Endings, SucceededKeys;
      Wait();
      if i.capability !in capabilities || !capabilities[i.capability].idempotent || !allowed {
        Append(Ended(i, Abandoned));
        ending := Some(Abandoned);
        assert log[|log| - 1] == Ended(i, Abandoned);
      } else if leased {
        var e, attempts := ExecuteIntent(i, outcome);
        ending := Some(e);
        ExecutedInvokes(capabilities, i, outcome, e, attempts, old(invocations)[i.id]);
        assert log[|log| - 1] == Ended(i, e);
      } else {
        ending := None;
      }
    }

    /** Recovery after a crash, beside workers that are already running. Whatever they append
        meanwhile, it settles exactly the intents that were authorized and had not ended when it
        read the log, in order, each once; given its leases, all of them end. A key that had
        succeeded in that log is not invoked again, and nothing non-idempotent is. */
    method RestoreExecutionState(allowed: string -> bool, leased: string -> bool, outcome: string -> nat -> Outcome)
      returns (endings: seq<Option<Ending>>)
      requires Valid() && FreshIds(log)
      modifies this
      ensures Valid() && old(log) <= log && old(foreign) <= foreign
      ensures var pending := PendingOf(old(log), EndedIds(old(log)));
              && |endings| == |pending| && own == old(own) + EndingsOf(pending, endings)
              && forall k :: 0 <= k < |pending| ==>
                   Settles(capabilities, pending[k], allowed(pending[k].id), leased(pending[k].id), endings[k])
      ensures ledger == SucceededKeys(log)
      ensures var pending := PendingOf(old(log), EndedIds(old(log)));
              && DistinctIds(pending)
              && forall k :: 0 <= k < |pending| ==>
                   && Skips(capabilities, pending[k], allowed(pending[k].id), leased(pending[k].id), SucceededKeys(old(log)), SucceededKeys(log), endings[k])
                   && Invokes(capabilities, pending[k], outcome(pending[k].id), endings[k],
                              old(invocations)[pending[k].id], invocations[pending[k].id])
      ensures forall id :: !(exists i :: i in PendingOf(old(log), EndedIds(old(log))) && i.id == id) ==> invocations[id] == old(invocations)[id]
      ensures (forall id :: leased(id)) ==> forall i :: i in Intents(old(log)) ==> i.id in EndedIds(log)
      ensures forall i :: i in Intents(old(log)) && NonIdempotent(capabilities, i) ==> invocations[i.id] == old(invocations)[i.id]
    {
      hide Balanced, Endings, Progress, Settles, Skips, Invokes, EndingsOf, PendingOf, Intents, EndedIds, FreshIds, SucceededKeys, NonIdempotent, DistinctIds;
      ghost var start := log;
      var pending, succeeded := ReadHistory();
      ledger := ledger + succeeded;
      ghost var read := ledger;
      ghost var w := Work(capabilities, allowed, leased, outcome, pending, read, old(invocations), old(own));
      endings := [];
      PendingDistinct(start, EndedIds(start));
      NothingSettled(w, log, invocations, own);
      for k := 0 to |pending|
        invariant Valid() && Informed() && start <= log && old(foreign) <= foreign && read <= ledger
        invariant Progress(w, log, invocations, own, endings, k)
      {
        ghost var before, invoked, mine := log, invocations, own;
        var i := pending[k];
        ghost var known := ledger;
        var ending := RecoverIntent(i, allowed(i.id), leased(i.id), outcome(i.id));
        SkipsEarlier(capabilities, i, allowed(i.id), leased(i.id), read, known, SucceededKeys(log), ending);
        OneMoreSettled(w, before, invoked, mine, log, invocations, own, endings, k, ending);
        endings := endings + [ending];
      }
      AllSettled(w, start, log, invocations, own, endings);
    }
  }

  lemma SkipsEarlier(caps: Registry, i: Intent, allowed: bool, leased: bool, read: set<string>, known: set<string>, later: set<string>, ending: Option<Ending>)
    requires Skips(caps, i, allowed, leased, known, later, ending) && read <= known
    ensures Skips(caps, i, allowed, leased, read, later, ending)
  {
  }

  /** What a recovery pass has in hand: its parameters, what it read, and what was there before. */
  datatype Work = Work(caps: Registry, allowed: string -> bool, leased: string -> bool, outcome: string -> nat -> Outcome,
                       pending: seq<Intent>, read: set<string>, before: multiset<string>, mine: seq<Record>)

  /** One of its intents, once it is settled. */
  ghost predicate Done(w: Work, log: seq<Record>, invoked: multiset<string>, i: Intent, ending: Option<Ending>) {
    && Settles(w.caps, i, w.allowed(i.id), w.leased(i.id), ending)
    && Skips(w.caps, i, w.allowed(i.id), w.leased(i.id), w.read, SucceededKeys(log), ending)
    && Invokes(w.caps, i, w.outcome(i.id), ending, w.before[i.id], invoked[i.id])
    && (ending.Some? ==> Ended(i, ending.value) in log)
  }

  /** How far a recovery pass has come. */
  ghost predicate Progress(w: Work, log: seq<Record>, invoked: multiset<string>, own: seq<Record>, endings: seq<Option<Ending>>, k: nat) {
    && DistinctIds(w.pending) && k == |endings| <= |w.pending| && own == w.mine + EndingsOf(w.pending[..k], endings)
    && (forall j :: 0 <= j < k ==> Done(w, log, invoked, w.pending[j], endings[j]))
    && (forall id :: (forall j :: 0 <= j < k ==> w.pending[j].id != id) ==> invoked[id] == w.before[id])
  }

  lemma NothingSettled(w: Work, log: seq<Record>, invoked: multiset<string>, own: seq<Record>)
    requires DistinctIds(w.pending) && invoked == w.before && own == w.mine
    ensures Progress(w, log, invoked, own, [], 0)
  {
    assert w.pending[..0] == [];
  }

  lemma DoneLater(w: Work, log: seq<Record>, later: seq<Record>, invoked: multiset<string>, invoked': multiset<string>, i: Intent, ending: Option<Ending>)
    requires Done(w, log, invoked, i, ending) && log <= later && invoked[i.id] == invoked'[i.id]
    ensures Done(w, later, invoked', i, ending)
  {
    hide Settles, Invokes, SucceededKeys;
    assert later == log + later[|log|..];
    SucceededAppend(log, later[|log|..]);
  }

  lemma OneMoreSettled(w: Work, log: seq<Record>, invoked: multiset<string>, own: seq<Record>, later: seq<Record>, invoked': multiset<string>,
                       own': seq<Record>, endings: seq<Option<Ending>>, k: nat, ending: Option<Ending>)
    requires Progress(w, log, invoked, own, endings, k) && k < |w.pending| && log <= later
    requires own' == own + if ending.Some? then [Ended(w.pending[k], ending.value)] else []
    requires Settles(w.caps, w.pending[k], w.allowed(w.pending[k].id), w.leased(w.pending[k].id), ending)
    requires Skips(w.caps, w.pending[k], w.allowed(w.pending[k].id), w.leased(w.pending[k].id), w.read, SucceededKeys(later), ending)
    requires Invokes(w.caps, w.pending[k], w.outcome(w.pending[k].id), ending, invoked[w.pending[k].id], invoked'[w.pending[k].id])
    requires ending.Some? ==> Ended(w.pending[k], ending.value) in later
    requires forall id :: id != w.pending[k].id ==> invoked'[id] == invoked[id]
    ensures Progress(w, later, invoked', own', endings + [ending], k + 1)
  {
    hide Settles, Skips, Invokes, SucceededKeys;
    assert Done(w, later, invoked', w.pending[k], ending);
    hide Done;
    assert w.pending[..k + 1][..k] == w.pending[..k] && (endings + [ending])[..k] == endings;
    assert invoked[w.pending[k].id] == w.before[w.pending[k].id];
    forall j | 0 <= j < k ensures Done(w, later, invoked', w.pending[j], (endings + [ending])[j]) {
      DoneLater(w, log, later, invoked, invoked', w.pending[j], endings[j]);
    }
  }

  lemma AllSettled(w: Work, start: seq<Record>, log: seq<Record>, invoked: multiset<string>, own: seq<Record>, endings: seq<Option<Ending>>)
    requires FreshIds(start) && w.pending == PendingOf(start, EndedIds(start)) && start <= log
    requires Progress(w, log, invoked, own, endings, |w.pending|)
    ensures |endings| == |w.pending| && own == w.mine + EndingsOf(w.pending, endings)
    ensures forall k :: 0 <= k < |w.pending| ==> Done(w, log, invoked, w.pending[k], endings[k])
    ensures forall id :: !(exists i :: i in w.pending && i.id == id) ==> invoked[id] == w.before[id]
    ensures (forall id :: w.leased(id)) ==> forall i :: i in Intents(start) ==> i.id in EndedIds(log)
    ensures forall i :: i in Intents(start) && NonIdempotent(w.caps, i) ==> invoked[i.id] == w.before[i.id]
  {
    assert w.pending[..|w.pending|] == w.pending;
    forall i | i in Intents(start) && forall id :: w.leased(id) ensures i.id in EndedIds(log) {
      HasEnded(w, start, log, invoked, endings, i);
    }
    forall i | i in Intents(start) && NonIdempotent(w.caps, i) ensures invoked[i.id] == w.before[i.id] {
      NotRepeated(w, start, log, invoked, own, endings, i);
    }
  }

  lemma NotRepeated(w: Work, start: seq<Record>, log: seq<Record>, invoked: multiset<string>, own: seq<Record>, endings: seq<Option<Ending>>, i: Intent)
    requires FreshIds(start) && w.pending == PendingOf(start, EndedIds(start)) && Progress(w, log, invoked, own, endings, |w.pending|)
    requires i in Intents(start) && NonIdempotent(w.caps, i)
    ensures invoked[i.id] == w.before[i.id]
  {
    hide SucceededKeys, EndingsOf, FreshIds, PendingOf, EndedIds, Intents;
    SameIntent(start, i);
    if k :| 0 <= k < |w.pending| && w.pending[k].id == i.id {
      PendingMembers(start, EndedIds(start), w.pending[k]);
      assert Done(w, log, invoked, w.pending[k], endings[k]);
    }
  }

  lemma HasEnded(w: Work, start: seq<Record>, log: seq<Record>, invoked: multiset<string>, endings: seq<Option<Ending>>, i: Intent)
    requires w.pending == PendingOf(start, EndedIds(start)) && start <= log && |endings| == |w.pending|
    requires forall k :: 0 <= k < |w.pending| ==> Done(w, log, invoked, w.pending[k], endings[k])
    requires i in Intents(start) && forall id :: w.leased(id)
    ensures i.id in EndedIds(log)
  {
    PendingMembers(start, EndedIds(start), i);
    hide PendingOf, Intents, EndedIds, Skips, Invokes, SucceededKeys;
    if i in w.pending {
      var k :| 0 <= k < |w.pending| && w.pending[k] == i;
      assert Done(w, log, invoked, w.pending[k], endings[k]);
      EndedIsLogged(log, Ended(i, endings[k].value));
    } else {
      EndedPersists(start, log, i.id);
    }
  }

  lemma {:induction false} EndedPersists(log: seq<Record>, later: seq<Record>, id: string)
    requires log <= later && id in EndedIds(log)
    ensures id in EndedIds(later)
  {
    if log != later {
      assert log <= later[..|later| - 1];
      EndedPersists(log, later[..|later| - 1], id);
    }
  }

  lemma {:induction false} EndedIsLogged(log: seq<Record>, r: Record)
    requires r in log && r.Ended?
    ensures r.intent.id in EndedIds(log)
  {
    var n := |log| - 1;
    assert log == log[..n] + [log[n]];
    if log[n] != r { EndedIsLogged(log[..n], r); }
  }

  lemma SameIntent(log: seq<Record>, i: Intent)
    requires FreshIds(log) && i in Intents(log)
    ensures forall j :: j in Intents(log) && j.id == i.id ==> j == i
  {
    forall j | j in Intents(log) && j.id == i.id ensures j == i {
      IntentIsLogged(log, i);
      IntentIsLogged(log, j);
      var x :| 0 <= x < |log| && log[x] == Authorized(i);
      var y :| 0 <= y < |log| && log[y] == Authorized(j);
      assert x == y;
    }
  }
}
