/** DREAM epochs: background cognition that a worker opens behind its scan request, spends
    only while its intent is current, and closes once; foreground demand preempts it. */
module Endogenous {
  import opened Basics
  import opened EventLog
  import opened GuardedLog

  datatype IntentRef = IntentRef(goal: string, revision: string)

  datatype Request = Request(policy: string, budget: nat, requestedAt: nat, expiresAt: nat)

  /** An epoch's id is the content id of exactly these fields. */
  datatype Epoch = Epoch(consumer: string, trigger: Id, cursor: nat, policy: string, budget: nat, startedAt: nat, expiresAt: nat)

  datatype OutputKind = Inquiry | Activity | Estimate | Agenda

  datatype Id =
    | Named(name: string)
    | ScanId(request: Request)
    | StartId(epoch: Epoch)
    | OutputId(kind: OutputKind, content: string)
    | PreemptId(epoch: Epoch, foreground: Id)
    | ExpireId(epoch: Epoch)
    | AbandonId(epoch: Epoch)

  /** `receipt` is the head an event was validated at. */
  datatype Body =
    | Other(eventType: string, time: nat)
    | ScanRequested(request: Request)
    | EpochStarted(epoch: Epoch, receipt: nat)
    | OutputRecorded(kind: OutputKind, content: string, epoch: Epoch, at: nat, refs: seq<IntentRef>, receipt: nat)
    | EpochPreempted(epoch: Epoch, foreground: Id, at: nat, receipt: nat)
    | EpochExpired(epoch: Epoch, at: nat, receipt: nat)
    | EpochAbandoned(epoch: Epoch, at: nat, receipt: nat)

  type EndogenousEvent = Event<Id, Body>
  type History = Log<Id, Body>

  datatype Status = Active | Preempted | Expired | Abandoned

  predicate Terminal(b: Body) { b.EpochPreempted? || b.EpochExpired? || b.EpochAbandoned? }

  function StatusAfter(b: Body): Status {
    if b.EpochPreempted? then Preempted
    else if b.EpochExpired? then Expired
    else if b.EpochAbandoned? then Abandoned
    else Active
  }

  /** The status of every epoch that has started: a fold over start and terminal events. */
  function Statuses(log: History): map<Epoch, Status> {
    if log == [] then map[]
    else
      var before, b := Statuses(log[..|log| - 1]), log[|log| - 1].body;
      if b.EpochStarted? || Terminal(b) then before[b.epoch := StatusAfter(b)] else before
  }

  predicate IsActive(statuses: map<Epoch, Status>, epoch: Epoch) {
    epoch in statuses && statuses[epoch] == Active
  }

  /** Whether a reference names the current revision of an active or blocked goal. */
  type Intent = (History, IntentRef) -> bool

  predicate AllCurrent(intent: Intent, log: History, refs: seq<IntentRef>) {
    refs != [] && forall i :: 0 <= i < |refs| ==> intent(log, refs[i])
  }

  // ---------------------------------------------------------------- what may follow a history

  predicate StartsAtItsScan(prefix: History, ep: Epoch) {
    && 1 <= ep.cursor == |prefix|
    && At(prefix, ep.cursor).id == ep.trigger
    && At(prefix, ep.cursor).body == ScanRequested(Request(ep.policy, ep.budget, ep.startedAt, ep.expiresAt))
  }

  predicate NoOtherActive(statuses: map<Epoch, Status>, ep: Epoch) {
    forall other :: other in statuses && other.consumer == ep.consumer && statuses[other] == Active ==> other == ep
  }

  predicate ForegroundFollows(prefix: History, ep: Epoch, foreground: Id) {
    SequenceOf(prefix, foreground) > ep.cursor
  }

  /** Exact-head receipts, envelopes under content ids, and the lifecycle of epochs. */
  predicate MayFollow(intent: Intent, prefix: History, e: EndogenousEvent) {
    var statuses := Statuses(prefix);
    match e.body
    case Other(_, _) => e.id.Named?
    case ScanRequested(r) => e.id == ScanId(r)
    case EpochStarted(ep, receipt) =>
      e.id == StartId(ep) && receipt == |prefix| && StartsAtItsScan(prefix, ep) && NoOtherActive(statuses, ep)
    case OutputRecorded(kind, content, ep, at, refs, receipt) =>
      e.id == OutputId(kind, content) && receipt == |prefix| && IsActive(statuses, ep) && at < ep.expiresAt && AllCurrent(intent, prefix, refs)
    case EpochPreempted(ep, foreground, _, receipt) =>
      e.id == PreemptId(ep, foreground) && receipt == |prefix| && IsActive(statuses, ep) && ForegroundFollows(prefix, ep, foreground)
    case EpochExpired(ep, at, receipt) =>
      e.id == ExpireId(ep) && receipt == |prefix| && IsActive(statuses, ep) && at >= ep.expiresAt
    case EpochAbandoned(ep, _, receipt) =>
      e.id == AbandonId(ep) && receipt == |prefix| && IsActive(statuses, ep)
  }

  function RuleOf(intent: Intent): GuardedLog.Rule<Id, Body> {
    (prefix, e) => MayFollow(intent, prefix, e)
  }

  lemma AdmittedAt(intent: Intent, log: History, s: nat)
    requires Admitted(RuleOf(intent), log) && 1 <= s <= |log|
    ensures MayFollow(intent, log[..s - 1], At(log, s)) && Admitted(RuleOf(intent), log[..s - 1])
  {
    hide MayFollow;
    assert RuleOf(intent)(log[..s - 1], log[s - 1]);
    PrefixAdmitted(RuleOf(intent), log, s - 1);
  }

  // ---------------------------------------------------------------- what statuses mean

  predicate StartsAt(log: History, ep: Epoch, s: int) {
    1 <= s <= |log| && At(log, s).body.EpochStarted? && At(log, s).body.epoch == ep
  }

  predicate ClosesAt(log: History, ep: Epoch, t: int) {
    1 <= t <= |log| && Terminal(At(log, t).body) && At(log, t).body.epoch == ep
  }

  /** An epoch has a status exactly when it has started, is active exactly until its terminal
      event, and its start stands directly behind its scan request. */
  ghost predicate Means(log: History, ep: Epoch) {
    && (ep in Statuses(log) <==> StartsAt(log, ep, ep.cursor + 1))
    && (forall s :: StartsAt(log, ep, s) ==> s == ep.cursor + 1)
    && (IsActive(Statuses(log), ep) <==> ep in Statuses(log) && forall t :: !ClosesAt(log, ep, t))
    && (forall t :: ClosesAt(log, ep, t) ==> ep in Statuses(log))
    && (ep in Statuses(log) ==> 1 <= ep.cursor < |log|)
  }

  lemma StatusesSnoc(log: History, e: EndogenousEvent)
    ensures Statuses(log + [e]) == if e.body.EpochStarted? || Terminal(e.body) then Statuses(log)[e.body.epoch := StatusAfter(e.body)]
                                   else Statuses(log)
  {
    assert (log + [e])[..|log|] == log;
  }

  lemma EventsSnoc(log: History, e: EndogenousEvent, ep: Epoch, s: int)
    ensures StartsAt(log + [e], ep, s) <==> StartsAt(log, ep, s) || (s == |log| + 1 && e.body.EpochStarted? && e.body.epoch == ep)
    ensures ClosesAt(log + [e], ep, s) <==> ClosesAt(log, ep, s) || (s == |log| + 1 && Terminal(e.body) && e.body.epoch == ep)
  {
    if 1 <= s <= |log| + 1 { assert At(log + [e], s) == if s <= |log| then At(log, s) else e; }
  }

  lemma MeansSnoc(intent: Intent, log: History, e: EndogenousEvent, ep: Epoch)
    requires Means(log, ep) && MayFollow(intent, log, e)
    ensures Means(log + [e], ep)
  {
    StatusesSnoc(log, e);
    forall s ensures StartsAt(log + [e], ep, s) <==> StartsAt(log, ep, s) || (s == |log| + 1 && e.body.EpochStarted? && e.body.epoch == ep)
    {
      EventsSnoc(log, e, ep, s);
    }
    forall s ensures ClosesAt(log + [e], ep, s) <==> ClosesAt(log, ep, s) || (s == |log| + 1 && Terminal(e.body) && e.body.epoch == ep)
    {
      EventsSnoc(log, e, ep, s);
    }
    hide Statuses, StartsAt, ClosesAt, NoOtherActive, AllCurrent, ForegroundFollows;
    if Terminal(e.body) && e.body.epoch == ep { assert ClosesAt(log + [e], ep, |log| + 1); }
  }

  lemma {:induction false} StatusMeaning(intent: Intent, log: History, ep: Epoch)
    requires Admitted(RuleOf(intent), log)
    ensures Means(log, ep)
  {
    if log == [] {
      return;
    }
    hide *;
    var n := |log| - 1;
    AdmittedAt(intent, log, n + 1);
    StatusMeaning(intent, log[..n], ep);
    MeansSnoc(intent, log[..n], log[n], ep);
    assert log == log[..n] + [log[n]];
  }

  // ---------------------------------------------------------------- what admitted logs are

  ghost predicate OneActive(statuses: map<Epoch, Status>) {
    forall a, b :: IsActive(statuses, a) && IsActive(statuses, b) && a.consumer == b.consumer ==> a == b
  }

  /** However workers and foreign appends interleave, no consumer ever has two active epochs. */
  lemma {:induction false} AtMostOneActiveEpoch(intent: Intent, log: History)
    requires Admitted(RuleOf(intent), log)
    ensures OneActive(Statuses(log))
  {
    if log != [] {
      var n := |log| - 1;
      AdmittedAt(intent, log, n + 1);
      AtMostOneActiveEpoch(intent, log[..n]);
      OneActiveSnoc(intent, log[..n], log[n]);
      assert log == log[..n] + [log[n]];
    }
  }

  lemma OneActiveSnoc(intent: Intent, log: History, e: EndogenousEvent)
    requires OneActive(Statuses(log)) && MayFollow(intent, log, e)
    ensures OneActive(Statuses(log + [e]))
  {
    StatusesSnoc(log, e);
    hide Statuses, AllCurrent, ForegroundFollows, StartsAtItsScan;
  }

  /** The start at s sits directly behind its scan, and no other start has the same trigger. */
  ghost predicate Adjacent(log: History, s: nat)
    requires 1 <= s <= |log| && At(log, s).body.EpochStarted?
  {
    var ep := At(log, s).body.epoch;
    && 2 <= s && ep.cursor == s - 1 && At(log, s - 1).id == ep.trigger
    && At(log, s - 1).body == ScanRequested(Request(ep.policy, ep.budget, ep.startedAt, ep.expiresAt))
    && (forall t :: 1 <= t <= |log| && At(log, t).body.EpochStarted? && At(log, t).body.epoch.trigger == ep.trigger ==> t == s)
  }

  /** The output at s was recorded for an epoch that had started, had not ended and was in time,
      under intents that were current there. */
  ghost predicate Governed(intent: Intent, log: History, s: nat)
    requires 1 <= s <= |log| && At(log, s).body.OutputRecorded?
  {
    var b := At(log, s).body;
    && b.epoch.cursor + 1 < s && StartsAt(log, b.epoch, b.epoch.cursor + 1)
    && (forall t :: t <= s ==> !ClosesAt(log, b.epoch, t))
    && b.at < b.epoch.expiresAt && b.receipt == s - 1
    && |b.refs| > 0 && forall i :: 0 <= i < |b.refs| ==> intent(log[..s - 1], b.refs[i])
  }

  /** Every start record sits immediately behind the scan that triggered it, so nothing, in
      particular no foreground demand, falls between the two; a scan starts one epoch only. */
  lemma StartsAreAdjacent(intent: Intent, log: History, s: nat)
    requires Admitted(RuleOf(intent), log) && 1 <= s <= |log| && At(log, s).body.EpochStarted?
    ensures Adjacent(log, s)
  {
    hide NoOtherActive, Statuses;
    AdmittedAt(intent, log, s);
    forall t | 1 <= t <= |log| && At(log, t).body.EpochStarted? && At(log, t).body.epoch.trigger == At(log, s).body.epoch.trigger
      ensures t == s
    {
      AdmittedAt(intent, log, t);
      OnePosition(log, s - 1, t - 1);
    }
  }

  /** Cognition is only ever recorded for an epoch that has started and not ended, before its
      deadline, while every intent it cites is current, and from exactly the head it was
      validated at. */
  lemma OutputsAreGoverned(intent: Intent, log: History, s: nat)
    requires Admitted(RuleOf(intent), log) && 1 <= s <= |log| && At(log, s).body.OutputRecorded?
    ensures Governed(intent, log, s)
  {
    AdmittedAt(intent, log, s);
    var before, ep := log[..s - 1], At(log, s).body.epoch;
    StatusMeaning(intent, before, ep);
    hide Admitted, AllCurrent, Statuses;
    assert At(before, ep.cursor + 1) == At(log, ep.cursor + 1);
    forall t | t <= s ensures !ClosesAt(log, ep, t) {
      if 1 <= t < s { assert At(before, t) == At(log, t) && !ClosesAt(before, ep, t); }
    }
  }

  /** Each epoch ends at most once, across preemption, expiry and abandonment. */
  lemma EpochsEndOnce(intent: Intent, log: History, ep: Epoch, s: nat, t: nat)
    requires Admitted(RuleOf(intent), log) && ClosesAt(log, ep, s) && ClosesAt(log, ep, t)
    ensures s == t
  {
    if s < t {
      ClosedForGood(intent, log, ep, s, t);
    } else if t < s {
      ClosedForGood(intent, log, ep, t, s);
    }
  }

  lemma ClosedForGood(intent: Intent, log: History, ep: Epoch, s: nat, t: nat)
    requires Admitted(RuleOf(intent), log) && ClosesAt(log, ep, s) && s < t <= |log|
    ensures !ClosesAt(log, ep, t)
  {
    AdmittedAt(intent, log, t);
    var before := log[..t - 1];
    StatusMeaning(intent, before, ep);
    hide Admitted, Statuses;
    assert At(before, s) == At(log, s) && ClosesAt(before, ep, s);
  }

  /** An epoch whose start position has passed, and which is not active, never will be. */
  lemma NeverActiveAgain(intent: Intent, log: History, later: History, ep: Epoch)
    requires Admitted(RuleOf(intent), log) && Admitted(RuleOf(intent), later) && log <= later
    requires ep.cursor < |log| && !IsActive(Statuses(log), ep)
    ensures !IsActive(Statuses(later), ep)
  {
    StatusMeaning(intent, log, ep);
    StatusMeaning(intent, later, ep);
    hide Admitted, Statuses;
    assert forall s :: 1 <= s <= |log| ==> At(later, s) == At(log, s);
    assert StartsAt(later, ep, ep.cursor + 1) <==> StartsAt(log, ep, ep.cursor + 1);
    if exists t :: ClosesAt(log, ep, t) {
      var t :| ClosesAt(log, ep, t);
      assert ClosesAt(later, ep, t);
    }
  }

  /** Any number of workers, crashing anywhere, and any foreign appends the lifecycle admits. */
  lemma EveryInterleavingKeepsTheLifecycle(intent: Intent, start: System<Id, Body>, steps: seq<Step<Id, Body>>, ep: Epoch, s: nat, t: nat)
    requires GuardedLog.Inv(RuleOf(intent), start)
    ensures var log := GuardedLog.Run(RuleOf(intent), start, steps).log;
            && OneActive(Statuses(log))
            && (ClosesAt(log, ep, s) && ClosesAt(log, ep, t) ==> s == t)
            && (ClosesAt(log, ep, s) && 1 <= t <= |log| && At(log, t).body.OutputRecorded? && At(log, t).body.epoch == ep ==> t < s)
            && (1 <= t <= |log| && At(log, t).body.EpochStarted? ==> Adjacent(log, t))
            && (1 <= t <= |log| && At(log, t).body.OutputRecorded? ==> Governed(intent, log, t))
  {
    DecisionsHoldWhereTheyLand(RuleOf(intent), start, steps);
    var log := GuardedLog.Run(RuleOf(intent), start, steps).log;
    hide GuardedLog.Run, Statuses, MayFollow, ClosesAt, Adjacent, StartsAt, AllCurrent;
    AtMostOneActiveEpoch(intent, log);
    if ClosesAt(log, ep, s) && ClosesAt(log, ep, t) { EpochsEndOnce(intent, log, ep, s, t); }
    if 1 <= t <= |log| && At(log, t).body.OutputRecorded? { OutputsAreGoverned(intent, log, t); }
    if 1 <= t <= |log| && At(log, t).body.EpochStarted? { StartsAreAdjacent(intent, log, t); }
  }

  // ---------------------------------------------------------------- the worker

  function WithReceipt(e: EndogenousEvent, head: nat): EndogenousEvent {
    match e.body
    case EpochStarted(ep, _) => Event(e.id, EpochStarted(ep, head))
    case OutputRecorded(kind, content, ep, at, refs, _) => Event(e.id, OutputRecorded(kind, content, ep, at, refs, head))
    case EpochPreempted(ep, foreground, at, _) => Event(e.id, EpochPreempted(ep, foreground, at, head))
    case EpochExpired(ep, at, _) => Event(e.id, EpochExpired(ep, at, head))
    case EpochAbandoned(ep, at, _) => Event(e.id, EpochAbandoned(ep, at, head))
    case _ => e
  }

  datatype Admission = Present(event: EndogenousEvent) | Declined | Exhausted

  /** What a worker owes the projection before it drafts a terminal event. */
  predicate TransitionReady(log: History, e: EndogenousEvent) {
    match e.body
    case EpochPreempted(ep, foreground, _, _) => e.id == PreemptId(ep, foreground) && ForegroundFollows(log, ep, foreground)
    case EpochExpired(ep, at, _) => e.id == ExpireId(ep) && at >= ep.expiresAt
    case EpochAbandoned(ep, _, _) => e.id == AbandonId(ep)
    case _ => false
  }

  lemma ReadyPersists(log: History, later: History, e: EndogenousEvent)
    requires log <= later && TransitionReady(log, e)
    ensures TransitionReady(later, e)
  {
    if e.body.EpochPreempted? {
      SequenceOfStable(log, later[|log|..], e.body.foreground);
      assert later == log + later[|log|..];
    }
  }

  lemma TransitionMayFollow(intent: Intent, log: History, e: EndogenousEvent)
    requires TransitionReady(log, e) && IsActive(Statuses(log), e.body.epoch)
    ensures MayFollow(intent, log, WithReceipt(e, |log|))
  {
    hide Statuses, ForegroundFollows;
  }

  /** Whoever stored a terminal event under its content id has closed its epoch. */
  lemma StoredTransitionCloses(intent: Intent, log: History, e: EndogenousEvent)
    requires Admitted(RuleOf(intent), log) && TransitionReady(log, e) && SequenceOf(log, e.id) != 0
    ensures !IsActive(Statuses(log), e.body.epoch)
  {
    var s := SequenceOf(log, e.id);
    AdmittedAt(intent, log, s);
    StatusMeaning(intent, log, e.body.epoch);
    hide Admitted, Statuses, SequenceOf;
    assert ClosesAt(log, e.body.epoch, s);
  }

  method RebuildStatuses(history: History) returns (statuses: map<Epoch, Status>)
    ensures statuses == Statuses(history)
  {
    statuses := map[];
    for i := 0 to |history|
      invariant statuses == Statuses(history[..i])
    {
      assert history[..i + 1] == history[..i] + [history[i]];
      StatusesSnoc(history[..i], history[i]);
      var b := history[i].body;
      if b.EpochStarted? || Terminal(b) {
        statuses := statuses[b.epoch := StatusAfter(b)];
      }
    }
    assert history[..|history|] == history;
  }

  /** None of these epochs is active, and none can become so. */
  ghost predicate Quiet(log: History, epochs: set<Epoch>) {
    forall ep :: ep in epochs ==> ep.cursor < |log| && !IsActive(Statuses(log), ep)
  }

  lemma QuietPersists(intent: Intent, log: History, later: History, epochs: set<Epoch>)
    requires Quiet(log, epochs) && log <= later && Admitted(RuleOf(intent), log) && Admitted(RuleOf(intent), later)
    ensures Quiet(later, epochs)
  {
    hide Admitted, Statuses, IsActive;
    forall ep | ep in epochs ensures !IsActive(Statuses(later), ep) {
      NeverActiveAgain(intent, log, later, ep);
    }
  }

  lemma NothingIsQuiet(log: History)
    ensures Quiet(log, {})
  {
  }

  lemma QuietWithOne(intent: Intent, log: History, later: History, epochs: set<Epoch>, ep: Epoch)
    requires Quiet(log, epochs) && log <= later && Admitted(RuleOf(intent), log) && Admitted(RuleOf(intent), later)
    requires ep.cursor < |later| && !IsActive(Statuses(later), ep)
    ensures Quiet(later, epochs + {ep})
  {
    hide Admitted, Statuses, IsActive;
    QuietPersists(intent, log, later, epochs);
  }

  lemma DraftedPersists(log: History, later: History, ep: Epoch, e: EndogenousEvent)
    requires log <= later && Drafted(log, ep, e)
    ensures Drafted(later, ep, e) && TransitionReady(later, e) && e.body.epoch == ep && ep.cursor < |later|
  {
    ReadyPersists(log, later, e);
  }

  lemma ActiveAreBehind(intent: Intent, log: History)
    requires Admitted(RuleOf(intent), log)
    ensures forall ep :: IsActive(Statuses(log), ep) ==> ep.cursor < |log|
  {
    forall ep | IsActive(Statuses(log), ep) ensures ep.cursor < |log| {
      StatusMeaning(intent, log, ep);
    }
  }

  /** What remains open after every epoch that was open behind the cut has been closed. */
  lemma NothingElseOpens(intent: Intent, log: History, later: History, cut: nat, closed: set<Epoch>, ep: Epoch)
    requires log <= later && Admitted(RuleOf(intent), log) && Admitted(RuleOf(intent), later)
    requires ep.cursor < cut <= |log| && (IsActive(Statuses(log), ep) ==> ep in closed) && Quiet(later, closed)
    ensures !IsActive(Statuses(later), ep)
  {
    hide Admitted, Statuses, IsActive;
    if !IsActive(Statuses(log), ep) { NeverActiveAgain(intent, log, later, ep); }
  }

  // ---------------------------------------------------------------- who wrote what

  /** Between two logs other processes append, and this one nothing but these drafts, each with
      the head it was validated at. */
  ghost predicate Adds(shared: SharedLog<Id, Body>, before: History, after: History, drafts: set<EndogenousEvent>) {
    && before <= after
    && forall i :: |before| <= i < |after| ==> shared.Foreign(after[i]) || exists e :: e in drafts && after[i] == WithReceipt(e, i)
  }

  lemma AddsMore(shared: SharedLog<Id, Body>, a: History, b: History, c: History, drafts: set<EndogenousEvent>, more: set<EndogenousEvent>)
    requires Adds(shared, a, b, drafts) && Adds(shared, b, c, more)
    ensures Adds(shared, a, c, drafts + more)
  {
    hide WithReceipt;
    forall i | |a| <= i < |c| ensures shared.Foreign(c[i]) || exists e :: e in drafts + more && c[i] == WithReceipt(e, i) {
      if i < |b| { assert c[i] == b[i]; }
    }
  }

  lemma AddsWithin(shared: SharedLog<Id, Body>, a: History, b: History, c: History, drafts: set<EndogenousEvent>, more: set<EndogenousEvent>)
    requires Adds(shared, a, b, drafts) && Adds(shared, b, c, more) && more <= drafts
    ensures Adds(shared, a, c, drafts)
  {
    AddsMore(shared, a, b, c, drafts, more);
    assert drafts + more == drafts;
  }

  lemma AddsOne(shared: SharedLog<Id, Body>, before: History, after: History, e: EndogenousEvent, head: nat)
    requires before <= after
    requires forall i :: |before| <= i < |after| ==> shared.Foreign(after[i]) || (i == head && after[i] == WithReceipt(e, head))
    ensures Adds(shared, before, after, {e})
  {
    hide WithReceipt;
    assert e in {e};
  }

  /** The terminal event of this epoch is stored under this id. */
  ghost predicate EndedBy(log: History, ep: Epoch, id: Id) {
    exists t :: ClosesAt(log, ep, t) && At(log, t).id == id
  }

  /** How an epoch ended is settled with its ending. */
  lemma EndingStays(intent: Intent, log: History, later: History, ep: Epoch, id: Id)
    requires log <= later && Admitted(RuleOf(intent), log) && Admitted(RuleOf(intent), later)
    requires ep in Statuses(log) && !IsActive(Statuses(log), ep)
    ensures EndedBy(log, ep, id) <==> EndedBy(later, ep, id)
  {
    hide Admitted, Statuses, RuleOf;
    StatusMeaning(intent, log, ep);
    ClosedBefore(log, later, ep);
    var t :| ClosesAt(log, ep, t);
    assert At(later, t) == At(log, t);
    if u :| ClosesAt(later, ep, u) && At(later, u).id == id {
      EpochsEndOnce(intent, later, ep, t, u);
    }
  }

  lemma StatusStays(intent: Intent, log: History, later: History, ep: Epoch)
    requires log <= later && Admitted(RuleOf(intent), log) && Admitted(RuleOf(intent), later) && ep in Statuses(log)
    ensures ep in Statuses(later)
  {
    StatusMeaning(intent, log, ep);
    StatusMeaning(intent, later, ep);
    hide Admitted, Statuses;
    assert At(later, ep.cursor + 1) == At(log, ep.cursor + 1);
  }

  lemma StoredEnds(intent: Intent, log: History, e: EndogenousEvent)
    requires Admitted(RuleOf(intent), log) && TransitionReady(log, e)
    ensures EndedBy(log, e.body.epoch, e.id) <==> SequenceOf(log, e.id) != 0
  {
    hide Statuses, Admitted;
    var s := SequenceOf(log, e.id);
    if s != 0 {
      AdmittedAt(intent, log, s);
      assert ClosesAt(log, e.body.epoch, s);
    } else {
      AbsentIs(log, e.id);
    }
  }

  /** Some other process ended this epoch behind the first log. */
  ghost predicate EndedByOthers(shared: SharedLog<Id, Body>, before: History, after: History, ep: Epoch) {
    exists t :: |before| < t && ClosesAt(after, ep, t) && shared.Foreign(At(after, t))
  }

  lemma ClosedBefore(before: History, after: History, ep: Epoch)
    requires before <= after
    ensures forall t :: t <= |before| ==> (ClosesAt(before, ep, t) <==> ClosesAt(after, ep, t))
  {
    forall t | t <= |before| ensures ClosesAt(before, ep, t) <==> ClosesAt(after, ep, t) {
      if 1 <= t { assert At(before, t) == At(after, t); }
    }
  }

  lemma EndedHereOrThere(intent: Intent, shared: SharedLog<Id, Body>, before: History, after: History, ep: Epoch,
                         targets: set<Epoch>, draft: Epoch -> EndogenousEvent)
    requires Admitted(RuleOf(intent), before) && Admitted(RuleOf(intent), after)
    requires Adds(shared, before, after, set e | e in targets :: draft(e))
    requires forall e :: e in targets ==> Terminal(draft(e).body) && draft(e).body.epoch == e
    requires IsActive(Statuses(before), ep) && !IsActive(Statuses(after), ep)
    ensures EndedByOthers(shared, before, after, ep) || (ep in targets && EndedBy(after, ep, draft(ep).id))
  {
    StatusMeaning(intent, before, ep);
    StatusMeaning(intent, after, ep);
    StatusStays(intent, before, after, ep);
    ClosedBefore(before, after, ep);
    hide Admitted, Statuses, WithReceipt, Terminal;
    var t :| ClosesAt(after, ep, t);
    if !shared.Foreign(after[t - 1]) {
      var e :| e in targets && after[t - 1] == WithReceipt(draft(e), t - 1);
      ReceiptAside(draft(e), t - 1);
    }
  }

  lemma ReceiptAside(e: EndogenousEvent, head: nat)
    requires Terminal(e.body)
    ensures WithReceipt(e, head).id == e.id && WithReceipt(e, head).body.epoch == e.body.epoch
  {
  }

  class EndogenousWorker {
    const shared: SharedLog<Id, Body>
    const intent: Intent
    const consumer: string

    ghost predicate Valid()
      reads this, shared, shared.store
    {
      shared.Valid() && forall prefix, e :: shared.rule(prefix, e) == MayFollow(intent, prefix, e)
    }

    constructor (shared: SharedLog<Id, Body>, intent: Intent, consumer: string)
      requires shared.Valid() && forall prefix, e :: shared.rule(prefix, e) == MayFollow(intent, prefix, e)
      ensures Valid() && this.shared == shared && this.intent == intent && this.consumer == consumer
    {
      this.shared, this.intent, this.consumer := shared, intent, consumer;
    }

    lemma Known()
      requires Valid()
      ensures Admitted(RuleOf(intent), shared.store.events) && UniqueIds(shared.store.events)
    {
      hide MayFollow;
      assert forall i :: 0 <= i < |shared.store.events| ==>
               RuleOf(intent)(shared.store.events[..i], shared.store.events[i])
               == shared.rule(shared.store.events[..i], shared.store.events[i]);
    }

    /** The history and the status of every epoch in it, after whatever others have appended. */
    method CurrentProjection() returns (history: History, statuses: map<Epoch, Status>)
      requires Valid()
      modifies shared`round, shared.store
      ensures Valid() && old(shared.store.events) <= shared.store.events
      ensures history == shared.store.events && statuses == Statuses(history)
      ensures Adds(shared, old(shared.store.events), shared.store.events, {})
    {
      hide MayFollow;
      shared.Interfere();
      history := shared.store.Read(0);
      statuses := RebuildStatuses(history);
    }

    /** Others may append first; the event lands only behind the head it was validated at. What
        is stored under its id is returned, whoever stored it. */
    method CommitAt(e: EndogenousEvent, prefix: History) returns (stored: Option<EndogenousEvent>)
      requires Valid() && prefix <= shared.store.events && MayFollow(intent, prefix, e)
      modifies shared`round, shared.store
      ensures Valid() && old(shared.store.events) <= shared.store.events
      ensures stored.Some? ==> stored.value in shared.store.events && stored.value.id == e.id
      ensures stored.None? ==> |shared.store.events| > |prefix|
      ensures forall i :: |old(shared.store.events)| <= i < |shared.store.events| ==>
                shared.Foreign(shared.store.events[i]) || (i == |prefix| && shared.store.events[i] == e)
    {
      hide MayFollow, SequenceOf, AppendAtHead, UniqueIds, Admitted;
      shared.Interfere();
      assert shared.store.events[..|prefix|] == prefix;
      CompareAndAppendFinds(shared.store.events, e, |prefix|);
      var r := shared.Commit(e, |prefix|);
      if r.Stored? {
        stored := Some(shared.store.events[r.sequence - 1]);
      } else {
        stored := None;
      }
    }

    /** Open an epoch, if its scan is still the head and the consumer has no other one open. */
    method AppendEpochStart(ep: Epoch, attempts: nat) returns (r: Admission)
      requires Valid() && 1 <= ep.cursor <= |shared.store.events|
      requires StartsAtItsScan(shared.store.events[..ep.cursor], ep)
      modifies shared`round, shared.store
      ensures Valid() && old(shared.store.events) <= shared.store.events
      ensures r.Present? ==> r.event in shared.store.events && r.event.id == StartId(ep)
      ensures r.Declined? ==> CannotStart(old(shared.store.events), shared.store.events, ep)
      ensures r.Exhausted? ==> |shared.store.events| >= |old(shared.store.events)| + attempts
      ensures Adds(shared, old(shared.store.events), shared.store.events, {Event(StartId(ep), EpochStarted(ep, 0))})
    {
      hide MayFollow, Statuses, Admitted, SequenceOf, StartsAtItsScan, Adds;
      ghost var scan := shared.store.events[..ep.cursor];
      ghost var start := shared.store.events;
      ghost var drafts := {Event(StartId(ep), EpochStarted(ep, 0))};
      NothingAdded(shared, start, drafts);
      for attempt := 0 to attempts
        invariant Valid() && scan <= shared.store.events && start <= shared.store.events
        invariant |shared.store.events| >= |start| + attempt && Adds(shared, start, shared.store.events, drafts)
      {
        ghost var before := shared.store.events;
        var history, statuses := CurrentProjection();
        AddsWithin(shared, start, before, history, drafts, {});
        var s := SequenceOf(history, StartId(ep));
        if s != 0 {
          return Present(history[s - 1]);
        }
        if exists other :: other in statuses && other.consumer == ep.consumer && statuses[other] == Active && other != ep {
          CannotStartHere(start, history, ep);
          return Declined;
        }
        if |history| != ep.cursor {
          CannotStartHere(start, history, ep);
          return Declined;
        }
        var e := Event(StartId(ep), EpochStarted(ep, |history|));
        assert history == scan;
        StartMayFollow(intent, history, ep);
        var stored := CommitAt(e, history);
        CommitAdds(shared, start, history, shared.store.events, Event(StartId(ep), EpochStarted(ep, 0)), e, drafts);
        if stored.Some? {
          return Present(stored.value);
        }
      }
      r := Exhausted;
    }

    /** Spend an epoch's cognition, only while it is active, in time and currently governed. */
    method AppendEpochOutput(kind: OutputKind, content: string, ep: Epoch, refs: seq<IntentRef>, at: nat, attempts: nat) returns (r: Admission)
      requires Valid()
      modifies shared`round, shared.store
      ensures Valid() && old(shared.store.events) <= shared.store.events
      ensures r.Present? ==> r.event in shared.store.events && r.event.id == OutputId(kind, content)
      ensures r.Declined? ==> Ineligible(intent, old(shared.store.events), shared.store.events, ep, refs, at)
      ensures r.Exhausted? ==> |shared.store.events| >= |old(shared.store.events)| + attempts
      ensures Adds(shared, old(shared.store.events), shared.store.events,
                   {Event(OutputId(kind, content), OutputRecorded(kind, content, ep, at, refs, 0))})
    {
      hide MayFollow, Statuses, Admitted, SequenceOf, AllCurrent, Adds, Lapsed;
      ghost var start := shared.store.events;
      ghost var draft := Event(OutputId(kind, content), OutputRecorded(kind, content, ep, at, refs, 0));
      NothingAdded(shared, start, {draft});
      for attempt := 0 to attempts
        invariant Valid() && start <= shared.store.events
        invariant |shared.store.events| >= |start| + attempt
        invariant Adds(shared, start, shared.store.events, {draft})
      {
        ghost var before := shared.store.events;
        var history, statuses := CurrentProjection();
        AddsWithin(shared, start, before, history, {draft}, {});
        var s := SequenceOf(history, OutputId(kind, content));
        if s != 0 {
          return Present(history[s - 1]);
        }
        LapsedMeans(intent, history, refs);
        if ep !in statuses || statuses[ep] != Active || at >= ep.expiresAt || !AllCurrent(intent, history, refs) {
          IneligibleHere(intent, start, history, ep, refs, at);
          return Declined;
        }
        var e := Event(OutputId(kind, content), OutputRecorded(kind, content, ep, at, refs, |history|));
        OutputMayFollow(intent, history, e);
        var stored := CommitAt(e, history);
        CommitAdds(shared, start, history, shared.store.events, draft, e, {draft});
        if stored.Some? {
          return Present(stored.value);
        }
      }
      r := Exhausted;
    }

    /** Close an epoch. Unless attempts run out, it is closed afterwards: by this event exactly
        when it is reported as present, and otherwise by another one. */
    method AppendTransition(e: EndogenousEvent, attempts: nat) returns (r: Admission)
      requires Valid() && TransitionReady(shared.store.events, e) && e.body.epoch.cursor < |shared.store.events|
      modifies shared`round, shared.store
      ensures Valid() && old(shared.store.events) <= shared.store.events
      ensures !r.Exhausted? ==> !IsActive(Statuses(shared.store.events), e.body.epoch)
      ensures !r.Exhausted? ==> (r.Present? <==> EndedBy(shared.store.events, e.body.epoch, e.id))
      ensures r.Present? ==> r.event in shared.store.events && r.event.id == e.id
      ensures r.Exhausted? ==> |shared.store.events| >= |old(shared.store.events)| + attempts
      ensures Adds(shared, old(shared.store.events), shared.store.events, {e})
    {
      ghost var start := shared.store.events;
      var ep := e.body.epoch;
      hide *;
      NothingAdded(shared, start, {e});
      for attempt := 0 to attempts
        invariant Valid() && start <= shared.store.events && |shared.store.events| >= |start| + attempt
        invariant Adds(shared, start, shared.store.events, {e})
      {
        ghost var before := shared.store.events;
        var history, statuses := CurrentProjection();
        Known();
        AddsWithin(shared, start, before, history, {e}, {});
        ReadyPersists(start, history, e);
        StoredEnds(intent, history, e);
        var s := SequenceOf(history, e.id);
        if s != 0 {
          StoredTransitionCloses(intent, history, e);
          return Present(history[s - 1]);
        }
        if ep !in statuses || statuses[ep] != Active {
          NotActive(statuses, ep);
          return Declined;
        }
        NotActive(statuses, ep);
        TransitionMayFollow(intent, history, e);
        SameTransition(e, |history|);
        var stored := CommitAt(WithReceipt(e, |history|), history);
        CommitAdds(shared, start, history, shared.store.events, e, WithReceipt(e, |history|), {e});
        if stored.Some? {
          Known();
          ReadyPersists(start, shared.store.events, e);
          StoredEnds(intent, shared.store.events, e);
          StoredIsFound(shared.store.events, stored.value);
          StoredTransitionCloses(intent, shared.store.events, e);
          return Present(stored.value);
        }
      }
      r := Exhausted;
    }

    /** One terminal event per target, drafted by the caller; false when attempts ran out. The
        targets reported as closed are those that ended by the drafted event. */
    method CloseAll(targets: set<Epoch>, draft: Epoch -> EndogenousEvent, attempts: nat) returns (done: bool, closed: set<Epoch>)
      requires Valid()
      requires forall ep :: ep in targets ==> Drafted(shared.store.events, ep, draft(ep))
      requires targets <= Statuses(shared.store.events).Keys
      modifies shared`round, shared.store
      ensures Valid() && old(shared.store.events) <= shared.store.events
      ensures done ==> Quiet(shared.store.events, targets)
      ensures closed <= targets
      ensures done ==> forall ep :: ep in targets ==> (ep in closed <==> EndedBy(shared.store.events, ep, draft(ep).id))
      ensures !done ==> |shared.store.events| >= |old(shared.store.events)| + attempts
      ensures Adds(shared, old(shared.store.events), shared.store.events, set ep | ep in targets :: draft(ep))
    {
      hide *;
      Known();
      ghost var start := shared.store.events;
      ghost var visited: set<Epoch> := {};
      var rest := targets;
      closed := {};
      ghost var drafts := set ep | ep in targets :: draft(ep);
      NothingAdded(shared, start, drafts);
      NothingIsQuiet(start);
      while rest != {}
        invariant Valid() && start <= shared.store.events && visited + rest == targets && Quiet(shared.store.events, visited)
        invariant closed <= visited && visited !! rest && Adds(shared, start, shared.store.events, drafts)
        invariant forall ep :: ep in visited ==> (ep in closed <==> EndedBy(shared.store.events, ep, draft(ep).id))
        decreases |rest|
      {
        var ep :| ep in rest;
        ghost var before := shared.store.events;
        Known();
        DraftedPersists(start, before, ep, draft(ep));
        var r := AppendTransition(draft(ep), attempts);
        ghost var after := shared.store.events;
        AddsWithin(shared, start, before, after, drafts, {draft(ep)});
        if r.Exhausted? {
          return false, closed;
        }
        Known();
        EndingsStay(intent, start, before, after, visited, draft);
        QuietWithOne(intent, before, after, visited, ep);
        if r.Present? {
          closed := closed + {ep};
        }
        visited, rest := visited + {ep}, rest - {ep};
      }
      assert visited == targets;
      done := true;
    }

    /** Foreground demand at sequence f: when this returns, every epoch of the consumer that was
        opened behind the demand is closed, and none that was opened before it can be active
        again. Each that was active is preempted by exactly this demand, unless another process
        ended it; and nothing else is written here. */
    method ProcessForeground(f: nat, time: nat, attempts: nat) returns (done: bool, preempted: set<Epoch>)
      requires Valid() && 1 <= f <= |shared.store.events|
      modifies shared`round, shared.store
      ensures Valid() && old(shared.store.events) <= shared.store.events
      ensures done ==> forall ep: Epoch :: ep.consumer == consumer && ep.cursor < f ==> !IsActive(Statuses(shared.store.events), ep)
      ensures done ==> forall ep :: ep in preempted ==>
                         ep.consumer == consumer && ep.cursor < f
                         && EndedBy(shared.store.events, ep, PreemptId(ep, At(shared.store.events, f).id))
      ensures done ==> forall ep: Epoch :: IsActive(Statuses(old(shared.store.events)), ep) && ep.consumer == consumer && ep.cursor < f ==>
                         ep in preempted || EndedByOthers(shared, old(shared.store.events), shared.store.events, ep)
      ensures !done ==> |shared.store.events| >= |old(shared.store.events)| + attempts
      ensures OnlyPreempts(shared, old(shared.store.events), shared.store.events, consumer, f, time)
    {
      hide *;
      ghost var start := shared.store.events;
      Known();
      var history, statuses := CurrentProjection();
      var foreground := history[f - 1].id;
      var targets := set ep | ep in statuses && statuses[ep] == Active && ep.consumer == consumer && ep.cursor < f;
      var draft := (ep: Epoch) => Preemption(ep, foreground, time, 0);
      Known();
      forall ep | ep in targets ensures Drafted(history, ep, draft(ep)) {
        PreemptionIsDrafted(intent, history, f, ep, time);
      }
      done, preempted := CloseAll(targets, draft, attempts);
      Known();
      ghost var after := shared.store.events;
      if done {
        ForegroundIsDone(intent, shared, start, history, after, consumer, f, time, targets, preempted, draft);
      }
      ForegroundAdds(shared, start, history, after, consumer, f, time, targets, draft);
    }

    /** Close every open epoch of the consumer whose deadline has passed: each that was active
        expires here, unless another process ended it; and nothing else is written. */
    method ExpireEpochs(at: nat, attempts: nat) returns (done: bool, expired: set<Epoch>)
      requires Valid()
      modifies shared`round, shared.store
      ensures Valid() && old(shared.store.events) <= shared.store.events
      ensures done ==> forall ep: Epoch :: ep.consumer == consumer && ep.expiresAt <= at && ep.cursor < |old(shared.store.events)|
                         ==> !IsActive(Statuses(shared.store.events), ep)
      ensures done ==> forall ep :: ep in expired ==>
                         ep.consumer == consumer && ep.expiresAt <= at && EndedBy(shared.store.events, ep, ExpireId(ep))
      ensures done ==> forall ep: Epoch :: IsActive(Statuses(old(shared.store.events)), ep) && ep.consumer == consumer && ep.expiresAt <= at ==>
                         ep in expired || EndedByOthers(shared, old(shared.store.events), shared.store.events, ep)
      ensures !done ==> |shared.store.events| >= |old(shared.store.events)| + attempts
      ensures OnlyExpires(shared, old(shared.store.events), shared.store.events, consumer, at)
    {
      hide *;
      ghost var start := shared.store.events;
      Known();
      var history, statuses := CurrentProjection();
      var targets := set ep | ep in statuses && statuses[ep] == Active && ep.consumer == consumer && ep.expiresAt <= at;
      var draft := (ep: Epoch) => Event(ExpireId(ep), EpochExpired(ep, at, 0));
      Known();
      forall ep | ep in targets ensures Drafted(history, ep, draft(ep)) {
        ExpiryIsDrafted(intent, history, ep, at);
      }
      done, expired := CloseAll(targets, draft, attempts);
      Known();
      ghost var after := shared.store.events;
      if done {
        ExpiryIsDone(intent, shared, start, history, after, consumer, at, targets, expired, draft);
      }
      ExpiryAdds(shared, start, history, after, consumer, at, targets, draft);
    }

    /** A scan that could not finish: its epoch is closed, as expired or as abandoned, before the
        scan is checkpointed; an epoch that is still eligible raises instead. It is written off as
        expired only past its deadline, and as abandoned only before it and with an intent lapsed. */
    method FinishIncompleteScan(ep: Epoch, refs: seq<IntentRef>, observedAt: nat, clock: nat, attempts: nat) returns (r: Finished)
      requires Valid() && ep.cursor < |shared.store.events|
      modifies shared`round, shared.store
      ensures Valid() && old(shared.store.events) <= shared.store.events
      ensures r.Closed? ==> !IsActive(Statuses(shared.store.events), ep)
      ensures r.OutOfAttempts? ==> |shared.store.events| >= |old(shared.store.events)| + attempts
      ensures r.StillEligible? ==> IsActive(Statuses(shared.store.events), ep) && observedAt < ep.expiresAt && !Lapsed(intent, shared.store.events, refs)
      ensures forall i :: |old(shared.store.events)| <= i < |shared.store.events| ==>
                || shared.Foreign(shared.store.events[i])
                || (observedAt >= ep.expiresAt && shared.store.events[i] == Event(ExpireId(ep), EpochExpired(ep, observedAt, i)))
                || (observedAt < ep.expiresAt && shared.store.events[i] == Abandonment(ep, observedAt, clock, i)
                    && exists h: History :: old(shared.store.events) <= h <= shared.store.events && Lapsed(intent, h, refs))
    {
      hide Statuses, Admitted, MayFollow, SequenceOf, AllCurrent, Adds, WithReceipt, Lapsed, IsActive, EndedBy;
      ghost var start := shared.store.events;
      ghost var lapsedAt := start;
      ghost var lapsed := false;
      var draft := if observedAt >= ep.expiresAt then Event(ExpireId(ep), EpochExpired(ep, observedAt, 0)) else Abandonment(ep, observedAt, clock, 0);
      ghost var drafts: set<EndogenousEvent> := if observedAt >= ep.expiresAt then {draft} else {};
      NothingAdded(shared, start, drafts);
      for attempt := 0 to attempts
        invariant Valid() && start <= shared.store.events && start <= lapsedAt <= shared.store.events
        invariant |shared.store.events| >= |start| + attempt
        invariant lapsed ==> Lapsed(intent, lapsedAt, refs)
        invariant drafts == if observedAt >= ep.expiresAt || lapsed then {draft} else {}
        invariant Adds(shared, start, shared.store.events, drafts)
      {
        ghost var before := shared.store.events;
        var history, statuses := CurrentProjection();
        AddsWithin(shared, start, before, history, drafts, {});
        LapsedMeans(intent, history, refs);
        NotActive(statuses, ep);
        if ep !in statuses || statuses[ep] != Active {
          FinishOnly(shared, start, history, ep, observedAt, clock, draft, drafts);
          return Closed;
        }
        if observedAt >= ep.expiresAt {
          var _ := AppendTransition(Event(ExpireId(ep), EpochExpired(ep, observedAt, 0)), attempts);
        } else if !AllCurrent(intent, history, refs) {
          var at := if ep.startedAt > observedAt then ep.startedAt else observedAt;
          lapsedAt, lapsed := history, true;
          var _ := AppendTransition(Event(AbandonId(ep), EpochAbandoned(ep, if at > clock then at else clock, 0)), attempts);
        } else {
          FinishOnly(shared, start, history, ep, observedAt, clock, draft, drafts);
          return StillEligible;
        }
        ClosedMeanwhile(history, shared.store.events, ep);
        AddsMore(shared, start, history, shared.store.events, drafts, {draft});
        drafts := drafts + {draft};
      }
      FinishOnly(shared, start, shared.store.events, ep, observedAt, clock, draft, drafts);
      r := OutOfAttempts;
    }
  }

  function Preemption(ep: Epoch, foreground: Id, time: nat, receipt: nat): EndogenousEvent {
    Event(PreemptId(ep, foreground), EpochPreempted(ep, foreground, if ep.startedAt > time then ep.startedAt else time, receipt))
  }

  lemma PreemptionIsDrafted(intent: Intent, log: History, f: nat, ep: Epoch, time: nat)
    requires Admitted(RuleOf(intent), log) && UniqueIds(log) && 1 <= f <= |log| && ep.cursor < f
    ensures var e := Preemption(ep, log[f - 1].id, time, 0);
            Drafted(log, ep, e) && Terminal(e.body) && e.body.epoch == ep && e.id == PreemptId(ep, log[f - 1].id)
  {
    hide Admitted, MayFollow, SequenceOf;
    SequenceOfIs(log, f);
  }

  function Abandonment(ep: Epoch, observedAt: nat, clock: nat, receipt: nat): EndogenousEvent {
    var at := if ep.startedAt > observedAt then ep.startedAt else observedAt;
    Event(AbandonId(ep), EpochAbandoned(ep, if at > clock then at else clock, receipt))
  }

  lemma NothingAdded(shared: SharedLog<Id, Body>, log: History, drafts: set<EndogenousEvent>)
    ensures Adds(shared, log, log, drafts)
  {
  }

  lemma CommitAdds(shared: SharedLog<Id, Body>, start: History, read: History, after: History, e: EndogenousEvent,
                   landed: EndogenousEvent, drafts: set<EndogenousEvent>)
    requires Adds(shared, start, read, drafts) && read <= after && e in drafts && landed == WithReceipt(e, |read|)
    requires forall i :: |read| <= i < |after| ==> shared.Foreign(after[i]) || (i == |read| && after[i] == landed)
    ensures Adds(shared, start, after, drafts)
  {
    AddsOne(shared, read, after, e, |read|);
    AddsMore(shared, start, read, after, drafts, {e});
    assert drafts + {e} == drafts;
  }

  lemma StoredIsFound(log: History, e: EndogenousEvent)
    requires e in log
    ensures SequenceOf(log, e.id) != 0
  {
    AbsentIs(log, e.id);
    var i :| 0 <= i < |log| && log[i] == e;
  }

  lemma EndingsStay(intent: Intent, start: History, log: History, later: History, epochs: set<Epoch>, draft: Epoch -> EndogenousEvent)
    requires start <= log <= later && Admitted(RuleOf(intent), start) && Admitted(RuleOf(intent), log) && Admitted(RuleOf(intent), later)
    requires Quiet(log, epochs) && epochs <= Statuses(start).Keys
    ensures forall ep :: ep in epochs ==> (EndedBy(log, ep, draft(ep).id) <==> EndedBy(later, ep, draft(ep).id))
  {
    hide Admitted, Statuses, EndedBy, IsActive;
    forall ep | ep in epochs ensures EndedBy(log, ep, draft(ep).id) <==> EndedBy(later, ep, draft(ep).id) {
      StatusStays(intent, start, log, ep);
      EndingStays(intent, log, later, ep, draft(ep).id);
    }
  }

  /** What was active before a read, and is closed afterwards without being reported as closed. */
  lemma OthersEndedThem(intent: Intent, shared: SharedLog<Id, Body>, start: History, read: History, after: History,
                        targets: set<Epoch>, closed: set<Epoch>, draft: Epoch -> EndogenousEvent)
    requires Admitted(RuleOf(intent), start) && Admitted(RuleOf(intent), read) && Admitted(RuleOf(intent), after)
    requires Adds(shared, start, read, {}) && Adds(shared, read, after, set e | e in targets :: draft(e))
    requires forall e :: e in targets ==> Terminal(draft(e).body) && draft(e).body.epoch == e
    requires forall e :: e in targets ==> (e in closed <==> EndedBy(after, e, draft(e).id))
    ensures forall ep :: IsActive(Statuses(start), ep) && !IsActive(Statuses(after), ep) && ep !in closed ==> EndedByOthers(shared, start, after, ep)
  {
    hide Admitted, Statuses, IsActive, EndedBy, EndedByOthers;
    AddsMore(shared, start, read, after, {}, set e | e in targets :: draft(e));
    assert {} + (set e | e in targets :: draft(e)) == set e | e in targets :: draft(e);
    forall ep | IsActive(Statuses(start), ep) && !IsActive(Statuses(after), ep) && ep !in closed
      ensures EndedByOthers(shared, start, after, ep)
    {
      EndedHereOrThere(intent, shared, start, after, ep, targets, draft);
    }
  }

  lemma ForegroundIsDone(intent: Intent, shared: SharedLog<Id, Body>, start: History, read: History, after: History, consumer: string,
                         f: nat, time: nat, targets: set<Epoch>, preempted: set<Epoch>, draft: Epoch -> EndogenousEvent)
    requires Admitted(RuleOf(intent), start) && Admitted(RuleOf(intent), read) && Admitted(RuleOf(intent), after)
    requires Adds(shared, start, read, {}) && Adds(shared, read, after, set ep | ep in targets :: draft(ep)) && 1 <= f <= |read| && read <= after
    requires targets == set ep | ep in Statuses(read) && Statuses(read)[ep] == Active && ep.consumer == consumer && ep.cursor < f
    requires forall ep :: draft(ep) == Preemption(ep, read[f - 1].id, time, 0)
    requires Quiet(after, targets) && preempted <= targets
    requires forall ep :: ep in targets ==> (ep in preempted <==> EndedBy(after, ep, draft(ep).id))
    ensures forall ep: Epoch :: ep.consumer == consumer && ep.cursor < f ==> !IsActive(Statuses(after), ep)
    ensures forall ep :: ep in preempted ==> ep.consumer == consumer && ep.cursor < f && EndedBy(after, ep, PreemptId(ep, At(after, f).id))
    ensures forall ep: Epoch :: IsActive(Statuses(start), ep) && ep.consumer == consumer && ep.cursor < f ==>
              ep in preempted || EndedByOthers(shared, start, after, ep)
  {
    hide Admitted, Statuses, Quiet, Adds, EndedBy, EndedByOthers;
    OthersEndedThem(intent, shared, start, read, after, targets, preempted, draft);
    forall ep: Epoch | ep.consumer == consumer && ep.cursor < f ensures !IsActive(Statuses(after), ep) {
      NothingElseOpens(intent, read, after, f, targets, ep);
    }
  }

  lemma ForegroundAdds(shared: SharedLog<Id, Body>, start: History, read: History, after: History, consumer: string,
                       f: nat, time: nat, targets: set<Epoch>, draft: Epoch -> EndogenousEvent)
    requires Adds(shared, start, read, {}) && Adds(shared, read, after, set ep | ep in targets :: draft(ep)) && 1 <= f <= |read| && read <= after
    requires forall ep :: ep in targets ==> ep.consumer == consumer && ep.cursor < f
    requires forall ep :: draft(ep) == Preemption(ep, read[f - 1].id, time, 0)
    ensures OnlyPreempts(shared, start, after, consumer, f, time)
  {
    hide Adds, OnlyPreempts;
    AddsMore(shared, start, read, after, {}, set ep | ep in targets :: draft(ep));
    PreemptionsOnly(shared, start, after, targets, draft, consumer, f, time);
  }

  lemma ExpiryIsDrafted(intent: Intent, log: History, ep: Epoch, at: nat)
    requires Admitted(RuleOf(intent), log) && ep in Statuses(log) && ep.expiresAt <= at
    ensures Drafted(log, ep, Event(ExpireId(ep), EpochExpired(ep, at, 0)))
  {
    hide Admitted, Statuses, MayFollow;
    StatusMeaning(intent, log, ep);
  }

  lemma ExpiryIsDone(intent: Intent, shared: SharedLog<Id, Body>, start: History, read: History, after: History, consumer: string,
                     at: nat, targets: set<Epoch>, expired: set<Epoch>, draft: Epoch -> EndogenousEvent)
    requires Admitted(RuleOf(intent), start) && Admitted(RuleOf(intent), read) && Admitted(RuleOf(intent), after)
    requires Adds(shared, start, read, {}) && Adds(shared, read, after, set ep | ep in targets :: draft(ep)) && start <= read <= after
    requires targets == set ep | ep in Statuses(read) && Statuses(read)[ep] == Active && ep.consumer == consumer && ep.expiresAt <= at
    requires forall ep :: draft(ep) == Event(ExpireId(ep), EpochExpired(ep, at, 0))
    requires Quiet(after, targets) && expired <= targets
    requires forall ep :: ep in targets ==> (ep in expired <==> EndedBy(after, ep, draft(ep).id))
    ensures forall ep: Epoch :: ep.consumer == consumer && ep.expiresAt <= at && ep.cursor < |start| ==> !IsActive(Statuses(after), ep)
    ensures forall ep :: ep in expired ==> ep.consumer == consumer && ep.expiresAt <= at && EndedBy(after, ep, ExpireId(ep))
    ensures forall ep: Epoch :: IsActive(Statuses(start), ep) && ep.consumer == consumer && ep.expiresAt <= at ==>
              ep in expired || EndedByOthers(shared, start, after, ep)
  {
    hide Admitted, Statuses, Quiet, Adds, EndedBy, EndedByOthers;
    ActiveAreBehind(intent, start);
    OthersEndedThem(intent, shared, start, read, after, targets, expired, draft);
    forall ep: Epoch | ep.consumer == consumer && ep.expiresAt <= at && ep.cursor < |start| ensures !IsActive(Statuses(after), ep) {
      NothingElseOpens(intent, read, after, |read|, targets, ep);
    }
  }

  lemma ExpiryAdds(shared: SharedLog<Id, Body>, start: History, read: History, after: History, consumer: string,
                   at: nat, targets: set<Epoch>, draft: Epoch -> EndogenousEvent)
    requires Adds(shared, start, read, {}) && Adds(shared, read, after, set ep | ep in targets :: draft(ep))
    requires forall ep :: ep in targets ==> ep.consumer == consumer && ep.expiresAt <= at
    requires forall ep :: draft(ep) == Event(ExpireId(ep), EpochExpired(ep, at, 0))
    ensures OnlyExpires(shared, start, after, consumer, at)
  {
    hide Adds, OnlyExpires;
    AddsMore(shared, start, read, after, {}, set ep | ep in targets :: draft(ep));
    ExpiriesOnly(shared, start, after, targets, draft, consumer, at);
  }

  /** Behind the first log stand events of other processes and preemptions of this consumer's
      epochs by the foreground event at f, at its time or, if that is later, at their start. */
  ghost predicate OnlyPreempts(shared: SharedLog<Id, Body>, before: History, after: History, consumer: string, f: nat, time: nat)
    requires 1 <= f <= |after|
  {
    forall i :: |before| <= i < |after| ==>
      || shared.Foreign(after[i])
      || exists ep: Epoch, at: nat :: ep.consumer == consumer && ep.cursor < f
           && (at == time >= ep.startedAt || at == ep.startedAt >= time)
           && after[i] == Event(PreemptId(ep, At(after, f).id), EpochPreempted(ep, At(after, f).id, at, i))
  }

  lemma PreemptionsOnly(shared: SharedLog<Id, Body>, before: History, after: History, targets: set<Epoch>,
                        draft: Epoch -> EndogenousEvent, consumer: string, f: nat, time: nat)
    requires Adds(shared, before, after, {} + set ep | ep in targets :: draft(ep)) && 1 <= f <= |after|
    requires forall ep :: ep in targets ==> ep.consumer == consumer && ep.cursor < f && draft(ep) == Preemption(ep, At(after, f).id, time, 0)
    ensures OnlyPreempts(shared, before, after, consumer, f, time)
  {
    forall i | |before| <= i < |after| && !shared.Foreign(after[i])
      ensures exists ep: Epoch, at: nat :: ep.consumer == consumer && ep.cursor < f
                && (at == time >= ep.startedAt || at == ep.startedAt >= time)
                && after[i] == Event(PreemptId(ep, At(after, f).id), EpochPreempted(ep, At(after, f).id, at, i))
    {
      var ep :| ep in targets && after[i] == WithReceipt(draft(ep), i);
      var at := if ep.startedAt > time then ep.startedAt else time;
      assert after[i] == Event(PreemptId(ep, At(after, f).id), EpochPreempted(ep, At(after, f).id, at, i));
    }
  }

  ghost predicate OnlyExpires(shared: SharedLog<Id, Body>, before: History, after: History, consumer: string, at: nat) {
    forall i :: |before| <= i < |after| ==>
      || shared.Foreign(after[i])
      || exists ep: Epoch :: ep.consumer == consumer && ep.expiresAt <= at && after[i] == Event(ExpireId(ep), EpochExpired(ep, at, i))
  }

  lemma ExpiriesOnly(shared: SharedLog<Id, Body>, before: History, after: History, targets: set<Epoch>,
                     draft: Epoch -> EndogenousEvent, consumer: string, at: nat)
    requires Adds(shared, before, after, {} + set ep | ep in targets :: draft(ep))
    requires forall ep :: ep in targets ==> ep.consumer == consumer && ep.expiresAt <= at && draft(ep) == Event(ExpireId(ep), EpochExpired(ep, at, 0))
    ensures OnlyExpires(shared, before, after, consumer, at)
  {
    forall i | |before| <= i < |after| && !shared.Foreign(after[i])
      ensures exists ep: Epoch :: ep.consumer == consumer && ep.expiresAt <= at && after[i] == Event(ExpireId(ep), EpochExpired(ep, at, i))
    {
      var ep :| ep in targets && after[i] == WithReceipt(draft(ep), i);
      assert after[i] == Event(ExpireId(ep), EpochExpired(ep, at, i));
    }
  }

  lemma ClosedMeanwhile(log: History, later: History, ep: Epoch)
    requires log <= later
    ensures IsActive(Statuses(log), ep) && !IsActive(Statuses(later), ep) ==> |later| > |log|
  {
    hide Statuses, IsActive;
    assert |later| == |log| ==> later == log;
  }

  lemma FinishOnly(shared: SharedLog<Id, Body>, start: History, after: History, ep: Epoch, observedAt: nat, clock: nat,
                   draft: EndogenousEvent, drafts: set<EndogenousEvent>)
    requires Adds(shared, start, after, drafts) && drafts <= {draft}
    requires draft == if observedAt >= ep.expiresAt then Event(ExpireId(ep), EpochExpired(ep, observedAt, 0)) else Abandonment(ep, observedAt, clock, 0)
    ensures forall i :: |start| <= i < |after| ==>
              || shared.Foreign(after[i])
              || (draft in drafts && observedAt >= ep.expiresAt && after[i] == Event(ExpireId(ep), EpochExpired(ep, observedAt, i)))
              || (draft in drafts && observedAt < ep.expiresAt && after[i] == Abandonment(ep, observedAt, clock, i))
  {
  }

  datatype Finished = Closed | StillEligible | OutOfAttempts

  predicate Drafted(log: History, ep: Epoch, e: EndogenousEvent) {
    TransitionReady(log, e) && e.body.epoch == ep && ep.cursor < |log|
  }

  /** A head between two logs at which the epoch cannot be opened: the head is no longer its
      scan, or its consumer has another epoch open. */
  ghost predicate CannotStart(first: History, last: History, ep: Epoch) {
    exists h: History :: first <= h <= last && (|h| != ep.cursor || !NoOtherActive(Statuses(h), ep))
  }

  lemma CannotStartHere(first: History, h: History, ep: Epoch)
    requires first <= h && (|h| != ep.cursor || !NoOtherActive(Statuses(h), ep))
    ensures CannotStart(first, h, ep)
  {
  }

  /** No governing intent is named, or one of them is no longer current. */
  ghost predicate Lapsed(intent: Intent, log: History, refs: seq<IntentRef>) {
    |refs| == 0 || exists i :: 0 <= i < |refs| && !intent(log, refs[i])
  }

  lemma LapsedMeans(intent: Intent, log: History, refs: seq<IntentRef>)
    ensures Lapsed(intent, log, refs) <==> !AllCurrent(intent, log, refs)
  {
  }

  /** A head between two logs at which the epoch may not spend: closed or never opened, out of
      time, or no longer governed. */
  ghost predicate Ineligible(intent: Intent, first: History, last: History, ep: Epoch, refs: seq<IntentRef>, at: nat) {
    exists h: History :: first <= h <= last && (!IsActive(Statuses(h), ep) || at >= ep.expiresAt || Lapsed(intent, h, refs))
  }

  lemma IneligibleHere(intent: Intent, first: History, h: History, ep: Epoch, refs: seq<IntentRef>, at: nat)
    requires first <= h && (!IsActive(Statuses(h), ep) || at >= ep.expiresAt || Lapsed(intent, h, refs))
    ensures Ineligible(intent, first, h, ep, refs, at)
  {
  }

  lemma StartMayFollow(intent: Intent, log: History, ep: Epoch)
    requires StartsAtItsScan(log, ep) && NoOtherActive(Statuses(log), ep)
    ensures MayFollow(intent, log, Event(StartId(ep), EpochStarted(ep, |log|)))
  {
  }

  lemma OutputMayFollow(intent: Intent, log: History, e: EndogenousEvent)
    requires e.body.OutputRecorded? && e.id == OutputId(e.body.kind, e.body.content) && e.body.receipt == |log|
    requires IsActive(Statuses(log), e.body.epoch) && e.body.at < e.body.epoch.expiresAt && AllCurrent(intent, log, e.body.refs)
    ensures MayFollow(intent, log, e)
  {
  }

  lemma NotActive(statuses: map<Epoch, Status>, ep: Epoch)
    ensures IsActive(statuses, ep) <==> ep in statuses && statuses[ep] == Active
  {
  }

  lemma SameTransition(e: EndogenousEvent, head: nat)
    ensures WithReceipt(e, head).id == e.id
  {
  }
}
