/** The kernel: persist, project and publish every event, with local emits, foreign
    appends, broker echoes and late deliveries interleaved. */
module Kernel {
  import opened EventLog

  /** What a runtime materialises: the normalising step and the fold over its result. */
  datatype Projection<!S, !I, !P> = Projection(empty: S, normalize: Event<I, P> -> Event<I, P>, apply: (S, Event<I, P>) -> S)
  {
    function Step(s: S, e: Event<I, P>): S { apply(s, normalize(e)) }
  }

  datatype Published<I, P> = Published(sequence: nat, event: Event<I, P>)

  datatype KernelState<S, I, P> = KernelState(
    log: Log<I, P>,
    situation: S,
    version: nat,
    startup: nat,
    echoes: set<I>,
    bus: seq<Published<I, P>>)

  datatype CommitResult =
    | Committed(sequence: nat)
    | Refused(expected: nat, actual: nat)
    | InvalidHead
    | Stopped

  datatype Call<I, P> =
    | Emit(event: Event<I, P>)
    | EmitIfHead(event: Event<I, P>, expected: int)
    | Ingest(event: Event<I, P>)
    | Foreign(event: Event<I, P>)

  /** Replay of the whole log, as a rebuild performs it. */
  function Replay<S, I, P>(pr: Projection<S, I, P>, log: Log<I, P>): S {
    if log == [] then pr.empty else pr.Step(Replay(pr, log[..|log| - 1]), log[|log| - 1])
  }

  // ---------------------------------------------------------------- one call

  function Rebuilt<S, I, P>(pr: Projection<S, I, P>, k: KernelState<S, I, P>): KernelState<S, I, P> {
    k.(situation := Replay(pr, k.log), version := |k.log|)
  }

  function Starting<S, I, P>(pr: Projection<S, I, P>, k: KernelState<S, I, P>, replay: bool): KernelState<S, I, P> {
    (if replay then Rebuilt(pr, k) else k).(startup := |k.log|)
  }

  function Publish<S, I, P>(pr: Projection<S, I, P>, k: KernelState<S, I, P>, s: nat): KernelState<S, I, P>
    requires 1 <= s <= |k.log|
  {
    k.(bus := k.bus + [Published(s, pr.normalize(k.log[s - 1]))])
  }

  /** What follows the store append: `s` is the stored sequence. */
  function Deliver<S, I(==), P>(pr: Projection<S, I, P>, k: KernelState<S, I, P>, s: nat, distribute: bool): KernelState<S, I, P>
    requires 1 <= s <= |k.log|
  {
    var id := k.log[s - 1].id;
    if s <= k.version then
      if distribute then k
      else if id in k.echoes then k.(echoes := k.echoes - {id})
      else if s <= k.startup then k
      else Publish(pr, Rebuilt(pr, k), s)
    else
      var applied := Publish(pr, k.(situation := pr.Step(k.situation, k.log[s - 1]), version := s), s);
      if distribute then applied.(echoes := applied.echoes + {id}) else applied
  }

  function Execute<S, I(==), P>(pr: Projection<S, I, P>, k: KernelState<S, I, P>, c: Call<I, P>): KernelState<S, I, P> {
    match c
    case Emit(e) =>
      var (log, s) := AppendTo(k.log, e);
      Deliver(pr, k.(log := log), s, true)
    case EmitIfHead(e, expected) =>
      var (log, r) := AppendAtHead(k.log, e, expected);
      if r.Stored? then Deliver(pr, k.(log := log), r.sequence, true) else k
    case Ingest(e) =>
      var (log, s) := AppendTo(k.log, e);
      Deliver(pr, k.(log := log), s, false)
    case Foreign(e) => k.(log := AppendTo(k.log, e).0)
  }

  /** What the caller of a commit on this log is told. */
  function Outcome<I(==), P>(log: Log<I, P>, c: Call<I, P>): CommitResult {
    match c
    case EmitIfHead(e, expected) =>
      (match AppendAtHead(log, e, expected).1
       case Stored(s) => Committed(s)
       case HeadMoved(x, a) => Refused(x, a)
       case NegativeHead => InvalidHead)
    case _ => Committed(AppendTo(log, c.event).1)
  }

  // ---------------------------------------------------------------- whole runs

  function Run<S, I(==), P>(pr: Projection<S, I, P>, k: KernelState<S, I, P>, calls: seq<Call<I, P>>): KernelState<S, I, P> {
    if calls == [] then k else Execute(pr, Run(pr, k, calls[..|calls| - 1]), calls[|calls| - 1])
  }

  lemma RunSnoc<S, I, P>(pr: Projection<S, I, P>, k: KernelState<S, I, P>, calls: seq<Call<I, P>>, c: Call<I, P>)
    ensures Run(pr, k, calls + [c]) == Execute(pr, Run(pr, k, calls), c)
  {
    assert (calls + [c])[..|calls|] == calls;
  }

  /** What a run did, by event id: how often the broker handed it over, whether a local emit
      found it ahead of the situation (a first local append always does), and how long the
      log was when a late arrival last forced a rebuild. */
  datatype Track<I> = Track(handed: multiset<I>, ahead: set<I>, rebuilt: nat)

  /** The sequence a local emit stored or found; 0 when it was refused. */
  function EmittedAt<I(==), P>(log: Log<I, P>, c: Call<I, P>): nat {
    match c
    case Emit(e) => AppendTo(log, e).1
    case EmitIfHead(e, expected) =>
      var r := AppendAtHead(log, e, expected).1;
      if r.Stored? then r.sequence else 0
    case _ => 0
  }

  /** A hand-over that reaches the kernel behind its situation, unexpected and after startup. */
  predicate Late<S, I(==), P>(k: KernelState<S, I, P>, c: Call<I, P>) {
    c.Ingest? &&
    var s := AppendTo(k.log, c.event).1;
    s <= k.version && c.event.id !in k.echoes && s > k.startup
  }

  function Note<S, I(==), P>(k: KernelState<S, I, P>, t: Track<I>, c: Call<I, P>): Track<I> {
    Track(
      if c.Ingest? then t.handed + multiset{c.event.id} else t.handed,
      if EmittedAt(k.log, c) > k.version then t.ahead + {c.event.id} else t.ahead,
      if Late(k, c) then |k.log| else t.rebuilt)
  }

  function Tracked<S, I(==), P>(pr: Projection<S, I, P>, k: KernelState<S, I, P>, calls: seq<Call<I, P>>): Track<I> {
    if calls == [] then Track(multiset{}, {}, 0)
    else
      var n := |calls| - 1;
      Note(Run(pr, k, calls[..n]), Tracked(pr, k, calls[..n]), calls[n])
  }

  /** The run made this event part of the situation. */
  predicate Seen<I(==), P>(log: Log<I, P>, startup: nat, t: Track<I>, s: nat)
    requires 1 <= s <= |log|
  {
    s <= startup || s <= t.rebuilt || At(log, s).id in t.handed || At(log, s).id in t.ahead
  }

  function SeenSet<I(==), P>(log: Log<I, P>, startup: nat, t: Track<I>): set<nat> {
    set s | 1 <= s <= |log| && Seen(log, startup, t, s)
  }

  /** The fold, in sequence order, of exactly the events whose sequence is in `seen`. */
  function FoldSeen<S, I, P>(pr: Projection<S, I, P>, log: Log<I, P>, seen: set<nat>): S {
    if log == [] then pr.empty
    else
      var before := FoldSeen(pr, log[..|log| - 1], seen);
      if |log| in seen then pr.Step(before, log[|log| - 1]) else before
  }

  lemma {:induction false} FoldAgrees<S, I, P>(pr: Projection<S, I, P>, log: Log<I, P>, a: set<nat>, b: set<nat>)
    requires forall s :: 1 <= s <= |log| ==> (s in a <==> s in b)
    ensures FoldSeen(pr, log, a) == FoldSeen(pr, log, b)
  {
    if log != [] {
      FoldAgrees(pr, log[..|log| - 1], a, b);
    }
  }

  lemma {:induction false} FoldAllIsReplay<S, I, P>(pr: Projection<S, I, P>, log: Log<I, P>, seen: set<nat>)
    requires forall s :: 1 <= s <= |log| ==> s in seen
    ensures FoldSeen(pr, log, seen) == Replay(pr, log)
  {
    if log != [] {
      FoldAllIsReplay(pr, log[..|log| - 1], seen);
    }
  }

  lemma {:induction false} FoldIgnoresUnseen<S, I, P>(pr: Projection<S, I, P>, log: Log<I, P>, seen: set<nat>, n: nat)
    requires n <= |log| && forall s :: n < s <= |log| ==> s !in seen
    ensures FoldSeen(pr, log, seen) == FoldSeen(pr, log[..n], seen)
  {
    if n == |log| {
      assert log[..n] == log;
    } else {
      FoldIgnoresUnseen(pr, log[..|log| - 1], seen, n);
      assert log[..|log| - 1][..n] == log[..n];
    }
  }

  /** Applying one event beyond everything seen so far is the fold of the larger set. */
  lemma FoldNext<S, I, P>(pr: Projection<S, I, P>, log: Log<I, P>, seen: set<nat>, s: nat, seen': set<nat>)
    requires 1 <= s <= |log|
    requires forall t :: 1 <= t <= |log| && t in seen ==> t < s
    requires forall t :: 1 <= t <= |log| ==> (t in seen' <==> t in seen || t == s)
    ensures FoldSeen(pr, log, seen') == pr.Step(FoldSeen(pr, log, seen), log[s - 1])
  {
    FoldIgnoresUnseen(pr, log, seen', s);
    FoldIgnoresUnseen(pr, log, seen, s - 1);
    assert log[..s][..s - 1] == log[..s - 1];
    FoldAgrees(pr, log[..s - 1], seen, seen');
  }

  function Count<I, P>(bus: seq<Published<I, P>>, s: nat): nat {
    if bus == [] then 0
    else Count(bus[..|bus| - 1], s) + if bus[|bus| - 1].sequence == s then 1 else 0
  }

  lemma {:induction false} CountAbsent<I, P>(bus: seq<Published<I, P>>, s: nat)
    requires forall p :: p in bus ==> p.sequence != s
    ensures Count(bus, s) == 0
  {
    if bus != [] {
      assert bus[|bus| - 1] in bus;
      CountAbsent(bus[..|bus| - 1], s);
    }
  }

  /** The number of local publications of one stored event. */
  function Publications<I(==)>(startup: nat, t: Track<I>, s: nat, id: I): nat {
    if s <= startup then 0
    else if id in t.ahead && t.handed[id] == 0 then 1
    else t.handed[id]
  }

  function Ids<I(==), P>(log: Log<I, P>): set<I> {
    set s | 1 <= s <= |log| :: At(log, s).id
  }

  ghost predicate EventInv<S, I, P>(k: KernelState<S, I, P>, t: Track<I>, s: nat)
    requires 1 <= s <= |k.log|
  {
    var id := At(k.log, s).id;
    && (Seen(k.log, k.startup, t, s) ==> s <= k.version)
    && (id in k.echoes <==> s > k.startup && id in t.ahead && t.handed[id] == 0)
    && Count(k.bus, s) == Publications(k.startup, t, s, id)
  }

  ghost predicate Shape<S, I, P>(pr: Projection<S, I, P>, k: KernelState<S, I, P>, t: Track<I>) {
    && UniqueIds(k.log) && k.startup <= k.version <= |k.log| && t.rebuilt <= k.version
    && (forall id :: id in t.handed ==> id in Ids(k.log))
    && k.echoes <= t.ahead <= Ids(k.log)
    && (forall p :: p in k.bus ==> k.startup < p.sequence <= |k.log| && p.event == pr.normalize(At(k.log, p.sequence)))
  }

  ghost predicate Inv<S, I, P>(pr: Projection<S, I, P>, k: KernelState<S, I, P>, t: Track<I>) {
    && Shape(pr, k, t)
    && k.situation == FoldSeen(pr, k.log, SeenSet(k.log, k.startup, t))
    && (forall s :: 1 <= s <= |k.log| ==> EventInv(k, t, s))
  }

  /** A kernel that has just started, with replay, on the shared log. */
  ghost predicate Fresh<S, I, P>(pr: Projection<S, I, P>, k: KernelState<S, I, P>) {
    && UniqueIds(k.log) && k.situation == Replay(pr, k.log)
    && k.version == k.startup == |k.log| && k.echoes == {} && k.bus == []
  }

  /** A start with replay, taken as one step, is what every run below begins from. */
  lemma StartingIsFresh<S, I, P>(pr: Projection<S, I, P>, k: KernelState<S, I, P>)
    requires UniqueIds(k.log) && k.echoes == {} && k.bus == []
    ensures Fresh(pr, Starting(pr, k, true))
  {
  }

  lemma FreshInv<S, I, P>(pr: Projection<S, I, P>, k: KernelState<S, I, P>)
    requires Fresh(pr, k)
    ensures Inv(pr, k, Track(multiset{}, {}, 0))
  {
    FoldAllIsReplay(pr, k.log, SeenSet(k.log, k.startup, Track(multiset{}, {}, 0)));
  }

  lemma AppendShape<S, I, P>(pr: Projection<S, I, P>, k: KernelState<S, I, P>, t: Track<I>, e: Event<I, P>)
    requires Shape(pr, k, t) && SequenceOf(k.log, e.id) == 0
    ensures Shape(pr, k.(log := k.log + [e]), t) && e.id !in t.ahead && t.handed[e.id] == 0
  {
    var log := k.log + [e];
    UniqueAppend(k.log, e);
    AbsentIs(k.log, e.id);
    forall id | id in Ids(k.log) ensures id in Ids(log) && id != e.id {
      var x :| 1 <= x <= |k.log| && At(k.log, x).id == id;
      assert At(log, x).id == id;
    }
  }

  lemma AppendEvents<S, I, P>(pr: Projection<S, I, P>, k: KernelState<S, I, P>, t: Track<I>, e: Event<I, P>, x: nat)
    requires Inv(pr, k, t) && e.id !in t.ahead && t.handed[e.id] == 0 && 1 <= x <= |k.log| + 1
    ensures EventInv(k.(log := k.log + [e]), t, x)
  {
    if x <= |k.log| {
      assert EventInv(k, t, x) && At(k.log + [e], x) == At(k.log, x);
    } else {
      CountAbsent(k.bus, x);
    }
  }

  /** A longer log with nothing else changed: what the store append alone does. */
  lemma AppendInv<S, I, P>(pr: Projection<S, I, P>, k: KernelState<S, I, P>, t: Track<I>, e: Event<I, P>)
    requires Inv(pr, k, t)
    ensures var (log, s) := AppendTo(k.log, e);
            Inv(pr, k.(log := log), t) && 1 <= s <= |log| && At(log, s).id == e.id && k.log <= log
  {
    hide EventInv, Count, Publications, Replay;
    if SequenceOf(k.log, e.id) == 0 {
      var log := k.log + [e];
      AppendShape(pr, k, t, e);
      forall x | 1 <= x <= |log| ensures EventInv(k.(log := log), t, x) {
        AppendEvents(pr, k, t, e, x);
      }
      FoldIgnoresUnseen(pr, log, SeenSet(log, k.startup, t), |k.log|);
      FoldAgrees(pr, k.log, SeenSet(k.log, k.startup, t), SeenSet(log, k.startup, t));
    }
  }

  function Noted<S, I(==), P>(k: KernelState<S, I, P>, t: Track<I>, s: nat, distribute: bool): Track<I>
    requires 1 <= s <= |k.log|
  {
    var id := At(k.log, s).id;
    Track(
      if distribute then t.handed else t.handed + multiset{id},
      if distribute && s > k.version then t.ahead + {id} else t.ahead,
      if !distribute && s <= k.version && id !in k.echoes && s > k.startup then |k.log| else t.rebuilt)
  }

  lemma OneId<I, P>(log: Log<I, P>, s: nat, x: nat)
    requires UniqueIds(log) && 1 <= s <= |log| && 1 <= x <= |log| && s != x
    ensures At(log, s).id != At(log, x).id
  {
  }

  lemma DeliverEvents<S, I, P>(pr: Projection<S, I, P>, k: KernelState<S, I, P>, t: Track<I>, s: nat, distribute: bool, x: nat)
    requires Inv(pr, k, t) && 1 <= s <= |k.log| && 1 <= x <= |k.log|
    ensures EventInv(Deliver(pr, k, s, distribute), Noted(k, t, s, distribute), x)
  {
    assert EventInv(k, t, x) && EventInv(k, t, s);
    var k' := Deliver(pr, k, s, distribute);
    if k'.bus != k.bus {
      assert k'.bus[..|k'.bus| - 1] == k.bus;
    }
    if x != s {
      OneId(k.log, s, x);
    }
  }

  lemma DeliverSituation<S, I, P>(pr: Projection<S, I, P>, k: KernelState<S, I, P>, t: Track<I>, s: nat, distribute: bool)
    requires Inv(pr, k, t) && 1 <= s <= |k.log|
    ensures var k', t' := Deliver(pr, k, s, distribute), Noted(k, t, s, distribute);
            k'.situation == FoldSeen(pr, k.log, SeenSet(k.log, k.startup, t'))
  {
    var t' := Noted(k, t, s, distribute);
    var seen, seen' := SeenSet(k.log, k.startup, t), SeenSet(k.log, k.startup, t');
    assert EventInv(k, t, s);
    forall x | 1 <= x <= |k.log| && x != s && t'.rebuilt == t.rebuilt ensures x in seen <==> x in seen' {
      OneId(k.log, s, x);
    }
    if s > k.version {
      forall x | 1 <= x <= |k.log| && x in seen ensures x < s {
        assert EventInv(k, t, x);
      }
      FoldNext(pr, k.log, seen, s, seen');
    } else if t'.rebuilt != t.rebuilt || Deliver(pr, k, s, distribute).bus != k.bus {
      FoldAllIsReplay(pr, k.log, seen');
    } else {
      FoldAgrees(pr, k.log, seen, seen');
    }
  }

  lemma DeliverShape<S, I, P>(pr: Projection<S, I, P>, k: KernelState<S, I, P>, t: Track<I>, s: nat, distribute: bool)
    requires Shape(pr, k, t) && 1 <= s <= |k.log|
    ensures Shape(pr, Deliver(pr, k, s, distribute), Noted(k, t, s, distribute))
  {
    var id, t' := At(k.log, s).id, Noted(k, t, s, distribute);
    assert id in Ids(k.log);
    assert forall x :: x in t'.handed ==> x in t.handed || x == id;
    assert forall x :: x in t'.ahead ==> x in t.ahead || x == id;
  }

  lemma DeliverInv<S, I, P>(pr: Projection<S, I, P>, k: KernelState<S, I, P>, t: Track<I>, s: nat, distribute: bool)
    requires Inv(pr, k, t) && 1 <= s <= |k.log|
    ensures Inv(pr, Deliver(pr, k, s, distribute), Noted(k, t, s, distribute))
  {
    DeliverShape(pr, k, t, s, distribute);
    DeliverSituation(pr, k, t, s, distribute);
    forall x | 1 <= x <= |k.log| ensures EventInv(Deliver(pr, k, s, distribute), Noted(k, t, s, distribute), x) {
      DeliverEvents(pr, k, t, s, distribute, x);
    }
  }

  predicate Reaches<S, I(==), P>(k: KernelState<S, I, P>, c: Call<I, P>) {
    !c.Foreign? && (c.EmitIfHead? ==> AppendAtHead(k.log, c.event, c.expected).1.Stored?)
  }

  /** Every call is a store append, followed by the delivery of the stored event when the
      call is a local one that was not refused. */
  lemma ExecuteIsDeliver<S, I, P>(pr: Projection<S, I, P>, k: KernelState<S, I, P>, t: Track<I>, c: Call<I, P>)
    requires UniqueIds(k.log) && k.version <= |k.log|
    ensures var (log, s) := AppendTo(k.log, c.event);
            var appended := k.(log := log);
            && 1 <= s <= |log| && At(log, s).id == c.event.id
            && (Reaches(k, c) ==>
                  && Execute(pr, k, c) == Deliver(pr, appended, s, !c.Ingest?)
                  && Note(k, t, c) == Noted(appended, t, s, !c.Ingest?))
            && (!Reaches(k, c) ==>
                  && Note(k, t, c) == t
                  && Execute(pr, k, c) == if c.Foreign? then appended else k)
  {
    AppendKeeps(k.log, c.event);
  }

  lemma ExecuteInv<S, I, P>(pr: Projection<S, I, P>, k: KernelState<S, I, P>, t: Track<I>, c: Call<I, P>)
    requires Inv(pr, k, t)
    ensures Inv(pr, Execute(pr, k, c), Note(k, t, c))
    ensures k.log <= Execute(pr, k, c).log && Execute(pr, k, c).startup == k.startup
  {
    var (log, s) := AppendTo(k.log, c.event);
    AppendInv(pr, k, t, c.event);
    ExecuteIsDeliver(pr, k, t, c);
    if Reaches(k, c) {
      DeliverInv(pr, k.(log := log), t, s, !c.Ingest?);
    }
  }

  lemma {:induction false} RunInv<S, I, P>(pr: Projection<S, I, P>, k: KernelState<S, I, P>, calls: seq<Call<I, P>>)
    requires Fresh(pr, k)
    ensures Inv(pr, Run(pr, k, calls), Tracked(pr, k, calls))
    ensures k.log <= Run(pr, k, calls).log && Run(pr, k, calls).startup == k.startup
  {
    if calls == [] {
      FreshInv(pr, k);
    } else {
      var n := |calls| - 1;
      RunInv(pr, k, calls[..n]);
      ExecuteInv(pr, Run(pr, k, calls[..n]), Tracked(pr, k, calls[..n]), calls[n]);
    }
  }

  // ---------------------------------------------------------------- what runs guarantee

  /** At every moment of every run the situation is the sequence-ordered fold of exactly
      the events the run has made it see. */
  lemma SituationIsFoldOfSeen<S, I, P>(pr: Projection<S, I, P>, k: KernelState<S, I, P>, calls: seq<Call<I, P>>)
    requires Fresh(pr, k)
    ensures var after := Run(pr, k, calls);
            && UniqueIds(after.log)
            && after.situation == FoldSeen(pr, after.log, SeenSet(after.log, k.startup, Tracked(pr, k, calls)))
            && after.version <= |after.log|
            && forall s :: 1 <= s <= |after.log| && Seen(after.log, k.startup, Tracked(pr, k, calls), s) ==> s <= after.version
  {
    RunInv(pr, k, calls);
    var after := Run(pr, k, calls);
    forall s | 1 <= s <= |after.log| && Seen(after.log, k.startup, Tracked(pr, k, calls), s) ensures s <= after.version {
      assert EventInv(after, Tracked(pr, k, calls), s);
    }
  }

  /** The event reached this kernel: handed over by the broker, or emitted here while ahead
      of the situation, as a first append always is. */
  ghost predicate Arrived<S, I, P>(pr: Projection<S, I, P>, k: KernelState<S, I, P>, calls: seq<Call<I, P>>, id: I) {
    exists i :: 0 <= i < |calls| && ArrivedAt(pr, k, calls, i, id)
  }

  predicate ArrivedAt<S, I(==), P>(pr: Projection<S, I, P>, k: KernelState<S, I, P>, calls: seq<Call<I, P>>, i: nat, id: I)
    requires i < |calls|
  {
    var before := Run(pr, k, calls[..i]);
    calls[i].event.id == id && (calls[i].Ingest? || EmittedAt(before.log, calls[i]) > before.version)
  }

  lemma FirstAppendIsAhead<S, I, P>(pr: Projection<S, I, P>, k: KernelState<S, I, P>, calls: seq<Call<I, P>>, i: nat)
    requires Fresh(pr, k) && i < |calls|
    requires SequenceOf(Run(pr, k, calls[..i]).log, calls[i].event.id) == 0
    requires EmittedAt(Run(pr, k, calls[..i]).log, calls[i]) != 0
    ensures Arrived(pr, k, calls, calls[i].event.id)
  {
    RunInv(pr, k, calls[..i]);
    assert ArrivedAt(pr, k, calls, i, calls[i].event.id);
  }

  lemma ArrivedEarlier<S, I, P>(pr: Projection<S, I, P>, k: KernelState<S, I, P>, calls: seq<Call<I, P>>, id: I, i: nat, n: nat)
    requires i < n <= |calls|
    ensures ArrivedAt(pr, k, calls, i, id) <==> ArrivedAt(pr, k, calls[..n], i, id)
  {
    assert calls[..n][..i] == calls[..i];
  }

  lemma ArrivedLast<S, I, P>(pr: Projection<S, I, P>, k: KernelState<S, I, P>, calls: seq<Call<I, P>>, id: I, n: nat)
    requires n + 1 == |calls|
    ensures Arrived(pr, k, calls, id) <==> Arrived(pr, k, calls[..n], id) || ArrivedAt(pr, k, calls, n, id)
  {
    if Arrived(pr, k, calls, id) && !ArrivedAt(pr, k, calls, n, id) {
      var i :| 0 <= i < |calls| && ArrivedAt(pr, k, calls, i, id);
      ArrivedEarlier(pr, k, calls, id, i, n);
    }
    if Arrived(pr, k, calls[..n], id) {
      var i :| 0 <= i < n && ArrivedAt(pr, k, calls[..n], i, id);
      ArrivedEarlier(pr, k, calls, id, i, n);
    }
  }

  lemma {:induction false} ArrivedIsTracked<S, I, P>(pr: Projection<S, I, P>, k: KernelState<S, I, P>, calls: seq<Call<I, P>>, id: I)
    ensures Arrived(pr, k, calls, id) <==> id in Tracked(pr, k, calls).handed || id in Tracked(pr, k, calls).ahead
  {
    if calls != [] {
      var n := |calls| - 1;
      ArrivedIsTracked(pr, k, calls[..n], id);
      ArrivedLast(pr, k, calls, id, n);
    }
  }

  /** Confluence: in any arrival order, with any local emits, re-emits, refusals and foreign
      appends in between, once every post-startup event has arrived the situation is the
      replay of the whole log. */
  lemma Confluence<S, I, P>(pr: Projection<S, I, P>, k: KernelState<S, I, P>, calls: seq<Call<I, P>>)
    requires Fresh(pr, k)
    requires forall s :: k.startup < s <= |Run(pr, k, calls).log| ==> Arrived(pr, k, calls, At(Run(pr, k, calls).log, s).id)
    ensures Run(pr, k, calls).situation == Replay(pr, Run(pr, k, calls).log)
  {
    RunInv(pr, k, calls);
    var after, t := Run(pr, k, calls), Tracked(pr, k, calls);
    forall s | 1 <= s <= |after.log| ensures s in SeenSet(after.log, k.startup, t) {
      if s > k.startup {
        ArrivedIsTracked(pr, k, calls, At(after.log, s).id);
      }
    }
    FoldAllIsReplay(pr, after.log, SeenSet(after.log, k.startup, t));
  }

  /** How often each stored event is published locally: never for history that was there at
      startup, otherwise once per hand-over, or once when it was only emitted ahead. */
  lemma PublicationCount<S, I, P>(pr: Projection<S, I, P>, k: KernelState<S, I, P>, calls: seq<Call<I, P>>, s: nat)
    requires Fresh(pr, k) && 1 <= s <= |Run(pr, k, calls).log|
    ensures var after, t := Run(pr, k, calls), Tracked(pr, k, calls);
            var id := At(after.log, s).id;
            && Count(after.bus, s) == Publications(k.startup, t, s, id)
            && (forall p :: p in after.bus && p.sequence == s ==> p.event == pr.normalize(At(after.log, s)))
  {
    RunInv(pr, k, calls);
    assert EventInv(Run(pr, k, calls), Tracked(pr, k, calls), s);
  }

  /** Exactly-once publication, for each event the broker hands over at most once: emitted
      here, echoed back, delivered late after a rebuild or re-emitted by id, an event that
      has arrived was published once, and one that has not arrived was not published. */
  lemma ExactlyOncePublication<S, I, P>(pr: Projection<S, I, P>, k: KernelState<S, I, P>, calls: seq<Call<I, P>>, s: nat)
    requires Fresh(pr, k) && k.startup < s <= |Run(pr, k, calls).log|
    requires Tracked(pr, k, calls).handed[At(Run(pr, k, calls).log, s).id] <= 1
    ensures Count(Run(pr, k, calls).bus, s) ==
            if Arrived(pr, k, calls, At(Run(pr, k, calls).log, s).id) then 1 else 0
  {
    PublicationCount(pr, k, calls, s);
    ArrivedIsTracked(pr, k, calls, At(Run(pr, k, calls).log, s).id);
  }

  // ---------------------------------------------------------------- where emitting is not enough

  /** The projection that remembers every event applied to it. */
  function Journal<I, P>(): Projection<Log<I, P>, I, P> {
    Projection([], e => e, (s, e) => s + [e])
  }

  lemma {:induction false} JournalReplay<I, P>(log: Log<I, P>)
    ensures Replay(Journal(), log) == log
  {
    if log != [] {
      JournalReplay(log[..|log| - 1]);
    }
  }

  lemma {:induction false} JournalLength<I, P>(log: Log<I, P>, seen: set<nat>)
    ensures |FoldSeen(Journal(), log, seen)| <= |log|
    ensures |FoldSeen(Journal(), log, seen)| == |log| ==> forall s :: 1 <= s <= |log| ==> s in seen
  {
    if log != [] {
      JournalLength(log[..|log| - 1], seen);
    }
  }

  /** Exactly when a run has converged: every event was in the log at startup, arrived, or
      was below the head when a late arrival forced a rebuild. */
  lemma ConvergedExactlyWhenAllSeen<I, P>(k: KernelState<Log<I, P>, I, P>, calls: seq<Call<I, P>>)
    requires Fresh(Journal(), k)
    ensures var after, t := Run(Journal(), k, calls), Tracked(Journal(), k, calls);
            after.situation == Replay(Journal(), after.log) <==>
            forall s :: 1 <= s <= |after.log| ==>
              s <= k.startup || s <= t.rebuilt || Arrived(Journal(), k, calls, At(after.log, s).id)
  {
    RunInv(Journal(), k, calls);
    var after, t := Run(Journal(), k, calls), Tracked(Journal(), k, calls);
    var seen := SeenSet(after.log, k.startup, t);
    JournalLength(after.log, seen);
    JournalReplay(after.log);
    forall s | 1 <= s <= |after.log|
      ensures s in seen <==> s <= k.startup || s <= t.rebuilt || Arrived(Journal(), k, calls, At(after.log, s).id)
    {
      ArrivedIsTracked(Journal(), k, calls, At(after.log, s).id);
    }
    if forall s :: 1 <= s <= |after.log| ==> s in seen {
      FoldAllIsReplay(Journal(), after.log, seen);
    }
  }

  /** Emitting every event here is not enough: re-emitting by id a foreign event that the
      situation has already passed neither applies nor publishes it. */
  lemma ReEmittingDoesNotRepair(a: Event<nat, nat>, b: Event<nat, nat>)
    requires a.id != b.id
    ensures var k: KernelState<Log<nat, nat>, nat, nat> := KernelState([], [], 0, 0, {}, []);
            var after := Run(Journal(), k, [Foreign(a), Emit(b), Emit(a)]);
            && Fresh(Journal(), k)
            && after.log == [a, b] && after.situation == [b] != Replay(Journal(), after.log)
            && after.bus == [Published(2, b)]
  {
    var pr := Journal<nat, nat>();
    var k: KernelState<Log<nat, nat>, nat, nat> := KernelState([], [], 0, 0, {}, []);
    var k1: KernelState<Log<nat, nat>, nat, nat> := k.(log := [a]);
    var k2: KernelState<Log<nat, nat>, nat, nat> := KernelState([a, b], [b], 2, 0, {b.id}, [Published(2, b)]);
    assert Execute(pr, k1, Emit(b)) == k2 by {
      AbsentIs([a], b.id);
      assert [a] + [b] == [a, b] && [] + [b] == [b];
    }
    assert Execute(pr, k2, Emit(a)) == k2 by {
      SequenceOfIs([a, b], 1);
    }
    RunSnoc(pr, k, [], Foreign(a));
    RunSnoc(pr, k, [Foreign(a)], Emit(b));
    RunSnoc(pr, k, [Foreign(a), Emit(b)], Emit(a));
    assert [] + [Foreign(a)] == [Foreign(a)] && [Foreign(a)] + [Emit(b)] == [Foreign(a), Emit(b)];
    assert [Foreign(a), Emit(b)] + [Emit(a)] == [Foreign(a), Emit(b), Emit(a)];
    JournalReplay([a, b]);
  }

  // ---------------------------------------------------------------- what a caller is told

  ghost predicate Unknown<I, P>(log: Log<I, P>, id: I) {
    forall s :: 1 <= s <= |log| ==> At(log, s).id != id
  }

  lemma DeliverKeepsLog<S, I, P>(pr: Projection<S, I, P>, k: KernelState<S, I, P>, s: nat, distribute: bool)
    requires 1 <= s <= |k.log|
    ensures Deliver(pr, k, s, distribute).log == k.log
  {
  }

  /** A commit reports the position of its event: behind the log when the id is new, and
      otherwise where the event of this id has been all along. A head that is not the one
      expected is reported with both heads, for a new id only, and then nothing happens. */
  lemma OutcomeIsExact<S, I, P>(pr: Projection<S, I, P>, k: KernelState<S, I, P>, c: Call<I, P>)
    ensures var r, after := Outcome(k.log, c), Execute(pr, k, c);
            && (r == InvalidHead <==> c.EmitIfHead? && c.expected < 0)
            && (r.Refused? <==> c.EmitIfHead? && c.expected >= 0 && c.expected != |k.log| && Unknown(k.log, c.event.id))
            && (r.Refused? ==> r.expected == c.expected && r.actual == |k.log|)
            && (r.Refused? || r == InvalidHead ==> after == k)
            && (r.Committed? && Unknown(k.log, c.event.id) ==> after.log == k.log + [c.event] && r.sequence == |k.log| + 1)
            && (r.Committed? && !Unknown(k.log, c.event.id) ==>
                  after.log == k.log && 1 <= r.sequence <= |k.log| && At(k.log, r.sequence).id == c.event.id)
            && r != Stopped
  {
    AbsentIs(k.log, c.event.id);
    assert forall i :: 0 <= i < |k.log| ==> k.log[i] == At(k.log, i + 1);
    var (log, s) := AppendTo(k.log, c.event);
    DeliverKeepsLog(pr, k.(log := log), s, true);
    DeliverKeepsLog(pr, k.(log := log), s, false);
    hide Deliver;
  }

  /** What was reported stays true: at the end of every run, each call that was committed in it
      finds the event of its id where it was told. */
  lemma ReportedPlaceStands<S, I, P>(pr: Projection<S, I, P>, k: KernelState<S, I, P>, calls: seq<Call<I, P>>, n: nat)
    requires Fresh(pr, k) && n < |calls| && Outcome(Run(pr, k, calls[..n]).log, calls[n]).Committed?
    ensures var s, log := Outcome(Run(pr, k, calls[..n]).log, calls[n]).sequence, Run(pr, k, calls).log;
            1 <= s <= |log| && At(log, s).id == calls[n].event.id
  {
    hide Run, Outcome, Execute, Inv;
    assert calls[..n + 1] == calls[..n] + [calls[n]];
    RunSnoc(pr, k, calls[..n], calls[n]);
    OutcomeIsExact(pr, Run(pr, k, calls[..n]), calls[n]);
    RunGrows(pr, k, calls, n + 1);
    var before, after := Run(pr, k, calls[..n + 1]).log, Run(pr, k, calls).log;
    var s := Outcome(Run(pr, k, calls[..n]).log, calls[n]).sequence;
    assert At(after, s) == At(before, s);
  }

  lemma {:induction false} RunGrows<S, I, P>(pr: Projection<S, I, P>, k: KernelState<S, I, P>, calls: seq<Call<I, P>>, n: nat)
    requires Fresh(pr, k) && n <= |calls|
    ensures Run(pr, k, calls[..n]).log <= Run(pr, k, calls).log
  {
    hide Inv, Execute;
    if n == |calls| {
      assert calls[..n] == calls;
    } else {
      var m := |calls| - 1;
      RunGrows(pr, k, calls[..m], n);
      assert calls[..m][..n] == calls[..n];
      RunInv(pr, k, calls[..m]);
      ExecuteInv(pr, Run(pr, k, calls[..m]), Tracked(pr, k, calls[..m]), calls[m]);
    }
  }

  // ---------------------------------------------------------------- the objects

  class SituationModel<S, I, P> {
    const projection: Projection<S, I, P>
    var state: S
    var version: nat

    constructor (projection: Projection<S, I, P>)
      ensures this.projection == projection && state == projection.empty && version == 0
    {
      this.projection := projection;
      state, version := projection.empty, 0;
    }

    method Apply(e: Event<I, P>, sequence: nat)
      modifies this
      ensures state == projection.apply(old(state), e) && version == sequence
    {
      state := projection.apply(state, e);
      version := sequence;
    }

    method Rebuild(history: Log<I, P>)
      modifies this
      ensures state == Replay(projection, history) && version == |history|
    {
      state, version := projection.empty, 0;
      for i := 0 to |history|
        invariant state == Replay(projection, history[..i]) && version == i
      {
        assert history[..i + 1][..i] == history[..i];
        Apply(projection.normalize(history[i]), i + 1);
      }
      assert history[..|history|] == history;
    }
  }

  class NoemaKernel<S, I(==), P> {
    const store: InMemoryEventStore<I, P>
    const situation: SituationModel<S, I, P>
    var startupSequence: nat
    var pendingBrokerEchoes: set<I>
    var bus: seq<Published<I, P>>
    var started: bool
    var stopped: bool

    constructor (store: InMemoryEventStore<I, P>, situation: SituationModel<S, I, P>)
      ensures this.store == store && this.situation == situation
      ensures !started && !stopped && startupSequence == 0 && pendingBrokerEchoes == {} && bus == []
    {
      this.store, this.situation := store, situation;
      startupSequence, pendingBrokerEchoes, bus, started, stopped := 0, {}, [], false, false;
    }

    ghost predicate Valid()
      reads this, store
    {
      store.Valid() && !(started && stopped)
    }

    function View(): KernelState<S, I, P>
      reads this, store, situation
    {
      KernelState(store.events, situation.state, situation.version, startupSequence, pendingBrokerEchoes, bus)
    }

    method RebuildSituation()
      requires Valid()
      modifies situation
      ensures Valid() && View() == Rebuilt(situation.projection, old(View()))
    {
      var history := store.Read(0);
      situation.Rebuild(history);
    }

    method Start(replay: bool) returns (ok: bool)
      requires Valid()
      modifies this, situation
      ensures Valid() && ok == !old(stopped) && stopped == old(stopped) && started == (ok || old(started))
      ensures View() == if ok && !old(started) then Starting(situation.projection, old(View()), replay) else old(View())
    {
      if stopped {
        return false;
      }
      if started {
        return true;
      }
      if replay {
        RebuildSituation();
      }
      startupSequence := store.LatestSequence();
      started := true;
      ok := true;
    }

    method Stop()
      requires Valid()
      modifies this
      ensures Valid() && stopped && !started && View() == old(View())
    {
      if !stopped {
        stopped, started := true, false;
      }
    }

    method PublishStored(sequence: nat)
      requires Valid() && 1 <= sequence <= |store.events|
      modifies this`bus
      ensures View() == Publish(situation.projection, old(View()), sequence)
    {
      bus := bus + [Published(sequence, situation.projection.normalize(store.events[sequence - 1]))];
    }

    /** The branches behind the store append. */
    method DeliverStored(sequence: nat, distribute: bool)
      requires Valid() && 1 <= sequence <= |store.events|
      modifies this`bus, this`pendingBrokerEchoes, situation
      ensures Valid() && View() == Deliver(situation.projection, old(View()), sequence, distribute)
    {
      var stored := store.events[sequence - 1];
      if sequence <= situation.version {
        if distribute {
          return;
        }
        if stored.id in pendingBrokerEchoes {
          pendingBrokerEchoes := pendingBrokerEchoes - {stored.id};
          return;
        }
        if sequence <= startupSequence {
          return;
        }
        RebuildSituation();
        PublishStored(sequence);
        return;
      }
      situation.Apply(situation.projection.normalize(stored), sequence);
      PublishStored(sequence);
      if distribute {
        pendingBrokerEchoes := pendingBrokerEchoes + {stored.id};
      }
    }

    /** One commit under the emit lock; a kernel that was never started starts first, with replay. */
    method Commit(c: Call<I, P>) returns (r: CommitResult)
      requires Valid() && !c.Foreign?
      modifies this, store, situation
      ensures Valid() && stopped == old(stopped)
      ensures old(stopped) ==> r == Stopped && View() == old(View())
      ensures !old(stopped) ==>
                var ready := if old(started) then old(View()) else Starting(situation.projection, old(View()), true);
                started && View() == Execute(situation.projection, ready, c) && r == Outcome(ready.log, c)
    {
      var ok := Start(true);
      if !ok {
        return Stopped;
      }
      if c.EmitIfHead? {
        r := CommitAtHead(c.event, c.expected);
      } else {
        var s := CommitAnywhere(c.event, c.Emit?);
        r := Committed(s);
      }
    }

    method CommitAnywhere(e: Event<I, P>, distribute: bool) returns (sequence: nat)
      requires Valid()
      modifies this`bus, this`pendingBrokerEchoes, store, situation
      ensures Valid() && sequence == AppendTo(old(store.events), e).1
      ensures View() == Execute(situation.projection, old(View()), if distribute then Emit(e) else Ingest(e))
    {
      AppendKeeps(store.events, e);
      sequence := store.Append(e);
      DeliverStored(sequence, distribute);
    }

    method CommitAtHead(e: Event<I, P>, expected: int) returns (r: CommitResult)
      requires Valid()
      modifies this`bus, this`pendingBrokerEchoes, store, situation
      ensures Valid() && r == Outcome(old(store.events), EmitIfHead(e, expected))
      ensures View() == Execute(situation.projection, old(View()), EmitIfHead(e, expected))
    {
      AppendKeeps(store.events, e);
      var stored := store.AppendIfHead(e, expected);
      match stored {
        case Stored(s) =>
          DeliverStored(s, true);
          r := Committed(s);
        case HeadMoved(x, a) => r := Refused(x, a);
        case NegativeHead => r := InvalidHead;
      }
    }
  }
}
