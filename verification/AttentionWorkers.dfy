/** The attention recorders and workers: optimistic appends against exact canonical heads, and
    checkpoints that advance only behind durable dispositions. */
module AttentionWorkers {
  import opened Basics
  import opened EventLog
  import opened GuardedLog
  import opened Attention
  import opened AttentionRecords
  import opened Checkpoints

  /** The consumer id this denominator is tracked under, used for one policy. */
  datatype Contract = Contract(env: Env, consumer: string, policy: Policy)

  /** Every opportunity of the policy up to sequence c has a durable disposition. */
  predicate Decided(v: View, policy: Policy, c: nat) {
    forall k :: k in v.recognized && k.policy == policy && v.recognized[k].sequence <= c ==> k in v.dispositions
  }

  /** A worker advances its checkpoint strictly, from exactly the head it observed, over
      opportunities that have all been decided. */
  predicate Advances(c: Contract, v: View, prefix: History, next: Checkpoint) {
    && next.observed == |prefix|
    && (Latest(prefix, c.consumer).Some? ==> Latest(prefix, c.consumer).value.completed < next.completed)
    && Decided(v, c.policy, next.completed)
  }

  /** Which events may follow a history: those its replay accepts, among them checkpoints that
      do not regress; the watched consumer's checkpoints are written only as workers do. */
  predicate MayFollow(c: Contract, prefix: History, e: AttentionEvent) {
    && Replayable(c.env, prefix)
    && Accepts(c.env, Replay(c.env, prefix).value, e)
    && CheckpointAccepted(Latest(prefix, ConsumerOf(e)), e)
    && (e.body.CheckpointAdvanced? && e.body.checkpoint.consumer == c.consumer ==>
          Advances(c, Replay(c.env, prefix).value, prefix, e.body.checkpoint))
  }

  function RuleOf(c: Contract): GuardedLog.Rule<Id, Body> {
    (prefix, e) => MayFollow(c, prefix, e)
  }

  // ---------------------------------------------------------------- what admitted logs are

  /** Replay never raises: neither the attention projection nor any consumer's checkpoints. */
  lemma {:induction false} AdmittedReplays(c: Contract, log: History)
    requires Admitted(RuleOf(c), log)
    ensures Replayable(c.env, log) && RestoreAll(log).Some?
  {
    if log != [] {
      hide *;
      var n := |log| - 1;
      PrefixAdmitted(RuleOf(c), log, n);
      AdmittedReplays(c, log[..n]);
      AdmittedAt(c, log, n);
      AdmittedReplaysOneMore(c, log, n);
    }
  }

  lemma AdmittedReplaysOneMore(c: Contract, log: History, n: nat)
    requires |log| == n + 1 && Replayable(c.env, log[..n]) && RestoreAll(log[..n]).Some? && MayFollow(c, log[..n], log[n])
    ensures Replayable(c.env, log) && RestoreAll(log).Some?
  {
    hide Replay, RestoreAll, Accepts, Latest, Advances, CheckpointAccepted;
    assert log == log[..n] + [log[n]];
    RestoreSnoc(log[..n], log[n]);
    ReplaySnoc(c.env, log[..n], log[n]);
  }

  /** What one more accepted event leaves in place. */
  lemma DecidedSnoc(c: Contract, log: History, e: AttentionEvent, watermark: nat)
    requires Replayable(c.env, log + [e]) && Replayable(c.env, log) && watermark <= |log|
    requires Decided(Replay(c.env, log).value, c.policy, watermark)
    ensures Decided(Replay(c.env, log + [e]).value, c.policy, watermark)
  {
    hide Replay, Accepts, Shows, Advance, Decided;
    ReplaySnoc(c.env, log, e);
    ReplayShows(c.env, log);
    DecidedAdvance(c, Replay(c.env, log).value, e, watermark);
  }

  lemma DecidedAdvance(c: Contract, v: View, e: AttentionEvent, watermark: nat)
    requires Accepts(c.env, v, e) && watermark <= |v.log| && Decided(v, c.policy, watermark)
    ensures Decided(Advance(c.env, v, e), c.policy, watermark)
  {
    hide SequenceOf, BodyAccepted, Shows, Hit;
    var w := Advance(c.env, v, e);
    forall k | k in w.recognized && k.policy == c.policy && w.recognized[k].sequence <= watermark ensures k in w.dispositions {
      assert k in v.recognized && v.recognized[k] == w.recognized[k];
    }
  }

  /** A decided stretch stays decided: records persist, and a policy recorded later recognizes
      nothing before itself. */
  lemma {:induction false} DecidedPersists(c: Contract, log: History, more: History, watermark: nat)
    requires Replayable(c.env, log + more) && Replayable(c.env, log) && watermark <= |log|
    requires Decided(Replay(c.env, log).value, c.policy, watermark)
    ensures Decided(Replay(c.env, log + more).value, c.policy, watermark)
  {
    hide *;
    if more == [] {
      assert log + more == log;
      return;
    }
    var n := |more| - 1;
    assert (log + more)[..|log| + n] == log + more[..n];
    PrefixReplayable(c.env, log + more, |log| + n);
    DecidedPersists(c, log, more[..n], watermark);
    assert log + more == log + more[..n] + [more[n]];
    DecidedSnoc(c, log + more[..n], more[n], watermark);
  }

  /** A checkpoint of the watched consumer, where it stands. */
  ghost predicate CheckpointAt(c: Contract, log: History, s: nat) {
    1 <= s <= |log| && At(log, s).body.CheckpointAdvanced? && At(log, s).body.checkpoint.consumer == c.consumer
  }

  lemma CheckpointWasAdmitted(c: Contract, log: History, s: nat)
    requires Admitted(RuleOf(c), log) && CheckpointAt(c, log, s)
    ensures Replayable(c.env, log[..s - 1])
    ensures Advances(c, Replay(c.env, log[..s - 1]).value, log[..s - 1], At(log, s).body.checkpoint)
    ensures At(log, s).body.checkpoint.completed <= s - 1
  {
    hide Accepts, Decided, Replay, Latest;
    assert RuleOf(c)(log[..s - 1], log[s - 1]);
  }

  /** Complete denominator: behind a checkpoint at completed, every event up to completed that
      the policy recognizes has a disposition, recorded before the checkpoint itself. */
  lemma CheckpointsCoverTheDenominator(c: Contract, log: History, s: nat, a: nat, q: nat) returns (d: nat)
    requires Admitted(RuleOf(c), log) && CheckpointAt(c, log, s)
    requires RecognizedBy(log, c.policy, a, q) && q <= At(log, s).body.checkpoint.completed
    ensures q < d < s && At(log, d).body.DispositionRecorded?
    ensures At(log, d).body.record.key == Key(At(log, q).id, c.policy, c.policy.schema)
  {
    CheckpointWasAdmitted(c, log, s);
    var before := log[..s - 1];
    hide Admitted, Replay, Accepts, Recognizes;
    assert At(before, a) == At(log, a) && At(before, q) == At(log, q);
    assert RecognizedBy(before, c.policy, a, q);
    d := DecidedHasRecord(c, before, a, q, At(log, s).body.checkpoint.completed);
    assert At(before, d) == At(log, d);
  }

  lemma DecidedHasRecord(c: Contract, log: History, a: nat, q: nat, watermark: nat) returns (d: nat)
    requires Replayable(c.env, log) && Decided(Replay(c.env, log).value, c.policy, watermark)
    requires RecognizedBy(log, c.policy, a, q) && q <= watermark
    ensures q < d <= |log| && At(log, d).body.DispositionRecorded?
    ensures At(log, d).body.record.key == Key(At(log, q).id, c.policy, c.policy.schema)
  {
    hide Accepts, Recognizes, Replay;
    var v, k := Replay(c.env, log).value, Key(At(log, q).id, c.policy, c.policy.schema);
    ReplayShows(c.env, log);
    assert k in v.recognized by { RecognizedExactly(c.env, log, k); }
    AtItsSequence(v, k, q);
    d := v.dispositions[k].sequence;
    assert ReadDisposition(At(log, d)) == Some((k, v.dispositions[k].record));
    RecordBehindSource(c, log, d, q);
  }

  lemma RecordBehindSource(c: Contract, log: History, d: nat, q: nat)
    requires Replayable(c.env, log) && 1 <= d <= |log| && At(log, d).body.DispositionRecorded?
    requires 1 <= q <= |log| && At(log, q).id == At(log, d).body.record.key.source
    ensures q < d
  {
    hide Replay, Recognizes, RecognizedBy;
    DispositionsAreExact(c.env, log, d);
    ReplayShows(c.env, log);
    OnePosition(log, q, At(log, d).body.record.sourceSequence);
  }

  /** Any number of recorders and workers, crashing anywhere and interleaved with any admitted
      foreign appends: history stays replayable, and every checkpoint covers its denominator. */
  lemma EveryInterleavingKeepsTheDenominator(c: Contract, start: System<Id, Body>, steps: seq<Step<Id, Body>>, s: nat, a: nat, q: nat)
    requires GuardedLog.Inv(RuleOf(c), start)
    ensures var log := GuardedLog.Run(RuleOf(c), start, steps).log;
            && Replayable(c.env, log) && RestoreAll(log).Some?
            && (CheckpointAt(c, log, s) && RecognizedBy(log, c.policy, a, q) && q <= At(log, s).body.checkpoint.completed ==>
                  exists d :: q < d < s && At(log, d).body.DispositionRecorded?
                              && At(log, d).body.record.key == Key(At(log, q).id, c.policy, c.policy.schema))
  {
    hide Replay, RestoreAll, MayFollow, RecognizedBy;
    DecisionsHoldWhereTheyLand(RuleOf(c), start, steps);
    var log := GuardedLog.Run(RuleOf(c), start, steps).log;
    AdmittedReplays(c, log);
    if CheckpointAt(c, log, s) && RecognizedBy(log, c.policy, a, q) && q <= At(log, s).body.checkpoint.completed {
      var d := CheckpointsCoverTheDenominator(c, log, s, a, q);
    }
  }

  lemma AtItsSequence(v: View, k: Key, q: nat)
    requires Shows(v) && k in v.recognized && 1 <= q <= |v.log| && At(v.log, q).id == k.source
    ensures v.recognized[k].sequence == q
  {
    assert Locates(v.log, k, v.recognized[k]);
    OnePosition(v.log, q, v.recognized[k].sequence);
  }

  lemma {:induction false} LatestCovers(log: History, consumer: string, s: nat)
    requires 1 <= s <= |log| && At(log, s).body.CheckpointAdvanced? && At(log, s).body.checkpoint.consumer == consumer
    ensures Latest(log, consumer).Some?
  {
    if s < |log| {
      LatestCovers(log[..|log| - 1], consumer, s);
    }
  }

  /** Checkpoints of the watched consumer strictly increase, each from exactly the head before
      it: with any number of workers sharing the consumer id, a replay of them never raises. */
  lemma {:induction false} CheckpointsStrictlyIncrease(c: Contract, log: History, s: nat, t: nat)
    requires Admitted(RuleOf(c), log) && CheckpointAt(c, log, s) && CheckpointAt(c, log, t) && s < t
    ensures At(log, s).body.checkpoint.completed < At(log, t).body.checkpoint.completed
    ensures At(log, t).body.checkpoint.observed == t - 1
    decreases t
  {
    hide Admitted, Replay, Decided, MayFollow;
    CheckpointWasAdmitted(c, log, t);
    var before := log[..t - 1];
    assert At(before, s) == At(log, s);
    LatestCovers(before, c.consumer, s);
    var u := LatestStands(before, c.consumer);
    assert At(before, u) == At(log, u);
    if u > s {
      CheckpointsStrictlyIncrease(c, log, s, u);
    }
  }

  /** A latest checkpoint is only ever replaced by a higher one. */
  lemma {:induction false} LatestNeverFalls(c: Contract, log: History, later: History)
    requires log <= later && Admitted(RuleOf(c), later) && Latest(log, c.consumer).Some?
    ensures Latest(later, c.consumer).Some?
    ensures Latest(log, c.consumer).value.completed <= Latest(later, c.consumer).value.completed
  {
    hide *;
    if |later| == |log| {
      assert log == later;
    } else {
      var n := |later| - 1;
      assert later == later[..n] + [later[n]];
      PrefixAdmitted(RuleOf(c), later, n);
      LatestNeverFalls(c, log, later[..n]);
      AdmittedAt(c, later, n);
      FollowsLatest(c, later[..n], later[n]);
      LatestSnoc(later[..n], later[n], c.consumer);
    }
  }

  lemma AdmittedAt(c: Contract, log: History, i: nat)
    requires Admitted(RuleOf(c), log) && i < |log|
    ensures MayFollow(c, log[..i], log[i])
  {
    hide MayFollow;
    assert RuleOf(c)(log[..i], log[i]);
  }

  lemma FollowsLatest(c: Contract, log: History, e: AttentionEvent)
    requires MayFollow(c, log, e)
    ensures CheckpointAccepted(Latest(log, ConsumerOf(e)), e)
  {
  }

  lemma LatestSnoc(log: History, e: AttentionEvent, consumer: string)
    requires CheckpointAccepted(Latest(log, ConsumerOf(e)), e) && Latest(log, consumer).Some?
    ensures Latest(log + [e], consumer).Some?
    ensures Latest(log, consumer).value.completed <= Latest(log + [e], consumer).value.completed
  {
    assert (log + [e])[..|log|] == log;
  }

  /** Up to the latest checkpoint everything is decided. */
  lemma LatestMeansDecided(c: Contract, log: History)
    requires Admitted(RuleOf(c), log) && Latest(log, c.consumer).Some?
    ensures Latest(log, c.consumer).value.completed <= |log|
    ensures Replayable(c.env, log) && Decided(Replay(c.env, log).value, c.policy, Latest(log, c.consumer).value.completed)
  {
    hide Replay, Decided, Admitted, Accepts, Advances, Latest, MayFollow, RestoreAll;
    var s := LatestStands(log, c.consumer);
    var prefix, rest := log[..s - 1], log[s - 1..];
    CheckpointWasAdmitted(c, log, s);
    AdmittedReplays(c, log);
    assert log == prefix + rest && At(log, s).body.checkpoint == Latest(log, c.consumer).value;
    AdvancesMeansDecided(c, Replay(c.env, prefix).value, prefix, At(log, s).body.checkpoint);
    DecidedPersists(c, prefix, rest, Latest(log, c.consumer).value.completed);
  }

  lemma AdvancesMeansDecided(c: Contract, v: View, prefix: History, next: Checkpoint)
    requires Advances(c, v, prefix, next)
    ensures Decided(v, c.policy, next.completed)
  {
  }

  lemma DecidedNext(c: Contract, v: View, i: nat)
    requires Shows(v) && Decided(v, c.policy, i) && i < |v.log|
    requires c.policy in v.policies && Recognizes(c.policy, At(v.log, i + 1).body, i + 1, v.policies[c.policy].sequence) ==>
               Key(At(v.log, i + 1).id, c.policy, c.policy.schema) in v.dispositions
    ensures Decided(v, c.policy, i + 1)
  {
    hide Recognizes, Indexes;
    forall k | k in v.recognized && k.policy == c.policy && v.recognized[k].sequence == i + 1 ensures k in v.dispositions {
      assert Locates(v.log, k, v.recognized[k]);
      assert k == Key(At(v.log, i + 1).id, c.policy, c.policy.schema);
    }
  }

  /** What extends a log extends what its replay shows of a policy and of a disposition. */
  lemma PolicyPersists(c: Contract, log: History, later: History)
    requires log <= later && Replayable(c.env, log) && Replayable(c.env, later) && c.policy in Replay(c.env, log).value.policies
    ensures c.policy in Replay(c.env, later).value.policies
    ensures Replay(c.env, later).value.policies[c.policy].sequence == Replay(c.env, log).value.policies[c.policy].sequence
  {
    ReplayShows(c.env, log);
    hide Replay;
    var a := Replay(c.env, log).value.policies[c.policy].sequence;
    assert ReadPolicy(At(log, a)).Some? && At(later, a) == At(log, a);
    PolicyIsIndexed(c.env, later, a);
  }

  function DispositionEvent(r: Disposition): (e: AttentionEvent)
    ensures e.body.DispositionRecorded? && e.id == DispositionId(r.key)
  {
    Event(DispositionId(r.key), DispositionRecorded(r))
  }

  lemma DurableMeansIndexed(c: Contract, log: History, r: Disposition)
    requires Replayable(c.env, log) && DispositionEvent(r) in log
    ensures r.key in Replay(c.env, log).value.dispositions && Replay(c.env, log).value.dispositions[r.key].record == r
  {
    var i :| 0 <= i < |log| && log[i] == DispositionEvent(r);
    DispositionIsIndexed(c.env, log, i + 1);
  }

  lemma IndexedMeansDurable(c: Contract, log: History, k: Key)
    requires Replayable(c.env, log) && k in Replay(c.env, log).value.dispositions
    ensures var r := Replay(c.env, log).value.dispositions[k].record; r.key == k && DispositionEvent(r) in log
  {
    ReplayShows(c.env, log);
    var entry := Replay(c.env, log).value.dispositions[k];
    assert ReadDisposition(At(log, entry.sequence)) == Some((k, entry.record));
    assert log[entry.sequence - 1] == DispositionEvent(entry.record);
  }

  /** A record that a replay of the history accepts may follow it. */
  lemma ProbeAllows(c: Contract, v: View, e: AttentionEvent)
    requires Replay(c.env, v.log) == Some(v) && Accepts(c.env, v, e)
    requires e.body.DispositionRecorded? || e.body.OutcomeLinked? || e.body.FeedbackRecorded?
    ensures MayFollow(c, v.log, e)
  {
    hide Replay, Accepts, Latest;
  }

  // ---------------------------------------------------------------- nothing recognized is ever stuck

  lemma {:induction false} SchemasOfPoliciesAreRecorded(env: Env, log: History, p: Policy)
    requires Replayable(env, log) && p in Replay(env, log).value.policies
    ensures p.schema in Replay(env, log).value.schemas
  {
    if log != [] {
      hide Replay, Recognizes, Readable, NewOpportunities;
      ReplayStep(env, log);
      var n := |log| - 1;
      if p in Replay(env, log[..n]).value.policies {
        SchemasOfPoliciesAreRecorded(env, log[..n], p);
      }
    }
  }

  /** The record a recorder drafts at the head for a decision taken there. */
  function Draft(o: Opportunity, choice: string, derived: string, decidedAt: nat, head: nat): Disposition {
    Disposition(o.key, o.sequence, Decision(choice, o.facts.features, o.facts.information, head, decidedAt, []), derived, true, head)
  }

  /** The draft of an opportunity that the view shows, and that can be recorded at all. */
  predicate Recordable(env: Env, v: View, k: Key, r: Disposition) {
    && k in v.recognized && r.key == k && env.complete(k.schema, v.recognized[k].facts.features).Some?
    && env.governs(v.log, DispositionEvent(r)) && SequenceOf(v.log, DispositionId(k)) == 0
    && 1 <= v.recognized[k].sequence <= |v.log| && TimeOf(At(v.log, v.recognized[k].sequence).body) <= r.decision.decidedAt
  }

  lemma DraftIsAccepted(env: Env, v: View, k: Key, choice: string, derived: string, decidedAt: nat)
    requires k in v.recognized && Recordable(env, v, k, Draft(v.recognized[k], choice, derived, decidedAt, |v.log|))
    requires k.schema in v.schemas && k !in v.dispositions && v.recognized[k].key == k
    ensures DispositionAccepted(env, v, Draft(v.recognized[k], choice, derived, decidedAt, |v.log|))
  {
  }

  lemma RecordsAreReadable(env: Env, v: View, e: AttentionEvent)
    requires e.body.DispositionRecorded?
    ensures Readable(env, v, e)
  {
    assert AttentionType(DISPOSITION_RECORDED);
  }

  /** Whatever was recognized and is undecided can be decided at the current head, whoever wrote
      it and however long ago, if its features can be checked and governance takes the record. */
  lemma UndecidedIsRecordable(c: Contract, v: View, k: Key, choice: string, derived: string, decidedAt: nat)
    requires Replay(c.env, v.log) == Some(v) && k in v.recognized && k !in v.dispositions
    requires Recordable(c.env, v, k, Draft(v.recognized[k], choice, derived, decidedAt, |v.log|))
    ensures MayFollow(c, v.log, DispositionEvent(Draft(v.recognized[k], choice, derived, decidedAt, |v.log|)))
  {
    var e := DispositionEvent(Draft(v.recognized[k], choice, derived, decidedAt, |v.log|));
    assert k.policy in v.policies && k.schema == k.policy.schema && v.recognized[k].key == k by {
      hide Replay, Recognizes, Recordable;
      ReplayShows(c.env, v.log);
      assert Locates(v.log, k, v.recognized[k]);
    }
    assert k.schema in v.schemas by {
      hide Replay, Recordable;
      SchemasOfPoliciesAreRecorded(c.env, v.log, k.policy);
    }
    assert Accepts(c.env, v, e) by {
      hide Replay, Recognizes, Readable, DispositionAccepted;
      DraftIsAccepted(c.env, v, k, choice, derived, decidedAt);
      RecordsAreReadable(c.env, v, e);
    }
    hide *;
    ProbeAllows(c, v, e);
  }

  /** Governance takes dispositions and checkpoints, and every feature snapshot can be checked. */
  ghost predicate Cooperative(env: Env) {
    && (forall log: History, e: AttentionEvent :: e.body.DispositionRecorded? || e.body.CheckpointAdvanced? ==> env.governs(log, e))
    && (forall schema: Schema, features: Features :: env.complete(schema, features).Some?)
  }

  /** Nothing else is stored under the content id of a disposition or of a checkpoint. */
  ghost predicate HonestIds(log: History) {
    forall i :: 0 <= i < |log| ==>
      && (log[i].id.DispositionId? ==> log[i].body.DispositionRecorded?)
      && (log[i].id.CheckpointId? ==> log[i].body.CheckpointAdvanced? && log[i].body.checkpoint == log[i].id.checkpoint)
  }

  lemma DispositionHasItsId(env: Env, log: History, s: nat)
    requires Replayable(env, log) && 1 <= s <= |log| && At(log, s).body.DispositionRecorded?
    ensures At(log, s).id == DispositionId(At(log, s).body.record.key)
  {
    hide Replay, DispositionAccepted;
    AcceptedWhereItStands(env, log, s);
  }

  lemma UndecidedIdIsFree(env: Env, log: History, k: Key)
    requires Replayable(env, log) && HonestIds(log) && k !in Replay(env, log).value.dispositions
    ensures SequenceOf(log, DispositionId(k)) == 0
  {
    hide Replay;
    var s := SequenceOf(log, DispositionId(k));
    if s != 0 {
      DispositionHasItsId(env, log, s);
      DispositionIsIndexed(env, log, s);
    }
  }

  lemma OpportunityIsBehind(env: Env, v: View, k: Key)
    requires Replay(env, v.log) == Some(v) && k in v.recognized
    ensures 1 <= v.recognized[k].sequence <= |v.log| && v.recognized[k].key == k
  {
    hide Replay, Recognizes;
    ReplayShows(env, v.log);
    assert Locates(v.log, k, v.recognized[k]);
  }

  lemma DispositionsAddNoOpportunity(env: Env, v: View, e: AttentionEvent)
    requires e.body.DispositionRecorded?
    ensures Readable(env, v, e) && Advance(env, v, e).recognized == v.recognized
    ensures Advance(env, v, e).dispositions.Keys == v.dispositions.Keys + {e.body.record.key}
  {
    RecordsAreReadable(env, v, e);
    assert AttentionType(DISPOSITION_RECORDED);
    assert NewOpportunities(env, v, e) == map[];
  }

  /** One more disposition at the head: one opportunity fewer is undecided. */
  lemma DecideOne(c: Contract, v: View, k: Key, choice: string, derived: string) returns (w: View)
    requires Admitted(RuleOf(c), v.log) && Replay(c.env, v.log) == Some(v) && Cooperative(c.env) && HonestIds(v.log)
    requires k in v.recognized && k !in v.dispositions
    ensures v.log < w.log && Admitted(RuleOf(c), w.log) && Replay(c.env, w.log) == Some(w) && HonestIds(w.log)
    ensures w.recognized == v.recognized && w.dispositions.Keys == v.dispositions.Keys + {k}
  {
    hide *;
    OpportunityIsBehind(c.env, v, k);
    var decidedAt := SourceTime(v, k);
    var e := DispositionEvent(Draft(v.recognized[k], choice, derived, decidedAt, |v.log|));
    DraftIsRecordable(c.env, v, k, choice, derived);
    UndecidedIsRecordable(c, v, k, choice, derived, decidedAt);
    DispositionsAddNoOpportunity(c.env, v, e);
    w := Advance(c.env, v, e);
    AppendAdmitted(c, v, e);
    DraftKey(v.recognized[k], choice, derived, decidedAt, |v.log|);
    HonestSnoc(v.log, e);
  }

  function SourceTime(v: View, k: Key): nat {
    if k in v.recognized && 1 <= v.recognized[k].sequence <= |v.log| then TimeOf(At(v.log, v.recognized[k].sequence).body) else 0
  }

  lemma DraftKey(o: Opportunity, choice: string, derived: string, decidedAt: nat, head: nat)
    ensures DispositionEvent(Draft(o, choice, derived, decidedAt, head)).body.record.key == o.key
    ensures DispositionEvent(Draft(o, choice, derived, decidedAt, head)).id == DispositionId(o.key)
  {
  }

  lemma DraftIsRecordable(env: Env, v: View, k: Key, choice: string, derived: string)
    requires Replay(env, v.log) == Some(v) && Cooperative(env) && HonestIds(v.log) && k in v.recognized && k !in v.dispositions
    requires 1 <= v.recognized[k].sequence <= |v.log| && v.recognized[k].key == k
    ensures Recordable(env, v, k, Draft(v.recognized[k], choice, derived, SourceTime(v, k), |v.log|))
  {
    hide Replay;
    UndecidedIdIsFree(env, v.log, k);
  }

  /** An event that may follow extends an admitted log, and its replay by one step. */
  lemma AppendAdmitted(c: Contract, v: View, e: AttentionEvent)
    requires Admitted(RuleOf(c), v.log) && Replay(c.env, v.log) == Some(v) && MayFollow(c, v.log, e)
    ensures Readable(c.env, v, e) && Admitted(RuleOf(c), v.log + [e])
    ensures Replay(c.env, v.log + [e]) == Some(Advance(c.env, v, e)) && Advance(c.env, v, e).log == v.log + [e]
  {
    hide Replay, Admitted, BodyAccepted, Readable, Latest, Advances, CheckpointAccepted;
    ReplaySnoc(c.env, v.log, e);
    AdmittedExtends(RuleOf(c), v.log, e);
  }

  lemma HonestSnoc(log: History, e: AttentionEvent)
    requires HonestIds(log)
    requires e.id.DispositionId? ==> e.body.DispositionRecorded?
    requires e.id.CheckpointId? ==> e.body.CheckpointAdvanced? && e.body.checkpoint == e.id.checkpoint
    ensures HonestIds(log + [e])
  {
  }

  /** Every opportunity that is still undecided, one after the other. */
  lemma {:induction false} DecideAll(c: Contract, v: View, choice: string, derived: string) returns (w: View)
    requires Admitted(RuleOf(c), v.log) && Replay(c.env, v.log) == Some(v) && Cooperative(c.env) && HonestIds(v.log)
    ensures v.log <= w.log && Admitted(RuleOf(c), w.log) && Replay(c.env, w.log) == Some(w) && HonestIds(w.log)
    ensures w.recognized == v.recognized && w.recognized.Keys <= w.dispositions.Keys
    decreases v.recognized.Keys - v.dispositions.Keys
  {
    hide *;
    if k :| k in v.recognized && k !in v.dispositions {
      var next := DecideOne(c, v, k, choice, derived);
      assert k in v.recognized.Keys - v.dispositions.Keys && k !in next.recognized.Keys - next.dispositions.Keys;
      w := DecideAll(c, next, choice, derived);
    } else {
      w := v;
    }
  }

  lemma CheckpointsAreBehind(c: Contract, log: History)
    requires Admitted(RuleOf(c), log) && HonestIds(log)
    ensures !Reaches(c, log, |log|)
    ensures SequenceOf(log, CheckpointId(Checkpoint(c.consumer, |log|, |log|, None))) == 0
  {
    hide Admitted, Advances, Replay;
    if Reaches(c, log, |log|) {
      var s := LatestStands(log, c.consumer);
      CheckpointWasAdmitted(c, log, s);
    }
    var s := SequenceOf(log, CheckpointId(Checkpoint(c.consumer, |log|, |log|, None)));
    if s != 0 {
      assert CheckpointAt(c, log, s);
      CheckpointWasAdmitted(c, log, s);
    }
  }

  lemma AllDecided(c: Contract, v: View)
    requires Replay(c.env, v.log) == Some(v) && v.recognized.Keys <= v.dispositions.Keys
    ensures DecidedUpTo(c, v.log, |v.log|)
  {
    hide Replay;
    assert forall k :: k in v.recognized ==> k in v.recognized.Keys && k in v.dispositions.Keys;
  }

  lemma CooperationLetsCheckpointsPass(env: Env)
    requires Cooperative(env)
    ensures LetsCheckpointsPass(env)
  {
  }

  lemma CheckpointEndsLog(c: Contract, log: History, next: Checkpoint, time: nat)
    requires next.consumer == c.consumer
    ensures var after := log + [CheckpointEvent(next, time)]; CheckpointAt(c, after, |after|) && At(after, |after|).body.checkpoint == next
  {
  }

  /** A complete denominator is always within reach: whatever recorders, workers and foreign
      appends have left in the log, dispositions alone lead to a checkpoint over all of it. */
  lemma DenominatorIsReachable(c: Contract, log: History, choice: string, derived: string, time: nat) returns (after: History)
    requires Admitted(RuleOf(c), log) && HonestIds(log) && Cooperative(c.env) && c.consumer != ""
    ensures log <= after && Admitted(RuleOf(c), after) && CheckpointAt(c, after, |after|)
    ensures At(after, |after|).body.checkpoint.completed == |after| - 1 >= |log|
  {
    hide *;
    AdmittedReplays(c, log);
    var v := Shown(c.env, log);
    var w := DecideAll(c, v, choice, derived);
    CheckpointsAreBehind(c, w.log);
    AllDecided(c, w);
    CooperationLetsCheckpointsPass(c.env);
    var next := Checkpoint(c.consumer, |w.log|, |w.log|, None);
    AdvanceIsAllowed(c, w.log, next, time);
    AppendAdmitted(c, w, CheckpointEvent(next, time));
    CheckpointEndsLog(c, w.log, next, time);
    after := w.log + [CheckpointEvent(next, time)];
  }

  lemma Shown(env: Env, log: History) returns (v: View)
    requires Replayable(env, log)
    ensures Replay(env, log) == Some(v) && v.log == log
  {
    ReplayShows(env, log);
    v := Replay(env, log).value;
  }

  // ---------------------------------------------------------------- the objects

  datatype Appended = Landed | HeadRaced | Conflict | Invalid

  datatype Recorded<R> = Kept(record: R) | Conflicting | Refused | Exhausted

  /** What a worker prepares about a recognized source before it asks for a decision. */
  datatype Prepared = Prepared(key: Key, sequence: nat, time: nat, facts: Facts, cursor: nat)

  /** The decision is about the opportunity as it was prepared, and this is one the log recognizes. */
  ghost predicate Addressed(log: History, o: Prepared, d: Decision) {
    && d.features == o.facts.features && d.information == o.facts.information && d.cursor == o.cursor
    && RecognizedAt(log, o.key, o.sequence) && o.time == TimeOf(At(log, o.sequence).body)
  }

  /** What a record demands of the decision itself: a cut behind the source, a snapshot that can be
      checked, the facts of the source where it is governed, a time no earlier, refs within the cut. */
  ghost predicate Fitting(env: Env, log: History, o: Prepared, d: Decision) {
    && 1 <= o.sequence <= d.cursor <= |log| && env.complete(o.key.schema, d.features).Some?
    && At(log, o.sequence).body.Source?
    && (o.key.policy.governed ==>
          env.extract(o.key.policy, At(log, o.sequence).body.payload) == Some(Facts(d.features, d.information)))
    && TimeOf(At(log, o.sequence).body) <= d.decidedAt
    && forall i :: 0 <= i < |d.refs| ==> Occurs(log, d.refs[i], d.cursor)
  }

  ghost predicate TakesDispositions(env: Env) {
    forall log: History, e: AttentionEvent :: e.body.DispositionRecorded? ==> env.governs(log, e)
  }

  ghost predicate Decides(log: History, s: nat, k: Key)
    requires 1 <= s <= |log|
  {
    At(log, s).body.DispositionRecorded? && At(log, s).body.record.key == k
  }

  lemma AddressedMeans(env: Env, log: History, o: Prepared, d: Decision)
    requires Replayable(env, log)
    ensures var v := Replay(env, log).value;
            Addressed(log, o, d) <==>
              && d.features == o.facts.features && d.information == o.facts.information && d.cursor == o.cursor
              && o.key.policy in v.policies && o.key.schema == o.key.policy.schema
              && o.key in v.recognized && v.recognized[o.key].sequence == o.sequence
              && 1 <= o.sequence <= |log| && o.time == TimeOf(At(log, o.sequence).body)
  {
    hide Replay, Recognizes, RecognizedBy;
    RecognizedAtExactly(env, log, o.key, o.sequence);
    ReplayShows(env, log);
  }

  /** An indexed decision is the only one about its key. */
  lemma TheOneDecision(c: Contract, log: History, k: Key)
    requires Replayable(c.env, log) && k in Replay(c.env, log).value.dispositions
    ensures Occurs(log, DispositionId(k), |log|)
    ensures forall s :: 1 <= s <= |log| && Decides(log, s, k) ==> At(log, s).body.record == Replay(c.env, log).value.dispositions[k].record
  {
    hide Replay;
    IndexedMeansDurable(c, log, k);
    var i :| 0 <= i < |log| && log[i] == DispositionEvent(Replay(c.env, log).value.dispositions[k].record);
    assert At(log, i + 1).id == DispositionId(k);
    forall s | 1 <= s <= |log| && Decides(log, s, k) ensures At(log, s).body.record == Replay(c.env, log).value.dispositions[k].record {
      DispositionIsIndexed(c.env, log, s);
    }
  }

  lemma UndecidedMeans(c: Contract, log: History, k: Key)
    requires Replayable(c.env, log) && k !in Replay(c.env, log).value.dispositions
    ensures forall s :: 1 <= s <= |log| ==> !Decides(log, s, k)
  {
    hide Replay;
    forall s | 1 <= s <= |log| ensures !Decides(log, s, k) {
      if Decides(log, s, k) { DispositionIsIndexed(c.env, log, s); }
    }
  }

  lemma FittingPersists(env: Env, log: History, later: History, o: Prepared, d: Decision)
    requires log <= later && Addressed(log, o, d) && Fitting(env, log, o, d)
    ensures Addressed(later, o, d) && Fitting(env, later, o, d)
  {
    hide Recognizes, TimeOf;
    assert forall s :: 1 <= s <= |log| ==> At(later, s) == At(log, s);
    var a :| RecognizedBy(log, o.key.policy, a, o.sequence);
    assert RecognizedBy(later, o.key.policy, a, o.sequence);
    forall i | 0 <= i < |d.refs| ensures Occurs(later, d.refs[i], d.cursor) {
      var s :| 1 <= s <= d.cursor && s <= |log| && At(log, s).id == d.refs[i];
      assert At(later, s).id == d.refs[i];
    }
  }

  /** A fitting decision stays acceptable, whatever lands before it, until the opportunity is decided. */
  lemma FittingIsTaken(env: Env, log: History, v: View, o: Prepared, d: Decision, derived: string, after: History)
    requires log <= v.log <= after && Replay(env, v.log) == Some(v) && o.key !in v.dispositions
    ensures Addressed(log, o, d) && Fitting(env, log, o, d) && TakesDispositions(env) && HonestIds(after) ==>
              Accepts(env, v, DispositionEvent(Disposition(o.key, o.sequence, d, derived, true, |v.log|)))
  {
    hide Replay, Accepts, Recognizes, RecognizedBy;
    if Addressed(log, o, d) && Fitting(env, log, o, d) && TakesDispositions(env) && HonestIds(after) {
      FittingPersists(env, log, v.log, o, d);
      assert HonestIds(v.log);
      UndecidedIdIsFree(env, v.log, o.key);
      AbsentMeans(v.log, DispositionId(o.key));
      var e := DispositionEvent(Disposition(o.key, o.sequence, d, derived, true, |v.log|));
      DispositionAppendExactly(env, v.log, e);
      ReplaySnoc(env, v.log, e);
    }
  }

  /** What an outcome or feedback about a decided key demands of the event it cites. */
  ghost predicate Cites(log: History, k: Key, source: Id, earliest: nat) {
    exists d, q :: Answers(log, k, source, d, q) && TimeOf(At(log, q).body) <= earliest
  }

  lemma CitesPersists(env: Env, log: History, later: History, k: Key, source: Id, earliest: nat) returns (d: nat, q: nat)
    requires log <= later && Cites(log, k, source, earliest) && Replayable(env, later)
    ensures Answers(later, k, source, d, q) && TimeOf(At(later, q).body) <= earliest
    ensures k in Replay(env, later).value.dispositions && Replay(env, later).value.dispositions[k].record == At(later, d).body.record
  {
    hide Replay, TimeOf;
    assert forall s :: 1 <= s <= |log| ==> At(later, s) == At(log, s);
    d, q :| Answers(log, k, source, d, q) && TimeOf(At(log, q).body) <= earliest;
    DispositionIsIndexed(env, later, d);
  }

  ghost predicate Outcomes(log: History, s: nat, k: Key)
    requires 1 <= s <= |log|
  {
    At(log, s).body.OutcomeLinked? && At(log, s).body.link.key == k
  }

  ghost predicate Feeds(log: History, s: nat, k: FeedbackKey)
    requires 1 <= s <= |log|
  {
    At(log, s).body.FeedbackRecorded? && At(log, s).body.feedback.key == k
  }

  /** Governance has no objection to outcomes and feedback. */
  ghost predicate TakesFollowUps(env: Env) {
    forall log: History, e: AttentionEvent :: e.body.OutcomeLinked? || e.body.FeedbackRecorded? ==> env.governs(log, e)
  }

  /** Nothing else is stored under the content id of this outcome or this feedback. */
  ghost predicate HonestAbout(log: History, id: Id) {
    forall s :: 1 <= s <= |log| && At(log, s).id == id ==>
      (id.OutcomeId? ==> At(log, s).body.OutcomeLinked?) && (id.FeedbackId? ==> At(log, s).body.FeedbackRecorded?)
  }

  lemma TheOneOutcome(c: Contract, log: History, k: Key)
    requires Replayable(c.env, log)
    ensures var v := Replay(c.env, log).value;
            && (forall s :: 1 <= s <= |log| && Outcomes(log, s, k) ==> k in v.outcomes && At(log, s).body.link == v.outcomes[k].record)
            && (k in v.outcomes ==> Occurs(log, OutcomeId(k), |log|))
            && (k !in v.outcomes && HonestAbout(log, OutcomeId(k)) ==> Absent(log, OutcomeId(k)))
  {
    hide Replay;
    forall s | 1 <= s <= |log| && At(log, s).body.OutcomeLinked?
      ensures At(log, s).id == OutcomeId(At(log, s).body.link.key)
      ensures var v, l := Replay(c.env, log).value, At(log, s).body.link; l.key in v.outcomes && v.outcomes[l.key].record == l
    {
      LinkIsIndexed(c.env, log, s);
      LinkHasItsId(c.env, log, s);
    }
    if k in Replay(c.env, log).value.outcomes {
      LinkIsDurable(c, log, k);
      var i :| 0 <= i < |log| && log[i].id == OutcomeId(k);
      assert At(log, i + 1).id == OutcomeId(k);
    }
  }

  lemma LinkHasItsId(env: Env, log: History, s: nat)
    requires Replayable(env, log) && 1 <= s <= |log| && At(log, s).body.OutcomeLinked?
    ensures At(log, s).id == OutcomeId(At(log, s).body.link.key)
  {
    hide Replay, LinkAccepted;
    AcceptedWhereItStands(env, log, s);
  }

  lemma TheOneFeedback(c: Contract, log: History, k: FeedbackKey)
    requires Replayable(c.env, log)
    ensures var v := Replay(c.env, log).value;
            && (forall s :: 1 <= s <= |log| && Feeds(log, s, k) ==> k in v.feedback && At(log, s).body.feedback == v.feedback[k].record)
            && (k in v.feedback ==> Occurs(log, FeedbackId(k), |log|))
            && (k !in v.feedback && HonestAbout(log, FeedbackId(k)) ==> Absent(log, FeedbackId(k)))
  {
    hide Replay;
    forall s | 1 <= s <= |log| && At(log, s).body.FeedbackRecorded?
      ensures At(log, s).id == FeedbackId(At(log, s).body.feedback.key)
      ensures var v, f := Replay(c.env, log).value, At(log, s).body.feedback; f.key in v.feedback && v.feedback[f.key].record == f
    {
      FeedbackIsIndexed(c.env, log, s);
      FeedbackHasItsId(c.env, log, s);
    }
    if k in Replay(c.env, log).value.feedback {
      FeedbackIsDurable(c, log, k);
      var i :| 0 <= i < |log| && log[i].id == FeedbackId(k);
      assert At(log, i + 1).id == FeedbackId(k);
    }
  }

  lemma FeedbackHasItsId(env: Env, log: History, s: nat)
    requires Replayable(env, log) && 1 <= s <= |log| && At(log, s).body.FeedbackRecorded?
    ensures At(log, s).id == FeedbackId(At(log, s).body.feedback.key)
  {
    hide Replay, FeedbackAccepted;
    AcceptedWhereItStands(env, log, s);
  }

  /** An outcome that cites an event behind its disposition, in time, stays acceptable until
      another one is linked. */
  lemma OutcomeIsTaken(c: Contract, log: History, v: View, l: Link, after: History)
    requires log <= v.log <= after && Replay(c.env, v.log) == Some(v) && l.key !in v.outcomes && l.head == |v.log|
    requires l.key in v.dispositions ==> v.dispositions[l.key].record.derived in l.information
    ensures Cites(log, l.key, l.source, l.observedAt) && l.observedAt <= l.recordedAt && TakesFollowUps(c.env) && HonestAbout(after, OutcomeId(l.key)) ==>
              Accepts(c.env, v, Event(OutcomeId(l.key), OutcomeLinked(l)))
  {
    hide Replay, Accepts, Answers, TimeOf;
    if Cites(log, l.key, l.source, l.observedAt) && l.observedAt <= l.recordedAt && TakesFollowUps(c.env) && HonestAbout(after, OutcomeId(l.key)) {
      var d, q := CitesPersists(c.env, log, v.log, l.key, l.source, l.observedAt);
      HonestBefore(v.log, after, OutcomeId(l.key));
      TheOneOutcome(c, v.log, l.key);
      var e := Event(OutcomeId(l.key), OutcomeLinked(l));
      OutcomeAppendExactly(c.env, v.log, e);
      ReplaySnoc(c.env, v.log, e);
    }
  }

  lemma HonestBefore(log: History, later: History, id: Id)
    requires log <= later && HonestAbout(later, id)
    ensures HonestAbout(log, id)
  {
    assert forall s :: 1 <= s <= |log| ==> At(later, s) == At(log, s);
  }

  lemma FeedbackIsTaken(c: Contract, log: History, v: View, f: Feedback, after: History)
    requires log <= v.log <= after && Replay(c.env, v.log) == Some(v) && f.key !in v.feedback && f.head == |v.log|
    requires f.key.disposition in v.dispositions ==> v.dispositions[f.key.disposition].record.derived in f.information
    ensures Cites(log, f.key.disposition, f.key.source, f.recordedAt) && TakesFollowUps(c.env) && HonestAbout(after, FeedbackId(f.key)) ==>
              Accepts(c.env, v, Event(FeedbackId(f.key), FeedbackRecorded(f)))
  {
    hide Replay, Accepts, Answers, TimeOf;
    if Cites(log, f.key.disposition, f.key.source, f.recordedAt) && TakesFollowUps(c.env) && HonestAbout(after, FeedbackId(f.key)) {
      var d, q := CitesPersists(c.env, log, v.log, f.key.disposition, f.key.source, f.recordedAt);
      HonestBefore(v.log, after, FeedbackId(f.key));
      TheOneFeedback(c, v.log, f.key);
      var e := Event(FeedbackId(f.key), FeedbackRecorded(f));
      FeedbackAppendExactly(c.env, v.log, e);
      ReplaySnoc(c.env, v.log, e);
    }
  }

  lemma DecidedMeans(c: Contract, v: View, k: Key)
    requires Replay(c.env, v.log) == Some(v)
    ensures k in v.dispositions <==> exists s :: 1 <= s <= |v.log| && Decides(v.log, s, k)
  {
    hide Replay;
    if k in v.dispositions {
      IndexedMeansDurable(c, v.log, k);
      var i :| 0 <= i < |v.log| && v.log[i] == DispositionEvent(v.dispositions[k].record);
      assert Decides(v.log, i + 1, k);
    } else {
      UndecidedMeans(c, v.log, k);
    }
  }

  /** The first record of a key is the one that stays. */
  lemma DispositionStays(c: Contract, v: View, w: View, k: Key)
    requires Replay(c.env, v.log) == Some(v) && Replay(c.env, w.log) == Some(w) && v.log <= w.log && k in v.dispositions
    ensures k in w.dispositions && w.dispositions[k].record == v.dispositions[k].record
  {
    hide Replay;
    IndexedMeansDurable(c, v.log, k);
    InPrefix(DispositionEvent(v.dispositions[k].record), v.log, w.log);
    DurableMeansIndexed(c, w.log, v.dispositions[k].record);
  }

  /** Between two logs only other processes have appended. */
  ghost predicate OnlyForeign(shared: SharedLog<Id, Body>, before: History, after: History) {
    before <= after && forall i :: |before| <= i < |after| ==> shared.Foreign(after[i])
  }

  lemma OnlyForeignMore(shared: SharedLog<Id, Body>, a: History, b: History, c: History)
    requires OnlyForeign(shared, a, b) && OnlyForeign(shared, b, c)
    ensures OnlyForeign(shared, a, c)
  {
    assert forall i :: |a| <= i < |b| ==> c[i] == b[i];
  }

  lemma NothingForeign(shared: SharedLog<Id, Body>, log: History)
    ensures OnlyForeign(shared, log, log)
  {
  }

  class AttentionRecorder {
    const shared: SharedLog<Id, Body>
    const contract: Contract

    ghost predicate Valid()
      reads this, shared, shared.store
    {
      shared.Valid() && forall prefix, e :: shared.rule(prefix, e) == MayFollow(contract, prefix, e)
    }

    constructor (shared: SharedLog<Id, Body>, contract: Contract)
      requires shared.Valid() && forall prefix, e :: shared.rule(prefix, e) == MayFollow(contract, prefix, e)
      ensures Valid() && this.shared == shared && this.contract == contract
    {
      this.shared, this.contract := shared, contract;
    }

    lemma Known()
      requires Valid()
      ensures Admitted(RuleOf(contract), shared.store.events)
      ensures Replayable(contract.env, shared.store.events) && RestoreAll(shared.store.events).Some?
    {
      hide MayFollow;
      assert forall i :: 0 <= i < |shared.store.events| ==>
               RuleOf(contract)(shared.store.events[..i], shared.store.events[i])
               == shared.rule(shared.store.events[..i], shared.store.events[i]);
      AdmittedReplays(contract, shared.store.events);
    }

    /** The projection of the whole history; on a shared log it never raises. */
    method CurrentProjection() returns (v: View)
      requires Valid()
      ensures Replay(contract.env, shared.store.events) == Some(v) && v.log == shared.store.events
    {
      Known();
      var history := shared.store.Read(0);
      var projection := new AttentionExposureProjection(contract.env);
      var _ := projection.Rebuild(history);
      v := projection.ViewOf();
      ReplayShows(contract.env, history);
    }

    /** Validate on a fresh replay at exactly the cited head, then compare-and-append there. */
    method AppendExact(e: AttentionEvent, v: View) returns (r: Appended)
      requires Valid() && (e.body.DispositionRecorded? || e.body.OutcomeLinked? || e.body.FeedbackRecorded?)
      requires Replay(contract.env, v.log) == Some(v) && v.log <= shared.store.events
      modifies shared`round, shared.store
      ensures Valid() && old(shared.store.events) <= shared.store.events
      ensures v.log <= shared.store.events
      ensures r.Landed? ==> e in shared.store.events
      ensures r.HeadRaced? ==> |shared.store.events| > |v.log|
      ensures r.Invalid? ==> !Accepts(contract.env, v, e)
      ensures r.Conflict? ==> Occurs(shared.store.events, e.id, |shared.store.events|)
      ensures !r.Landed? ==> OnlyForeign(shared, old(shared.store.events), shared.store.events)
    {
      hide *;
      ghost var start := shared.store.events;
      Pause();
      ghost var paused := shared.store.events;
      var now := CurrentProjection();
      if |now.log| != |v.log| {
        return HeadRaced;
      }
      assert now.log == v.log && now == v;
      if !Accepts(contract.env, now, e) {
        return Invalid;
      }
      ProbeAllows(contract, now, e);
      Pause();
      OnlyForeignMore(shared, start, paused, shared.store.events);
      r := CommitAt(e, v.log);
    }

    /** Whatever other processes append at this point. */
    method Pause()
      requires Valid()
      modifies shared`round, shared.store
      ensures Valid() && old(shared.store.events) <= shared.store.events
      ensures OnlyForeign(shared, old(shared.store.events), shared.store.events)
    {
      hide MayFollow;
      shared.Interfere();
    }

    /** Compare-and-append; an id that is already stored is compared with what it stores. */
    method CommitAt(e: AttentionEvent, prefix: History) returns (r: Appended)
      requires Valid() && prefix <= shared.store.events
      requires SequenceOf(prefix, e.id) == 0 ==> MayFollow(contract, prefix, e)
      modifies shared.store
      ensures Valid() && old(shared.store.events) <= shared.store.events
      ensures r.Landed? ==> e in shared.store.events
      ensures r.Landed? || r.Conflict? || r.HeadRaced?
      ensures r.HeadRaced? ==> |shared.store.events| > |prefix|
      ensures r.Conflict? ==> Occurs(shared.store.events, e.id, |shared.store.events|)
      ensures !r.Landed? ==> shared.store.events == old(shared.store.events)
    {
      hide MayFollow, SequenceOf, AppendAtHead, UniqueIds, Admitted;
      assert shared.store.events[..|prefix|] == prefix;
      CompareAndAppendFinds(shared.store.events, e, |prefix|);
      var stored := shared.Commit(e, |prefix|);
      if stored.Stored? {
        assert At(shared.store.events, stored.sequence).id == e.id;
        r := if shared.store.events[stored.sequence - 1] == e then Landed else Conflict;
      } else {
        r := HeadRaced;
      }
    }

    /** A kept record is durable: the log holds it under its content id, with this decision. An
        opportunity that was decided before keeps its decision, and a decision that does not match
        its prepared opportunity is refused. One that matches and fits is never refused, as long
        as governance takes it and content ids are honest: it is kept, loses to another record,
        or runs out of attempts while the head moves. */
    method RecordDisposition(o: Prepared, decision: Decision, derived: string, attempts: nat) returns (r: Recorded<Disposition>)
      requires Valid()
      modifies shared`round, shared.store
      ensures Valid() && old(shared.store.events) <= shared.store.events
      ensures r.Kept? ==> r.record.key == o.key && r.record.decision == decision && DispositionEvent(r.record) in shared.store.events
      ensures r.Conflicting? ==> Occurs(shared.store.events, DispositionId(o.key), |shared.store.events|)
      ensures r.Exhausted? ==> |shared.store.events| >= |old(shared.store.events)| + attempts
      ensures !Addressed(old(shared.store.events), o, decision) ==> r == Refused
      ensures Addressed(old(shared.store.events), o, decision) ==>
                forall s :: 1 <= s <= |old(shared.store.events)| && Decides(old(shared.store.events), s, o.key) ==>
                  var record := At(old(shared.store.events), s).body.record;
                  r == if record.decision == decision then Kept(record) else Conflicting
      ensures r.Refused? ==>
                !(Addressed(old(shared.store.events), o, decision) && Fitting(contract.env, old(shared.store.events), o, decision)
                  && TakesDispositions(contract.env) && HonestIds(shared.store.events))
      ensures !r.Kept? ==> OnlyForeign(shared, old(shared.store.events), shared.store.events)
    {
      hide *;
      Known();
      NothingForeign(shared, shared.store.events);
      ghost var start := shared.store.events;
      if decision.features != o.facts.features || decision.information != o.facts.information || decision.cursor != o.cursor {
        AddressedMeans(contract.env, start, o, decision);
        return Refused;
      }
      var v := CurrentProjection();
      AddressedMeans(contract.env, start, o, decision);
      if o.key.policy !in v.policies || o.key.schema != o.key.policy.schema || o.key !in v.recognized
         || v.recognized[o.key].sequence != o.sequence || !(1 <= o.sequence <= |v.log|)
         || TimeOf(At(v.log, o.sequence).body) != o.time {
        return Refused;
      }
      if o.key in v.dispositions {
        IndexedMeansDurable(contract, v.log, o.key);
        TheOneDecision(contract, v.log, o.key);
        var existing := v.dispositions[o.key].record;
        return if existing.decision == decision then Kept(existing) else Conflicting;
      }
      UndecidedMeans(contract, v.log, o.key);
      for attempt := 0 to attempts
        invariant Valid() && start <= shared.store.events
        invariant |shared.store.events| >= |start| + attempt && OnlyForeign(shared, start, shared.store.events)
      {
        ghost var before := shared.store.events;
        Pause();
        OnlyForeignMore(shared, start, before, shared.store.events);
        Known();
        v := CurrentProjection();
        if o.key in v.dispositions {
          IndexedMeansDurable(contract, v.log, o.key);
          TheOneDecision(contract, v.log, o.key);
          var existing := v.dispositions[o.key].record;
          return if existing.decision == decision then Kept(existing) else Conflicting;
        }
        var candidate := Disposition(o.key, o.sequence, decision, derived, true, |v.log|);
        ghost var read := shared.store.events;
        var appended := AppendExact(DispositionEvent(candidate), v);
        if !appended.Landed? { OnlyForeignMore(shared, start, read, shared.store.events); }
        match appended {
          case Landed => return Kept(candidate);
          case Conflict => return Conflicting;
          case Invalid =>
            FittingIsTaken(contract.env, start, v, o, decision, derived, shared.store.events);
            return Refused;
          case HeadRaced =>
        }
      }
      r := Exhausted;
    }

    /** One outcome per disposition: the same outcome is returned again, another one conflicts,
        and none is taken without a disposition. An outcome that cites an event behind its
        disposition, in time, is never refused while governance takes it and ids are honest. */
    method LinkOutcome(key: Key, source: Id, outcome: Outcome, observedAt: nat, recordedAt: nat, information: set<string>, attempts: nat)
      returns (r: Recorded<Link>)
      requires Valid()
      modifies shared`round, shared.store
      ensures Valid() && old(shared.store.events) <= shared.store.events
      ensures r.Kept? ==>
                && (r.record.key, r.record.source, r.record.outcome, r.record.observedAt, r.record.recordedAt)
                   == (key, source, outcome, observedAt, recordedAt)
                && Event(OutcomeId(key), OutcomeLinked(r.record)) in shared.store.events
      ensures r.Conflicting? ==> Occurs(shared.store.events, OutcomeId(key), |shared.store.events|)
      ensures r.Exhausted? ==> |shared.store.events| >= |old(shared.store.events)| + attempts
      ensures (forall s :: 1 <= s <= |old(shared.store.events)| ==> !Decides(old(shared.store.events), s, key)) ==> r == Refused
      ensures (exists s :: 1 <= s <= |old(shared.store.events)| && Decides(old(shared.store.events), s, key)) ==>
                forall s :: 1 <= s <= |old(shared.store.events)| && Outcomes(old(shared.store.events), s, key) ==>
                  var link := At(old(shared.store.events), s).body.link;
                  r == if (link.source, link.outcome, link.observedAt, link.recordedAt) == (source, outcome, observedAt, recordedAt) then Kept(link)
                       else Conflicting
      ensures r.Refused? ==>
                !(Cites(old(shared.store.events), key, source, observedAt) && observedAt <= recordedAt
                  && TakesFollowUps(contract.env) && HonestAbout(shared.store.events, OutcomeId(key)))
    {
      hide *;
      Known();
      ghost var start := shared.store.events;
      var v := CurrentProjection();
      ghost var atStart := v;
      DecidedMeans(contract, v, key);
      if key !in v.dispositions {
        CitesDecided(start, key, source, observedAt);
        return Refused;
      }
      TheOneOutcome(contract, v.log, key);
      if key in v.outcomes {
        LinkIsDurable(contract, v.log, key);
        var existing := v.outcomes[key].record;
        return if existing.source == source && existing.outcome == outcome && existing.observedAt == observedAt
                  && existing.recordedAt == recordedAt then Kept(existing) else Conflicting;
      }
      var inherited := v.dispositions[key].record.derived;
      for attempt := 0 to attempts
        invariant Valid() && start <= shared.store.events
        invariant |shared.store.events| >= |start| + attempt
      {
        Pause();
        Known();
        v := CurrentProjection();
        TheOneOutcome(contract, v.log, key);
        DispositionStays(contract, atStart, v, key);
        if key in v.outcomes {
          LinkIsDurable(contract, v.log, key);
          var existing := v.outcomes[key].record;
        return if existing.source == source && existing.outcome == outcome && existing.observedAt == observedAt
                  && existing.recordedAt == recordedAt then Kept(existing) else Conflicting;
        }
        var candidate := Link(key, source, outcome, observedAt, recordedAt, information + {inherited}, |v.log|);
        var appended := AppendExact(Event(OutcomeId(key), OutcomeLinked(candidate)), v);
        match appended {
          case Landed => return Kept(candidate);
          case Conflict => return Conflicting;
          case Invalid =>
            OutcomeIsTaken(contract, start, v, candidate, shared.store.events);
            return Refused;
          case HeadRaced =>
        }
      }
      r := Exhausted;
    }

    /** Feedback is identified by what was said about which disposition, on which event, by whom;
        the same feedback at another time conflicts. */
    method RecordFeedback(key: FeedbackKey, recordedAt: nat, information: set<string>, attempts: nat)
      returns (r: Recorded<Feedback>)
      requires Valid()
      modifies shared`round, shared.store
      ensures Valid() && old(shared.store.events) <= shared.store.events
      ensures r.Kept? ==>
                && r.record.key == key && r.record.recordedAt == recordedAt
                && Event(FeedbackId(key), FeedbackRecorded(r.record)) in shared.store.events
      ensures r.Conflicting? ==> Occurs(shared.store.events, FeedbackId(key), |shared.store.events|)
      ensures r.Exhausted? ==> |shared.store.events| >= |old(shared.store.events)| + attempts
      ensures (forall s :: 1 <= s <= |old(shared.store.events)| ==> !Decides(old(shared.store.events), s, key.disposition)) ==> r == Refused
      ensures (exists s :: 1 <= s <= |old(shared.store.events)| && Decides(old(shared.store.events), s, key.disposition)) ==>
                forall s :: 1 <= s <= |old(shared.store.events)| && Feeds(old(shared.store.events), s, key) ==>
                  var feedback := At(old(shared.store.events), s).body.feedback;
                  r == if feedback.recordedAt == recordedAt then Kept(feedback) else Conflicting
      ensures r.Refused? ==>
                !(Cites(old(shared.store.events), key.disposition, key.source, recordedAt)
                  && TakesFollowUps(contract.env) && HonestAbout(shared.store.events, FeedbackId(key)))
    {
      hide *;
      Known();
      ghost var start := shared.store.events;
      var v := CurrentProjection();
      ghost var atStart := v;
      DecidedMeans(contract, v, key.disposition);
      if key.disposition !in v.dispositions {
        CitesDecided(start, key.disposition, key.source, recordedAt);
        return Refused;
      }
      TheOneFeedback(contract, v.log, key);
      if key in v.feedback {
        FeedbackIsDurable(contract, v.log, key);
        var existing := v.feedback[key].record;
        return if existing.recordedAt == recordedAt then Kept(existing) else Conflicting;
      }
      var inherited := v.dispositions[key.disposition].record.derived;
      for attempt := 0 to attempts
        invariant Valid() && start <= shared.store.events
        invariant |shared.store.events| >= |start| + attempt
      {
        Pause();
        Known();
        v := CurrentProjection();
        TheOneFeedback(contract, v.log, key);
        DispositionStays(contract, atStart, v, key.disposition);
        if key in v.feedback {
          FeedbackIsDurable(contract, v.log, key);
          var existing := v.feedback[key].record;
          return if existing.recordedAt == recordedAt then Kept(existing) else Conflicting;
        }
        var candidate := Feedback(key, recordedAt, information + {inherited}, |v.log|);
        var appended := AppendExact(Event(FeedbackId(key), FeedbackRecorded(candidate)), v);
        match appended {
          case Landed => return Kept(candidate);
          case Conflict => return Conflicting;
          case Invalid =>
            FeedbackIsTaken(contract, start, v, candidate, shared.store.events);
            return Refused;
          case HeadRaced =>
        }
      }
      r := Exhausted;
    }
  }

  lemma CitesDecided(log: History, k: Key, source: Id, earliest: nat)
    ensures Cites(log, k, source, earliest) ==> exists s :: 1 <= s <= |log| && Decides(log, s, k)
  {
    if d, q :| Answers(log, k, source, d, q) && TimeOf(At(log, q).body) <= earliest {
      assert Decides(log, d, k);
    }
  }

  lemma LinkIsDurable(c: Contract, log: History, k: Key)
    requires Replayable(c.env, log) && k in Replay(c.env, log).value.outcomes
    ensures var l := Replay(c.env, log).value.outcomes[k].record; l.key == k && Event(OutcomeId(k), OutcomeLinked(l)) in log
  {
    ReplayShows(c.env, log);
    var entry := Replay(c.env, log).value.outcomes[k];
    assert ReadLink(At(log, entry.sequence)) == Some((k, entry.record));
    assert log[entry.sequence - 1] == Event(OutcomeId(k), OutcomeLinked(entry.record));
  }

  lemma FeedbackIsDurable(c: Contract, log: History, k: FeedbackKey)
    requires Replayable(c.env, log) && k in Replay(c.env, log).value.feedback
    ensures var f := Replay(c.env, log).value.feedback[k].record; f.key == k && Event(FeedbackId(k), FeedbackRecorded(f)) in log
  {
    ReplayShows(c.env, log);
    var entry := Replay(c.env, log).value.feedback[k];
    assert ReadFeedback(At(log, entry.sequence)) == Some((k, entry.record));
    assert log[entry.sequence - 1] == Event(FeedbackId(k), FeedbackRecorded(entry.record));
  }

  // ---------------------------------------------------------------- the worker

  predicate DecidedUpTo(c: Contract, log: History, n: nat) {
    Replayable(c.env, log) && Decided(Replay(c.env, log).value, c.policy, n)
  }

  /** The consumer's durable watermark is at or above n. */
  predicate Reaches(c: Contract, log: History, n: nat) {
    Latest(log, c.consumer).Some? && Latest(log, c.consumer).value.completed >= n
  }

  lemma ReachesMeans(c: Contract, log: History, n: nat)
    ensures Reaches(c, log, n) <==> Latest(log, c.consumer).Some? && Latest(log, c.consumer).value.completed >= n
  {
  }

  /** Governance has no objection to a checkpoint: it reads its own event types only. */
  ghost predicate LetsCheckpointsPass(env: Env) {
    forall log: History, e: AttentionEvent :: e.body.CheckpointAdvanced? ==> env.governs(log, e)
  }

  function CheckpointEvent(next: Checkpoint, time: nat): (e: AttentionEvent)
    ensures e.id == CheckpointId(next)
  {
    Event(CheckpointId(next), CheckpointAdvanced(next, time))
  }

  /** What makes a checkpoint admissible on the history its worker read. */
  lemma AdvanceIsAllowed(c: Contract, history: History, next: Checkpoint, time: nat)
    requires Admitted(RuleOf(c), history) && LetsCheckpointsPass(c.env) && SequenceOf(history, CheckpointId(next)) == 0
    requires next.consumer == c.consumer != "" && next.completed <= next.observed == |history|
    requires DecidedUpTo(c, history, next.completed) && !Reaches(c, history, next.completed)
    ensures MayFollow(c, history, CheckpointEvent(next, time))
  {
    hide Replay, Accepts, Shows, Admitted, Decided, Latest, SequenceOf;
    ReplayShows(c.env, history);
    CheckpointIsAccepted(c.env, Replay(c.env, history).value, CheckpointEvent(next, time));
    LatestObserved(c, history);
  }

  lemma CheckpointIsAccepted(env: Env, v: View, e: AttentionEvent)
    requires Shows(v) && e.body.CheckpointAdvanced? && SequenceOf(v.log, e.id) == 0 && env.governs(v.log, e)
    ensures Accepts(env, v, e)
  {
    hide SequenceOf, Indexes, ShowsRecognized;
    assert forall p :: p in v.policies ==> !Hit(v, p, e);
  }

  lemma LatestObserved(c: Contract, log: History)
    requires Admitted(RuleOf(c), log)
    ensures Latest(log, c.consumer).Some? ==> Latest(log, c.consumer).value.observed <= |log|
  {
    if Latest(log, c.consumer).Some? {
      hide Admitted, Replay, Decided, MayFollow;
      var s := LatestStands(log, c.consumer);
      CheckpointWasAdmitted(c, log, s);
    }
  }

  lemma ReachesPersists(c: Contract, log: History, later: History, n: nat)
    requires log <= later && Admitted(RuleOf(c), later) && Reaches(c, log, n)
    ensures Reaches(c, later, n)
  {
    hide Admitted, Latest;
    LatestNeverFalls(c, log, later);
  }

  lemma DecidedUpToPersists(c: Contract, log: History, later: History, n: nat)
    requires log <= later && Admitted(RuleOf(c), later) && DecidedUpTo(c, log, n) && n <= |log|
    ensures DecidedUpTo(c, later, n)
  {
    hide Decided, Replay;
    AdmittedReplays(c, later);
    assert later == log + later[|log|..];
    DecidedPersists(c, log, later[|log|..], n);
  }

  /** A checkpoint that has landed is reached, whatever landed after it. */
  lemma LandedIsReached(c: Contract, log: History, next: Checkpoint, time: nat)
    requires Admitted(RuleOf(c), log) && CheckpointEvent(next, time) in log && next.consumer == c.consumer
    ensures Reaches(c, log, next.completed)
  {
    hide Admitted, MayFollow, Latest;
    var i :| 0 <= i < |log| && log[i] == CheckpointEvent(next, time);
    LatestHere(log[..i], log[i], c.consumer);
    assert log[..i] + [log[i]] == log[..i + 1];
    ReachesPersists(c, log[..i + 1], log, next.completed);
  }

  lemma LatestHere(log: History, e: AttentionEvent, consumer: string)
    requires e.body.CheckpointAdvanced? && e.body.checkpoint.consumer == consumer
    ensures Latest(log + [e], consumer) == Some(e.body.checkpoint)
  {
  }

  lemma NothingYet(c: Contract, history: History)
    requires Replayable(c.env, history)
    ensures DecidedUpTo(c, history, 0)
  {
    ReplayShows(c.env, history);
    hide Replay;
    var v := Replay(c.env, history).value;
    assert forall k :: k in v.recognized ==> Locates(history, k, v.recognized[k]);
  }

  lemma DecidedByRecord(c: Contract, history: History, log: History, i: nat, d: Disposition)
    requires history <= log && i < |history| && DecidedUpTo(c, log, i)
    requires DispositionEvent(d) in log && d.key == Key(history[i].id, c.policy, c.policy.schema)
    ensures DecidedUpTo(c, log, i + 1)
  {
    hide Replay, Shows, Decided, Recognizes, DispositionEvent;
    ReplayShows(c.env, log);
    DurableMeansIndexed(c, log, d);
    assert At(log, i + 1) == history[i];
    DecidedNext(c, Replay(c.env, log).value, i);
  }

  lemma DecidedByNonRecognition(c: Contract, history: History, log: History, i: nat)
    requires history <= log && i < |history| && DecidedUpTo(c, log, i)
    requires Replayable(c.env, history) && c.policy in Replay(c.env, history).value.policies
    requires !Recognizes(c.policy, history[i].body, i + 1, Replay(c.env, history).value.policies[c.policy].sequence)
    ensures DecidedUpTo(c, log, i + 1)
  {
    hide Replay, Shows, Decided, Recognizes;
    ReplayShows(c.env, log);
    PolicyPersists(c, history, log);
    assert At(log, i + 1) == history[i];
    DecidedNext(c, Replay(c.env, log).value, i);
  }

  ghost predicate Durable(c: Contract, records: seq<Disposition>, log: History) {
    forall i :: 0 <= i < |records| ==> records[i].key.policy == c.policy && DispositionEvent(records[i]) in log
  }

  lemma DurablePersists(c: Contract, records: seq<Disposition>, log: History, later: History)
    requires Durable(c, records, log) && log <= later
    ensures Durable(c, records, later)
  {
    hide DispositionEvent;
    forall i | 0 <= i < |records| ensures DispositionEvent(records[i]) in later {
      var j :| 0 <= j < |log| && log[j] == DispositionEvent(records[i]);
      assert later[j] == log[j];
    }
  }

  /** Where a pass stands at sequence i: decided to here, and the watermark where it says. */
  ghost predicate Standing(c: Contract, log: History, i: nat, completed: nat, records: seq<Disposition>) {
    && completed <= |log| && DecidedUpTo(c, log, if completed > i then completed else i)
    && (completed > 0 ==> Reaches(c, log, completed))
    && Durable(c, records, log)
  }

  lemma StandingPersists(c: Contract, log: History, later: History, i: nat, completed: nat, records: seq<Disposition>)
    requires log <= later && Admitted(RuleOf(c), later) && i <= |log| && Standing(c, log, i, completed, records)
    ensures Standing(c, later, i, completed, records)
  {
    hide Admitted, DecidedUpTo, Reaches, Durable;
    DecidedUpToPersists(c, log, later, if completed > i then completed else i);
    if completed > 0 { ReachesPersists(c, log, later, completed); }
    DurablePersists(c, records, log, later);
  }

  /** A worker starts decided up to its consumer's last checkpoint. */
  lemma StandsInitially(c: Contract, history: History)
    requires Admitted(RuleOf(c), history)
    ensures var current := Latest(history, c.consumer);
            Standing(c, history, 0, if current.Some? then current.value.completed else 0, [])
  {
    hide Admitted, Latest, Decided, Replay, DispositionEvent;
    AdmittedReplays(c, history);
    NothingYet(c, history);
    if Latest(history, c.consumer).Some? { LatestMeansDecided(c, history); }
  }

  lemma PassStanding(c: Contract, log: History, i: nat, completed: nat, records: seq<Disposition>)
    requires Standing(c, log, i, completed, records) && i + 1 <= completed
    ensures Standing(c, log, i + 1, completed, records)
  {
    hide DecidedUpTo, Reaches, Durable;
  }

  lemma SkipStanding(c: Contract, history: History, v: View, log: History, i: nat, completed: nat, records: seq<Disposition>)
    requires history <= log && i < |history| && Standing(c, log, i, completed, records) && completed <= i
    requires Replay(c.env, history) == Some(v) && c.policy in v.policies
    requires !Recognizes(c.policy, history[i].body, i + 1, v.policies[c.policy].sequence)
    ensures Standing(c, log, i + 1, completed, records)
  {
    hide DecidedUpTo, Reaches, Durable, Replay, Recognizes;
    DecidedByNonRecognition(c, history, log, i);
  }

  lemma TakeStanding(c: Contract, history: History, log: History, i: nat, completed: nat, records: seq<Disposition>, d: Disposition)
    requires history <= log && i < |history| && Standing(c, log, i, completed, records) && completed <= i
    requires DispositionEvent(d) in log && d.key == Key(history[i].id, c.policy, c.policy.schema)
    ensures Standing(c, log, i + 1, completed, records + [d]) && DecidedUpTo(c, log, i + 1)
  {
    hide DecidedUpTo, Reaches, DispositionEvent;
    DecidedByRecord(c, history, log, i, d);
  }

  lemma MarkStanding(c: Contract, log: History, i: nat, completed: nat, records: seq<Disposition>)
    requires Standing(c, log, i, completed, records) && completed <= i <= |log| && Reaches(c, log, i)
    ensures Standing(c, log, i, i, records)
  {
    hide DecidedUpTo, Reaches, Durable;
  }

  lemma StandingFacts(c: Contract, log: History, i: nat, completed: nat, records: seq<Disposition>)
    requires Standing(c, log, i, completed, records)
    ensures Durable(c, records, log) && DecidedUpTo(c, log, if completed > i then completed else i)
    ensures forall n :: 0 < n <= completed ==> Reaches(c, log, n)
  {
  }

  lemma InPrefix(e: AttentionEvent, log: History, later: History)
    requires e in log && log <= later
    ensures e in later
  {
    var i :| 0 <= i < |log| && log[i] == e;
    assert later[i] == e;
  }

  /** The sources behind a watermark that a policy recognizes, in log order. */
  function Waiting(p: Policy, log: History, activated: nat, completed: nat, n: nat): seq<Id>
    requires n <= |log|
  {
    if n == 0 then []
    else
      Waiting(p, log, activated, completed, n - 1)
      + if n > completed && n > activated && At(log, n).body.Source? && Fits(p, At(log, n).body) then [At(log, n).id] else []
  }

  function SourcesOf(records: seq<Disposition>): seq<Id> {
    seq(|records|, i requires 0 <= i < |records| => records[i].key.source)
  }

  function CompletedBefore(log: History, consumer: string): nat {
    if Latest(log, consumer).Some? then Latest(log, consumer).value.completed else 0
  }

  /** A pass read some history on its way, and its records are one for each source waiting there. */
  ghost predicate OnePerSource(c: Contract, before: History, after: History, records: seq<Disposition>) {
    exists history: History, a: nat ::
      && before <= history <= after && 1 <= a <= |history|
      && At(history, a).body.PolicyRecorded? && At(history, a).body.policy == c.policy
      && SourcesOf(records) == Waiting(c.policy, history, a, CompletedBefore(history, c.consumer), |history|)
  }

  lemma PolicyStands(c: Contract, v: View)
    requires Replay(c.env, v.log) == Some(v) && c.policy in v.policies
    ensures var a := v.policies[c.policy].sequence;
            1 <= a <= |v.log| && At(v.log, a).body.PolicyRecorded? && At(v.log, a).body.policy == c.policy
    ensures PolicyWellFormed(c.policy)
  {
    hide Replay, PolicyWellFormed;
    ReplayShows(c.env, v.log);
    assert ReadPolicy(At(v.log, v.policies[c.policy].sequence)).Some?;
  }

  lemma WaitingNothing(p: Policy, log: History, activated: nat, completed: nat)
    ensures SourcesOf([]) == Waiting(p, log, activated, completed, 0)
  {
  }

  lemma OnePerSourceHere(c: Contract, before: History, history: History, after: History, records: seq<Disposition>, a: nat)
    requires before <= history <= after && 1 <= a <= |history|
    requires At(history, a).body.PolicyRecorded? && At(history, a).body.policy == c.policy
    requires SourcesOf(records)
             == Waiting(c.policy, history, a, if Latest(history, c.consumer).Some? then Latest(history, c.consumer).value.completed else 0, |history|)
    ensures OnePerSource(c, before, after, records)
  {
  }

  lemma WaitingNext(p: Policy, log: History, activated: nat, completed: nat, i: nat, records: seq<Disposition>, taken: seq<Disposition>)
    requires i < |log| && PolicyWellFormed(p) && SourcesOf(records) == Waiting(p, log, activated, completed, i)
    requires if i + 1 > completed && Recognizes(p, log[i].body, i + 1, activated)
             then |taken| == |records| + 1 && taken[..|records|] == records && taken[|records|].key.source == log[i].id
             else taken == records
    ensures SourcesOf(taken) == Waiting(p, log, activated, completed, i + 1)
  {
    hide Recognizes, PolicyWellFormed, Fits;
    assert At(log, i + 1) == log[i];
    if log[i].body.Source? { FitsExactly(p, log[i].body, i + 1, activated); }
    if Recognizes(p, log[i].body, i + 1, activated) { TelemetryIsNeverRecognized(p, log[i].body, i + 1, activated); }
    if taken != records { assert SourcesOf(taken) == SourcesOf(records) + [log[i].id]; }
  }

  // ---------------------------------------------------------------- when a pass may give up

  /** Another process has stored a record under the id of one of this policy's dispositions. */
  ghost predicate Outdone(shared: SharedLog<Id, Body>, before: History, after: History, policy: Policy) {
    exists j :: |before| <= j < |after| && shared.Foreign(after[j]) && after[j].id.DispositionId? && after[j].id.key.policy == policy
  }

  /** The provider decides whatever was recognized, on the facts as they were prepared. */
  ghost predicate Answering(c: Contract, provider: Prepared -> Option<Decision>) {
    forall history: History, o: Prepared ::
      && Replayable(c.env, history) && o.cursor == |history| && o.key.policy == c.policy
      && RecognizedAt(history, o.key, o.sequence) && o.time == TimeOf(At(history, o.sequence).body)
      && c.env.extract(c.policy, At(history, o.sequence).body.payload) == Some(o.facts) ==>
           provider(o).Some? && Addressed(history, o, provider(o).value) && Fitting(c.env, history, o, provider(o).value)
  }

  /** Why a worker may stop short: the head moved as often as it tried, another process decided
      one of its opportunities, or the provider, governance or a content id let it down. */
  ghost predicate Excused(c: Contract, shared: SharedLog<Id, Body>, provider: Prepared -> Option<Decision>,
                          before: History, after: History, attempts: nat) {
    || |after| >= |before| + attempts
    || Outdone(shared, before, after, c.policy)
    || !(Answering(c, provider) && TakesDispositions(c.env) && HonestIds(after))
  }

  lemma ExcusedLater(c: Contract, shared: SharedLog<Id, Body>, provider: Prepared -> Option<Decision>,
                     first: History, before: History, after: History, last: History, attempts: nat)
    requires first <= before <= after <= last && Excused(c, shared, provider, before, after, attempts)
    ensures Excused(c, shared, provider, first, last, attempts)
  {
    hide Answering, TakesDispositions;
    if HonestIds(last) { assert forall i :: 0 <= i < |after| ==> after[i] == last[i]; }
    if Outdone(shared, before, after, c.policy) {
      var j :| |before| <= j < |after| && shared.Foreign(after[j]) && after[j].id.DispositionId? && after[j].id.key.policy == c.policy;
      assert last[j] == after[j];
    }
  }

  lemma ExhaustionExcuses(c: Contract, shared: SharedLog<Id, Body>, provider: Prepared -> Option<Decision>,
                          before: History, after: History, attempts: nat)
    ensures |after| >= |before| + attempts || !HonestIds(after) ==> Excused(c, shared, provider, before, after, attempts)
  {
  }

  /** While nothing is decided about a key, its content id is free. */
  lemma UndecidedIsAbsent(c: Contract, log: History, later: History, k: Key)
    requires Admitted(RuleOf(c), log) && log <= later && HonestIds(later) && forall s :: 1 <= s <= |log| ==> !Decides(log, s, k)
    ensures forall j :: 0 <= j < |log| ==> later[j].id != DispositionId(k)
  {
    hide Admitted, RuleOf, Replayable, HonestIds;
    AdmittedReplays(c, log);
    forall j | 0 <= j < |log| ensures later[j].id != DispositionId(k) {
      assert !Decides(log, j + 1, k);
      if later[j].id == DispositionId(k) { DecidedByItsId(c, log, later, j, k); }
    }
  }

  lemma DecidedByItsId(c: Contract, log: History, later: History, j: nat, k: Key)
    requires Replayable(c.env, log) && log <= later && HonestIds(later) && j < |log| && later[j].id == DispositionId(k)
    ensures Decides(log, j + 1, k)
  {
    hide Replayable;
    assert log[j] == later[j] && log[j] == At(log, j + 1);
    DispositionHasItsId(c.env, log, j + 1);
  }

  /** A conflict about an opportunity that was undecided before is another process's doing. */
  lemma ConflictExcuses(c: Contract, shared: SharedLog<Id, Body>, provider: Prepared -> Option<Decision>,
                        before: History, after: History, attempts: nat, k: Key)
    requires OnlyForeign(shared, before, after) && Occurs(after, DispositionId(k), |after|) && k.policy == c.policy
    requires Admitted(RuleOf(c), before)
    ensures (exists s :: 1 <= s <= |before| && Decides(before, s, k)) || Excused(c, shared, provider, before, after, attempts)
  {
    hide Answering, TakesDispositions, Admitted, HonestIds, Decides;
    if HonestIds(after) && forall s :: 1 <= s <= |before| ==> !Decides(before, s, k) {
      UndecidedIsAbsent(c, before, after, k);
      var s :| 1 <= s <= |after| && At(after, s).id == DispositionId(k);
      assert after[s - 1].id == DispositionId(k);
    }
  }

  lemma UnansweredExcuses(c: Contract, shared: SharedLog<Id, Body>, provider: Prepared -> Option<Decision>,
                          before: History, after: History, attempts: nat)
    ensures !Answering(c, provider) ==> Excused(c, shared, provider, before, after, attempts)
  {
  }

  lemma RefusalExcuses(c: Contract, shared: SharedLog<Id, Body>, provider: Prepared -> Option<Decision>,
                       before: History, read: History, after: History, attempts: nat, o: Prepared, d: Decision)
    requires Answering(c, provider) ==> Addressed(read, o, d) && Fitting(c.env, read, o, d)
    requires !(Addressed(read, o, d) && Fitting(c.env, read, o, d) && TakesDispositions(c.env) && HonestIds(after))
    ensures Excused(c, shared, provider, before, after, attempts)
  {
    hide Answering, Addressed, Fitting, TakesDispositions, HonestIds;
  }

  lemma StillRecognized(c: Contract, v: View, before: History, k: Key, q: nat)
    requires Replay(c.env, v.log) == Some(v) && before <= v.log
    ensures RecognizedAt(before, k, q) ==> k in v.recognized
  {
    hide Replay, RecognizedAt;
    if RecognizedAt(before, k, q) {
      RecognitionPersists(before, v.log, k, q);
      RecognizedAtExactly(c.env, v.log, k, q);
    }
  }

  /** What the worker prepares is what the provider has to answer. */
  lemma PreparedIsAnswered(c: Contract, v: View, o: Prepared, provider: Prepared -> Option<Decision>)
    requires Replay(c.env, v.log) == Some(v) && o.key in v.recognized && o.key.policy == c.policy && o.cursor == |v.log|
    requires o.sequence == v.recognized[o.key].sequence && o.facts == v.recognized[o.key].facts
    requires 1 <= o.sequence <= |v.log| && o.time == TimeOf(At(v.log, o.sequence).body)
    ensures Answering(c, provider) ==>
              provider(o).Some? && Addressed(v.log, o, provider(o).value) && Fitting(c.env, v.log, o, provider(o).value)
  {
    hide Replay, RecognizedAt, Addressed, Fitting, TimeOf;
    RecognizedAtExactly(c.env, v.log, o.key, o.sequence);
    assert Replayable(c.env, v.log);
    assert At(v.log, o.sequence).body.Source? by { RecognizedIsSource(v.log, o.key, o.sequence); }
  }

  lemma RecognizedIsSource(log: History, k: Key, q: nat)
    requires RecognizedAt(log, k, q)
    ensures 1 <= q <= |log| && At(log, q).body.Source?
  {
  }

  lemma RecognitionPersists(log: History, later: History, k: Key, q: nat)
    requires log <= later && RecognizedAt(log, k, q)
    ensures RecognizedAt(later, k, q)
  {
    hide Recognizes;
    assert forall s :: 1 <= s <= |log| ==> At(later, s) == At(log, s);
    var a :| RecognizedBy(log, k.policy, a, q);
    assert RecognizedBy(later, k.policy, a, q);
  }

  /** The opportunity of an event that the policy recognizes in the history of a pass. */
  lemma RecognizedHere(c: Contract, v: View, i: nat)
    requires Replay(c.env, v.log) == Some(v) && c.policy in v.policies && i < |v.log|
    requires Recognizes(c.policy, v.log[i].body, i + 1, v.policies[c.policy].sequence)
    ensures RecognizedAt(v.log, Key(v.log[i].id, c.policy, c.policy.schema), i + 1)
  {
    hide Replay, Recognizes, PolicyWellFormed;
    var a := v.policies[c.policy].sequence;
    PolicyStands(c, v);
    TelemetryIsNeverRecognized(c.policy, v.log[i].body, i + 1, a);
    assert a < i + 1 by { RecognizedIsBehind(c.policy, v.log[i].body, i + 1, a); }
    assert At(v.log, i + 1) == v.log[i];
    assert RecognizedBy(v.log, c.policy, a, i + 1);
  }

  lemma RecognizedIsBehind(p: Policy, body: Body, sequence: nat, activated: nat)
    requires Recognizes(p, body, sequence, activated)
    ensures activated < sequence
  {
  }

  /** Somebody has recorded the policy of this worker. */
  ghost predicate PolicyRecordedIn(log: History, policy: Policy) {
    exists s :: 1 <= s <= |log| && At(log, s).body.PolicyRecorded? && At(log, s).body.policy == policy
  }

  lemma PolicyIsKnown(c: Contract, v: View, before: History)
    requires Replay(c.env, v.log) == Some(v) && before <= v.log
    ensures PolicyRecordedIn(before, c.policy) ==> c.policy in v.policies
  {
    hide Replay;
    if s :| 1 <= s <= |before| && At(before, s).body.PolicyRecorded? && At(before, s).body.policy == c.policy {
      assert At(v.log, s) == At(before, s);
      PolicyIsIndexed(c.env, v.log, s);
    }
  }

  lemma StoredUnder(log: History, id: Id)
    requires Occurs(log, id, |log|)
    ensures var s := SequenceOf(log, id); 1 <= s <= |log| && log[s - 1].id == id
  {
    AbsentIs(log, id);
    var s :| 1 <= s <= |log| && At(log, s).id == id;
    assert log[s - 1].id == id;
  }

  lemma DishonestMeans(log: History, id: Id)
    requires id.CheckpointId? && SequenceOf(log, id) != 0
    requires var body := log[SequenceOf(log, id) - 1].body; !body.CheckpointAdvanced? || body.checkpoint != id.checkpoint
    ensures !HonestIds(log)
  {
  }

  lemma SameCheckpoint(log: History, next: Checkpoint)
    requires var s := SequenceOf(log, CheckpointId(next)); s != 0 && log[s - 1].body.CheckpointAdvanced? && log[s - 1].body.checkpoint == next
    ensures CheckpointEvent(next, log[SequenceOf(log, CheckpointId(next)) - 1].body.time) in log
  {
    var s := SequenceOf(log, CheckpointId(next));
    assert log[s - 1] == CheckpointEvent(next, log[s - 1].body.time);
  }

  datatype Reached = Reached(checkpoint: Checkpoint) | GaveUp

  class DeliberativeAttentionWorker {
    const recorder: AttentionRecorder

    ghost predicate Valid()
      reads this, recorder, recorder.shared, recorder.shared.store
    {
      recorder.Valid() && recorder.contract.consumer != "" && LetsCheckpointsPass(recorder.contract.env)
    }

    constructor (recorder: AttentionRecorder)
      requires recorder.Valid() && recorder.contract.consumer != "" && LetsCheckpointsPass(recorder.contract.env)
      ensures Valid() && this.recorder == recorder
    {
      this.recorder := recorder;
    }

    lemma Known()
      requires Valid()
      ensures Admitted(RuleOf(recorder.contract), recorder.shared.store.events)
      ensures LetsCheckpointsPass(recorder.contract.env) && recorder.contract.consumer != ""
      ensures recorder.shared.store.Valid()
    {
      recorder.Known();
    }

    method Pause()
      requires Valid()
      modifies recorder.shared`round, recorder.shared.store
      ensures Valid() && old(recorder.shared.store.events) <= recorder.shared.store.events
      ensures OnlyForeign(recorder.shared, old(recorder.shared.store.events), recorder.shared.store.events)
    {
      recorder.Pause();
    }

    method CommitAt(e: AttentionEvent, prefix: History) returns (r: Appended)
      requires Valid() && prefix <= recorder.shared.store.events
      requires SequenceOf(prefix, e.id) == 0 ==> MayFollow(recorder.contract, prefix, e)
      modifies recorder.shared.store
      ensures Valid() && old(recorder.shared.store.events) <= recorder.shared.store.events
      ensures r.Landed? ==> e in recorder.shared.store.events
      ensures r.Landed? || r.Conflict? || r.HeadRaced?
      ensures r.HeadRaced? ==> |recorder.shared.store.events| > |prefix|
      ensures r.Conflict? ==> Occurs(recorder.shared.store.events, e.id, |recorder.shared.store.events|)
    {
      r := recorder.CommitAt(e, prefix);
    }

    /** Advance over `completed`, everything up to which is decided, unless another worker has.
        With honest content ids this fails only by running out of attempts while the head moves. */
    method AdvanceCheckpoint(completed: nat, epoch: Option<Key>, attempts: nat) returns (r: Reached)
      requires Valid() && 1 <= completed <= |recorder.shared.store.events|
      requires DecidedUpTo(recorder.contract, recorder.shared.store.events, completed)
      modifies recorder.shared`round, recorder.shared.store
      ensures Valid() && old(recorder.shared.store.events) <= recorder.shared.store.events
      ensures r.Reached? ==> Reaches(recorder.contract, recorder.shared.store.events, completed)
      ensures r.GaveUp? ==> |recorder.shared.store.events| >= |old(recorder.shared.store.events)| + attempts || !HonestIds(recorder.shared.store.events)
    {
      hide *;
      var c := recorder.contract;
      ghost var start := recorder.shared.store.events;
      for attempt := 0 to attempts
        invariant Valid() && start <= recorder.shared.store.events && |recorder.shared.store.events| >= |start| + attempt
      {
        Pause();
        Known();
        var history := recorder.shared.store.Read(0);
        var current := Latest(history, c.consumer);
        ReachesMeans(c, history, completed);
        if current.Some? && current.value.completed >= completed {
          return Reached(current.value);
        }
        var next := Checkpoint(c.consumer, completed, |history|, epoch);
        var time := TimeOf(history[completed - 1].body);
        DecidedUpToPersists(c, start, history, completed);
        if SequenceOf(history, CheckpointId(next)) == 0 {
          AdvanceIsAllowed(c, history, next, time);
        }
        Pause();
        var landed := CommitAt(CheckpointEvent(next, time), history);
        Known();
        match landed {
          case Landed =>
            LandedIsReached(c, recorder.shared.store.events, next, time);
            return Reached(next);
          case Conflict =>
            var now := recorder.shared.store.Read(0);
            StoredUnder(now, CheckpointId(next));
            var stored := now[SequenceOf(now, CheckpointId(next)) - 1].body;
            if !stored.CheckpointAdvanced? || stored.checkpoint != next {
              DishonestMeans(now, CheckpointId(next));
              return GaveUp;
            }
            SameCheckpoint(now, next);
            LandedIsReached(c, now, next, stored.time);
            return Reached(next);
          case _ =>
        }
      }
      r := GaveUp;
    }

    /** A recognized event without a disposition is prepared, decided and recorded. */
    method Decide(i: nat, provider: Prepared -> Option<Decision>, derived: Key -> string, attempts: nat) returns (r: Option<Disposition>)
      requires Valid() && i < |recorder.shared.store.events|
      modifies recorder.shared`round, recorder.shared.store
      ensures Valid() && old(recorder.shared.store.events) <= recorder.shared.store.events
      ensures r.Some? ==>
                && r.value.key == Key(old(recorder.shared.store.events)[i].id, recorder.contract.policy, recorder.contract.policy.schema)
                && DispositionEvent(r.value) in recorder.shared.store.events
      ensures r.None? ==>
                var key := Key(old(recorder.shared.store.events)[i].id, recorder.contract.policy, recorder.contract.policy.schema);
                || !RecognizedAt(old(recorder.shared.store.events), key, i + 1)
                || (exists s :: 1 <= s <= |old(recorder.shared.store.events)| && Decides(old(recorder.shared.store.events), s, key))
                || Excused(recorder.contract, recorder.shared, provider, old(recorder.shared.store.events), recorder.shared.store.events, attempts)
    {
      hide *;
      Known();
      var c := recorder.contract;
      ghost var start := recorder.shared.store.events;
      var key := Key(recorder.shared.store.events[i].id, c.policy, c.policy.schema);
      Pause();
      var v := CurrentProjection();
      StillRecognized(c, v, start, key, i + 1);
      if key !in v.recognized {
        return None;
      }
      OpportunityIsBehind(c.env, v, key);
      var q := v.recognized[key].sequence;
      var o := Prepared(key, q, TimeOf(At(v.log, q).body), v.recognized[key].facts, |v.log|);
      var decision := provider(o);
      PreparedIsAnswered(c, v, o, provider);
      if decision.None? {
        UnansweredExcuses(c, recorder.shared, provider, start, v.log, attempts);
        return None;
      }
      ghost var read := recorder.shared.store.events;
      var recorded := RecordDisposition(o, decision.value, derived(key), attempts);
      ghost var after := recorder.shared.store.events;
      match recorded {
        case Kept(record) => return Some(record);
        case Refused => RefusalExcuses(c, recorder.shared, provider, start, read, after, attempts, o, decision.value);
        case Conflicting =>
          OnlyForeignMore(recorder.shared, start, read, after);
          ConflictExcuses(c, recorder.shared, provider, start, after, attempts, key);
        case Exhausted => ExhaustionExcuses(c, recorder.shared, provider, start, after, attempts);
      }
      r := None;
    }

    method CurrentProjection() returns (v: View)
      requires Valid()
      ensures Replay(recorder.contract.env, recorder.shared.store.events) == Some(v) && v.log == recorder.shared.store.events
    {
      v := recorder.CurrentProjection();
    }

    method RecordDisposition(o: Prepared, decision: Decision, derived: string, attempts: nat) returns (r: Recorded<Disposition>)
      requires Valid()
      modifies recorder.shared`round, recorder.shared.store
      ensures Valid() && old(recorder.shared.store.events) <= recorder.shared.store.events
      ensures r.Kept? ==> r.record.key == o.key && DispositionEvent(r.record) in recorder.shared.store.events
      ensures r.Conflicting? ==> Occurs(recorder.shared.store.events, DispositionId(o.key), |recorder.shared.store.events|)
      ensures r.Exhausted? ==> |recorder.shared.store.events| >= |old(recorder.shared.store.events)| + attempts
      ensures r.Refused? ==>
                !(Addressed(old(recorder.shared.store.events), o, decision)
                  && Fitting(recorder.contract.env, old(recorder.shared.store.events), o, decision)
                  && TakesDispositions(recorder.contract.env) && HonestIds(recorder.shared.store.events))
      ensures !r.Kept? ==> OnlyForeign(recorder.shared, old(recorder.shared.store.events), recorder.shared.store.events)
    {
      r := recorder.RecordDisposition(o, decision, derived, attempts);
    }

    /** One recognized source behind the watermark: decided here or by another worker, and
        only then passed by the checkpoint. It fails only with an excuse. */
    method Take(i: nat, v: View, completed: nat, records: seq<Disposition>, provider: Prepared -> Option<Decision>,
                derived: Key -> string, attempts: nat)
      returns (ok: bool, w: View, taken: seq<Disposition>)
      requires Valid() && i < |v.log| && Replay(recorder.contract.env, v.log) == Some(v) && v.log == recorder.shared.store.events
      requires completed <= i && Standing(recorder.contract, recorder.shared.store.events, i, completed, records)
      requires RecognizedAt(v.log, Key(v.log[i].id, recorder.contract.policy, recorder.contract.policy.schema), i + 1)
      modifies recorder.shared`round, recorder.shared.store
      ensures Valid() && old(recorder.shared.store.events) <= recorder.shared.store.events
      ensures Replay(recorder.contract.env, w.log) == Some(w) && v.log <= w.log <= recorder.shared.store.events
      ensures ok ==> w.log == recorder.shared.store.events
      ensures ok ==> Standing(recorder.contract, recorder.shared.store.events, i + 1, i + 1, taken)
      ensures ok ==> |taken| == |records| + 1 && taken[..|records|] == records && taken[|records|].key.source == v.log[i].id
      ensures !ok ==> Excused(recorder.contract, recorder.shared, provider, v.log, recorder.shared.store.events, attempts)
    {
      hide *;
      var c := recorder.contract;
      ghost var start := recorder.shared.store.events;
      ok, w, taken := false, v, records;
      var key := Key(v.log[i].id, c.policy, c.policy.schema);
      var existing: Option<Disposition>;
      DecidedMeans(c, v, key);
      if key in v.dispositions {
        IndexedMeansDurable(c, v.log, key);
        existing := Some(v.dispositions[key].record);
      } else {
        existing := Decide(i, provider, derived, attempts);
        if existing.None? {
          return;
        }
      }
      Known();
      ghost var decided := recorder.shared.store.events;
      StandingPersists(c, start, decided, i, completed, records);
      TakeStanding(c, v.log, decided, i, completed, records, existing.value);
      taken := records + [existing.value];
      ok := PassOver(i + 1, Some(existing.value.key), completed, taken, attempts);
      if !ok {
        ExhaustionExcuses(c, recorder.shared, provider, start, recorder.shared.store.events, attempts);
      }
      w := CurrentProjection();
    }

    method PassOver(n: nat, epoch: Option<Key>, completed: nat, records: seq<Disposition>, attempts: nat) returns (ok: bool)
      requires Valid() && 1 <= n <= |recorder.shared.store.events| && completed <= n
      requires Standing(recorder.contract, recorder.shared.store.events, n, completed, records)
      modifies recorder.shared`round, recorder.shared.store
      ensures Valid() && old(recorder.shared.store.events) <= recorder.shared.store.events
      ensures ok ==> Standing(recorder.contract, recorder.shared.store.events, n, n, records)
      ensures !ok ==> |recorder.shared.store.events| >= |old(recorder.shared.store.events)| + attempts || !HonestIds(recorder.shared.store.events)
    {
      hide *;
      var c := recorder.contract;
      ghost var start := recorder.shared.store.events;
      StandingFacts(c, start, n, completed, records);
      var reached := AdvanceCheckpoint(n, epoch, attempts);
      Known();
      StandingPersists(c, start, recorder.shared.store.events, n, completed, records);
      if reached.Reached? {
        MarkStanding(c, recorder.shared.store.events, n, completed, records);
      }
      ok := reached.Reached?;
    }

    /** One pass over the history as it stood: every source this worker's policy recognizes is
        decided before the checkpoint passes it. A pass that returns records has carried the
        durable watermark over everything that was in the log when it began. It gives up only
        when nobody has recorded its policy, or with an excuse. */
    method ProcessAvailable(provider: Prepared -> Option<Decision>, derived: Key -> string, attempts: nat)
      returns (r: Option<seq<Disposition>>)
      requires Valid()
      modifies recorder.shared`round, recorder.shared.store
      ensures Valid() && old(recorder.shared.store.events) <= recorder.shared.store.events
      ensures r.Some? && |old(recorder.shared.store.events)| > 0 ==>
                Reaches(recorder.contract, recorder.shared.store.events, |old(recorder.shared.store.events)|)
      ensures r.Some? ==> Durable(recorder.contract, r.value, recorder.shared.store.events)
      ensures r.Some? ==> OnePerSource(recorder.contract, old(recorder.shared.store.events), recorder.shared.store.events, r.value)
      ensures r.None? ==>
                || !PolicyRecordedIn(old(recorder.shared.store.events), recorder.contract.policy)
                || Excused(recorder.contract, recorder.shared, provider, old(recorder.shared.store.events), recorder.shared.store.events, attempts)
    {
      hide *;
      var c := recorder.contract;
      ghost var start := recorder.shared.store.events;
      Pause();
      Known();
      var v := CurrentProjection();
      var history := v.log;
      PolicyIsKnown(c, v, start);
      if c.policy !in v.policies {
        return None;
      }
      var activated := v.policies[c.policy].sequence;
      ghost var atStart := v;
      var current := Latest(history, c.consumer);
      var completed: nat := if current.Some? then current.value.completed else 0;
      var records: seq<Disposition> := [];
      ghost var reachedBefore := completed;
      StandsInitially(c, history);
      PolicyStands(c, v);
      WaitingNothing(c.policy, history, activated, completed);
      var pending := false;
      for i := 0 to |history|
        invariant Valid() && history <= recorder.shared.store.events
        invariant Replay(c.env, v.log) == Some(v) && history <= v.log == recorder.shared.store.events
        invariant Standing(c, recorder.shared.store.events, i, completed, records)
        invariant if pending then completed < i else i <= completed
        invariant completed == reachedBefore || reachedBefore < completed <= i
        invariant SourcesOf(records) == Waiting(c.policy, history, activated, reachedBefore, i)
      {
        ghost var before := records;
        if i + 1 > completed {
          var step := true;
          if Recognizes(c.policy, history[i].body, i + 1, activated) {
            RecognizedHere(c, atStart, i);
            RecognitionPersists(history, v.log, Key(history[i].id, c.policy, c.policy.schema), i + 1);
            ghost var reading := v.log;
            step, v, records := Take(i, v, completed, records, provider, derived, attempts);
            if !step {
              ExcusedLater(c, recorder.shared, provider, start, reading, recorder.shared.store.events, recorder.shared.store.events, attempts);
            }
            completed, pending := i + 1, false;
          } else {
            SkipStanding(c, history, atStart, recorder.shared.store.events, i, completed, records);
            pending := true;
          }
          if !step {
            return None;
          }
        } else {
          PassStanding(c, recorder.shared.store.events, i, completed, records);
        }
        WaitingNext(c.policy, history, activated, reachedBefore, i, before, records);
      }
      if pending {
        var reached := PassOver(|history|, None, completed, records, attempts);
        if !reached {
          ExhaustionExcuses(c, recorder.shared, provider, start, recorder.shared.store.events, attempts);
          return None;
        }
        completed := |history|;
      }
      StandingFacts(c, recorder.shared.store.events, |history|, completed, records);
      OnePerSourceHere(c, old(recorder.shared.store.events), history, recorder.shared.store.events, records, activated);
      r := Some(records);
    }
  }
}
