/** Exactly which telemetry records a replay accepts, written out on the log itself: what the
    checks of a projection amount to for someone who sees the events only. */
module AttentionRecords {
  import opened Basics
  import opened EventLog
  import opened Attention

  // ---------------------------------------------------------------- recognition

  predicate StartsWith(text: string, prefix: string) {
    |prefix| <= |text| && text[..|prefix|] == prefix
  }

  /** An event is recognized exactly when it lies behind a record of the policy, is an ordinary
      event of one of its types, starts with one of its source and one of its subject prefixes
      where it has any, and holds every payload field the policy names. */
  lemma RecognitionMeans(env: Env, log: History, k: Key)
    requires Replayable(env, log)
    ensures k in Replay(env, log).value.recognized <==>
            && k.schema == k.policy.schema
            && exists a, q :: 1 <= a < q <= |log| && At(log, a).body.PolicyRecorded? && At(log, a).body.policy == k.policy
                 && At(log, q).id == k.source && At(log, q).body.Source? && Fits(k.policy, At(log, q).body)
  {
    hide Replay;
    RecognizedExactly(env, log, k);
    forall a, q | 1 <= a < q <= |log| && At(log, a).body.PolicyRecorded? && At(log, q).body.Source?
      ensures RecognizedBy(log, k.policy, a, q) <==> At(log, a).body.policy == k.policy && Fits(k.policy, At(log, q).body)
    {
      FitsExactly(k.policy, At(log, q).body, q, a);
    }
  }

  predicate Fits(p: Policy, body: Body)
    requires body.Source?
  {
    && body.eventType in p.types
    && (p.sourcePrefixes != [] ==> exists n :: 0 <= n < |p.sourcePrefixes| && StartsWith(body.origin, p.sourcePrefixes[n]))
    && (p.subjectPrefixes != [] ==> exists n :: 0 <= n < |p.subjectPrefixes| && StartsWith(body.subject, p.subjectPrefixes[n]))
    && (forall field :: field in p.requiredFields ==> field in body.payload)
    && (forall field :: field in p.informationFields ==> field in body.payload)
  }

  lemma FitsExactly(p: Policy, body: Body, sequence: nat, activated: nat)
    requires body.Source?
    ensures Recognizes(p, body, sequence, activated) <==> sequence > activated && Fits(p, body)
  {
    forall prefix, text ensures prefix <= text <==> StartsWith(text, prefix) {
    }
    if Fits(p, body) {
      assert p.requiredFields + p.informationFields <= body.payload.Keys;
    }
    if p.requiredFields + p.informationFields <= body.payload.Keys {
      assert forall field :: field in p.requiredFields || field in p.informationFields ==> field in body.payload.Keys;
    }
  }

  // ---------------------------------------------------------------- what a replay knows

  lemma {:induction false} SchemasAreTheRecordedOnes(env: Env, log: History, schema: Schema)
    requires Replayable(env, log)
    ensures schema in Replay(env, log).value.schemas <==> SchemaStands(log, schema)
  {
    hide Replay, Readable, Accepts;
    if log == [] {
      EmptyReplay(env);
      return;
    }
    var n := |log| - 1;
    ReplayStep(env, log);
    SchemasAreTheRecordedOnes(env, log[..n], schema);
    assert forall s :: 1 <= s <= n ==> At(log[..n], s) == At(log, s);
    assert At(log, |log|) == log[n];
    if SchemaStands(log, schema) && !SchemaStands(log[..n], schema) {
      var s :| 1 <= s <= |log| && At(log, s).body.SchemaRecorded? && At(log, s).body.schema == schema;
      assert s == |log|;
    }
  }

  lemma EmptyReplay(env: Env)
    ensures Replay(env, []) == Some(EMPTY) && EMPTY.recognized == map[] && EMPTY.schemas == {}
  {
  }

  ghost predicate SchemaStands(log: History, schema: Schema) {
    exists s :: 1 <= s <= |log| && At(log, s).body.SchemaRecorded? && At(log, s).body.schema == schema
  }

  /** What a policy reads out of the payload it recognized is what the opportunity keeps. */
  lemma {:induction false} FactsAreExtracted(env: Env, log: History, k: Key)
    requires Replayable(env, log) && k in Replay(env, log).value.recognized
    ensures Extracted(env, log, k, Replay(env, log).value.recognized[k])
  {
    hide Replay, Accepts, Advance, Shows, Extracted;
    if log == [] {
      EmptyReplay(env);
      return;
    }
    var n := |log| - 1;
    ReplayStep(env, log);
    ReplayShows(env, log[..n]);
    var v := Replay(env, log[..n]).value;
    if k in v.recognized {
      FactsAreExtracted(env, log[..n], k);
    }
    FactsStep(env, v, log[n], k);
    assert log == v.log + [log[n]];
  }

  ghost predicate Extracted(env: Env, log: History, k: Key, o: Opportunity) {
    1 <= o.sequence <= |log| && At(log, o.sequence).body.Source? && env.extract(k.policy, At(log, o.sequence).body.payload) == Some(o.facts)
  }

  lemma FactsStep(env: Env, v: View, e: AttentionEvent, k: Key)
    requires Accepts(env, v, e) && k in Advance(env, v, e).recognized
    requires k in v.recognized ==> Extracted(env, v.log, k, v.recognized[k])
    ensures Extracted(env, v.log + [e], k, Advance(env, v, e).recognized[k])
  {
    hide SequenceOf, BodyAccepted, Recognizes;
    var log := v.log + [e];
    assert At(log, |log|) == e;
    assert forall s :: 1 <= s <= |v.log| ==> At(log, s) == At(v.log, s);
  }

  /** The opportunity a record names, where its source stands. */
  ghost predicate RecognizedAt(log: History, k: Key, q: nat) {
    && 1 <= q <= |log| && At(log, q).id == k.source && At(log, q).body.Source?
    && k.schema == k.policy.schema && exists a :: RecognizedBy(log, k.policy, a, q)
  }

  lemma RecognizedAtExactly(env: Env, log: History, k: Key, q: nat)
    requires Replayable(env, log)
    ensures RecognizedAt(log, k, q) <==> k in Replay(env, log).value.recognized && Replay(env, log).value.recognized[k].sequence == q
    ensures RecognizedAt(log, k, q) ==> env.extract(k.policy, At(log, q).body.payload) == Some(Replay(env, log).value.recognized[k].facts)
    ensures RecognizedAt(log, k, q) ==> SchemaStands(log, k.schema)
  {
    hide Replay, Recognizes;
    RecognizedExactly(env, log, k);
    ReplayShows(env, log);
    var v := Replay(env, log).value;
    if k in v.recognized {
      FactsAreExtracted(env, log, k);
      assert Locates(log, k, v.recognized[k]);
      var a, s :| RecognizedBy(log, k.policy, a, s) && At(log, s).id == k.source;
      OnePosition(log, s, v.recognized[k].sequence);
      if RecognizedAt(log, k, q) { OnePosition(log, s, q); }
      PolicyNeedsItsSchema(env, log, a);
    }
  }

  lemma PolicyNeedsItsSchema(env: Env, log: History, a: nat)
    requires Replayable(env, log) && 1 <= a <= |log| && At(log, a).body.PolicyRecorded?
    ensures SchemaStands(log, At(log, a).body.policy.schema)
  {
    hide Replay;
    AcceptedWhereItStands(env, log, a);
    var schema := At(log, a).body.policy.schema;
    SchemasAreTheRecordedOnes(env, log[..a - 1], schema);
    var s :| 1 <= s <= a - 1 && At(log[..a - 1], s).body.SchemaRecorded? && At(log[..a - 1], s).body.schema == schema;
    assert At(log, s) == At(log[..a - 1], s);
  }

  // ---------------------------------------------------------------- exactly the acceptable records

  /** A schema may be recorded exactly under its content id, and a checkpoint, which this
      projection passes over, exactly under a new id; governance has to take either. */
  lemma SchemaAppendExactly(env: Env, log: History, e: AttentionEvent)
    requires Replayable(env, log) && (e.body.SchemaRecorded? || e.body.CheckpointAdvanced?)
    ensures Replayable(env, log + [e]) <==>
            Absent(log, e.id) && env.governs(log, e) && (e.body.SchemaRecorded? ==> e.id == SchemaId(e.body.schema))
  {
    hide Replay;
    var v := Replay(env, log).value;
    ReplayShows(env, log);
    ReplaySnoc(env, log, e);
    AbsentMeans(log, e.id);
    forall p | p in v.policies ensures !Hit(v, p, e) {
      if Hit(v, p, e) { TelemetryIsNeverRecognized(p, e.body, |v.log| + 1, v.policies[p].sequence); }
    }
  }

  /** A policy may be recorded exactly under its content id, behind its schema, over at least one
      event type, none of them telemetry; a governed one names information fields, which are no
      features, and an ungoverned one names none. */
  lemma PolicyAppendExactly(env: Env, log: History, e: AttentionEvent)
    requires Replayable(env, log) && e.body.PolicyRecorded?
    ensures Replayable(env, log + [e]) <==>
            var p := e.body.policy;
            && e.id == PolicyId(p) && Absent(log, e.id) && env.governs(log, e) && SchemaStands(log, p.schema)
            && (exists t :: t in p.types)
            && (forall t :: t in p.types ==> !StartsWith(t, "attention.") && t != "runtime.consumer_checkpoint_advanced")
            && (if p.governed then exists field :: field in p.informationFields else p.informationFields == {})
            && (forall field :: field in p.informationFields ==> field !in p.schema.features)
  {
    hide Replay;
    var v, p := Replay(env, log).value, e.body.policy;
    ReplayShows(env, log);
    ReplaySnoc(env, log, e);
    AbsentMeans(log, e.id);
    SchemasAreTheRecordedOnes(env, log, p.schema);
    assert Readable(env, v, e);
    forall t ensures "attention." <= t <==> StartsWith(t, "attention.") {
    }
    assert p.types != {} <==> exists t :: t in p.types;
    assert p.informationFields != {} <==> exists field :: field in p.informationFields;
  }

  ghost predicate Absent(log: History, id: Id) {
    forall s :: 1 <= s <= |log| ==> At(log, s).id != id
  }

  lemma AbsentMeans(log: History, id: Id)
    ensures Absent(log, id) <==> SequenceOf(log, id) == 0
  {
    AbsentIs(log, id);
    if Absent(log, id) {
      assert forall i :: 0 <= i < |log| ==> log[i] == At(log, i + 1);
    }
  }

  /** A disposition may be recorded exactly when it cites the current head and an opportunity
      recognized before its causal cut, the features and information of a governed one are those
      of its source, the snapshot can be checked, nothing was decided before its source happened,
      and every cited event lies within the cut. */
  lemma DispositionAppendExactly(env: Env, log: History, e: AttentionEvent)
    requires Replayable(env, log) && e.body.DispositionRecorded?
    ensures Replayable(env, log + [e]) <==>
            var r := e.body.record;
            && e.id == DispositionId(r.key) && Absent(log, e.id) && env.governs(log, e)
            && r.head == |log| && RecognizedAt(log, r.key, r.sourceSequence) && r.sourceSequence <= r.decision.cursor <= |log|
            && env.complete(r.key.schema, r.decision.features).Some?
            && (r.key.policy.governed && r.governed ==>
                  env.extract(r.key.policy, At(log, r.sourceSequence).body.payload) == Some(Facts(r.decision.features, r.decision.information)))
            && TimeOf(At(log, r.sourceSequence).body) <= r.decision.decidedAt
            && forall i :: 0 <= i < |r.decision.refs| ==> Occurs(log, r.decision.refs[i], r.decision.cursor)
  {
    hide Replay, Recognizes, DispositionAccepted, Shows, SequenceOf, CitedBy, RecognizedAt, SchemaStands;
    var v, r := Replay(env, log).value, e.body.record;
    ReplayShows(env, log);
    ReplaySnoc(env, log, e);
    AbsentMeans(log, e.id);
    UndecidedWhileAbsent(v, e);
    assert Readable(env, v, e);
    if r.key !in v.dispositions { AcceptedOnTheLog(env, log, r); }
  }

  lemma AcceptedOnTheLog(env: Env, log: History, r: Disposition)
    requires Replayable(env, log) && r.key !in Replay(env, log).value.dispositions
    ensures DispositionAccepted(env, Replay(env, log).value, r) <==>
            && r.head == |log| && RecognizedAt(log, r.key, r.sourceSequence) && r.sourceSequence <= r.decision.cursor <= |log|
            && env.complete(r.key.schema, r.decision.features).Some?
            && (r.key.policy.governed && r.governed ==>
                  env.extract(r.key.policy, At(log, r.sourceSequence).body.payload) == Some(Facts(r.decision.features, r.decision.information)))
            && TimeOf(At(log, r.sourceSequence).body) <= r.decision.decidedAt
            && forall i :: 0 <= i < |r.decision.refs| ==> Occurs(log, r.decision.refs[i], r.decision.cursor)
  {
    hide Replay, DispositionAccepted, SequenceOf, CitedBy, Occurs, Indexes, ShowsRecognized, UniqueIds, RecognizedAt, SchemaStands;
    ReplayShows(env, log);
    RecognizedAtExactly(env, log, r.key, r.sourceSequence);
    if RecognizedAt(log, r.key, r.sourceSequence) { SchemasAreTheRecordedOnes(env, log, r.key.schema); }
    RefsAreCited(log, r.decision.refs, r.decision.cursor);
    AcceptedOnItsView(env, Replay(env, log).value, r);
  }

  lemma AcceptedOnItsView(env: Env, v: View, r: Disposition)
    requires Shows(v) && r.key !in v.dispositions && (r.key in v.recognized && v.recognized[r.key].sequence == r.sourceSequence ==> r.key.schema in v.schemas)
    ensures DispositionAccepted(env, v, r) <==>
            && r.head == |v.log| && r.key in v.recognized && v.recognized[r.key].sequence == r.sourceSequence
            && r.sourceSequence <= r.decision.cursor <= |v.log|
            && env.complete(r.key.schema, r.decision.features).Some?
            && (r.key.policy.governed && r.governed ==> v.recognized[r.key].facts == Facts(r.decision.features, r.decision.information))
            && TimeOf(At(v.log, r.sourceSequence).body) <= r.decision.decidedAt
            && forall i :: 0 <= i < |r.decision.refs| ==> CitedBy(v.log, r.decision.refs[i], r.decision.cursor)
  {
    hide Recognizes, SequenceOf, CitedBy, Indexes, UniqueIds, TimeOf, ExactlyRecognized;
    if r.key in v.recognized { assert Locates(v.log, r.key, v.recognized[r.key]); }
  }

  lemma RefsAreCited(log: History, refs: seq<Id>, cursor: nat)
    requires UniqueIds(log)
    ensures cursor <= |log| ==>
              ((forall i :: 0 <= i < |refs| ==> CitedBy(log, refs[i], cursor)) <==> (forall i :: 0 <= i < |refs| ==> Occurs(log, refs[i], cursor)))
  {
    hide UniqueIds, CitedBy, Occurs;
    if cursor <= |log| {
      forall i | 0 <= i < |refs| ensures CitedBy(log, refs[i], cursor) <==> Occurs(log, refs[i], cursor) {
        CitedMeans(log, refs[i], cursor);
      }
    }
  }

  ghost predicate Occurs(log: History, id: Id, cursor: nat) {
    exists s :: 1 <= s <= cursor && s <= |log| && At(log, s).id == id
  }

  lemma CitedMeans(log: History, ref: Id, cursor: nat)
    requires UniqueIds(log) && cursor <= |log|
    ensures CitedBy(log, ref, cursor) <==> Occurs(log, ref, cursor)
  {
    if s :| 1 <= s <= cursor && s <= |log| && At(log, s).id == ref { SequenceOfIs(log, s); }
    if CitedBy(log, ref, cursor) { assert At(log, SequenceOf(log, ref)).id == ref; }
  }

  lemma UndecidedWhileAbsent(v: View, e: AttentionEvent)
    requires Shows(v)
    ensures Absent(v.log, e.id) ==>
              && (e.body.DispositionRecorded? && e.id == DispositionId(e.body.record.key) ==> e.body.record.key !in v.dispositions)
              && (e.body.OutcomeLinked? && e.id == OutcomeId(e.body.link.key) ==> e.body.link.key !in v.outcomes)
              && (e.body.FeedbackRecorded? && e.id == FeedbackId(e.body.feedback.key) ==> e.body.feedback.key !in v.feedback)
  {
    hide SequenceOf, ShowsRecognized;
  }

  /** The disposition of this key at d, and behind it at q the cited event, no earlier than the decision. */
  ghost predicate Answers(log: History, k: Key, source: Id, d: nat, q: nat) {
    && 1 <= d < q <= |log| && At(log, d).body.DispositionRecorded? && At(log, d).body.record.key == k
    && At(log, q).id == source && At(log, d).body.record.decision.decidedAt <= TimeOf(At(log, q).body)
  }

  lemma FollowsExactly(env: Env, log: History, k: Key, source: Id, d: nat, q: nat)
    requires Replayable(env, log)
    ensures var v := Replay(env, log).value;
            Answers(log, k, source, d, q) <==>
              Follows(v, k, source) && d == v.dispositions[k].sequence && q == SequenceOf(log, source)
    ensures Answers(log, k, source, d, q) ==> Replay(env, log).value.dispositions[k].record == At(log, d).body.record
  {
    hide Replay;
    var v := Replay(env, log).value;
    ReplayShows(env, log);
    if Answers(log, k, source, d, q) {
      DispositionIsIndexed(env, log, d);
      SequenceOfIs(log, q);
    }
    if k in v.dispositions {
      assert ReadDisposition(At(log, v.dispositions[k].sequence)) == Some((k, v.dispositions[k].record));
    }
  }

  /** An outcome may be linked exactly at the current head, to an event that lies behind the
      disposition in the log and in time, observed no earlier than that event and recorded no
      earlier than observed, and it inherits what the disposition was derived from. */
  lemma OutcomeAppendExactly(env: Env, log: History, e: AttentionEvent)
    requires Replayable(env, log) && e.body.OutcomeLinked?
    ensures Replayable(env, log + [e]) <==>
            var l := e.body.link;
            && e.id == OutcomeId(l.key) && Absent(log, e.id) && env.governs(log, e) && l.head == |log|
            && exists d, q :: Answers(log, l.key, l.source, d, q) && TimeOf(At(log, q).body) <= l.observedAt <= l.recordedAt
                 && At(log, d).body.record.derived in l.information
  {
    hide Replay;
    var v, l := Replay(env, log).value, e.body.link;
    ReplayShows(env, log);
    ReplaySnoc(env, log, e);
    AbsentMeans(log, e.id);
    assert Readable(env, v, e);
    UndecidedWhileAbsent(v, e);
    hide Answers, Shows;
    forall d, q ensures Answers(log, l.key, l.source, d, q) <==>
                          Follows(v, l.key, l.source) && d == v.dispositions[l.key].sequence && q == SequenceOf(log, l.source)
    {
      FollowsExactly(env, log, l.key, l.source, d, q);
    }
    if Follows(v, l.key, l.source) {
      FollowsExactly(env, log, l.key, l.source, v.dispositions[l.key].sequence, SequenceOf(log, l.source));
    }
  }

  /** Feedback may be recorded exactly under the same conditions, with its own time. */
  lemma FeedbackAppendExactly(env: Env, log: History, e: AttentionEvent)
    requires Replayable(env, log) && e.body.FeedbackRecorded?
    ensures Replayable(env, log + [e]) <==>
            var f := e.body.feedback;
            && e.id == FeedbackId(f.key) && Absent(log, e.id) && env.governs(log, e) && f.head == |log|
            && exists d, q :: Answers(log, f.key.disposition, f.key.source, d, q) && TimeOf(At(log, q).body) <= f.recordedAt
                 && At(log, d).body.record.derived in f.information
  {
    hide Replay;
    var v, f := Replay(env, log).value, e.body.feedback;
    ReplayShows(env, log);
    ReplaySnoc(env, log, e);
    AbsentMeans(log, e.id);
    assert Readable(env, v, e);
    UndecidedWhileAbsent(v, e);
    hide Answers, Shows;
    var k := f.key.disposition;
    forall d, q ensures Answers(log, k, f.key.source, d, q) <==>
                          Follows(v, k, f.key.source) && d == v.dispositions[k].sequence && q == SequenceOf(log, f.key.source)
    {
      FollowsExactly(env, log, k, f.key.source, d, q);
    }
    if Follows(v, k, f.key.source) {
      FollowsExactly(env, log, k, f.key.source, v.dispositions[k].sequence, SequenceOf(log, f.key.source));
    }
  }
}
