/** The audit of the exposure denominator over a range of sequences. */
module AttentionAudit {
  import opened Basics
  import opened EventLog
  import opened Attention
  import opened Sequences

  /** Whether an outcome resolves its opportunity, for better or worse, or leaves it censored. */
  predicate Resolves(outcome: Outcome) {
    outcome in {TimelyUserDecision, HandledWithinWindow} || outcome in {MissedOpportunity, FalseWake, FalseSuppression}
  }

  datatype Audit = Audit(
    recognized: seq<Opportunity>,
    records: seq<Disposition>,
    missing: seq<Opportunity>,
    complete: seq<Key>,
    incomplete: seq<Key>,
    resolved: seq<Key>,
    censored: seq<Key>,
    feedbackObserved: seq<Key>)
  {
    predicate DenominatorComplete() { recognized != [] && missing == [] }
  }

  datatype AuditResult = Audited(audit: Audit) | StartNotPositive | EndPrecedesStart

  /** The recognized opportunities of one policy and schema, in canonical order. */
  function Recognized(v: View, p: Policy, schema: Schema, start: nat, end: nat): seq<Opportunity> {
    if end < start || end == 0 then []
    else
      var before := Recognized(v, p, schema, start, end - 1);
      if end <= |v.log| && Key(At(v.log, end).id, p, schema) in v.recognized
      then before + [v.recognized[Key(At(v.log, end).id, p, schema)]]
      else before
  }

  function Records(v: View, recognized: seq<Opportunity>): seq<Disposition> {
    if recognized == [] then []
    else
      var o := recognized[|recognized| - 1];
      Records(v, recognized[..|recognized| - 1]) + if o.key in v.dispositions then [v.dispositions[o.key].record] else []
  }

  function KeysOf(records: seq<Disposition>): (keys: seq<Key>)
    ensures |keys| == |records| && forall i :: 0 <= i < |records| ==> keys[i] == records[i].key
  {
    seq(|records|, i requires 0 <= i < |records| => records[i].key)
  }

  function SourcesOf(recognized: seq<Opportunity>): (keys: seq<Key>)
    ensures |keys| == |recognized| && forall i :: 0 <= i < |recognized| ==> keys[i] == recognized[i].key
  {
    seq(|recognized|, i requires 0 <= i < |recognized| => recognized[i].key)
  }

  predicate FeatureComplete(v: View, r: Disposition) { r.key in v.complete && v.complete[r.key] }

  predicate Resolved(v: View, r: Disposition) {
    r.key in v.outcomes && Resolves(v.outcomes[r.key].record.outcome)
  }

  predicate HasFeedback(v: View, r: Disposition) {
    exists f :: f in v.feedback && f.disposition == r.key
  }

  function AuditOf(v: View, p: Policy, schema: Schema, start: nat, end: nat): Audit {
    var recognized := Recognized(v, p, schema, start, end);
    var records := Records(v, recognized);
    var recordKeys := KeysOf(records);
    Audit(
      recognized,
      records,
      Select(recognized, (o: Opportunity) => o.key !in recordKeys),
      KeysOf(Select(records, r => FeatureComplete(v, r))),
      KeysOf(Select(records, r => !FeatureComplete(v, r))),
      KeysOf(Select(records, r => Resolved(v, r))),
      KeysOf(Select(records, r => !Resolved(v, r))),
      KeysOf(Select(records, r => HasFeedback(v, r))))
  }

  /** An omitted end is the cursor of the projection. */
  function RunAudit(v: View, p: Policy, schema: Schema, start: int, end: Option<int>): AuditResult {
    var last := if end.Some? then end.value else |v.log|;
    if start <= 0 then StartNotPositive
    else if last < start then EndPrecedesStart
    else Audited(AuditOf(v, p, schema, start, last))
  }

  lemma {:induction false} RecordsAppend(v: View, a: seq<Opportunity>, b: seq<Opportunity>)
    ensures Records(v, a + b) == Records(v, a) + Records(v, b)
  {
    if b == [] {
      assert a + b == a;
    } else {
      RecordsAppend(v, a, b[..|b| - 1]);
      assert (a + b)[..|a + b| - 1] == a + b[..|b| - 1];
    }
  }

  lemma KeysAppend(a: seq<Disposition>, b: seq<Disposition>)
    ensures KeysOf(a + b) == KeysOf(a) + KeysOf(b)
  {
  }

  // ---------------------------------------------------------------- what an audit means

  /** The denominator of an audit is exactly the recognized opportunities of its policy and
      schema in its range, each once, in canonical order. */
  lemma RecognizedIsExact(v: View, p: Policy, schema: Schema, start: nat, end: nat, o: Opportunity)
    requires Shows(v)
    ensures var r := Recognized(v, p, schema, start, end);
            && (o in r <==> o.key in v.recognized && v.recognized[o.key] == o && o.key.policy == p && o.key.schema == schema
                            && start <= o.sequence <= end)
            && (forall i, j :: 0 <= i < j < |r| ==> r[i].sequence < r[j].sequence)
  {
    RecognizedMembers(v, p, schema, start, end, o);
    RecognizedOrdered(v, p, schema, start, end);
  }

  lemma {:induction false} RecognizedMembers(v: View, p: Policy, schema: Schema, start: nat, end: nat, o: Opportunity)
    requires Shows(v)
    ensures o in Recognized(v, p, schema, start, end) <==>
            o.key in v.recognized && v.recognized[o.key] == o && o.key.policy == p && o.key.schema == schema && start <= o.sequence <= end
  {
    hide Shows, Locates;
    if o.key in v.recognized && v.recognized[o.key] == o { OwnSequence(v, o.key); }
    if end >= start && end != 0 {
      RecognizedMembers(v, p, schema, start, end - 1, o);
      if end <= |v.log| && Key(At(v.log, end).id, p, schema) in v.recognized { LocatedAtOwnSequence(v, p, schema, end); }
    }
  }

  lemma {:induction false} RecognizedOrdered(v: View, p: Policy, schema: Schema, start: nat, end: nat)
    requires Shows(v)
    ensures forall i :: 0 <= i < |Recognized(v, p, schema, start, end)| ==> Recognized(v, p, schema, start, end)[i].sequence <= end
    ensures forall i, j :: 0 <= i < j < |Recognized(v, p, schema, start, end)| ==>
              Recognized(v, p, schema, start, end)[i].sequence < Recognized(v, p, schema, start, end)[j].sequence
  {
    hide Shows, Locates;
    if end >= start && end != 0 {
      RecognizedOrdered(v, p, schema, start, end - 1);
      var before, r := Recognized(v, p, schema, start, end - 1), Recognized(v, p, schema, start, end);
      assert forall i :: 0 <= i < |before| ==> before[i].sequence < end;
      if r != before {
        LocatedAtOwnSequence(v, p, schema, end);
        assert r == before + [v.recognized[Key(At(v.log, end).id, p, schema)]];
      }
    }
  }

  lemma OwnSequence(v: View, k: Key)
    requires Shows(v) && k in v.recognized
    ensures 1 <= v.recognized[k].sequence <= |v.log| && k.source == At(v.log, v.recognized[k].sequence).id
  {
    assert Locates(v.log, k, v.recognized[k]);
  }

  lemma LocatedAtOwnSequence(v: View, p: Policy, schema: Schema, s: nat)
    requires Shows(v) && 1 <= s <= |v.log| && Key(At(v.log, s).id, p, schema) in v.recognized
    ensures var k := Key(At(v.log, s).id, p, schema); v.recognized[k].key == k && v.recognized[k].sequence == s
  {
    var k := Key(At(v.log, s).id, p, schema);
    assert Locates(v.log, k, v.recognized[k]);
  }

  lemma RecordKey(v: View, k: Key)
    requires Shows(v)
    ensures k in v.dispositions ==> v.dispositions[k].record.key == k
  {
    if k in v.dispositions {
      assert ReadDisposition(At(v.log, v.dispositions[k].sequence)) == Some((k, v.dispositions[k].record));
    }
  }

  lemma RecordsAreTheDispositions(v: View, recognized: seq<Opportunity>, o: Opportunity)
    requires Shows(v) && o in recognized
    ensures o.key in KeysOf(Records(v, recognized)) <==> o.key in v.dispositions
  {
    hide Shows, Records, Select;
    var decided := (o: Opportunity) => o.key in v.dispositions;
    var chosen := Select(recognized, decided);
    RecordsAreSelected(v, recognized);
    SelectMembers(recognized, decided, o);
    if o.key in v.dispositions {
      var i :| 0 <= i < |chosen| && chosen[i] == o;
      assert SourcesOf(chosen)[i] == o.key;
    }
    if o.key in KeysOf(Records(v, recognized)) {
      var i :| 0 <= i < |chosen| && SourcesOf(chosen)[i] == o.key;
      SelectMembers(recognized, decided, chosen[i]);
    }
  }

  /** Missing means exactly: recognized, but without a disposition. */
  lemma MissingIsUndecided(v: View, p: Policy, schema: Schema, start: nat, end: nat)
    requires Shows(v)
    ensures AuditOf(v, p, schema, start, end).missing
            == Select(Recognized(v, p, schema, start, end), (o: Opportunity) => o.key !in v.dispositions)
  {
    var recognized := Recognized(v, p, schema, start, end);
    var recordKeys := KeysOf(Records(v, recognized));
    forall o | o in recognized ensures (o.key !in recordKeys) == (o.key !in v.dispositions) {
      RecordsAreTheDispositions(v, recognized, o);
    }
    SelectAgrees(recognized, (o: Opportunity) => o.key !in recordKeys, (o: Opportunity) => o.key !in v.dispositions);
  }

  lemma {:induction false} RecordsAreSelected(v: View, recognized: seq<Opportunity>)
    requires Shows(v)
    ensures KeysOf(Records(v, recognized)) == SourcesOf(Select(recognized, (o: Opportunity) => o.key in v.dispositions))
  {
    if recognized != [] {
      RecordsAreSelected(v, recognized[..|recognized| - 1]);
      RecordKey(v, recognized[|recognized| - 1].key);
    }
  }

  // ---------------------------------------------------------------- the audit, read off the log

  /** The disposition of this key, at position t, on a source in the range. */
  ghost predicate ListedAt(log: History, k: Key, p: Policy, schema: Schema, start: nat, end: nat, t: nat) {
    && 1 <= t <= |log| && At(log, t).body.DispositionRecorded? && At(log, t).body.record.key == k
    && k.policy == p && k.schema == schema && start <= At(log, t).body.record.sourceSequence <= end
  }

  lemma {:induction false} RecordMembers(v: View, recognized: seq<Opportunity>, r: Disposition)
    ensures r in Records(v, recognized) <==> exists o :: o in recognized && o.key in v.dispositions && v.dispositions[o.key].record == r
  {
    if recognized != [] {
      var n := |recognized| - 1;
      RecordMembers(v, recognized[..n], r);
      assert recognized == recognized[..n] + [recognized[n]];
    }
  }

  lemma KeyIsSelected(records: seq<Disposition>, keep: Disposition -> bool, k: Key)
    ensures k in KeysOf(Select(records, keep)) <==> exists r :: r in records && keep(r) && r.key == k
  {
    var kept := Select(records, keep);
    forall r ensures r in kept <==> r in records && keep(r) { SelectMembers(records, keep, r); }
    if k in KeysOf(kept) {
      var i :| 0 <= i < |kept| && KeysOf(kept)[i] == k;
      assert kept[i] in kept;
    }
    if r :| r in records && keep(r) && r.key == k {
      var i :| 0 <= i < |kept| && kept[i] == r;
      assert KeysOf(kept)[i] == k;
    }
  }

  /** A recorded disposition names the position at which its opportunity was recognized. */
  lemma SourceIsRecognized(env: Env, log: History, t: nat)
    requires Replayable(env, log) && 1 <= t <= |log| && At(log, t).body.DispositionRecorded?
    ensures var v, r := Replay(env, log).value, At(log, t).body.record;
            && r.key in v.dispositions && v.dispositions[r.key] == Entry(r, t)
            && r.key in v.recognized && v.recognized[r.key].key == r.key && v.recognized[r.key].sequence == r.sourceSequence
  {
    var v, r := Replay(env, log).value, At(log, t).body.record;
    ReplayShows(env, log);
    DispositionIsIndexed(env, log, t);
    DispositionsAreExact(env, log, t);
    RecognizedExactly(env, log, r.key);
    assert Locates(log, r.key, v.recognized[r.key]);
    OnePosition(log, v.recognized[r.key].sequence, r.sourceSequence);
  }

  lemma RecordIsListed(env: Env, log: History, p: Policy, schema: Schema, start: nat, end: nat, o: Opportunity)
    requires Replayable(env, log)
    requires var v := Replay(env, log).value; o in Recognized(v, p, schema, start, end) && o.key in v.dispositions
    ensures var e := Replay(env, log).value.dispositions[o.key];
            e.record.key == o.key && ListedAt(log, o.key, p, schema, start, end, e.sequence) && At(log, e.sequence).body.record == e.record
  {
    var v := Replay(env, log).value;
    var t := v.dispositions[o.key].sequence;
    ReplayShows(env, log);
    RecognizedIsExact(v, p, schema, start, end, o);
    assert ReadDisposition(At(log, t)) == Some((o.key, v.dispositions[o.key].record)) && 1 <= t <= |log|;
    hide Replay, Recognized, Replayable, Shows;
    SourceIsRecognized(env, log, t);
  }

  lemma ListedIsRecognized(env: Env, log: History, p: Policy, schema: Schema, start: nat, end: nat, k: Key, t: nat)
    requires Replayable(env, log) && ListedAt(log, k, p, schema, start, end, t)
    ensures var v, r := Replay(env, log).value, At(log, t).body.record;
            && k in v.dispositions && v.dispositions[k].record == r && k in v.recognized
            && v.recognized[k].key == k && v.recognized[k] in Recognized(v, p, schema, start, end)
  {
    hide Replay, Recognized;
    var v := Replay(env, log).value;
    ReplayShows(env, log);
    SourceIsRecognized(env, log, t);
    RecognizedIsExact(v, p, schema, start, end, v.recognized[k]);
  }

  /** The records of an audit are exactly the dispositions of its policy and schema in the log
      whose sources lie in the range. */
  lemma RecordsAreExact(env: Env, log: History, p: Policy, schema: Schema, start: nat, end: nat, r: Disposition)
    requires Replayable(env, log)
    ensures r in AuditOf(Replay(env, log).value, p, schema, start, end).records <==>
            exists t :: ListedAt(log, r.key, p, schema, start, end, t) && At(log, t).body.record == r
  {
    var v := Replay(env, log).value;
    var recognized := Recognized(v, p, schema, start, end);
    RecordMembers(v, recognized, r);
    assert AuditOf(v, p, schema, start, end).records == Records(v, recognized);
    ReplayShows(env, log);
    hide *;
    if o :| o in recognized && o.key in v.dispositions && v.dispositions[o.key].record == r {
      RecordIsListed(env, log, p, schema, start, end, o);
    }
    if t :| ListedAt(log, r.key, p, schema, start, end, t) && At(log, t).body.record == r {
      ListedIsRecognized(env, log, p, schema, start, end, r.key, t);
    }
  }

  lemma CompleteStep(env: Env, v: View, e: AttentionEvent, k: Key)
    requires Readable(env, v, e) && k in Advance(env, v, e).dispositions
    ensures var w := Advance(env, v, e);
            if e.body.DispositionRecorded? && e.body.record.key == k
            then var r := e.body.record;
                 w.dispositions[k].record == r && k in w.complete
                 && w.complete[k] == (r.key.policy.governed && r.governed && env.complete(r.key.schema, r.decision.features) == Some(true))
            else k in v.dispositions && w.dispositions[k] == v.dispositions[k] && (k in v.complete ==> k in w.complete && w.complete[k] == v.complete[k])
  {
    hide Readable, NewOpportunities, NextPolicies, NextOutcomes, NextFeedback;
  }

  /** What the projection keeps about the features of a disposition. */
  lemma {:induction false} CompleteMeans(env: Env, log: History, k: Key)
    requires Replayable(env, log) && k in Replay(env, log).value.dispositions
    ensures var v := Replay(env, log).value;
            var r := v.dispositions[k].record;
            k in v.complete && v.complete[k] == (r.key.policy.governed && r.governed && env.complete(r.key.schema, r.decision.features) == Some(true))
  {
    if log != [] {
      var n := |log| - 1;
      ReplayStep(env, log);
      var before := Replay(env, log[..n]).value;
      assert Readable(env, before, log[n]);
      hide *;
      CompleteStep(env, before, log[n], k);
      if !(log[n].body.DispositionRecorded? && log[n].body.record.key == k) { CompleteMeans(env, log[..n], k); }
    }
  }

  /** Every field of an audit, read off the events of the log. A key is listed when the log holds
      its disposition, for the audited policy and schema, on a source in the range. A listed key
      is complete when policy and record are governed and the features of that record satisfy
      the schema, resolved when an outcome other than an unknown one is linked to it, and has
      feedback observed when a feedback event names it. */
  lemma AuditIsExact(env: Env, log: History, p: Policy, schema: Schema, start: nat, end: nat, k: Key)
    requires Replayable(env, log)
    ensures var a := AuditOf(Replay(env, log).value, p, schema, start, end);
            var linked := exists u :: 1 <= u <= |log| && At(log, u).body.OutcomeLinked? && At(log, u).body.link.key == k && At(log, u).body.link.outcome != Unknown;
            var observed := exists u :: 1 <= u <= |log| && At(log, u).body.FeedbackRecorded? && At(log, u).body.feedback.key.disposition == k;
            var listed := exists t :: ListedAt(log, k, p, schema, start, end, t);
            && (k in KeysOf(a.records) <==> listed)
            && (k in a.resolved <==> listed && linked)
            && (k in a.censored <==> listed && !linked)
            && (k in a.feedbackObserved <==> listed && observed)
    ensures var a := AuditOf(Replay(env, log).value, p, schema, start, end);
            && (k in a.complete <==>
                  (exists t :: ListedAt(log, k, p, schema, start, end, t)
                               && p.governed && At(log, t).body.record.governed && env.complete(schema, At(log, t).body.record.decision.features) == Some(true)))
            && (k in a.incomplete <==>
                  (exists t :: ListedAt(log, k, p, schema, start, end, t)
                               && !(p.governed && At(log, t).body.record.governed && env.complete(schema, At(log, t).body.record.decision.features) == Some(true))))
  {
    var v := Replay(env, log).value;
    ListedOnce(env, log, p, schema, start, end, k);
    ResolvedMeans(env, log, k);
    FeedbackMeans(env, log, k);
    FieldsAre(v, p, schema, start, end, k);
    hide *;
  }

  lemma FieldsAre(v: View, p: Policy, schema: Schema, start: nat, end: nat, k: Key)
    ensures var a := AuditOf(v, p, schema, start, end);
            && (k in KeysOf(a.records) <==> exists r :: r in a.records && r.key == k)
            && (k in a.complete <==> exists r :: r in a.records && FeatureComplete(v, r) && r.key == k)
            && (k in a.incomplete <==> exists r :: r in a.records && !FeatureComplete(v, r) && r.key == k)
            && (k in a.resolved <==> exists r :: r in a.records && Resolved(v, r) && r.key == k)
            && (k in a.censored <==> exists r :: r in a.records && !Resolved(v, r) && r.key == k)
            && (k in a.feedbackObserved <==> exists r :: r in a.records && HasFeedback(v, r) && r.key == k)
  {
    var a := AuditOf(v, p, schema, start, end);
    KeyIsSelected(a.records, r => FeatureComplete(v, r), k);
    KeyIsSelected(a.records, r => !FeatureComplete(v, r), k);
    KeyIsSelected(a.records, r => Resolved(v, r), k);
    KeyIsSelected(a.records, r => !Resolved(v, r), k);
    KeyIsSelected(a.records, r => HasFeedback(v, r), k);
    hide Recognized, Records, Select, FeatureComplete, Resolved, HasFeedback;
    if r :| r in a.records && r.key == k {
      var i :| 0 <= i < |a.records| && a.records[i] == r;
      assert KeysOf(a.records)[i] == k;
    }
    if k in KeysOf(a.records) {
      var i :| 0 <= i < |a.records| && KeysOf(a.records)[i] == k;
      assert a.records[i] in a.records;
    }
  }

  /** A key is listed at most once, and then by the record that the projection holds for it. */
  lemma ListedOnce(env: Env, log: History, p: Policy, schema: Schema, start: nat, end: nat, k: Key)
    requires Replayable(env, log)
    ensures var v := Replay(env, log).value;
            var a := AuditOf(v, p, schema, start, end);
            && (forall r :: r in a.records && r.key == k ==>
                  exists t :: ListedAt(log, k, p, schema, start, end, t) && At(log, t).body.record == r)
            && (forall t :: ListedAt(log, k, p, schema, start, end, t) ==>
                  var r := At(log, t).body.record;
                  && r in a.records && (forall q :: q in a.records && q.key == k ==> q == r)
                  && (FeatureComplete(v, r) <==> p.governed && r.governed && env.complete(schema, r.decision.features) == Some(true)))
  {
    var v := Replay(env, log).value;
    var a := AuditOf(v, p, schema, start, end);
    forall r | r in a.records && r.key == k
      ensures exists t :: ListedAt(log, k, p, schema, start, end, t) && At(log, t).body.record == r
    {
      RecordsAreExact(env, log, p, schema, start, end, r);
    }
    forall t | ListedAt(log, k, p, schema, start, end, t)
      ensures var r := At(log, t).body.record;
              && r in a.records && (forall q :: q in a.records && q.key == k ==> q == r)
              && (FeatureComplete(v, r) <==> p.governed && r.governed && env.complete(schema, r.decision.features) == Some(true))
    {
      var r := At(log, t).body.record;
      RecordsAreExact(env, log, p, schema, start, end, r);
      SourceIsRecognized(env, log, t);
      CompleteMeans(env, log, k);
      forall q | q in a.records && q.key == k ensures q == r {
        RecordsAreExact(env, log, p, schema, start, end, q);
        var u :| ListedAt(log, k, p, schema, start, end, u) && At(log, u).body.record == q;
        SourceIsRecognized(env, log, u);
      }
    }
  }

  lemma ResolvedMeans(env: Env, log: History, k: Key)
    requires Replayable(env, log)
    ensures var v := Replay(env, log).value;
            forall r: Disposition :: r.key == k ==>
              (Resolved(v, r) <==> exists u :: 1 <= u <= |log| && At(log, u).body.OutcomeLinked? && At(log, u).body.link.key == k && At(log, u).body.link.outcome != Unknown)
  {
    var v := Replay(env, log).value;
    ReplayShows(env, log);
    if k in v.outcomes {
      var u := v.outcomes[k].sequence;
      assert ReadLink(At(log, u)) == Some((k, v.outcomes[k].record));
    }
    forall u | 1 <= u <= |log| && At(log, u).body.OutcomeLinked? && At(log, u).body.link.key == k
      ensures k in v.outcomes && v.outcomes[k].record == At(log, u).body.link
    {
      LinkIsIndexed(env, log, u);
    }
  }

  lemma FeedbackMeans(env: Env, log: History, k: Key)
    requires Replayable(env, log)
    ensures var v := Replay(env, log).value;
            forall r: Disposition :: r.key == k ==>
              (HasFeedback(v, r) <==> exists u :: 1 <= u <= |log| && At(log, u).body.FeedbackRecorded? && At(log, u).body.feedback.key.disposition == k)
  {
    var v := Replay(env, log).value;
    ReplayShows(env, log);
    forall f | f in v.feedback ensures At(log, v.feedback[f].sequence).body.FeedbackRecorded? && At(log, v.feedback[f].sequence).body.feedback.key == f
                                       && 1 <= v.feedback[f].sequence <= |log|
    {
      assert ReadFeedback(At(log, v.feedback[f].sequence)) == Some((f, v.feedback[f].record));
    }
    forall u | 1 <= u <= |log| && At(log, u).body.FeedbackRecorded? ensures At(log, u).body.feedback.key in v.feedback {
      FeedbackIsIndexed(env, log, u);
    }
  }

  /** An audit goes through exactly for a range that starts at a position and does not end before
      it, and without bounds it covers everything that was recognized for its policy and schema. */
  lemma AuditCoversItsRange(env: Env, log: History, p: Policy, schema: Schema, start: int, end: Option<int>, o: Opportunity)
    requires Replayable(env, log)
    ensures var v := Replay(env, log).value;
            var result := RunAudit(v, p, schema, start, end);
            && (result.Audited? <==> start >= 1 && (end.Some? ==> start <= end.value) && (end.None? ==> start <= |log|))
            && (result.Audited? ==>
                  (o in result.audit.recognized <==>
                     && o.key in v.recognized && v.recognized[o.key] == o && o.key.policy == p && o.key.schema == schema
                     && start <= o.sequence && (end.Some? ==> o.sequence <= end.value)))
  {
    var v := Replay(env, log).value;
    ReplayShows(env, log);
    if start >= 1 && start <= (if end.Some? then end.value else |log|) {
      RecognizedIsExact(v, p, schema, start, if end.Some? then end.value else |log|, o);
      if o.key in v.recognized { assert Locates(log, o.key, v.recognized[o.key]); }
    }
    hide Replay, Recognized, Records, Select;
  }

  // ---------------------------------------------------------------- how audits split and join

  lemma {:induction false} SourcesPartition(xs: seq<Opportunity>, keep: Opportunity -> bool)
    ensures multiset(SourcesOf(xs)) == multiset(SourcesOf(Select(xs, keep))) + multiset(SourcesOf(Select(xs, x => !keep(x))))
  {
    if xs != [] {
      var n := |xs| - 1;
      SourcesPartition(xs[..n], keep);
      var last := [xs[n]];
      assert xs == xs[..n] + last;
      SourcesAppend(xs[..n], last);
      SourcesAppend(Select(xs[..n], keep), if keep(xs[n]) then last else []);
      SourcesAppend(Select(xs[..n], x => !keep(x)), if keep(xs[n]) then [] else last);
      assert SourcesOf(last) == [xs[n].key];
    }
  }

  lemma SourcesAppend(a: seq<Opportunity>, b: seq<Opportunity>)
    ensures SourcesOf(a + b) == SourcesOf(a) + SourcesOf(b)
  {
  }

  lemma {:induction false} KeysPartition(records: seq<Disposition>, keep: Disposition -> bool)
    ensures multiset(KeysOf(records)) == multiset(KeysOf(Select(records, keep))) + multiset(KeysOf(Select(records, r => !keep(r))))
  {
    if records != [] {
      var n := |records| - 1;
      KeysPartition(records[..n], keep);
      var last := [records[n]];
      assert records == records[..n] + last;
      KeysAppend(records[..n], last);
      KeysAppend(Select(records[..n], keep), if keep(records[n]) then last else []);
      KeysAppend(Select(records[..n], r => !keep(r)), if keep(records[n]) then [] else last);
      assert KeysOf(last) == [records[n].key];
    }
  }

  /** Every audit of a replayable log partitions the recognized opportunities into recorded and
      missing, and the recorded ones into complete and incomplete and into resolved and censored. */
  lemma AuditPartitions(env: Env, log: History, p: Policy, schema: Schema, start: nat, end: nat)
    requires Replayable(env, log)
    ensures var a := AuditOf(Replay(env, log).value, p, schema, start, end);
            && multiset(SourcesOf(a.recognized)) == multiset(KeysOf(a.records)) + multiset(SourcesOf(a.missing))
            && multiset(KeysOf(a.records)) == multiset(a.complete) + multiset(a.incomplete)
            && multiset(KeysOf(a.records)) == multiset(a.resolved) + multiset(a.censored)
  {
    var v := Replay(env, log).value;
    ReplayShows(env, log);
    hide Replay, Shows, Recognized, Records, Select;
    var recognized := Recognized(v, p, schema, start, end);
    var records := Records(v, recognized);
    var decided := (o: Opportunity) => o.key in v.dispositions;
    MissingIsUndecided(v, p, schema, start, end);
    RecordsAreSelected(v, recognized);
    SourcesPartition(recognized, decided);
    SelectAgrees(recognized, x => !decided(x), (o: Opportunity) => o.key !in v.dispositions);
    SelectAgrees(recognized, decided, (o: Opportunity) => o.key in v.dispositions);
    PartitionBy(records, r => FeatureComplete(v, r), r => !FeatureComplete(v, r));
    PartitionBy(records, r => Resolved(v, r), r => !Resolved(v, r));
  }

  lemma PartitionBy(records: seq<Disposition>, keep: Disposition -> bool, drop: Disposition -> bool)
    requires forall r :: r in records ==> drop(r) == !keep(r)
    ensures multiset(KeysOf(records)) == multiset(KeysOf(Select(records, keep))) + multiset(KeysOf(Select(records, drop)))
  {
    KeysPartition(records, keep);
    SelectAgrees(records, r => !keep(r), drop);
  }

  /** The denominator is complete exactly when something was recognized in the range and every
      recognized opportunity in it has a disposition. */
  lemma DenominatorCompleteExactly(env: Env, log: History, p: Policy, schema: Schema, start: nat, end: nat)
    requires Replayable(env, log)
    ensures var v := Replay(env, log).value;
            var a := AuditOf(v, p, schema, start, end);
            a.DenominatorComplete() <==> a.recognized != [] && forall o :: o in a.recognized ==> o.key in v.dispositions
  {
    var v := Replay(env, log).value;
    ReplayShows(env, log);
    MissingIsUndecided(v, p, schema, start, end);
    var a := AuditOf(v, p, schema, start, end);
    if a.missing != [] {
      SelectMembers(a.recognized, (o: Opportunity) => o.key !in v.dispositions, a.missing[0]);
    }
    forall o | o in a.recognized && o.key !in v.dispositions ensures a.missing != [] {
      SelectMembers(a.recognized, (o: Opportunity) => o.key !in v.dispositions, o);
    }
  }

  lemma {:induction false} RecognizedConcatenates(v: View, p: Policy, schema: Schema, start: nat, middle: nat, end: nat)
    requires start <= middle + 1 && middle <= end
    ensures Recognized(v, p, schema, start, end) == Recognized(v, p, schema, start, middle) + Recognized(v, p, schema, middle + 1, end)
  {
    if middle < end {
      RecognizedConcatenates(v, p, schema, start, middle, end - 1);
    }
  }

  lemma SelectedKeysAppend(a: seq<Disposition>, b: seq<Disposition>, keep: Disposition -> bool)
    ensures KeysOf(Select(a + b, keep)) == KeysOf(Select(a, keep)) + KeysOf(Select(b, keep))
  {
    SelectAppend(a, b, keep);
    KeysAppend(Select(a, keep), Select(b, keep));
  }

  function Concatenate(a: Audit, b: Audit): Audit {
    Audit(a.recognized + b.recognized, a.records + b.records, a.missing + b.missing, a.complete + b.complete,
          a.incomplete + b.incomplete, a.resolved + b.resolved, a.censored + b.censored, a.feedbackObserved + b.feedbackObserved)
  }

  /** Audits of two adjacent ranges concatenate, field by field, to the audit of their union. */
  lemma AuditsConcatenate(env: Env, log: History, p: Policy, schema: Schema, start: nat, middle: nat, end: nat)
    requires Replayable(env, log) && start <= middle + 1 && middle <= end
    ensures var v := Replay(env, log).value;
            AuditOf(v, p, schema, start, end)
            == Concatenate(AuditOf(v, p, schema, start, middle), AuditOf(v, p, schema, middle + 1, end))
  {
    var v := Replay(env, log).value;
    ReplayShows(env, log);
    hide Replay, Shows, Recognized, Records, Select;
    var x, y := Recognized(v, p, schema, start, middle), Recognized(v, p, schema, middle + 1, end);
    RecognizedConcatenates(v, p, schema, start, middle, end);
    RecordsAppend(v, x, y);
    MissingIsUndecided(v, p, schema, start, end);
    MissingIsUndecided(v, p, schema, start, middle);
    MissingIsUndecided(v, p, schema, middle + 1, end);
    SelectAppend(x, y, (o: Opportunity) => o.key !in v.dispositions);
    var a, b := Records(v, x), Records(v, y);
    SelectedKeysAppend(a, b, r => FeatureComplete(v, r));
    SelectedKeysAppend(a, b, r => !FeatureComplete(v, r));
    SelectedKeysAppend(a, b, r => Resolved(v, r));
    SelectedKeysAppend(a, b, r => !Resolved(v, r));
    SelectedKeysAppend(a, b, r => HasFeedback(v, r));
  }
}
