/** The attention projection: which events were recognized as opportunities, what was decided
    about each of them, and what followed; rebuilt from the log, and audited. */
module Attention {
  import opened Basics
  import opened EventLog

  type Features = map<string, string>
  type Payload = map<string, string>

  datatype Schema = Schema(version: string, features: set<string>)

  /** `governed` is source-governance contract version 2. */
  datatype Policy = Policy(
    version: string,
    schema: Schema,
    types: set<string>,
    sourcePrefixes: seq<string>,
    subjectPrefixes: seq<string>,
    requiredFields: set<string>,
    informationFields: set<string>,
    governed: bool)

  /** One opportunity: disposition ids are content ids of exactly these fields. */
  datatype Key = Key(source: Id, policy: Policy, schema: Schema)

  datatype FeedbackKey = FeedbackKey(disposition: Key, source: Id, feedback: string, actor: string, provenance: string)

  datatype Id =
    | Named(name: string)
    | SchemaId(schema: Schema)
    | PolicyId(policy: Policy)
    | DispositionId(key: Key)
    | OutcomeId(key: Key)
    | FeedbackId(feedback: FeedbackKey)
    | CheckpointId(checkpoint: Checkpoint)

  datatype Decision = Decision(
    choice: string,
    features: Features,
    information: seq<string>,
    cursor: nat,
    decidedAt: nat,
    refs: seq<Id>)

  datatype Disposition = Disposition(
    key: Key,
    sourceSequence: nat,
    decision: Decision,
    derived: string,
    governed: bool,
    head: nat)

  datatype Outcome = TimelyUserDecision | HandledWithinWindow | MissedOpportunity | FalseWake | FalseSuppression | Unknown

  datatype Link = Link(
    key: Key,
    source: Id,
    outcome: Outcome,
    observedAt: nat,
    recordedAt: nat,
    information: set<string>,
    head: nat)

  datatype Feedback = Feedback(key: FeedbackKey, recordedAt: nat, information: set<string>, head: nat)

  datatype Checkpoint = Checkpoint(consumer: string, completed: nat, observed: nat, epoch: Option<Key>)

  datatype Body =
    | Source(eventType: string, origin: string, subject: string, payload: Payload, time: nat)
    | SchemaRecorded(schema: Schema, recordedAt: nat)
    | PolicyRecorded(policy: Policy, recordedAt: nat)
    | DispositionRecorded(record: Disposition)
    | OutcomeLinked(link: Link)
    | FeedbackRecorded(feedback: Feedback)
    | CheckpointAdvanced(checkpoint: Checkpoint, time: nat)

  type AttentionEvent = Event<Id, Body>
  type History = Log<Id, Body>

  const SCHEMA_RECORDED := "attention.feature_schema_recorded"
  const POLICY_RECORDED := "attention.source_policy_recorded"
  const DISPOSITION_RECORDED := "attention.disposition_recorded"
  const OUTCOME_LINKED := "attention.disposition_outcome_linked"
  const FEEDBACK_RECORDED := "attention.disposition_feedback_recorded"
  const CHECKPOINT_ADVANCED := "runtime.consumer_checkpoint_advanced"

  predicate AttentionType(eventType: string) {
    eventType in [SCHEMA_RECORDED, POLICY_RECORDED, DISPOSITION_RECORDED, OUTCOME_LINKED, FEEDBACK_RECORDED]
  }

  function TypeOf(body: Body): string {
    match body
    case Source(t, _, _, _, _) => t
    case SchemaRecorded(_, _) => SCHEMA_RECORDED
    case PolicyRecorded(_, _) => POLICY_RECORDED
    case DispositionRecorded(_) => DISPOSITION_RECORDED
    case OutcomeLinked(_) => OUTCOME_LINKED
    case FeedbackRecorded(_) => FEEDBACK_RECORDED
    case CheckpointAdvanced(_, _) => CHECKPOINT_ADVANCED
  }

  function TimeOf(body: Body): nat {
    match body
    case Source(_, _, _, _, t) => t
    case SchemaRecorded(_, t) => t
    case PolicyRecorded(_, t) => t
    case DispositionRecorded(r) => r.decision.decidedAt
    case OutcomeLinked(l) => l.recordedAt
    case FeedbackRecorded(f) => f.recordedAt
    case CheckpointAdvanced(_, t) => t
  }

  // ---------------------------------------------------------------- contracts

  /** A policy can only be constructed over event types that are not telemetry. */
  predicate PolicyWellFormed(p: Policy) {
    && p.types != {} && (forall t :: t in p.types ==> !("attention." <= t) && t != CHECKPOINT_ADVANCED)
    && (p.governed <==> p.informationFields != {})
    && p.schema.features !! p.informationFields
  }

  predicate AnyPrefix(prefixes: seq<string>, text: string) {
    prefixes == [] || exists i :: 0 <= i < |prefixes| && prefixes[i] <= text
  }

  predicate Recognizes(p: Policy, body: Body, sequence: nat, activated: nat) {
    && sequence > activated
    && TypeOf(body) in p.types
    && (body.Source? ==>
          && AnyPrefix(p.sourcePrefixes, body.origin)
          && AnyPrefix(p.subjectPrefixes, body.subject)
          && p.requiredFields + p.informationFields <= body.payload.Keys)
  }

  lemma TelemetryIsNeverRecognized(p: Policy, body: Body, sequence: nat, activated: nat)
    requires PolicyWellFormed(p) && Recognizes(p, body, sequence, activated)
    ensures body.Source? && !AttentionType(body.eventType)
  {
    assert "attention." <= SCHEMA_RECORDED && "attention." <= POLICY_RECORDED && "attention." <= DISPOSITION_RECORDED
           && "attention." <= OUTCOME_LINKED && "attention." <= FEEDBACK_RECORDED;
  }

  datatype Facts = Facts(features: Features, information: seq<string>)

  /** What lies outside the projection: reading features and information ids out of a payload
      (None when that raises), checking a feature snapshot (None when that raises, else whether
      it is complete), and the information governance of an event on the log so far. */
  datatype Env = Env(
    extract: (Policy, Payload) -> Option<Facts>,
    complete: (Schema, Features) -> Option<bool>,
    governs: (History, AttentionEvent) -> bool)

  // ---------------------------------------------------------------- the projection

  datatype Opportunity = Opportunity(key: Key, sequence: nat, facts: Facts)
  datatype Entry<R> = Entry(record: R, sequence: nat)

  datatype View = View(
    log: History,
    schemas: set<Schema>,
    policies: map<Policy, Entry<Policy>>,
    recognized: map<Key, Opportunity>,
    dispositions: map<Key, Entry<Disposition>>,
    complete: map<Key, bool>,
    outcomes: map<Key, Entry<Link>>,
    feedback: map<FeedbackKey, Entry<Feedback>>)

  const EMPTY := View([], {}, map[], map[], map[], map[], map[], map[])

  predicate LearningGrade(r: Disposition) { r.key.policy.governed && r.governed }

  predicate CitedBy(log: History, ref: Id, cursor: nat) {
    1 <= SequenceOf(log, ref) <= cursor
  }

  predicate DispositionAccepted(env: Env, v: View, r: Disposition) {
    && 1 <= r.sourceSequence <= r.decision.cursor <= r.head
    && r.head == |v.log|
    && r.key in v.recognized
    && var o := v.recognized[r.key];
       && o.sequence == r.sourceSequence
       && r.key.schema in v.schemas
       && env.complete(r.key.schema, r.decision.features).Some?
       && (LearningGrade(r) ==> r.decision.features == o.facts.features && r.decision.information == o.facts.information)
       && o.sequence <= |v.log| && TimeOf(At(v.log, o.sequence).body) <= r.decision.decidedAt
       && (forall i :: 0 <= i < |r.decision.refs| ==> CitedBy(v.log, r.decision.refs[i], r.decision.cursor))
       && (r.key in v.dispositions ==> v.dispositions[r.key].record == r)
  }

  /** The event cited by an outcome or a feedback lies strictly behind its disposition. */
  predicate Follows(v: View, key: Key, source: Id) {
    && key in v.dispositions
    && var s := SequenceOf(v.log, source);
       && s > v.dispositions[key].sequence
       && TimeOf(At(v.log, s).body) >= v.dispositions[key].record.decision.decidedAt
  }

  predicate LinkAccepted(v: View, l: Link) {
    && l.observedAt <= l.recordedAt && 1 <= l.head == |v.log|
    && Follows(v, l.key, l.source)
    && l.observedAt >= TimeOf(At(v.log, SequenceOf(v.log, l.source)).body)
    && v.dispositions[l.key].record.derived in l.information
    && (l.key in v.outcomes ==> v.outcomes[l.key].record == l)
  }

  predicate FeedbackAccepted(v: View, f: Feedback) {
    && 1 <= f.head == |v.log|
    && Follows(v, f.key.disposition, f.key.source)
    && f.recordedAt >= TimeOf(At(v.log, SequenceOf(v.log, f.key.source)).body)
    && v.dispositions[f.key.disposition].record.derived in f.information
    && (f.key in v.feedback ==> v.feedback[f.key].record == f)
  }

  /** What reading one event as a record demands: its identity is its content id. */
  predicate BodyAccepted(env: Env, v: View, e: AttentionEvent) {
    match e.body
    case Source(t, _, _, _, _) => !AttentionType(t)
    case SchemaRecorded(s, _) => e.id == SchemaId(s)
    case PolicyRecorded(p, _) => e.id == PolicyId(p) && PolicyWellFormed(p) && p.schema in v.schemas
    case DispositionRecorded(r) => e.id == DispositionId(r.key) && DispositionAccepted(env, v, r)
    case OutcomeLinked(l) => e.id == OutcomeId(l.key) && LinkAccepted(v, l)
    case FeedbackRecorded(f) => e.id == FeedbackId(f.key) && FeedbackAccepted(v, f)
    case CheckpointAdvanced(_, _) => true
  }

  predicate Hit(v: View, p: Policy, e: AttentionEvent) {
    p in v.policies && !AttentionType(TypeOf(e.body)) && Recognizes(p, e.body, |v.log| + 1, v.policies[p].sequence)
  }

  /** Every policy that recognizes the event can read its payload. */
  predicate Readable(env: Env, v: View, e: AttentionEvent) {
    forall p :: p in v.policies && Hit(v, p, e) ==> e.body.Source? && env.extract(p, e.body.payload).Some?
  }

  predicate Accepts(env: Env, v: View, e: AttentionEvent) {
    SequenceOf(v.log, e.id) == 0 && env.governs(v.log, e) && BodyAccepted(env, v, e) && Readable(env, v, e)
  }

  function NewOpportunities(env: Env, v: View, e: AttentionEvent): map<Key, Opportunity>
    requires Readable(env, v, e)
  {
    map p | p in v.policies && Hit(v, p, e) ::
      Key(e.id, p, p.schema) :=
        Opportunity(Key(e.id, p, p.schema), |v.log| + 1, env.extract(p, e.body.payload).value)
  }

  function NextPolicies(v: View, e: AttentionEvent): map<Policy, Entry<Policy>> {
    if e.body.PolicyRecorded? then v.policies[e.body.policy := Entry(e.body.policy, |v.log| + 1)] else v.policies
  }

  function NextDispositions(v: View, e: AttentionEvent): map<Key, Entry<Disposition>> {
    if e.body.DispositionRecorded? then v.dispositions[e.body.record.key := Entry(e.body.record, |v.log| + 1)] else v.dispositions
  }

  function NextComplete(env: Env, v: View, e: AttentionEvent): map<Key, bool> {
    if e.body.DispositionRecorded? then
      var r := e.body.record;
      v.complete[r.key := LearningGrade(r) && env.complete(r.key.schema, r.decision.features) == Some(true)]
    else v.complete
  }

  function NextOutcomes(v: View, e: AttentionEvent): map<Key, Entry<Link>> {
    if e.body.OutcomeLinked? then v.outcomes[e.body.link.key := Entry(e.body.link, |v.log| + 1)] else v.outcomes
  }

  function NextFeedback(v: View, e: AttentionEvent): map<FeedbackKey, Entry<Feedback>> {
    if e.body.FeedbackRecorded? then v.feedback[e.body.feedback.key := Entry(e.body.feedback, |v.log| + 1)] else v.feedback
  }

  function Advance(env: Env, v: View, e: AttentionEvent): View
    requires Readable(env, v, e)
  {
    View(
      v.log + [e],
      if e.body.SchemaRecorded? then v.schemas + {e.body.schema} else v.schemas,
      NextPolicies(v, e),
      v.recognized + NewOpportunities(env, v, e),
      NextDispositions(v, e),
      NextComplete(env, v, e),
      NextOutcomes(v, e),
      NextFeedback(v, e))
  }

  /** Rebuilding from the log; None when some event raises. */
  function Replay(env: Env, log: History): Option<View> {
    if log == [] then Some(EMPTY)
    else
      var before := Replay(env, log[..|log| - 1]);
      if before.Some? && Accepts(env, before.value, log[|log| - 1]) then Some(Advance(env, before.value, log[|log| - 1]))
      else None
  }

  predicate Replayable(env: Env, log: History) { Replay(env, log).Some? }

  // ---------------------------------------------------------------- what a view shows of its log

  /** An index of the log: exactly the records read from it, each with its one position. */
  ghost predicate Indexes<K, R>(log: History, read: AttentionEvent -> Option<(K, R)>, entries: map<K, Entry<R>>) {
    && (forall k :: k in entries ==>
          1 <= entries[k].sequence <= |log| && read(At(log, entries[k].sequence)) == Some((k, entries[k].record)))
    && (forall s :: 1 <= s <= |log| && read(At(log, s)).Some? ==>
          read(At(log, s)).value.0 in entries && entries[read(At(log, s)).value.0].sequence == s)
  }

  lemma IndexGrows<K, R>(log: History, e: AttentionEvent, read: AttentionEvent -> Option<(K, R)>,
                         entries: map<K, Entry<R>>, after: map<K, Entry<R>>)
    requires Indexes(log, read, entries)
    requires read(e).None? ==> after == entries
    requires read(e).Some? ==> read(e).value.0 !in entries && after == entries[read(e).value.0 := Entry(read(e).value.1, |log| + 1)]
    ensures Indexes(log + [e], read, after)
  {
    forall s | 1 <= s <= |log| + 1 ensures At(log + [e], s) == if s <= |log| then At(log, s) else e {
    }
  }

  /** A record whose content id is new has a key that is not indexed yet. */
  lemma FreshKey<K, R>(log: History, e: AttentionEvent, read: AttentionEvent -> Option<(K, R)>, id: K -> Id, entries: map<K, Entry<R>>)
    requires Indexes(log, read, entries) && SequenceOf(log, e.id) == 0 && read(e).Some? && e.id == id(read(e).value.0)
    requires forall s :: 1 <= s <= |log| && read(At(log, s)).Some? ==> At(log, s).id == id(read(At(log, s)).value.0)
    ensures read(e).value.0 !in entries
  {
    AbsentIs(log, e.id);
  }

  function ReadPolicy(e: AttentionEvent): Option<(Policy, Policy)> {
    if e.body.PolicyRecorded? && e.id == PolicyId(e.body.policy) then Some((e.body.policy, e.body.policy)) else None
  }

  function ReadDisposition(e: AttentionEvent): Option<(Key, Disposition)> {
    if e.body.DispositionRecorded? && e.id == DispositionId(e.body.record.key) then Some((e.body.record.key, e.body.record)) else None
  }

  function ReadLink(e: AttentionEvent): Option<(Key, Link)> {
    if e.body.OutcomeLinked? && e.id == OutcomeId(e.body.link.key) then Some((e.body.link.key, e.body.link)) else None
  }

  function ReadFeedback(e: AttentionEvent): Option<(FeedbackKey, Feedback)> {
    if e.body.FeedbackRecorded? && e.id == FeedbackId(e.body.feedback.key) then Some((e.body.feedback.key, e.body.feedback)) else None
  }

  /** The recognized opportunities are exactly the events some recorded policy recognizes. */
  ghost predicate ExactlyRecognized(log: History, policies: map<Policy, Entry<Policy>>, recognized: map<Key, Opportunity>) {
    forall s, p :: 1 <= s <= |log| && p in policies ==>
      (Key(At(log, s).id, p, p.schema) in recognized <==> Recognizes(p, At(log, s).body, s, policies[p].sequence))
  }

  ghost predicate Locates(log: History, k: Key, o: Opportunity) {
    o.key == k && 1 <= o.sequence <= |log| && k == Key(At(log, o.sequence).id, k.policy, k.policy.schema)
  }

  ghost predicate ShowsRecognized(log: History, policies: map<Policy, Entry<Policy>>, recognized: map<Key, Opportunity>) {
    && ExactlyRecognized(log, policies, recognized)
    && (forall k :: k in recognized ==> k.policy in policies && Locates(log, k, recognized[k]))
  }

  ghost predicate Shows(v: View) {
    && UniqueIds(v.log)
    && (forall p :: p in v.policies ==> PolicyWellFormed(p))
    && Indexes(v.log, ReadPolicy, v.policies)
    && Indexes(v.log, ReadDisposition, v.dispositions)
    && Indexes(v.log, ReadLink, v.outcomes)
    && Indexes(v.log, ReadFeedback, v.feedback)
    && v.complete.Keys == v.dispositions.Keys
    && ShowsRecognized(v.log, v.policies, v.recognized)
  }

  lemma LocatedBefore(log: History, e: AttentionEvent, k: Key, o: Opportunity)
    requires SequenceOf(log, e.id) == 0 && Locates(log, k, o)
    ensures Locates(log + [e], k, o) && k.source != e.id
  {
    AbsentIs(log, e.id);
    assert At(log + [e], o.sequence) == At(log, o.sequence);
  }

  lemma RecognizedStill(log: History, e: AttentionEvent, policies: map<Policy, Entry<Policy>>, recognized: map<Key, Opportunity>,
                        added: map<Key, Opportunity>, s: nat, p: Policy)
    requires 1 <= s <= |log| && p in policies && SequenceOf(log, e.id) == 0 && ShowsRecognized(log, policies, recognized)
    requires forall k :: k in added ==> k.source == e.id
    ensures Key(At(log + [e], s).id, p, p.schema) in recognized + added <==> Recognizes(p, At(log + [e], s).body, s, policies[p].sequence)
  {
    hide Recognizes;
    AbsentIs(log, e.id);
    assert At(log + [e], s) == At(log, s) && At(log, s).id != e.id;
  }

  lemma RecognizedLast(log: History, e: AttentionEvent, policies: map<Policy, Entry<Policy>>, recognized: map<Key, Opportunity>,
                       added: map<Key, Opportunity>, p: Policy)
    requires p in policies && SequenceOf(log, e.id) == 0 && ShowsRecognized(log, policies, recognized)
    ensures Key(At(log + [e], |log| + 1).id, p, p.schema) in recognized + added <==> Key(e.id, p, p.schema) in added
  {
    if Key(e.id, p, p.schema) in recognized {
      LocatedBefore(log, e, Key(e.id, p, p.schema), recognized[Key(e.id, p, p.schema)]);
    }
  }

  lemma RecognizedGrows(log: History, e: AttentionEvent, policies: map<Policy, Entry<Policy>>, recognized: map<Key, Opportunity>,
                        added: map<Key, Opportunity>)
    requires SequenceOf(log, e.id) == 0 && ShowsRecognized(log, policies, recognized)
    requires forall p :: p in policies ==>
               (Key(e.id, p, p.schema) in added <==> Recognizes(p, e.body, |log| + 1, policies[p].sequence))
    requires forall k :: k in added ==> k.policy in policies && k.source == e.id && Locates(log + [e], k, added[k])
    ensures ShowsRecognized(log + [e], policies, recognized + added)
  {
    hide Recognizes, Locates, SequenceOf, ExactlyRecognized;
    ExactlyGrows(log, e, policies, recognized, added);
    forall k | k in recognized + added ensures k.policy in policies && Locates(log + [e], k, (recognized + added)[k]) {
      if k !in added { LocatedBefore(log, e, k, recognized[k]); }
    }
  }

  lemma ExactlyGrows(log: History, e: AttentionEvent, policies: map<Policy, Entry<Policy>>, recognized: map<Key, Opportunity>,
                     added: map<Key, Opportunity>)
    requires SequenceOf(log, e.id) == 0 && ShowsRecognized(log, policies, recognized)
    requires forall p :: p in policies ==>
               (Key(e.id, p, p.schema) in added <==> Recognizes(p, e.body, |log| + 1, policies[p].sequence))
    requires forall k :: k in added ==> k.source == e.id
    ensures ExactlyRecognized(log + [e], policies, recognized + added)
  {
    hide Recognizes, Locates, SequenceOf, ShowsRecognized;
    forall s, p | 1 <= s <= |log| + 1 && p in policies
      ensures Key(At(log + [e], s).id, p, p.schema) in recognized + added <==> Recognizes(p, At(log + [e], s).body, s, policies[p].sequence)
    {
      if s <= |log| {
        RecognizedStill(log, e, policies, recognized, added, s, p);
      } else {
        RecognizedLast(log, e, policies, recognized, added, p);
        assert At(log + [e], s) == e;
      }
    }
  }

  /** A policy recognizes nothing at or before the event that records it. */
  lemma NewPolicyRecognizesNothing(log: History, policies: map<Policy, Entry<Policy>>, recognized: map<Key, Opportunity>, p: Policy)
    requires ShowsRecognized(log, policies, recognized) && p !in policies
    ensures ShowsRecognized(log, policies[p := Entry(p, |log|)], recognized)
  {
    forall s | 1 <= s <= |log| ensures Key(At(log, s).id, p, p.schema) !in recognized {
    }
  }

  lemma AdvancePolicies(v: View, e: AttentionEvent)
    requires Shows(v) && SequenceOf(v.log, e.id) == 0 && (e.body.PolicyRecorded? ==> e.id == PolicyId(e.body.policy))
    ensures Indexes(v.log + [e], ReadPolicy, NextPolicies(v, e)) && (e.body.PolicyRecorded? ==> e.body.policy !in v.policies)
  {
    hide SequenceOf, Indexes;
    if ReadPolicy(e).Some? { FreshKey(v.log, e, ReadPolicy, p => PolicyId(p), v.policies); }
    IndexGrows(v.log, e, ReadPolicy, v.policies, NextPolicies(v, e));
  }

  lemma AdvanceDispositions(v: View, e: AttentionEvent)
    requires Shows(v) && SequenceOf(v.log, e.id) == 0 && (e.body.DispositionRecorded? ==> e.id == DispositionId(e.body.record.key))
    ensures Indexes(v.log + [e], ReadDisposition, NextDispositions(v, e))
  {
    hide SequenceOf, Indexes;
    if ReadDisposition(e).Some? { FreshKey(v.log, e, ReadDisposition, k => DispositionId(k), v.dispositions); }
    IndexGrows(v.log, e, ReadDisposition, v.dispositions, NextDispositions(v, e));
  }

  lemma AdvanceOutcomes(v: View, e: AttentionEvent)
    requires Shows(v) && SequenceOf(v.log, e.id) == 0 && (e.body.OutcomeLinked? ==> e.id == OutcomeId(e.body.link.key))
    ensures Indexes(v.log + [e], ReadLink, NextOutcomes(v, e))
  {
    hide SequenceOf, Indexes;
    if ReadLink(e).Some? { FreshKey(v.log, e, ReadLink, k => OutcomeId(k), v.outcomes); }
    IndexGrows(v.log, e, ReadLink, v.outcomes, NextOutcomes(v, e));
  }

  lemma AdvanceFeedback(v: View, e: AttentionEvent)
    requires Shows(v) && SequenceOf(v.log, e.id) == 0 && (e.body.FeedbackRecorded? ==> e.id == FeedbackId(e.body.feedback.key))
    ensures Indexes(v.log + [e], ReadFeedback, NextFeedback(v, e))
  {
    hide SequenceOf, Indexes;
    if ReadFeedback(e).Some? { FreshKey(v.log, e, ReadFeedback, k => FeedbackId(k), v.feedback); }
    IndexGrows(v.log, e, ReadFeedback, v.feedback, NextFeedback(v, e));
  }

  lemma AddedOpportunities(env: Env, v: View, e: AttentionEvent)
    requires Readable(env, v, e) && forall p :: p in v.policies ==> PolicyWellFormed(p)
    ensures forall p :: p in v.policies ==>
              (Key(e.id, p, p.schema) in NewOpportunities(env, v, e) <==> Recognizes(p, e.body, |v.log| + 1, v.policies[p].sequence))
    ensures forall k :: k in NewOpportunities(env, v, e) ==>
              k.policy in v.policies && k.source == e.id && Locates(v.log + [e], k, NewOpportunities(env, v, e)[k])
    ensures !e.body.Source? ==> NewOpportunities(env, v, e) == map[]
  {
    assert At(v.log + [e], |v.log| + 1) == e;
    forall p | p in v.policies ensures Hit(v, p, e) <==> Recognizes(p, e.body, |v.log| + 1, v.policies[p].sequence) {
      if Recognizes(p, e.body, |v.log| + 1, v.policies[p].sequence) {
        TelemetryIsNeverRecognized(p, e.body, |v.log| + 1, v.policies[p].sequence);
      }
    }
  }

  lemma AdvanceRecognized(env: Env, v: View, e: AttentionEvent)
    requires Readable(env, v, e) && Shows(v) && SequenceOf(v.log, e.id) == 0
    requires e.body.PolicyRecorded? ==> e.body.policy !in v.policies
    ensures ShowsRecognized(v.log + [e], NextPolicies(v, e), v.recognized + NewOpportunities(env, v, e))
  {
    hide SequenceOf, Indexes, ShowsRecognized, NewOpportunities, Readable, Locates, Recognizes;
    var added := NewOpportunities(env, v, e);
    AddedOpportunities(env, v, e);
    RecognizedGrows(v.log, e, v.policies, v.recognized, added);
    if e.body.PolicyRecorded? {
      assert v.recognized + added == v.recognized;
      NewPolicyRecognizesNothing(v.log + [e], v.policies, v.recognized, e.body.policy);
    }
  }

  lemma AdvanceShows(env: Env, v: View, e: AttentionEvent)
    requires Accepts(env, v, e) && Shows(v)
    ensures Shows(Advance(env, v, e)) && Advance(env, v, e).log == v.log + [e]
  {
    hide SequenceOf, ShowsRecognized, NewOpportunities, Indexes, Readable, UniqueIds, DispositionAccepted, LinkAccepted, FeedbackAccepted;
    UniqueAppend(v.log, e);
    AdvancePolicies(v, e);
    AdvanceDispositions(v, e);
    AdvanceOutcomes(v, e);
    AdvanceFeedback(v, e);
    AdvanceRecognized(env, v, e);
  }

  lemma ReplayStep(env: Env, log: History)
    requires log != [] && Replayable(env, log)
    ensures var n := |log| - 1;
            && Replayable(env, log[..n]) && Accepts(env, Replay(env, log[..n]).value, log[n])
            && Replay(env, log) == Some(Advance(env, Replay(env, log[..n]).value, log[n]))
  {
    hide Accepts, Advance;
  }

  lemma {:induction false} ReplayShows(env: Env, log: History)
    requires Replayable(env, log)
    ensures Shows(Replay(env, log).value) && Replay(env, log).value.log == log
  {
    if log == [] {
      return;
    }
    hide *;
    var n := |log| - 1;
    ReplayStep(env, log);
    ReplayShows(env, log[..n]);
    AdvanceShows(env, Replay(env, log[..n]).value, log[n]);
    assert log == log[..n] + [log[n]];
  }

  lemma {:induction false} PrefixReplayable(env: Env, log: History, n: nat)
    requires Replayable(env, log) && n <= |log|
    ensures Replayable(env, log[..n])
  {
    if n == |log| {
      assert log[..n] == log;
    } else {
      PrefixReplayable(env, log[..|log| - 1], n);
      assert log[..|log| - 1][..n] == log[..n];
    }
  }

  /** The view just before an event, which the event was accepted on. */
  lemma AcceptedWhereItStands(env: Env, log: History, s: nat)
    requires Replayable(env, log) && 1 <= s <= |log|
    ensures Replayable(env, log[..s - 1])
    ensures var v := Replay(env, log[..s - 1]).value; v.log == log[..s - 1] && Shows(v) && Accepts(env, v, At(log, s))
  {
    PrefixReplayable(env, log, s);
    assert log[..s][..s - 1] == log[..s - 1];
    ReplayStep(env, log[..s]);
    ReplayShows(env, log[..s - 1]);
  }

  // ---------------------------------------------------------------- what a replayable log is

  /** Some policy recorded at a recognizes the event at q. */
  ghost predicate RecognizedBy(log: History, p: Policy, a: nat, q: nat) {
    && 1 <= a < q <= |log|
    && At(log, a).body.PolicyRecorded? && At(log, a).body.policy == p
    && At(log, q).body.Source? && Recognizes(p, At(log, q).body, q, a)
  }

  /** The opportunities a replay recognizes are exactly the events behind a recorded policy
      that this policy recognizes; telemetry and checkpoints are never among them. */
  lemma RecognizedExactly(env: Env, log: History, k: Key)
    requires Replayable(env, log)
    ensures k in Replay(env, log).value.recognized <==>
            k.schema == k.policy.schema && exists a, q :: RecognizedBy(log, k.policy, a, q) && At(log, q).id == k.source
  {
    var v := Replay(env, log).value;
    ReplayShows(env, log);
    if k in v.recognized {
      var q, a := v.recognized[k].sequence, v.policies[k.policy].sequence;
      assert Locates(log, k, v.recognized[k]);
      TelemetryIsNeverRecognized(k.policy, At(log, q).body, q, a);
      assert RecognizedBy(log, k.policy, a, q);
    }
    if a, q :| k.schema == k.policy.schema && RecognizedBy(log, k.policy, a, q) && At(log, q).id == k.source {
      PolicyIsIndexed(env, log, a);
    }
  }

  lemma PolicyIsIndexed(env: Env, log: History, a: nat)
    requires Replayable(env, log) && 1 <= a <= |log| && At(log, a).body.PolicyRecorded?
    ensures var v := Replay(env, log).value;
            At(log, a).body.policy in v.policies && v.policies[At(log, a).body.policy].sequence == a
  {
    AcceptedWhereItStands(env, log, a);
    ReplayShows(env, log);
    assert ReadPolicy(At(log, a)).Some?;
  }

  /** Each disposition cites exactly its preceding head, and a source that a policy recorded
      before that source recognized; its causal cut lies between the two. */
  lemma DispositionsAreExact(env: Env, log: History, s: nat)
    requires Replayable(env, log) && 1 <= s <= |log| && At(log, s).body.DispositionRecorded?
    ensures var r := At(log, s).body.record;
            && r.head == s - 1 && 1 <= r.sourceSequence <= r.decision.cursor <= s - 1
            && r.key.schema == r.key.policy.schema && At(log, r.sourceSequence).id == r.key.source
            && (exists a :: RecognizedBy(log, r.key.policy, a, r.sourceSequence))
  {
    hide Replay, SequenceOf;
    AcceptedWhereItStands(env, log, s);
    var r, v := At(log, s).body.record, Replay(env, log[..s - 1]).value;
    var q, a := r.sourceSequence, v.policies[r.key.policy].sequence;
    assert Locates(v.log, r.key, v.recognized[r.key]);
    TelemetryIsNeverRecognized(r.key.policy, At(log, q).body, q, a);
    assert At(v.log, q) == At(log, q) && ReadPolicy(At(v.log, a)).Some? && At(v.log, a) == At(log, a);
    assert RecognizedBy(log, r.key.policy, a, q);
  }

  lemma DispositionIsIndexed(env: Env, log: History, s: nat)
    requires Replayable(env, log) && 1 <= s <= |log| && At(log, s).body.DispositionRecorded?
    ensures var v, k := Replay(env, log).value, At(log, s).body.record.key;
            k in v.dispositions && v.dispositions[k] == Entry(At(log, s).body.record, s)
  {
    AcceptedWhereItStands(env, log, s);
    ReplayShows(env, log);
    assert ReadDisposition(At(log, s)).Some?;
  }

  lemma LinkIsIndexed(env: Env, log: History, s: nat)
    requires Replayable(env, log) && 1 <= s <= |log| && At(log, s).body.OutcomeLinked?
    ensures var v, k := Replay(env, log).value, At(log, s).body.link.key;
            k in v.outcomes && v.outcomes[k] == Entry(At(log, s).body.link, s)
  {
    AcceptedWhereItStands(env, log, s);
    ReplayShows(env, log);
    assert ReadLink(At(log, s)).Some?;
  }

  lemma FeedbackIsIndexed(env: Env, log: History, s: nat)
    requires Replayable(env, log) && 1 <= s <= |log| && At(log, s).body.FeedbackRecorded?
    ensures var v, k := Replay(env, log).value, At(log, s).body.feedback.key;
            k in v.feedback && v.feedback[k] == Entry(At(log, s).body.feedback, s)
  {
    AcceptedWhereItStands(env, log, s);
    ReplayShows(env, log);
    assert ReadFeedback(At(log, s)).Some?;
  }

  /** The disposition of this key at d, the cited event at q, in this order and both below s. */
  ghost predicate Behind(log: History, key: Key, source: Id, d: nat, q: nat, s: nat) {
    && 1 <= d < q < s <= |log|
    && At(log, d).body.DispositionRecorded? && At(log, d).body.record.key == key
    && At(log, q).id == source && TimeOf(At(log, q).body) >= At(log, d).body.record.decision.decidedAt
  }

  lemma FollowsMeansBehind(log: History, v: View, key: Key, source: Id, s: nat)
    requires 1 <= s <= |log| && v.log == log[..s - 1] && Shows(v) && Follows(v, key, source)
    ensures Behind(log, key, source, v.dispositions[key].sequence, SequenceOf(v.log, source), s)
  {
  }

  /** One disposition per opportunity, one outcome per disposition, and one feedback record per
      disposition, source, verdict, actor and provenance. */
  lemma OneRecordPerIdentity(env: Env, log: History, s: nat, t: nat)
    requires Replayable(env, log) && 1 <= s <= |log| && 1 <= t <= |log| && s != t
    ensures At(log, s).body.DispositionRecorded? && At(log, t).body.DispositionRecorded? ==>
              At(log, s).body.record.key != At(log, t).body.record.key
    ensures At(log, s).body.OutcomeLinked? && At(log, t).body.OutcomeLinked? ==> At(log, s).body.link.key != At(log, t).body.link.key
    ensures At(log, s).body.FeedbackRecorded? && At(log, t).body.FeedbackRecorded? ==>
              At(log, s).body.feedback.key != At(log, t).body.feedback.key
  {
    hide *;
    if At(log, s).body.DispositionRecorded? && At(log, t).body.DispositionRecorded? {
      DispositionIsIndexed(env, log, s);
      DispositionIsIndexed(env, log, t);
    } else if At(log, s).body.OutcomeLinked? && At(log, t).body.OutcomeLinked? {
      LinkIsIndexed(env, log, s);
      LinkIsIndexed(env, log, t);
    } else if At(log, s).body.FeedbackRecorded? && At(log, t).body.FeedbackRecorded? {
      FeedbackIsIndexed(env, log, s);
      FeedbackIsIndexed(env, log, t);
    }
  }

  /** Each outcome, and each feedback record, cites exactly its preceding head and an event
      strictly between its disposition and itself. */
  lemma OutcomesAreExact(env: Env, log: History, s: nat)
    requires Replayable(env, log) && 1 <= s <= |log| && At(log, s).body.OutcomeLinked?
    ensures var l := At(log, s).body.link;
            l.head == s - 1 && exists d, q :: Behind(log, l.key, l.source, d, q, s)
  {
    hide Shows, Behind, Follows, SequenceOf, Replay;
    AcceptedWhereItStands(env, log, s);
    var l := At(log, s).body.link;
    FollowsMeansBehind(log, Replay(env, log[..s - 1]).value, l.key, l.source, s);
  }

  lemma FeedbackIsExact(env: Env, log: History, s: nat)
    requires Replayable(env, log) && 1 <= s <= |log| && At(log, s).body.FeedbackRecorded?
    ensures var f := At(log, s).body.feedback;
            f.head == s - 1 && exists d, q :: Behind(log, f.key.disposition, f.key.source, d, q, s)
  {
    hide Shows, Behind, Follows, SequenceOf, Replay;
    AcceptedWhereItStands(env, log, s);
    var f := At(log, s).body.feedback;
    FollowsMeansBehind(log, Replay(env, log[..s - 1]).value, f.key.disposition, f.key.source, s);
  }

  lemma ReplaySnoc(env: Env, log: History, e: AttentionEvent)
    requires Replayable(env, log)
    ensures Replayable(env, log + [e]) <==> Accepts(env, Replay(env, log).value, e)
    ensures Replayable(env, log + [e]) ==> Replay(env, log + [e]) == Some(Advance(env, Replay(env, log).value, e))
  {
    hide Accepts, Advance;
    assert (log + [e])[..|log|] == log;
  }

  /** Exactly which ordinary events keep the log replayable: the id is new, governance takes
      the event, and every policy that recognizes it can read its payload. An event that
      merely claims a telemetry type never does. */
  lemma OrdinaryAppendExactly(env: Env, log: History, e: AttentionEvent)
    requires Replayable(env, log) && e.body.Source?
    ensures Replayable(env, log + [e]) <==>
            && SequenceOf(log, e.id) == 0 && env.governs(log, e) && !AttentionType(e.body.eventType)
            && forall a :: 1 <= a <= |log| && At(log, a).body.PolicyRecorded? && Recognizes(At(log, a).body.policy, e.body, |log| + 1, a)
                 ==> env.extract(At(log, a).body.policy, e.body.payload).Some?
  {
    var v := Replay(env, log).value;
    ReplayShows(env, log);
    ReplaySnoc(env, log, e);
    forall a | 1 <= a <= |log| && At(log, a).body.PolicyRecorded?
      ensures At(log, a).body.policy in v.policies && v.policies[At(log, a).body.policy].sequence == a
    {
      PolicyIsIndexed(env, log, a);
    }
    forall p | p in v.policies
      ensures 1 <= v.policies[p].sequence <= |log| && At(log, v.policies[p].sequence).body.PolicyRecorded?
              && At(log, v.policies[p].sequence).body.policy == p
    {
      assert ReadPolicy(At(log, v.policies[p].sequence)) == Some((p, v.policies[p].record));
    }
  }

  // ---------------------------------------------------------------- the object

  /** `added` holds the opportunities of the policies visited so far, all of them readable. */
  ghost predicate AddedFor(env: Env, v: View, e: AttentionEvent, done: set<Policy>, added: map<Key, Opportunity>) {
    && (forall p :: p in done && Hit(v, p, e) ==>
          && e.body.Source? && env.extract(p, e.body.payload).Some?
          && Key(e.id, p, p.schema) in added
          && added[Key(e.id, p, p.schema)] == Opportunity(Key(e.id, p, p.schema), |v.log| + 1, env.extract(p, e.body.payload).value))
    && (forall k :: k in added ==> k.policy in done && Hit(v, k.policy, e) && k == Key(e.id, k.policy, k.policy.schema))
  }

  ghost function AddOne(env: Env, v: View, e: AttentionEvent, p: Policy, added: map<Key, Opportunity>): map<Key, Opportunity>
    requires p in v.policies && (Hit(v, p, e) ==> e.body.Source? && env.extract(p, e.body.payload).Some?)
  {
    if Hit(v, p, e) then
      var key := Key(e.id, p, p.schema);
      added[key := Opportunity(key, |v.log| + 1, env.extract(p, e.body.payload).value)]
    else added
  }

  lemma AddsOne(env: Env, v: View, e: AttentionEvent, done: set<Policy>, p: Policy, added: map<Key, Opportunity>)
    requires AddedFor(env, v, e, done, added) && p !in done && p in v.policies
    requires Hit(v, p, e) ==> e.body.Source? && env.extract(p, e.body.payload).Some?
    ensures AddedFor(env, v, e, done + {p}, AddOne(env, v, e, p, added))
  {
    hide Hit;
  }

  lemma AddedForAll(env: Env, v: View, e: AttentionEvent, added: map<Key, Opportunity>)
    requires AddedFor(env, v, e, v.policies.Keys, added)
    ensures Readable(env, v, e) && added == NewOpportunities(env, v, e)
  {
    hide Hit;
  }

  datatype Applied = Handled | Unhandled | Repeated | Raised

  class AttentionExposureProjection {
    const env: Env
    var events: History
    var schemas: set<Schema>
    var policies: map<Policy, Entry<Policy>>
    var recognized: map<Key, Opportunity>
    var dispositions: map<Key, Entry<Disposition>>
    var complete: map<Key, bool>
    var outcomes: map<Key, Entry<Link>>
    var feedback: map<FeedbackKey, Entry<Feedback>>

    constructor (env: Env)
      ensures this.env == env && ViewOf() == EMPTY
    {
      this.env := env;
      events, schemas, policies, recognized := [], {}, map[], map[];
      dispositions, complete, outcomes, feedback := map[], map[], map[], map[];
    }

    function ViewOf(): View
      reads this
    {
      View(events, schemas, policies, recognized, dispositions, complete, outcomes, feedback)
    }

    method Reset()
      modifies this
      ensures ViewOf() == EMPTY
    {
      events, schemas, policies, recognized := [], {}, map[], map[];
      dispositions, complete, outcomes, feedback := map[], map[], map[], map[];
    }

    /** The opportunities of an ordinary event, policy by policy; false when a payload cannot be read. */
    method Recognize(e: AttentionEvent) returns (ok: bool)
      modifies this`recognized
      ensures ok == Readable(env, old(ViewOf()), e)
      ensures ok ==> recognized == old(recognized) + NewOpportunities(env, old(ViewOf()), e)
    {
      if AttentionType(TypeOf(e.body)) {
        assert NewOpportunities(env, ViewOf(), e) == map[];
        return true;
      }
      var added;
      ok, added := VisitPolicies(env, ViewOf(), e);
      if ok {
        recognized := recognized + added;
      }
    }

    static method VisitPolicies(env: Env, v: View, e: AttentionEvent) returns (ok: bool, added: map<Key, Opportunity>)
      requires !AttentionType(TypeOf(e.body))
      ensures ok == Readable(env, v, e) && (ok ==> added == NewOpportunities(env, v, e))
    {
      var rest := v.policies.Keys;
      added := map[];
      while rest != {}
        invariant rest <= v.policies.Keys && AddedFor(env, v, e, v.policies.Keys - rest, added)
        decreases |rest|
      {
        hide AddedFor, NewOpportunities, Recognizes;
        var p :| p in rest;
        assert Hit(v, p, e) == Recognizes(p, e.body, |v.log| + 1, v.policies[p].sequence);
        if Recognizes(p, e.body, |v.log| + 1, v.policies[p].sequence) && (!e.body.Source? || env.extract(p, e.body.payload).None?) {
          return false, map[];
        }
        AddsOne(env, v, e, v.policies.Keys - rest, p, added);
        assert v.policies.Keys - (rest - {p}) == v.policies.Keys - rest + {p};
        if Recognizes(p, e.body, |v.log| + 1, v.policies[p].sequence) {
          var key := Key(e.id, p, p.schema);
          added := added[key := Opportunity(key, |v.log| + 1, env.extract(p, e.body.payload).value)];
        }
        rest := rest - {p};
      }
      assert v.policies.Keys - rest == v.policies.Keys;
      AddedForAll(env, v, e, added);
      ok := true;
    }

    /** One canonical event. An event behind the cursor raises, unless it repeats the last one. */
    method Apply(e: AttentionEvent, sequence: nat) returns (r: Applied)
      requires sequence <= |events| + 1
      modifies this
      ensures sequence <= old(|events|) ==>
                ViewOf() == old(ViewOf()) && r == if sequence == old(|events|) > 0 && old(events)[sequence - 1].id == e.id then Repeated else Raised
      ensures sequence == old(|events|) + 1 ==>
                && (r == Raised <==> !Accepts(env, old(ViewOf()), e)) && r != Repeated
                && (r != Raised ==> ViewOf() == Advance(env, old(ViewOf()), e) && (r == Handled <==> AttentionType(TypeOf(e.body))))
    {
      ghost var v := ViewOf();
      if sequence <= |events| {
        return if sequence > 0 && sequence == |events| && events[sequence - 1].id == e.id then Repeated else Raised;
      }
      if SequenceOf(events, e.id) != 0 || !env.governs(events, e) || !BodyAccepted(env, ViewOf(), e) {
        return Raised;
      }
      hide SequenceOf, BodyAccepted, Readable, NewOpportunities, Hit;
      Handle(e);
      RecognizeIsUnaffected(env, v, ViewOf(), e);
      var ok := Recognize(e);
      if !ok {
        return Raised;
      }
      events := events + [e];
      r := if AttentionType(TypeOf(e.body)) then Handled else Unhandled;
    }

    /** The immutable records of the projection's own event types. */
    method Handle(e: AttentionEvent)
      modifies this`schemas, this`policies, this`dispositions, this`complete, this`outcomes, this`feedback
      ensures schemas == if e.body.SchemaRecorded? then old(schemas) + {e.body.schema} else old(schemas)
      ensures policies == NextPolicies(old(ViewOf()), e) && dispositions == NextDispositions(old(ViewOf()), e)
      ensures complete == NextComplete(env, old(ViewOf()), e)
      ensures outcomes == NextOutcomes(old(ViewOf()), e) && feedback == NextFeedback(old(ViewOf()), e)
    {
      var n := |events| + 1;
      match e.body {
        case SchemaRecorded(s, _) => schemas := schemas + {s};
        case PolicyRecorded(p, _) => policies := policies[p := Entry(p, n)];
        case DispositionRecorded(d) =>
          dispositions := dispositions[d.key := Entry(d, n)];
          complete := complete[d.key := LearningGrade(d) && env.complete(d.key.schema, d.decision.features) == Some(true)];
        case OutcomeLinked(l) => outcomes := outcomes[l.key := Entry(l, n)];
        case FeedbackRecorded(f) => feedback := feedback[f.key := Entry(f, n)];
        case _ =>
      }
    }

    method Rebuild(history: History) returns (ok: bool)
      modifies this
      ensures ok == Replayable(env, history)
      ensures ok ==> ViewOf() == Replay(env, history).value
    {
      Reset();
      for i := 0 to |history|
        invariant Replay(env, history[..i]) == Some(ViewOf()) && |events| == i
      {
        ReplaySnoc(env, history[..i], history[i]);
        assert history[..i] + [history[i]] == history[..i + 1];
        var r := Apply(history[i], i + 1);
        if r == Raised {
          if Replayable(env, history) { PrefixReplayable(env, history, i + 1); }
          return false;
        }
      }
      assert history[..|history|] == history;
      ok := true;
    }
  }

  /** Recognition reads the log and the policies only, and ignores telemetry altogether. */
  lemma RecognizeIsUnaffected(env: Env, v: View, w: View, e: AttentionEvent)
    requires w.log == v.log && (w.policies == v.policies || AttentionType(TypeOf(e.body)))
    ensures Readable(env, w, e) == Readable(env, v, e)
    ensures Readable(env, v, e) ==> NewOpportunities(env, w, e) == NewOpportunities(env, v, e)
  {
    if AttentionType(TypeOf(e.body)) {
      assert Readable(env, v, e) && Readable(env, w, e);
      assert NewOpportunities(env, v, e) == map[] == NewOpportunities(env, w, e);
    } else {
      assert forall p :: Hit(v, p, e) == Hit(w, p, e);
    }
  }
}
