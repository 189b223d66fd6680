/** The transactional outbox: leases, fencing tokens and retries, under many publishers. */
module Outbox {
  import opened Basics
  import opened EventLog

  datatype Lease = Free | Leased(owner: nat, until: nat)

  /** One outbox row; its identity is its position, in insertion order. */
  datatype Row = Row(
    eventId: string,
    topic: string,
    attempts: nat,
    availableAt: nat,
    lease: Lease,
    token: nat,
    published: bool)

  datatype Record = Record(row: nat, eventId: string, topic: string, attempts: nat, token: nat)

  // ---------------------------------------------------------------- row operations

  predicate Ready(row: Row, now: nat) {
    !row.published && row.availableAt <= now && (row.lease.Free? || row.lease.until <= now)
  }

  function ReadyCount(rows: seq<Row>, now: nat): nat {
    if rows == [] then 0
    else ReadyCount(rows[..|rows| - 1], now) + if Ready(rows[|rows| - 1], now) then 1 else 0
  }

  /** Row k is among the first `limit` ready rows. */
  predicate Taken(rows: seq<Row>, now: nat, limit: nat, k: nat)
    requires k < |rows|
  {
    Ready(rows[k], now) && ReadyCount(rows[..k], now) < limit
  }

  function Grant(row: Row, owner: nat, until: nat): Row {
    row.(lease := Leased(owner, until), token := row.token + 1, attempts := row.attempts + 1)
  }

  function ClaimedRow(rows: seq<Row>, owner: nat, limit: nat, now: nat, until: nat, k: nat): Row
    requires k < |rows|
  {
    if Taken(rows, now, limit, k) then Grant(rows[k], owner, until) else rows[k]
  }

  function ClaimRows(rows: seq<Row>, owner: nat, limit: nat, now: nat, leaseTime: nat): seq<Row> {
    seq(|rows|, k requires 0 <= k < |rows| => ClaimedRow(rows, owner, limit, now, now + leaseTime, k))
  }

  function RecordOf(rows: seq<Row>, k: nat): Record
    requires k < |rows|
  {
    Record(k, rows[k].eventId, rows[k].topic, rows[k].attempts + 1, rows[k].token + 1)
  }

  /** The records of the rows taken among the first n, in row order. */
  function ClaimRecords(rows: seq<Row>, limit: nat, now: nat, n: nat): seq<Record>
    requires n <= |rows|
  {
    if n == 0 then []
    else
      ClaimRecords(rows, limit, now, n - 1) +
      if Taken(rows, now, limit, n - 1) then [RecordOf(rows, n - 1)] else []
  }

  predicate Holds(rows: seq<Row>, row: nat, token: nat) {
    row < |rows| && rows[row].token == token && !rows[row].published
  }

  function CompleteRows(rows: seq<Row>, row: nat, token: nat): seq<Row> {
    if Holds(rows, row, token) then rows[row := rows[row].(published := true, lease := Free)] else rows
  }

  function RetryRows(rows: seq<Row>, row: nat, token: nat, availableAt: nat): seq<Row> {
    if Holds(rows, row, token) then rows[row := rows[row].(availableAt := availableAt, lease := Free)] else rows
  }

  function EnqueueRows(rows: seq<Row>, eventId: string, topic: string, now: nat): seq<Row> {
    if exists r :: r in rows && r.eventId == eventId then rows
    else rows + [Row(eventId, topic, 0, now, Free, 0, false)]
  }

  /** A claim takes as many rows as are ready, up to its limit. */
  lemma {:induction false} ClaimLength(rows: seq<Row>, limit: nat, now: nat, n: nat)
    requires n <= |rows|
    ensures var ready := ReadyCount(rows[..n], now);
            |ClaimRecords(rows, limit, now, n)| == if ready < limit then ready else limit
  {
    if n != 0 {
      ClaimLength(rows, limit, now, n - 1);
      assert rows[..n][..n - 1] == rows[..n - 1];
    }
  }

  /** While scanning, the limit is reached exactly when enough rows have been taken. */
  lemma NextIsTaken(rows: seq<Row>, limit: nat, now: nat, k: nat)
    requires k < |rows|
    ensures Taken(rows, now, limit, k) <==> Ready(rows[k], now) && |ClaimRecords(rows, limit, now, k)| < limit
  {
    ClaimLength(rows, limit, now, k);
  }

  /** The records handed out are exactly those of the taken rows, each with its new token. */
  lemma {:induction false} RecordIsGranted(rows: seq<Row>, limit: nat, now: nat, n: nat, r: Record)
    requires n <= |rows|
    ensures r in ClaimRecords(rows, limit, now, n) <==>
            r.row < n && Taken(rows, now, limit, r.row) && r == RecordOf(rows, r.row)
  {
    if n != 0 {
      RecordIsGranted(rows, limit, now, n - 1, r);
    }
  }

  lemma {:induction false} RecordsAreOrdered(rows: seq<Row>, limit: nat, now: nat, n: nat)
    requires n <= |rows|
    ensures var records := ClaimRecords(rows, limit, now, n);
            forall i, j :: 0 <= i < j < |records| ==> records[i].row < records[j].row
  {
    if n != 0 {
      RecordsAreOrdered(rows, limit, now, n - 1);
      var before, records := ClaimRecords(rows, limit, now, n - 1), ClaimRecords(rows, limit, now, n);
      forall i, j | 0 <= i < j < |records| ensures records[i].row < records[j].row {
        RecordIsGranted(rows, limit, now, n - 1, before[i]);
      }
    }
  }

  // ---------------------------------------------------------------- the protocol

  /** `lease` and `maxBackoff` are positive times; `poll` scales the backoff. */
  datatype Limits = Limits(lease: nat, poll: nat, maxBackoff: nat)

  /** Each publisher has its own. */
  type Fleet = nat -> Limits

  function Power2(n: nat): nat { if n == 0 then 1 else 2 * Power2(n - 1) }

  function Backoff(limits: Limits, attempts: nat): nat {
    var grown := limits.poll * Power2(if attempts < 12 then attempts else 12);
    if grown < limits.maxBackoff then grown else limits.maxBackoff
  }

  /** Where a publisher stands with the first record of its batch. */
  datatype Stage = Claimed | Sent | Failed
  datatype Publisher = Publisher(stage: Stage, batch: seq<Record>)

  /** A publish call that returned handed the event over; one that raised may have, too. */
  datatype SendOutcome = Acknowledged | AcknowledgementLost | Unreachable

  datatype Delivery = Delivery(
    rows: seq<Row>,
    now: nat,
    publishers: map<nat, Publisher>,
    broker: set<nat>,           // rows whose event was handed to the broker
    grants: seq<Record>,        // every record ever handed to a publisher
    completions: multiset<nat>) // rows of the completions that reported success

  datatype Action =
    | Enqueue(eventId: string, topic: string)
    | Tick(elapsed: nat)
    | Claim(worker: nat, limit: nat)
    | Send(worker: nat, outcome: SendOutcome)
    | Settle(worker: nat)
    | Crash(worker: nat)

  function Next(limits: Fleet, s: Delivery, a: Action): Delivery {
    match a
    case Enqueue(e, topic) => s.(rows := EnqueueRows(s.rows, e, topic, s.now))
    case Tick(elapsed) => s.(now := s.now + elapsed)
    case Claim(w, limit) =>
      if w in s.publishers && s.publishers[w].batch != [] then s
      else
        var records := ClaimRecords(s.rows, limit, s.now, |s.rows|);
        s.(rows := ClaimRows(s.rows, w, limit, s.now, limits(w).lease),
           publishers := s.publishers[w := Publisher(Claimed, records)],
           grants := s.grants + records)
    case Send(w, outcome) =>
      if w !in s.publishers || s.publishers[w].batch == [] || s.publishers[w].stage != Claimed then s
      else
        var p := s.publishers[w];
        s.(broker := if outcome.Unreachable? then s.broker else s.broker + {p.batch[0].row},
           publishers := s.publishers[w := p.(stage := if outcome.Acknowledged? then Sent else Failed)])
    case Settle(w) =>
      if w !in s.publishers || s.publishers[w].batch == [] || s.publishers[w].stage == Claimed then s
      else
        var p := s.publishers[w];
        var held := p.batch[0];
        var rest := s.publishers[w := Publisher(Claimed, p.batch[1..])];
        if p.stage == Sent then
          s.(rows := CompleteRows(s.rows, held.row, held.token),
             completions := if Holds(s.rows, held.row, held.token) then s.completions + multiset{held.row} else s.completions,
             publishers := rest)
        else
          s.(rows := RetryRows(s.rows, held.row, held.token, s.now + Backoff(limits(w), held.attempts)),
             publishers := rest)
    case Crash(w) => s.(publishers := s.publishers - {w})
  }

  function Run(limits: Fleet, s: Delivery, actions: seq<Action>): Delivery {
    if actions == [] then s else Next(limits, Run(limits, s, actions[..|actions| - 1]), actions[|actions| - 1])
  }

  function Start(now: nat): Delivery { Delivery([], now, map[], {}, [], multiset{}) }

  ghost predicate RowInv(limits: Fleet, s: Delivery, k: nat)
    requires k < |s.rows|
  {
    var row := s.rows[k];
    && (row.published ==> k in s.broker && row.lease.Free?)
    && s.completions[k] == (if row.published then 1 else 0)
    && row.attempts == row.token
    && (row.availableAt <= s.now || exists v :: row.availableAt <= s.now + limits(v).maxBackoff)
    && (row.lease.Leased? ==> row.lease.until <= s.now + limits(row.lease.owner).lease)
  }

  ghost predicate GrantInv(s: Delivery) {
    && (forall i :: 0 <= i < |s.grants| ==>
          s.grants[i].row < |s.rows| && 1 <= s.grants[i].token <= s.rows[s.grants[i].row].token)
    && (forall i, j :: 0 <= i < j < |s.grants| && s.grants[i].row == s.grants[j].row ==> s.grants[i].token < s.grants[j].token)
  }

  /** A batch is a contiguous stretch of what was granted, so no two publishers share a grant. */
  ghost predicate HeldInv(s: Delivery, w: nat)
    requires w in s.publishers
  {
    var p := s.publishers[w];
    && (forall r :: r in p.batch ==> r in s.grants)
    && (forall i, j :: 0 <= i < j < |p.batch| ==> p.batch[i].row < p.batch[j].row)
    && (p.stage == Sent ==> p.batch != [] && p.batch[0].row in s.broker)
  }

  ghost predicate Inv(limits: Fleet, s: Delivery) {
    && (forall k :: 0 <= k < |s.rows| ==> RowInv(limits, s, k))
    && (forall k :: k in s.completions ==> k < |s.rows|)
    && GrantInv(s)
    && (forall w :: w in s.publishers ==> HeldInv(s, w))
    && (forall v, w, r :: v in s.publishers && w in s.publishers && r in s.publishers[v].batch && r in s.publishers[w].batch ==> v == w)
  }

  lemma ClaimGrantInv(limits: Fleet, s: Delivery, w: nat, limit: nat)
    requires GrantInv(s)
    ensures GrantInv(Next(limits, s, Claim(w, limit)))
    ensures forall r :: r in ClaimRecords(s.rows, limit, s.now, |s.rows|) ==> r !in s.grants
  {
    var records := ClaimRecords(s.rows, limit, s.now, |s.rows|);
    RecordsAreOrdered(s.rows, limit, s.now, |s.rows|);
    forall i | 0 <= i < |records|
      ensures records[i].row < |s.rows| && Taken(s.rows, s.now, limit, records[i].row) && records[i] == RecordOf(s.rows, records[i].row)
    {
      RecordIsGranted(s.rows, limit, s.now, |s.rows|, records[i]);
    }
    assert forall i :: 0 <= i < |s.grants| ==> (s.grants + records)[i] == s.grants[i];
  }

  lemma ClaimInv(limits: Fleet, s: Delivery, w: nat, limit: nat)
    requires Inv(limits, s)
    ensures Inv(limits, Next(limits, s, Claim(w, limit)))
  {
    var t := Next(limits, s, Claim(w, limit));
    ClaimGrantInv(limits, s, w, limit);
    RecordsAreOrdered(s.rows, limit, s.now, |s.rows|);
    if t != s {
      forall k | 0 <= k < |t.rows| ensures RowInv(limits, t, k) {
        assert RowInv(limits, s, k);
      }
      forall v | v in t.publishers ensures HeldInv(t, v) {
        if v != w {
          assert HeldInv(s, v);
        } else if t.publishers != s.publishers {
          assert t.publishers[w] == Publisher(Claimed, ClaimRecords(s.rows, limit, s.now, |s.rows|));
        } else {
          assert HeldInv(s, v);
        }
      }
      forall v, r | v in s.publishers && r in s.publishers[v].batch ensures r in s.grants {
        assert HeldInv(s, v);
      }
    }
  }

  lemma SettleInv(limits: Fleet, s: Delivery, w: nat)
    requires Inv(limits, s)
    ensures Inv(limits, Next(limits, s, Settle(w)))
  {
    var t := Next(limits, s, Settle(w));
    if t != s {
      assert HeldInv(s, w);
      forall k | 0 <= k < |t.rows| ensures RowInv(limits, t, k) {
        assert RowInv(limits, s, k);
      }
      forall v | v in t.publishers ensures HeldInv(t, v) {
        assert HeldInv(s, v);
      }
    }
  }

  lemma NextInv(limits: Fleet, s: Delivery, a: Action)
    requires Inv(limits, s)
    ensures Inv(limits, Next(limits, s, a))
  {
    match a
    case Claim(w, limit) => ClaimInv(limits, s, w, limit);
    case Settle(w) => SettleInv(limits, s, w);
    case _ =>
      var t := Next(limits, s, a);
      forall k | 0 <= k < |t.rows| ensures RowInv(limits, t, k) {
        if k < |s.rows| { assert RowInv(limits, s, k); }
      }
      forall v | v in t.publishers ensures HeldInv(t, v) {
        assert HeldInv(s, v);
      }
  }

  lemma {:induction false} RunInv(limits: Fleet, now: nat, actions: seq<Action>)
    ensures Inv(limits, Run(limits, Start(now), actions))
  {
    if actions != [] {
      RunInv(limits, now, actions[..|actions| - 1]);
      NextInv(limits, Run(limits, Start(now), actions[..|actions| - 1]), actions[|actions| - 1]);
    }
  }

  // ---------------------------------------------------------------- what runs guarantee

  /** The state is the end of some run: any number of publishers, crashing, stalling past
      their leases and racing, from an empty outbox. */
  ghost predicate Reachable(limits: Fleet, s: Delivery) {
    exists now, actions :: s == Run(limits, Start(now), actions)
  }

  lemma ReachableInv(limits: Fleet, s: Delivery)
    requires Reachable(limits, s)
    ensures Inv(limits, s)
  {
    var now, actions :| s == Run(limits, Start(now), actions);
    RunInv(limits, now, actions);
  }

  /** A row marked published was handed to the broker, and exactly one completion reported
      success for it; a row that is not has seen none. */
  lemma PublishedExactlyOnceAndHandedOver(limits: Fleet, s: Delivery, k: nat)
    requires Reachable(limits, s) && k < |s.rows|
    ensures s.rows[k].published ==> k in s.broker
    ensures s.completions[k] == if s.rows[k].published then 1 else 0
  {
    ReachableInv(limits, s);
    assert RowInv(limits, s, k);
  }

  /** Fencing: tokens of one row strictly increase from grant to grant, so once a row has been
      granted again the earlier grant can neither complete nor retry it. */
  lemma SupersededGrantIsPowerless(limits: Fleet, s: Delivery, i: nat, j: nat, availableAt: nat)
    requires Reachable(limits, s) && i < j < |s.grants| && s.grants[i].row == s.grants[j].row
    ensures s.grants[j].row < |s.rows| && s.grants[i].token < s.grants[j].token <= s.rows[s.grants[j].row].token
    ensures CompleteRows(s.rows, s.grants[i].row, s.grants[i].token) == s.rows
    ensures RetryRows(s.rows, s.grants[i].row, s.grants[i].token, availableAt) == s.rows
  {
    ReachableInv(limits, s);
  }

  /** No two publishers ever work under the same grant. */
  lemma GrantsAreExclusive(limits: Fleet, s: Delivery, v: nat, w: nat, r: Record)
    requires Reachable(limits, s) && v in s.publishers && w in s.publishers
    requires r in s.publishers[v].batch && r in s.publishers[w].batch
    ensures v == w
  {
    ReachableInv(limits, s);
  }

  /** Nothing a step does to a row undoes what was published or granted. */
  ghost predicate Keeps(s: Delivery, t: Delivery, k: nat)
    requires k < |s.rows|
  {
    && k < |t.rows|
    && t.rows[k].eventId == s.rows[k].eventId && t.rows[k].topic == s.rows[k].topic
    && t.rows[k].token >= s.rows[k].token
    && (s.rows[k].published ==> t.rows[k] == s.rows[k])
    && s.broker <= t.broker && s.grants <= t.grants
  }

  lemma NextKeeps(limits: Fleet, s: Delivery, a: Action, k: nat)
    requires k < |s.rows|
    ensures Keeps(s, Next(limits, s, a), k)
  {
  }

  /** Published rows are final, and tokens never fall, whatever happens afterwards. */
  lemma {:induction false} PublishedIsFinal(limits: Fleet, s: Delivery, later: seq<Action>, k: nat)
    requires k < |s.rows|
    ensures Keeps(s, Run(limits, s, later), k)
  {
    if later != [] {
      var n := |later| - 1;
      PublishedIsFinal(limits, s, later[..n], k);
      NextKeeps(limits, Run(limits, s, later[..n]), later[n], k);
    }
  }

  /** The number of rows still waiting to be published. */
  function PendingCount(rows: seq<Row>): nat {
    if rows == [] then 0
    else PendingCount(rows[..|rows| - 1]) + if rows[|rows| - 1].published then 0 else 1
  }

  lemma {:induction false} AllPendingReady(rows: seq<Row>, now: nat)
    requires forall k :: 0 <= k < |rows| ==> (Ready(rows[k], now) <==> !rows[k].published)
    ensures ReadyCount(rows, now) == PendingCount(rows)
  {
    if rows != [] {
      AllPendingReady(rows[..|rows| - 1], now);
    }
  }

  lemma AllReadyAfterwards(limits: Fleet, s: Delivery, later: nat)
    requires Inv(limits, s) && later >= s.now && forall v :: later >= s.now + limits(v).lease && later >= s.now + limits(v).maxBackoff
    ensures forall j :: 0 <= j < |s.rows| ==> (Ready(s.rows[j], later) <==> !s.rows[j].published)
  {
    forall j | 0 <= j < |s.rows| ensures Ready(s.rows[j], later) <==> !s.rows[j].published {
      assert RowInv(limits, s, j);
    }
  }

  lemma GrantsBelow(s: Delivery, k: nat)
    requires GrantInv(s) && k < |s.rows|
    ensures forall g :: g in s.grants && g.row == k ==> g.token <= s.rows[k].token
  {
  }

  function ClaimedLater(limits: Fleet, s: Delivery, elapsed: nat, w: nat, limit: nat): Delivery {
    Next(limits, Next(limits, s, Tick(elapsed)), Claim(w, limit))
  }

  /** No publisher's lease or backoff is longer. */
  ghost predicate LongEnough(limits: Fleet, elapsed: nat) { forall v :: limits(v).lease <= elapsed && limits(v).maxBackoff <= elapsed }

  /** No row is ever lost: from any reachable state, once the longest lease and the longest
      backoff have elapsed, a claim by an idle publisher is granted exactly the oldest
      unpublished rows, up to its limit, each under a token above every earlier one. */
  lemma UnpublishedIsClaimableAgain(limits: Fleet, s: Delivery, elapsed: nat, w: nat, limit: nat, k: nat)
    requires Reachable(limits, s) && k < |s.rows| && LongEnough(limits, elapsed)
    requires w in s.publishers ==> s.publishers[w].batch == []
    ensures var t := ClaimedLater(limits, s, elapsed, w, limit);
            var granted := !s.rows[k].published && PendingCount(s.rows[..k]) < limit;
            && k < |t.rows| && w in t.publishers
            && (RecordOf(s.rows, k) in t.publishers[w].batch <==> granted)
            && (t.rows[k] == if granted then Grant(s.rows[k], w, s.now + elapsed + limits(w).lease) else s.rows[k])
            && (forall g :: g in s.grants && g.row == k ==> g.token < RecordOf(s.rows, k).token)
  {
    hide Reachable, Run;
    ReachableInv(limits, s);
    GrantsBelow(s, k);
    var later := s.now + elapsed;
    assert Taken(s.rows, later, limit, k) <==> !s.rows[k].published && PendingCount(s.rows[..k]) < limit by {
      AllReadyAfterwards(limits, s, later);
      AllPendingReady(s.rows[..k], later);
    }
    RecordIsGranted(s.rows, limit, later, |s.rows|, RecordOf(s.rows, k));
    assert ClaimedLater(limits, s, elapsed, w, limit).rows == ClaimRows(s.rows, w, limit, later, limits(w).lease);
    assert ClaimedLater(limits, s, elapsed, w, limit).publishers[w].batch == ClaimRecords(s.rows, limit, later, |s.rows|);
  }

  lemma {:induction false} ReadyCountBelow(rows: seq<Row>, now: nat)
    ensures ReadyCount(rows, now) <= |rows|
  {
    if rows != [] {
      ReadyCountBelow(rows[..|rows| - 1], now);
    }
  }

  predicate OnlyClaims(claims: seq<Action>) { forall i :: 0 <= i < |claims| ==> claims[i].Claim? }

  /** One more claim, by whomever: an untouched row is still there to be claimed, unless this
      claim was granted it, as it is when its limit does not exclude it. */
  lemma ClaimTakesOrLeaves(limits: Fleet, s: Delivery, w: nat, limit: nat, k: nat)
    requires k < |s.rows| && Ready(s.rows[k], s.now)
    ensures var t := Next(limits, s, Claim(w, limit));
            && t.now == s.now && |t.rows| == |s.rows| && t.rows[k].token >= s.rows[k].token
            && (t.rows[k] == s.rows[k] || (t.rows[k].token == s.rows[k].token + 1 && RecordOf(s.rows, k) in t.grants))
            && ((w in s.publishers ==> s.publishers[w].batch == []) && limit >= |s.rows| ==> t.rows[k].token == s.rows[k].token + 1)
  {
    ReadyCountBelow(s.rows[..k], s.now);
    RecordIsGranted(s.rows, limit, s.now, |s.rows|, RecordOf(s.rows, k));
  }

  lemma ClaimsNeverLower(limits: Fleet, s: Delivery, w: nat, limit: nat, k: nat)
    requires k < |s.rows|
    ensures var t := Next(limits, s, Claim(w, limit));
            t.now == s.now && |t.rows| == |s.rows| && t.rows[k].token >= s.rows[k].token
  {
  }

  /** The same under contention: whoever claims after that wait, and in whatever order, an
      unpublished row is either granted to one of them, under a new token, or still ready for the
      next; and it is granted for sure once an idle publisher with a large enough limit claims. */
  lemma {:induction false} ContendedRowIsGranted(limits: Fleet, s: Delivery, elapsed: nat, claims: seq<Action>, k: nat)
    requires Reachable(limits, s) && k < |s.rows| && !s.rows[k].published && LongEnough(limits, elapsed) && OnlyClaims(claims)
    ensures var t := Run(limits, Next(limits, s, Tick(elapsed)), claims);
            && t.now == s.now + elapsed && |t.rows| == |s.rows|
            && (t.rows[k].token > s.rows[k].token || (t.rows[k] == s.rows[k] && Ready(t.rows[k], t.now)))
            && forall w, limit :: (w in t.publishers ==> t.publishers[w].batch == []) && limit >= |t.rows|
                 ==> k < |Next(limits, t, Claim(w, limit)).rows| && Next(limits, t, Claim(w, limit)).rows[k].token > s.rows[k].token
  {
    var start := Next(limits, s, Tick(elapsed));
    var t := Run(limits, start, claims);
    if claims == [] {
      ReachableInv(limits, s);
      AllReadyAfterwards(limits, s, start.now);
    } else {
      var before, c := Run(limits, start, claims[..|claims| - 1]), claims[|claims| - 1];
      ContendedRowIsGranted(limits, s, elapsed, claims[..|claims| - 1], k);
      hide Next, Run, Reachable;
      ClaimsNeverLower(limits, before, c.worker, c.limit, k);
      if before.rows[k] == s.rows[k] && Ready(before.rows[k], before.now) {
        ClaimTakesOrLeaves(limits, before, c.worker, c.limit, k);
      }
    }
    hide Next, Run, Reachable;
    forall w, limit: nat | (w in t.publishers ==> t.publishers[w].batch == []) && limit >= |t.rows|
      ensures k < |Next(limits, t, Claim(w, limit)).rows| && Next(limits, t, Claim(w, limit)).rows[k].token > s.rows[k].token
    {
      ClaimsNeverLower(limits, t, w, limit, k);
      if t.rows[k] == s.rows[k] && Ready(t.rows[k], t.now) { ClaimTakesOrLeaves(limits, t, w, limit, k); }
    }
  }

  // ---------------------------------------------------------------- what a lease and a retry protect

  /** What a claim does to the rows, spelled out. A row is granted only while it is unpublished,
      available, and free or past its lease; it is then leased from now on, under the next token.
      A row that could have been granted and was not finds the limit used up by older ones. */
  lemma ClaimIsExact(rows: seq<Row>, owner: nat, limit: nat, now: nat, leaseTime: nat)
    ensures var after, records := ClaimRows(rows, owner, limit, now, leaseTime), ClaimRecords(rows, limit, now, |rows|);
            && |after| == |rows| && |records| <= limit
            && (forall k :: 0 <= k < |rows| && after[k] != rows[k] ==>
                  var row := rows[k];
                  && !row.published && row.availableAt <= now && (row.lease.Leased? ==> row.lease.until <= now)
                  && after[k] == Row(row.eventId, row.topic, row.attempts + 1, row.availableAt, Leased(owner, now + leaseTime), row.token + 1, false)
                  && Record(k, row.eventId, row.topic, row.attempts + 1, row.token + 1) in records)
            && (forall r :: r in records ==> r.row < |rows| && after[r.row] != rows[r.row] && r.token == rows[r.row].token + 1
                                             && r == Record(r.row, after[r.row].eventId, after[r.row].topic, after[r.row].attempts, r.token))
            && (forall k :: 0 <= k < |rows| && !rows[k].published && rows[k].availableAt <= now && after[k] == rows[k]
                            && (rows[k].lease.Leased? ==> rows[k].lease.until <= now) ==>
                  |records| == limit && forall r :: r in records ==> r.row < k)
  {
    var after, records := ClaimRows(rows, owner, limit, now, leaseTime), ClaimRecords(rows, limit, now, |rows|);
    ClaimLength(rows, limit, now, |rows|);
    assert rows[..|rows|] == rows;
    forall r: Record ensures r in records <==> r.row < |rows| && Taken(rows, now, limit, r.row) && r == RecordOf(rows, r.row) {
      RecordIsGranted(rows, limit, now, |rows|, r);
    }
    forall k | 0 <= k < |rows| && after[k] != rows[k] ensures RecordOf(rows, k) in records {
      RecordIsGranted(rows, limit, now, |rows|, RecordOf(rows, k));
    }
    forall k, r | 0 <= k < |rows| && !Taken(rows, now, limit, k) && Ready(rows[k], now) && r in records ensures r.row < k {
      if r.row > k { ReadyCountGrows(rows, now, k, r.row); }
    }
    forall k | 0 <= k < |rows| && !Taken(rows, now, limit, k) && Ready(rows[k], now) ensures ReadyCount(rows, now) >= limit {
      ReadyCountGrows(rows, now, k, |rows|);
    }
  }

  lemma {:induction false} ReadyCountGrows(rows: seq<Row>, now: nat, k: nat, n: nat)
    requires k <= n <= |rows|
    ensures ReadyCount(rows[..k], now) <= ReadyCount(rows[..n], now)
  {
    if k < n {
      ReadyCountGrows(rows, now, k, n - 1);
      assert rows[..n][..n - 1] == rows[..n - 1];
    }
  }

  /** A step in which some publisher completes or retries this record. */
  predicate Settling(s: Delivery, a: Action, r: Record) {
    && a.Settle? && a.worker in s.publishers && s.publishers[a.worker].stage != Claimed
    && s.publishers[a.worker].batch != [] && s.publishers[a.worker].batch[0] == r
  }

  /** Nobody completes or retries the record in this run. */
  predicate Unsettled(limits: Fleet, s: Delivery, later: seq<Action>, r: Record) {
    later == [] ||
    (Unsettled(limits, s, later[..|later| - 1], r) && !Settling(Run(limits, s, later[..|later| - 1]), later[|later| - 1], r))
  }

  predicate Idle(s: Delivery, w: nat) { w in s.publishers ==> s.publishers[w].batch == [] }

  /** The token of row k rises with this claim. */
  predicate Grants(limits: Fleet, s: Delivery, w: nat, limit: nat, k: nat)
    requires k < |s.rows|
  {
    k < |Next(limits, s, Claim(w, limit)).rows| && Next(limits, s, Claim(w, limit)).rows[k].token > s.rows[k].token
  }

  lemma SameGrant(s: Delivery, r: Record, q: Record)
    requires GrantInv(s) && r in s.grants && q in s.grants && q.row == r.row && q.token == r.token
    ensures q == r
  {
    var i :| 0 <= i < |s.grants| && s.grants[i] == r;
    var j :| 0 <= j < |s.grants| && s.grants[j] == q;
  }

  /** The row stands as it was granted until the record is settled or the row is granted again. */
  lemma UnsettledStep(limits: Fleet, s: Delivery, a: Action, r: Record)
    requires Inv(limits, s) && r in s.grants && s.rows[r.row].token == r.token && !Settling(s, a, r)
    ensures var t := Next(limits, s, a);
            && r in t.grants && r.row < |t.rows| && (t.rows[r.row].token == r.token ==> t.rows[r.row] == s.rows[r.row]) && t.rows[r.row].token >= r.token
  {
    NextKeeps(limits, s, a, r.row);
    if a.Settle? && a.worker in s.publishers && s.publishers[a.worker].batch != [] {
      assert HeldInv(s, a.worker);
      var q := s.publishers[a.worker].batch[0];
      if q.row == r.row && q.token == r.token { SameGrant(s, r, q); }
    }
  }

  lemma {:induction false} UnsettledRun(limits: Fleet, s: Delivery, later: seq<Action>, r: Record)
    requires Inv(limits, s) && r in s.grants && s.rows[r.row].token == r.token && Unsettled(limits, s, later, r)
    ensures var t := Run(limits, s, later);
            && Inv(limits, t) && r in t.grants && r.row < |t.rows| && t.now >= s.now && t.rows[r.row].token >= r.token
            && (t.rows[r.row].token == r.token ==> t.rows[r.row] == s.rows[r.row])
  {
    if later != [] {
      var n := |later| - 1;
      UnsettledRun(limits, s, later[..n], r);
      var u := Run(limits, s, later[..n]);
      NextInv(limits, u, later[n]);
      NextKeeps(limits, u, later[n], r.row);
      if u.rows[r.row].token == r.token { UnsettledStep(limits, u, later[n], r); }
    }
  }

  /** A claim grants a row only when it is due, and an idle publisher with a large enough limit
      is granted every row that is. */
  lemma GrantsExactly(limits: Fleet, s: Delivery, w: nat, limit: nat, k: nat)
    requires k < |s.rows|
    ensures var row := s.rows[k];
            var due := !row.published && row.availableAt <= s.now && (row.lease.Leased? ==> row.lease.until <= s.now);
            && (Grants(limits, s, w, limit, k) ==> Idle(s, w) && due)
            && (Idle(s, w) && limit >= |s.rows| ==> (Grants(limits, s, w, limit, k) <==> due))
  {
    ReadyCountBelow(s.rows[..k], s.now);
  }

  /** A lease protects its holder. Once a claim has handed out a record, and until that record is
      completed or retried, nobody is granted its row before the lease has run out; from then on
      an idle publisher is. */
  lemma LeaseProtectsItsHolder(limits: Fleet, s: Delivery, w: nat, limit: nat, r: Record, later: seq<Action>, v: nat, n: nat)
    requires Reachable(limits, s) && Idle(s, w)
    requires r in ClaimRecords(s.rows, limit, s.now, |s.rows|)
    requires var t := Next(limits, s, Claim(w, limit));
             Unsettled(limits, t, later, r) && r.row < |Run(limits, t, later).rows| && Run(limits, t, later).rows[r.row].token == r.token
    ensures var t := Next(limits, s, Claim(w, limit));
            var u := Run(limits, t, later);
            && w in t.publishers && r in t.publishers[w].batch
            && (Grants(limits, u, v, n, r.row) ==> u.now >= s.now + limits(w).lease)
            && (Idle(u, v) && n >= |u.rows| ==> (Grants(limits, u, v, n, r.row) <==> u.now >= s.now + limits(w).lease))
  {
    var t := Next(limits, s, Claim(w, limit));
    ReachableInv(limits, s);
    NextInv(limits, s, Claim(w, limit));
    ClaimIsExact(s.rows, w, limit, s.now, limits(w).lease);
    hide Reachable, Inv, Run, Unsettled, ClaimRecords, ClaimRows, Grants;
    assert t.rows == ClaimRows(s.rows, w, limit, s.now, limits(w).lease);
    UnsettledRun(limits, t, later, r);
    GrantsExactly(limits, Run(limits, t, later), v, n, r.row);
  }

  /** No publisher has this record any more. */
  ghost predicate Gone(s: Delivery, r: Record) {
    forall w :: w in s.publishers ==> r !in s.publishers[w].batch
  }

  lemma GoneStep(limits: Fleet, s: Delivery, a: Action, r: Record)
    requires Inv(limits, s) && r in s.grants && Gone(s, r)
    ensures Gone(Next(limits, s, a), r)
  {
    match a
    case Claim(w, limit) => ClaimGrantInv(limits, s, w, limit);
    case _ =>
  }

  lemma {:induction false} GoneIsUnsettled(limits: Fleet, s: Delivery, later: seq<Action>, r: Record)
    requires Inv(limits, s) && r in s.grants && Gone(s, r)
    ensures Unsettled(limits, s, later, r)
    ensures var t := Run(limits, s, later); Inv(limits, t) && r in t.grants && Gone(t, r)
  {
    if later != [] {
      var n := |later| - 1;
      GoneIsUnsettled(limits, s, later[..n], r);
      var u := Run(limits, s, later[..n]);
      NextInv(limits, u, later[n]);
      GoneStep(limits, u, later[n], r);
      assert u.grants <= Next(limits, u, later[n]).grants;
    }
  }

  lemma SettledIsGone(limits: Fleet, s: Delivery, w: nat, r: Record)
    requires Inv(limits, s) && Settling(s, Settle(w), r)
    ensures Gone(Next(limits, s, Settle(w)), r) && r in s.grants
  {
    assert HeldInv(s, w);
  }

  /** A retry delays its row. After a publisher has retried a record it held, nobody is granted
      the row before the backoff of that publisher has passed; from then on an idle publisher is,
      although the lease under which the row was held may still have time to run. */
  lemma RetryDelaysItsRow(limits: Fleet, s: Delivery, w: nat, r: Record, later: seq<Action>, v: nat, n: nat)
    requires Reachable(limits, s) && Settling(s, Settle(w), r) && s.publishers[w].stage == Failed && Holds(s.rows, r.row, r.token)
    requires var t := Next(limits, s, Settle(w));
             r.row < |Run(limits, t, later).rows| && Run(limits, t, later).rows[r.row].token == r.token
    ensures var u := Run(limits, Next(limits, s, Settle(w)), later);
            && (Grants(limits, u, v, n, r.row) ==> u.now >= s.now + Backoff(limits(w), r.attempts))
            && (Idle(u, v) && n >= |u.rows| ==> (Grants(limits, u, v, n, r.row) <==> u.now >= s.now + Backoff(limits(w), r.attempts)))
  {
    var t := Next(limits, s, Settle(w));
    ReachableInv(limits, s);
    NextInv(limits, s, Settle(w));
    SettledIsGone(limits, s, w, r);
    hide Backoff;
    assert t.rows[r.row] == s.rows[r.row].(availableAt := s.now + Backoff(limits(w), r.attempts), lease := Free) && t.grants == s.grants;
    hide Reachable, Inv, Run, Unsettled, ClaimRecords, ClaimRows, Grants;
    GoneIsUnsettled(limits, t, later, r);
    UnsettledRun(limits, t, later, r);
    GrantsExactly(limits, Run(limits, t, later), v, n, r.row);
  }

  /** The backoff starts at the polling interval and doubles with every attempt, at most twelve
      times, up to its maximum. */
  lemma BackoffDoubles(limits: Limits, attempts: nat)
    ensures Backoff(limits, 0) == if limits.poll <= limits.maxBackoff then limits.poll else limits.maxBackoff
    ensures attempts < 12 ==>
              Backoff(limits, attempts + 1) == if 2 * Backoff(limits, attempts) <= limits.maxBackoff then 2 * Backoff(limits, attempts) else limits.maxBackoff
    ensures attempts >= 12 ==> Backoff(limits, attempts) == Backoff(limits, 12)
  {
    var p := limits.poll;
    assert Power2(0) == 1 && (attempts < 12 ==> Power2(attempts + 1) == 2 * Power2(attempts));
    assert attempts < 12 ==> p * Power2(attempts + 1) == 2 * (p * Power2(attempts));
    hide Power2;
  }

  // ---------------------------------------------------------------- the objects

  ghost predicate RowsMatch(log: Log<string, string>, rows: seq<Row>) {
    && (forall k :: 0 <= k < |rows| ==> SequenceOf(log, rows[k].eventId) != 0)
    && (forall j, k :: 0 <= j < k < |rows| ==> rows[j].eventId != rows[k].eventId)
  }

  lemma RowsStayInLog(before: Log<string, string>, more: Log<string, string>, rows: seq<Row>)
    requires RowsMatch(before, rows)
    ensures RowsMatch(before + more, rows)
  {
    forall k | 0 <= k < |rows| ensures SequenceOf(before + more, rows[k].eventId) != 0 {
      SequenceOfStable(before, more, rows[k].eventId);
    }
  }

  /** An append under an expected head, or under none. */
  function AppendedBy(log: Log<string, string>, e: Event<string, string>, expected: Option<int>): (Log<string, string>, AppendResult) {
    if expected.Some? then AppendAtHead(log, e, expected.value)
    else
      var (after, s) := AppendTo(log, e);
      (after, Stored(s))
  }

  /** However an append ends, the outbox afterwards has one row per enqueued event, and only
      for events that are in the log. */
  lemma EnqueueKeepsRows(before: Log<string, string>, e: Event<string, string>, expected: Option<int>, rows: seq<Row>, topic: string, now: nat)
    requires UniqueIds(before) && RowsMatch(before, rows)
    ensures var (after, r) := AppendedBy(before, e, expected);
            && RowsMatch(after, rows)
            && (r.Stored? ==> RowsMatch(after, EnqueueRows(rows, e.id, topic, now)))
  {
    var after := AppendedBy(before, e, expected).0;
    if expected.Some? { CompareAndAppendIsExact(before, e, expected.value); } else { AppendKeeps(before, e); }
    RowsStayInLog(before, after[|before|..], rows);
    assert after == before + after[|before|..];
    if SequenceOf(after, e.id) != 0 {
      EnqueueMatches(after, rows, e.id, topic, now);
    }
  }

  lemma EnqueueMatches(log: Log<string, string>, rows: seq<Row>, id: string, topic: string, now: nat)
    requires RowsMatch(log, rows) && SequenceOf(log, id) != 0
    ensures RowsMatch(log, EnqueueRows(rows, id, topic, now))
  {
    var after := EnqueueRows(rows, id, topic, now);
    if after != rows {
      assert after == rows + [Row(id, topic, 0, now, Free, 0, false)];
      forall k | 0 <= k < |after| ensures SequenceOf(log, after[k].eventId) != 0 {
        if k < |rows| { assert after[k] == rows[k]; }
      }
      forall j, k | 0 <= j < k < |after| ensures after[j].eventId != after[k].eventId {
        assert rows[j] in rows;
      }
    }
  }

  lemma ClaimMatches(log: Log<string, string>, rows: seq<Row>, owner: nat, limit: nat, now: nat, leaseTime: nat)
    requires RowsMatch(log, rows)
    ensures RowsMatch(log, ClaimRows(rows, owner, limit, now, leaseTime))
  {
    var after := ClaimRows(rows, owner, limit, now, leaseTime);
    assert forall k :: 0 <= k < |rows| ==> after[k].eventId == rows[k].eventId;
  }

  /** The durable store: the canonical log and its outbox, changed in one transaction. */
  class DeliveryStore {
    const events: InMemoryEventStore<string, string>
    var rows: seq<Row>

    /** One row per enqueued event, and only for events that are in the log. */
    ghost predicate Valid()
      reads this, events
    {
      events.Valid() && RowsMatch(events.events, rows)
    }

    constructor (events: InMemoryEventStore<string, string>)
      requires events.Valid()
      ensures this.events == events && rows == [] && Valid()
    {
      this.events, rows := events, [];
    }

    /** Event and outbox row are stored together; a refused append stores neither. */
    method AppendWithOutbox(e: Event<string, string>, topic: string, expected: Option<int>, now: nat) returns (r: AppendResult)
      requires Valid()
      modifies this, events
      ensures Valid()
      ensures (events.events, r) == AppendedBy(old(events.events), e, expected)
      ensures rows == if r.Stored? then EnqueueRows(old(rows), e.id, topic, now) else old(rows)
    {
      ghost var before := events.events;
      if expected.Some? {
        r := events.AppendIfHead(e, expected.value);
      } else {
        var sequence := events.Append(e);
        r := Stored(sequence);
      }
      EnqueueKeepsRows(before, e, expected, rows, topic, now);
      if r.Stored? && !exists row :: row in rows && row.eventId == e.id {
        rows := rows + [Row(e.id, topic, 0, now, Free, 0, false)];
      }
    }

    method ClaimOutbox(owner: nat, limit: nat, now: nat, leaseTime: nat) returns (records: seq<Record>)
      requires Valid()
      modifies this`rows
      ensures Valid()
      ensures rows == ClaimRows(old(rows), owner, limit, now, leaseTime)
      ensures records == ClaimRecords(old(rows), limit, now, |old(rows)|)
    {
      var after;
      after, records := SelectAndGrant(rows, owner, limit, now, now + leaseTime);
      assert after == ClaimRows(rows, owner, limit, now, leaseTime);
      ClaimMatches(events.events, rows, owner, limit, now, leaseTime);
      rows := after;
    }

    /** The select in row order and the updates of the selected rows, as one pass. */
    static method SelectAndGrant(was: seq<Row>, owner: nat, limit: nat, now: nat, until: nat)
      returns (after: seq<Row>, records: seq<Record>)
      ensures records == ClaimRecords(was, limit, now, |was|)
      ensures |after| == |was| && forall j :: 0 <= j < |was| ==> after[j] == ClaimedRow(was, owner, limit, now, until, j)
    {
      after, records := was, [];
      for k := 0 to |was|
        invariant |after| == |was| && records == ClaimRecords(was, limit, now, k)
        invariant forall j :: 0 <= j < k ==> after[j] == ClaimedRow(was, owner, limit, now, until, j)
        invariant forall j :: k <= j < |was| ==> after[j] == was[j]
      {
        NextIsTaken(was, limit, now, k);
        if Ready(after[k], now) && |records| < limit {
          var row := after[k];
          after := after[k := row.(lease := Leased(owner, until), token := row.token + 1, attempts := row.attempts + 1)];
          records := records + [Record(k, row.eventId, row.topic, row.attempts + 1, row.token + 1)];
        }
      }
    }

    method CompleteOutbox(row: nat, token: nat) returns (ok: bool)
      requires Valid()
      modifies this`rows
      ensures Valid() && ok == Holds(old(rows), row, token) && rows == CompleteRows(old(rows), row, token)
    {
      ok := row < |rows| && rows[row].token == token && !rows[row].published;
      if ok {
        rows := rows[row := rows[row].(published := true, lease := Free)];
      }
    }

    method RetryOutbox(row: nat, token: nat, availableAt: nat) returns (ok: bool)
      requires Valid()
      modifies this`rows
      ensures Valid() && ok == Holds(old(rows), row, token) && rows == RetryRows(old(rows), row, token, availableAt)
    {
      ok := row < |rows| && rows[row].token == token && !rows[row].published;
      if ok {
        rows := rows[row := rows[row].(availableAt := availableAt, lease := Free)];
      }
    }
  }

  /** The steps of one uninterrupted round: claim, then send and settle record by record. */
  function Round(w: nat, limit: nat, outcome: nat -> SendOutcome, n: nat): seq<Action> {
    if n == 0 then [Claim(w, limit)] else Round(w, limit, outcome, n - 1) + [Send(w, outcome(n - 1)), Settle(w)]
  }

  lemma RunTwo(limits: Fleet, s: Delivery, actions: seq<Action>, a: Action, b: Action)
    ensures Run(limits, s, actions + [a, b]) == Next(limits, Next(limits, Run(limits, s, actions), a), b)
  {
    assert (actions + [a, b])[..|actions| + 1] == actions + [a];
    assert (actions + [a])[..|actions|] == actions;
  }

  /** The protocol state after the claim and the first n records of a round. */
  function AfterRound(limits: Fleet, s: Delivery, w: nat, limit: nat, outcome: nat -> SendOutcome, n: nat): Delivery {
    if n == 0 then Next(limits, s, Claim(w, limit))
    else Next(limits, Next(limits, AfterRound(limits, s, w, limit, outcome, n - 1), Send(w, outcome(n - 1))), Settle(w))
  }

  lemma {:induction false} RoundIsRun(limits: Fleet, s: Delivery, w: nat, limit: nat, outcome: nat -> SendOutcome, n: nat)
    ensures AfterRound(limits, s, w, limit, outcome, n) == Run(limits, s, Round(w, limit, outcome, n))
  {
    hide Next;
    if n == 0 {
      assert [Claim(w, limit)][..0] == [];
      assert Run(limits, s, []) == s;
    } else {
      RoundIsRun(limits, s, w, limit, outcome, n - 1);
      RunTwo(limits, s, Round(w, limit, outcome, n - 1), Send(w, outcome(n - 1)), Settle(w));
    }
  }

  /** One record of a round: sent, then completed or scheduled for retry under its token. */
  lemma SettleHead(limits: Fleet, t: Delivery, w: nat, batch: seq<Record>, outcome: SendOutcome)
    requires w in t.publishers && t.publishers[w] == Publisher(Claimed, batch) && batch != []
    ensures var u := Next(limits, Next(limits, t, Send(w, outcome)), Settle(w));
            var held := batch[0];
            && u.rows == SettledRows(limits(w), t.rows, held, outcome, t.now)
            && u.now == t.now && u.publishers == t.publishers[w := Publisher(Claimed, batch[1..])]
            && |u.completions| == |t.completions| + if outcome.Acknowledged? && Holds(t.rows, held.row, held.token) then 1 else 0
  {
  }

  function SettledRows(limits: Limits, rows: seq<Row>, r: Record, outcome: SendOutcome, now: nat): seq<Row> {
    if outcome.Acknowledged? then CompleteRows(rows, r.row, r.token)
    else RetryRows(rows, r.row, r.token, now + Backoff(limits, r.attempts))
  }

  /** The round so far and the rows in the store agree, and `batch` is what is left of it. */
  ghost predicate Abreast(t: Delivery, rows: seq<Row>, now: nat, idle: map<nat, Publisher>, w: nat, batch: seq<Record>, completions: nat) {
    t.rows == rows && t.now == now && t.publishers == idle[w := Publisher(Claimed, batch)] && |t.completions| == completions
  }

  lemma RoundStart(limits: Fleet, s: Delivery, w: nat, limit: nat, outcome: nat -> SendOutcome)
    requires w in s.publishers ==> s.publishers[w].batch == []
    ensures Abreast(AfterRound(limits, s, w, limit, outcome, 0), ClaimRows(s.rows, w, limit, s.now, limits(w).lease), s.now,
                    s.publishers, w, ClaimRecords(s.rows, limit, s.now, |s.rows|), |s.completions|)
  {
  }

  lemma RoundStep(limits: Fleet, s: Delivery, w: nat, limit: nat, outcome: nat -> SendOutcome, i: nat,
                  rows: seq<Row>, now: nat, batch: seq<Record>, completions: nat)
    requires batch != []
    requires Abreast(AfterRound(limits, s, w, limit, outcome, i), rows, now, s.publishers, w, batch, completions)
    ensures Abreast(AfterRound(limits, s, w, limit, outcome, i + 1), SettledRows(limits(w), rows, batch[0], outcome(i), now), now,
                    s.publishers, w, batch[1..],
                    completions + if outcome(i).Acknowledged? && Holds(rows, batch[0].row, batch[0].token) then 1 else 0)
  {
    SettleHead(limits, AfterRound(limits, s, w, limit, outcome, i), w, batch, outcome(i));
  }

  class OutboxPublisher {
    const store: DeliveryStore
    const workerId: nat
    const batchSize: nat
    const limits: Limits

    constructor (store: DeliveryStore, workerId: nat, batchSize: nat, limits: Limits)
      ensures this.store == store && this.workerId == workerId && this.batchSize == batchSize && this.limits == limits
    {
      this.store, this.workerId, this.batchSize, this.limits := store, workerId, batchSize, limits;
    }

    method PublishRecord(record: Record, outcome: SendOutcome, now: nat) returns (ok: bool)
      requires store.Valid()
      modifies store`rows
      ensures store.Valid() && ok == (outcome.Acknowledged? && Holds(old(store.rows), record.row, record.token))
      ensures store.rows == SettledRows(limits, old(store.rows), record, outcome, now)
    {
      if outcome.Acknowledged? {
        ok := store.CompleteOutbox(record.row, record.token);
      } else {
        var _ := store.RetryOutbox(record.row, record.token, now + Backoff(limits, record.attempts));
        ok := false;
      }
    }

    /** One round against the broker's answers refines the protocol: `s` is any state of it
        in which this publisher is idle, and the count returned is the number of completions. */
    method RunOnce(now: nat, outcome: nat -> SendOutcome, ghost fleet: Fleet, ghost s: Delivery) returns (completed: nat, n: nat)
      requires store.Valid() && s.rows == store.rows && s.now == now
      requires fleet(workerId) == limits && (workerId in s.publishers ==> s.publishers[workerId].batch == [])
      modifies store`rows
      ensures store.Valid()
      ensures Abreast(AfterRound(fleet, s, workerId, batchSize, outcome, n), store.rows, now,
                      s.publishers, workerId, [], |s.completions| + completed)
    {
      hide AfterRound;
      var records := store.ClaimOutbox(workerId, batchSize, now, limits.lease);
      completed := 0;
      RoundStart(fleet, s, workerId, batchSize, outcome);
      var rest := records;
      n := 0;
      while rest != []
        invariant store.Valid()
        invariant Abreast(AfterRound(fleet, s, workerId, batchSize, outcome, n), store.rows, now,
                          s.publishers, workerId, rest, |s.completions| + completed)
        decreases |rest|
      {
        RoundStep(fleet, s, workerId, batchSize, outcome, n, store.rows, now, rest, |s.completions| + completed);
        var ok := PublishRecord(rest[0], outcome(n), now);
        if ok {
          completed := completed + 1;
        }
        rest, n := rest[1..], n + 1;
      }
    }
  }
}
