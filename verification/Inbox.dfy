/** The deduplicating inbox: a message is acknowledged to the broker only behind a completed
    row, and a row completes only behind a handler that returned normally. */
module Inbox {

  datatype Key = Key(message: string, consumer: string)
  datatype Status = Pending | Processing | Completed
  datatype Lease = Free | Until(time: nat)
  datatype Row = Row(status: Status, attempts: nat, availableAt: nat, lease: Lease, token: nat)

  type Rows = map<Key, Row>

  datatype Claimed = AlreadyCompleted | Busy | Acquired(token: nat)

  // ---------------------------------------------------------------- row operations

  predicate Blocked(row: Row, now: nat) {
    row.availableAt > now || (row.lease.Until? && row.lease.time > now)
  }

  function ClaimResult(rows: Rows, key: Key, now: nat): Claimed {
    if key !in rows then Acquired(1)
    else if rows[key].status.Completed? then AlreadyCompleted
    else if Blocked(rows[key], now) then Busy
    else Acquired(rows[key].token + 1)
  }

  function ClaimRows(rows: Rows, key: Key, now: nat, until: nat): Rows {
    if !ClaimResult(rows, key, now).Acquired? then rows
    else if key !in rows then rows[key := Row(Processing, 1, now, Until(until), 1)]
    else
      var row := rows[key];
      rows[key := row.(status := Processing, attempts := row.attempts + 1, lease := Until(until), token := row.token + 1)]
  }

  predicate Holds(rows: Rows, key: Key, token: nat) {
    key in rows && rows[key].token == token && rows[key].status == Processing
  }

  function CompleteRows(rows: Rows, key: Key, token: nat): Rows {
    if Holds(rows, key, token) then rows[key := rows[key].(status := Completed, lease := Free)] else rows
  }

  function RetryRows(rows: Rows, key: Key, token: nat, availableAt: nat): Rows {
    if Holds(rows, key, token) then rows[key := rows[key].(status := Pending, availableAt := availableAt, lease := Free)]
    else rows
  }

  // ---------------------------------------------------------------- the protocol

  datatype Limits = Limits(lease: nat, retry: nat)

  /** Each consumer has its own. */
  type Fleet = nat -> Limits

  /** Where a consumer stands with the message it received. `until` is its lease. */
  datatype Stage =
    | Received
    | Working(token: nat, until: nat)
    | Returned(token: nat)
    | Raised(token: nat)
    | Acking
    | Naking

  datatype Work = Work(key: Key, stage: Stage)
  datatype Grant = Grant(key: Key, token: nat)

  datatype State = State(
    rows: Rows,
    now: nat,
    workers: map<nat, Work>,
    grants: seq<Grant>,          // every token ever handed out
    returned: set<Grant>,        // the grants whose handler returned normally
    completions: multiset<Key>,  // completions that reported success
    acked: set<Key>)             // messages acknowledged to the broker

  datatype Action =
    | Receive(worker: nat, key: Key)
    | Claim(worker: nat)
    | Handle(worker: nat, normally: bool)
    | Finish(worker: nat)
    | Answer(worker: nat)
    | Tick(elapsed: nat)
    | Crash(worker: nat)

  function StageOf(c: Claimed, until: nat): Stage {
    match c
    case AlreadyCompleted => Acking
    case Busy => Naking
    case Acquired(token) => Working(token, until)
  }

  function MoveTo(s: State, w: nat, stage: Stage): map<nat, Work>
    requires w in s.workers
  {
    s.workers[w := s.workers[w].(stage := stage)]
  }

  function Next(limits: Fleet, s: State, a: Action): State {
    match a
    case Receive(w, key) => if w in s.workers then s else s.(workers := s.workers[w := Work(key, Received)])
    case Claim(w) =>
      if w !in s.workers || !s.workers[w].stage.Received? then s
      else
        var key := s.workers[w].key;
        var c := ClaimResult(s.rows, key, s.now);
        s.(rows := ClaimRows(s.rows, key, s.now, s.now + limits(w).lease),
           grants := if c.Acquired? then s.grants + [Grant(key, c.token)] else s.grants,
           workers := MoveTo(s, w, StageOf(c, s.now + limits(w).lease)))
    case Handle(w, normally) =>
      if w !in s.workers || !s.workers[w].stage.Working? then s
      else
        var token := s.workers[w].stage.token;
        s.(returned := if normally then s.returned + {Grant(s.workers[w].key, token)} else s.returned,
           workers := MoveTo(s, w, if normally then Returned(token) else Raised(token)))
    case Finish(w) =>
      if w !in s.workers then s
      else
        var key := s.workers[w].key;
        (match s.workers[w].stage
         case Returned(token) =>
           var ok := Holds(s.rows, key, token);
           s.(rows := CompleteRows(s.rows, key, token),
              completions := if ok then s.completions + multiset{key} else s.completions,
              workers := MoveTo(s, w, if ok then Acking else Naking))
         case Raised(token) =>
           s.(rows := RetryRows(s.rows, key, token, s.now + limits(w).retry), workers := MoveTo(s, w, Naking))
         case _ => s)
    case Answer(w) =>
      if w !in s.workers then s
      else if s.workers[w].stage.Acking? then
        s.(acked := s.acked + {s.workers[w].key}, workers := s.workers - {w})
      else if s.workers[w].stage.Naking? then s.(workers := s.workers - {w})
      else s
    case Tick(elapsed) => s.(now := s.now + elapsed)
    case Crash(w) => s.(workers := s.workers - {w})
  }

  function Run(limits: Fleet, s: State, actions: seq<Action>): State {
    if actions == [] then s else Next(limits, Run(limits, s, actions[..|actions| - 1]), actions[|actions| - 1])
  }

  function Start(now: nat): State { State(map[], now, map[], [], {}, multiset{}, {}) }

  // ---------------------------------------------------------------- the invariant

  predicate Done(s: State, key: Key) { key in s.rows && s.rows[key].status.Completed? }

  ghost predicate RowInv(limits: Fleet, s: State, key: Key)
    requires key in s.rows
  {
    var row := s.rows[key];
    && row.attempts == row.token >= 1
    && (row.status.Completed? ==> Grant(key, row.token) in s.returned)
    && (row.status.Processing? <==> row.lease.Until?)
    && (row.availableAt <= s.now || exists v :: row.availableAt <= s.now + limits(v).retry)
    && (row.lease.Until? ==> exists v :: row.lease.time <= s.now + limits(v).lease)
  }

  /** The token a consumer may still use; 0 when it has none. */
  function TokenOf(stage: Stage): nat {
    match stage
    case Working(token, _) => token
    case Returned(token) => token
    case Raised(token) => token
    case _ => 0
  }

  ghost predicate WorkInv(s: State, w: nat)
    requires w in s.workers
  {
    var key, stage := s.workers[w].key, s.workers[w].stage;
    && (TokenOf(stage) != 0 ==> Grant(key, TokenOf(stage)) in s.grants)
    && (stage.Working? ==> stage.token != 0 && (stage.until <= s.now || (Holds(s.rows, key, stage.token) && s.rows[key].lease == Until(stage.until))))
    && (stage.Returned? ==> stage.token != 0 && Grant(key, stage.token) in s.returned)
    && (stage.Raised? ==> stage.token != 0)
    && (stage.Acking? ==> Done(s, key))
  }

  ghost predicate GrantInv(s: State) {
    && (forall i :: 0 <= i < |s.grants| ==>
          s.grants[i].key in s.rows && 1 <= s.grants[i].token <= s.rows[s.grants[i].key].token)
    && (forall i, j :: 0 <= i < j < |s.grants| && s.grants[i].key == s.grants[j].key ==> s.grants[i].token < s.grants[j].token)
  }

  /** The grant a consumer works under, if any. */
  function Held(s: State, w: nat): Grant
    requires w in s.workers
  {
    Grant(s.workers[w].key, TokenOf(s.workers[w].stage))
  }

  ghost predicate Exclusive(s: State, v: nat, w: nat)
    requires v in s.workers && w in s.workers
  {
    v != w && Held(s, v).token != 0 ==> Held(s, v) != Held(s, w)
  }

  ghost predicate KeyInv(s: State, key: Key) {
    && s.completions[key] == (if Done(s, key) then 1 else 0)
    && (key in s.acked ==> Done(s, key))
  }

  ghost predicate Inv(limits: Fleet, s: State) {
    && (forall key :: key in s.rows ==> RowInv(limits, s, key))
    && (forall key :: KeyInv(s, key))
    && (forall w :: w in s.workers ==> WorkInv(s, w))
    && (forall v, w :: v in s.workers && w in s.workers ==> Exclusive(s, v, w))
    && GrantInv(s)
  }

  lemma FreshToken(s: State, key: Key)
    requires GrantInv(s) && ClaimResult(s.rows, key, s.now).Acquired?
    ensures forall t: nat :: Grant(key, t) in s.grants ==> t < ClaimResult(s.rows, key, s.now).token
  {
  }

  lemma RowNext(limits: Fleet, s: State, a: Action, key: Key)
    requires key in s.rows ==> RowInv(limits, s, key)
    requires a.Finish? && a.worker in s.workers ==> WorkInv(s, a.worker)
    ensures key in Next(limits, s, a).rows ==> RowInv(limits, Next(limits, s, a), key)
  {
  }

  lemma KeyNext(limits: Fleet, s: State, a: Action, key: Key)
    requires KeyInv(s, key) && (a.Answer? && a.worker in s.workers ==> WorkInv(s, a.worker))
    ensures KeyInv(Next(limits, s, a), key)
  {
  }

  lemma WorkClaim(limits: Fleet, s: State, u: nat, v: nat)
    requires Inv(limits, s) && v in s.workers
    ensures WorkInv(Next(limits, s, Claim(u)), v)
  {
    assert WorkInv(s, v);
    if s.workers[v].key in s.rows { assert RowInv(limits, s, s.workers[v].key); }
  }

  lemma WorkFinish(limits: Fleet, s: State, u: nat, v: nat)
    requires Inv(limits, s) && v in s.workers
    ensures WorkInv(Next(limits, s, Finish(u)), v)
  {
    assert WorkInv(s, v);
    if u in s.workers {
      assert WorkInv(s, u) && Exclusive(s, v, u);
    }
  }

  lemma WorkNext(limits: Fleet, s: State, a: Action, v: nat)
    requires Inv(limits, s)
    ensures v in Next(limits, s, a).workers ==> WorkInv(Next(limits, s, a), v)
  {
    if v in s.workers {
      match a
      case Claim(u) => WorkClaim(limits, s, u, v);
      case Finish(u) => WorkFinish(limits, s, u, v);
      case _ => assert WorkInv(s, v);
    }
  }

  lemma GrantsNext(limits: Fleet, s: State, a: Action)
    requires GrantInv(s)
    ensures GrantInv(Next(limits, s, a))
  {
  }

  lemma ExclusiveNext(limits: Fleet, s: State, a: Action, v: nat, w: nat)
    requires Inv(limits, s) && v in Next(limits, s, a).workers && w in Next(limits, s, a).workers
    ensures Exclusive(Next(limits, s, a), v, w)
  {
    if v in s.workers && w in s.workers {
      assert Exclusive(s, v, w) && WorkInv(s, v) && WorkInv(s, w);
      if a == Claim(v) || a == Claim(w) {
        var key := s.workers[a.worker].key;
        if ClaimResult(s.rows, key, s.now).Acquired? { FreshToken(s, key); }
      }
    }
  }

  lemma NextInv(limits: Fleet, s: State, a: Action)
    requires Inv(limits, s)
    ensures Inv(limits, Next(limits, s, a))
  {
    hide Next;
    var t := Next(limits, s, a);
    forall key | key in t.rows ensures RowInv(limits, t, key) { RowNext(limits, s, a, key); }
    forall key ensures KeyInv(t, key) { KeyNext(limits, s, a, key); }
    forall v | v in t.workers ensures WorkInv(t, v) { WorkNext(limits, s, a, v); }
    forall v, w | v in t.workers && w in t.workers ensures Exclusive(t, v, w) { ExclusiveNext(limits, s, a, v, w); }
    GrantsNext(limits, s, a);
  }

  lemma {:induction false} RunInv(limits: Fleet, now: nat, actions: seq<Action>)
    ensures Inv(limits, Run(limits, Start(now), actions))
  {
    if actions != [] {
      RunInv(limits, now, actions[..|actions| - 1]);
      NextInv(limits, Run(limits, Start(now), actions[..|actions| - 1]), actions[|actions| - 1]);
    }
  }

  // ---------------------------------------------------------------- what runs guarantee

  /** The end of some run of any number of consumers over an empty inbox. */
  ghost predicate Reachable(limits: Fleet, s: State) {
    exists now, actions :: s == Run(limits, Start(now), actions)
  }

  lemma ReachableInv(limits: Fleet, s: State)
    requires Reachable(limits, s)
    ensures Inv(limits, s)
  {
    var now, actions :| s == Run(limits, Start(now), actions);
    RunInv(limits, now, actions);
  }

  /** An acknowledged message has a completed row; a completed row was completed exactly once,
      by the consumer whose handler returned normally under the row's last token. */
  lemma AcknowledgedMeansHandled(limits: Fleet, s: State, key: Key)
    requires Reachable(limits, s)
    ensures key in s.acked ==> Done(s, key)
    ensures s.completions[key] == if Done(s, key) then 1 else 0
    ensures Done(s, key) ==> Grant(key, s.rows[key].token) in s.returned
  {
    ReachableInv(limits, s);
    assert KeyInv(s, key);
    if key in s.rows { assert RowInv(limits, s, key); }
  }

  /** Only the latest token, and only while the row is in processing, can complete or retry:
      an earlier grant of the same message changes nothing. */
  lemma SupersededTokenIsPowerless(limits: Fleet, s: State, i: nat, j: nat, availableAt: nat)
    requires Reachable(limits, s) && i < j < |s.grants| && s.grants[i].key == s.grants[j].key
    ensures s.grants[i].token < s.grants[j].token
    ensures !Holds(s.rows, s.grants[i].key, s.grants[i].token)
    ensures CompleteRows(s.rows, s.grants[i].key, s.grants[i].token) == s.rows
    ensures RetryRows(s.rows, s.grants[i].key, s.grants[i].token, availableAt) == s.rows
  {
    ReachableInv(limits, s);
  }

  /** Two handlers run for one message at the same time only when a lease has run out, and
      even then never under the same token. */
  lemma HandlersOverlapOnlyPastALease(limits: Fleet, s: State, v: nat, w: nat)
    requires Reachable(limits, s) && v in s.workers && w in s.workers && v != w
    requires s.workers[v].key == s.workers[w].key
    requires s.workers[v].stage.Working? && s.workers[w].stage.Working?
    ensures s.workers[v].stage.token != s.workers[w].stage.token
    ensures s.workers[v].stage.until <= s.now || s.workers[w].stage.until <= s.now
  {
    ReachableInv(limits, s);
    assert WorkInv(s, v) && WorkInv(s, w) && Exclusive(s, v, w);
  }

  ghost predicate Keeps(s: State, t: State, key: Key) {
    && (key in s.rows ==> key in t.rows && t.rows[key].token >= s.rows[key].token)
    && (Done(s, key) ==> t.rows[key] == s.rows[key])
    && s.acked <= t.acked && s.grants <= t.grants
  }

  lemma NextKeeps(limits: Fleet, s: State, a: Action, key: Key)
    ensures Keeps(s, Next(limits, s, a), key)
  {
  }

  /** Completion is absorbing: no later claim, completion, retry or crash changes the row. */
  lemma {:induction false} CompletionIsFinal(limits: Fleet, s: State, later: seq<Action>, key: Key)
    ensures Keeps(s, Run(limits, s, later), key)
  {
    if later != [] {
      var n := |later| - 1;
      CompletionIsFinal(limits, s, later[..n], key);
      NextKeeps(limits, Run(limits, s, later[..n]), later[n], key);
    }
  }

  /** No message is stuck: once the longest lease and the retry delay have elapsed, a consumer
      that receives the message again either acknowledges it or is granted a fresh token. */
  lemma RedeliveryMakesProgress(limits: Fleet, s: State, elapsed: nat, w: nat, key: Key)
    requires Reachable(limits, s) && w !in s.workers && forall v :: elapsed >= limits(v).lease && elapsed >= limits(v).retry
    ensures var t := Next(limits, Next(limits, Next(limits, s, Tick(elapsed)), Receive(w, key)), Claim(w));
            && w in t.workers && t.workers[w].key == key
            && (Done(s, key) ==> t.workers[w].stage == Acking)
            && (!Done(s, key) ==>
                  && t.workers[w].stage.Working?
                  && Holds(t.rows, key, t.workers[w].stage.token)
                  && forall g :: g in s.grants && g.key == key ==> g.token < t.workers[w].stage.token)
  {
    hide Reachable;
    ReachableInv(limits, s);
    if key in s.rows { assert RowInv(limits, s, key); }
  }

  // ---------------------------------------------------------------- who has to wait, and until when

  /** Under one token a row changes at most once, and then it has left processing. */
  ghost predicate Stands(s: State, t: State, key: Key) {
    && (key in s.rows ==> key in t.rows && t.rows[key].token >= s.rows[key].token)
    && (key in s.rows && t.rows[key].token == s.rows[key].token ==>
          t.rows[key] == s.rows[key] || (s.rows[key].status.Processing? && !t.rows[key].status.Processing?))
  }

  lemma {:induction false} RowStands(limits: Fleet, s: State, later: seq<Action>, key: Key)
    ensures Stands(s, Run(limits, s, later), key)
  {
    if later != [] {
      var n := |later| - 1;
      RowStands(limits, s, later[..n], key);
      StandsNext(limits, s, Run(limits, s, later[..n]), later[n], key);
    }
  }

  lemma StandsNext(limits: Fleet, s: State, t: State, a: Action, key: Key)
    requires Stands(s, t, key)
    ensures Stands(s, Next(limits, t, a), key)
  {
  }

  /** A consumer that has received this message and now asks for it. */
  predicate Asks(s: State, w: nat, key: Key) {
    w in s.workers && s.workers[w] == Work(key, Received)
  }

  /** A failed attempt delays its message. After a consumer has retried the message it held, and
      as long as nobody else was granted it, every consumer that asks before the retry time is
      turned away, and every one that asks from then on is granted the next token. */
  lemma RetryDelaysItsMessage(limits: Fleet, s: State, w: nat, later: seq<Action>, v: nat)
    requires w in s.workers && s.workers[w].stage.Raised?
    requires Holds(s.rows, s.workers[w].key, s.workers[w].stage.token)
    requires var key, u := s.workers[w].key, Run(limits, Next(limits, s, Finish(w)), later);
             Asks(u, v, key) && key in u.rows && u.rows[key].token == s.workers[w].stage.token
    ensures var key, token := s.workers[w].key, s.workers[w].stage.token;
            var u := Run(limits, Next(limits, s, Finish(w)), later);
            var after := Next(limits, u, Claim(v));
            if u.now < s.now + limits(w).retry then after.rows == u.rows && after.workers[v] == Work(key, Naking)
            else after.workers[v] == Work(key, Working(token + 1, u.now + limits(v).lease)) && Holds(after.rows, key, token + 1)
  {
    hide Run;
    RowStands(limits, Next(limits, s, Finish(w)), later, s.workers[w].key);
  }

  /** A grant protects its handler. As long as the row is still in processing under the token a
      consumer was granted, every other one that asks within the lease is turned away, and every
      one that asks when it has run out takes the message over under the next token. */
  lemma LeaseProtectsItsHandler(limits: Fleet, s: State, w: nat, key: Key, token: nat, later: seq<Action>, v: nat)
    requires Asks(s, w, key)
    requires Next(limits, s, Claim(w)).workers[w].stage == Working(token, s.now + limits(w).lease)
    requires var u := Run(limits, Next(limits, s, Claim(w)), later); Asks(u, v, key) && Holds(u.rows, key, token)
    ensures var u := Run(limits, Next(limits, s, Claim(w)), later);
            var after := Next(limits, u, Claim(v));
            if u.now < s.now + limits(w).lease then after.rows == u.rows && after.workers[v] == Work(key, Naking)
            else after.workers[v] == Work(key, Working(token + 1, u.now + limits(v).lease)) && Holds(after.rows, key, token + 1)
  {
    hide Run, Next;
    var t := Next(limits, s, Claim(w));
    GrantedRow(limits, s, w, key, token);
    TimeNeverFalls(limits, t, later);
    RowStands(limits, t, later, key);
    Answered(limits, Run(limits, t, later), v, key);
  }

  lemma GrantedRow(limits: Fleet, s: State, w: nat, key: Key, token: nat)
    requires Asks(s, w, key) && Next(limits, s, Claim(w)).workers[w].stage == Working(token, s.now + limits(w).lease)
    ensures var t := Next(limits, s, Claim(w));
            && t.now == s.now && Holds(t.rows, key, token) && t.rows[key].availableAt <= s.now
            && t.rows[key].lease == Until(s.now + limits(w).lease)
  {
  }

  /** What a claim of a message in processing comes to. */
  lemma Answered(limits: Fleet, u: State, v: nat, key: Key)
    requires Asks(u, v, key) && key in u.rows && u.rows[key].status.Processing? && u.rows[key].availableAt <= u.now && u.rows[key].lease.Until?
    ensures var after, token := Next(limits, u, Claim(v)), u.rows[key].token;
            if u.now < u.rows[key].lease.time then after.rows == u.rows && after.workers[v] == Work(key, Naking)
            else after.workers[v] == Work(key, Working(token + 1, u.now + limits(v).lease)) && Holds(after.rows, key, token + 1)
  {
  }

  lemma {:induction false} TimeNeverFalls(limits: Fleet, s: State, later: seq<Action>)
    ensures Run(limits, s, later).now >= s.now
  {
    if later != [] { TimeNeverFalls(limits, s, later[..|later| - 1]); }
  }

  /** A message that was never granted before is granted at once. */
  lemma FirstReceiptIsGranted(limits: Fleet, s: State, w: nat, key: Key)
    requires Reachable(limits, s) && Asks(s, w, key) && forall token :: Grant(key, token) !in s.grants
    ensures Next(limits, s, Claim(w)).workers[w].stage == Working(1, s.now + limits(w).lease)
  {
    ReachableGranted(limits, s, key);
  }

  /** Every row stems from a grant. */
  lemma {:induction false} RowsAreGranted(limits: Fleet, now: nat, actions: seq<Action>, key: Key)
    ensures var s := Run(limits, Start(now), actions); key in s.rows ==> Grant(key, s.rows[key].token) in s.grants
  {
    if actions != [] {
      RowsAreGranted(limits, now, actions[..|actions| - 1], key);
      GrantedNext(limits, Run(limits, Start(now), actions[..|actions| - 1]), actions[|actions| - 1], key);
    }
  }

  lemma GrantedNext(limits: Fleet, s: State, a: Action, key: Key)
    requires key in s.rows ==> Grant(key, s.rows[key].token) in s.grants
    ensures var t := Next(limits, s, a); key in t.rows ==> Grant(key, t.rows[key].token) in t.grants
  {
  }

  lemma ReachableGranted(limits: Fleet, s: State, key: Key)
    requires Reachable(limits, s)
    ensures key in s.rows ==> Grant(key, s.rows[key].token) in s.grants
  {
    var now, actions :| s == Run(limits, Start(now), actions);
    RowsAreGranted(limits, now, actions, key);
  }

  // ---------------------------------------------------------------- the objects

  class InboxStore {
    var rows: Rows

    constructor ()
      ensures rows == map[]
    {
      rows := map[];
    }

    method ClaimInbox(key: Key, now: nat, leaseTime: nat) returns (c: Claimed)
      modifies this
      ensures c == ClaimResult(old(rows), key, now) && rows == ClaimRows(old(rows), key, now, now + leaseTime)
    {
      if key in rows && rows[key].status == Completed {
        return AlreadyCompleted;
      }
      if key in rows {
        var row := rows[key];
        if row.availableAt > now || (row.lease.Until? && row.lease.time > now) {
          return Busy;
        }
        rows := rows[key := row.(status := Processing, attempts := row.attempts + 1,
                                 lease := Until(now + leaseTime), token := row.token + 1)];
        return Acquired(row.token + 1);
      }
      rows := rows[key := Row(Processing, 1, now, Until(now + leaseTime), 1)];
      return Acquired(1);
    }

    method CompleteInbox(key: Key, token: nat) returns (ok: bool)
      modifies this
      ensures ok == Holds(old(rows), key, token) && rows == CompleteRows(old(rows), key, token)
    {
      ok := key in rows && rows[key].token == token && rows[key].status == Processing;
      if ok {
        rows := rows[key := rows[key].(status := Completed, lease := Free)];
      }
    }

    method RetryInbox(key: Key, token: nat, availableAt: nat) returns (ok: bool)
      modifies this
      ensures ok == Holds(old(rows), key, token) && rows == RetryRows(old(rows), key, token, availableAt)
    {
      ok := key in rows && rows[key].token == token && rows[key].status == Processing;
      if ok {
        rows := rows[key := rows[key].(status := Pending, availableAt := availableAt, lease := Free)];
      }
    }
  }

  datatype Reply = Ack | Nak

  /** The five steps of one received message, taken without interruption. */
  function Processed(limits: Fleet, s: State, w: nat, key: Key, normally: bool): State {
    Next(limits, Next(limits, Next(limits, Next(limits, s, Receive(w, key)), Claim(w)), Handle(w, normally)), Finish(w))
  }

  /** What those steps amount to, by the answer to the claim. */
  lemma ProcessedIs(limits: Fleet, s: State, w: nat, key: Key, normally: bool)
    requires w !in s.workers
    ensures var t := Processed(limits, s, w, key, normally);
            var rows := ClaimRows(s.rows, key, s.now, s.now + limits(w).lease);
            && w in t.workers
            && match ClaimResult(s.rows, key, s.now)
               case AlreadyCompleted => t.rows == s.rows && t.workers[w] == Work(key, Acking)
               case Busy => t.rows == s.rows && t.workers[w] == Work(key, Naking)
               case Acquired(token) =>
                 if normally then t.rows == CompleteRows(rows, key, token) && t.workers[w] == Work(key, Acking)
                 else t.rows == RetryRows(rows, key, token, s.now + limits(w).retry) && t.workers[w] == Work(key, Naking)
  {
    ReceivedAndClaimed(limits, s, w, key);
    var claimed := Next(limits, Next(limits, s, Receive(w, key)), Claim(w));
    match ClaimResult(s.rows, key, s.now)
    case AlreadyCompleted =>
    case Busy =>
    case Acquired(token) => HandledAndFinished(limits, claimed, w, token, normally);
  }

  lemma ReceivedAndClaimed(limits: Fleet, s: State, w: nat, key: Key)
    requires w !in s.workers
    ensures var t := Next(limits, Next(limits, s, Receive(w, key)), Claim(w));
            && t.rows == ClaimRows(s.rows, key, s.now, s.now + limits(w).lease) && t.now == s.now
            && w in t.workers && t.workers[w] == Work(key, StageOf(ClaimResult(s.rows, key, s.now), s.now + limits(w).lease))
            && (ClaimResult(s.rows, key, s.now).Acquired? ==> Holds(t.rows, key, ClaimResult(s.rows, key, s.now).token))
  {
  }

  lemma HandledAndFinished(limits: Fleet, s: State, w: nat, token: nat, normally: bool)
    requires w in s.workers && s.workers[w].stage.Working? && s.workers[w].stage.token == token && Holds(s.rows, s.workers[w].key, token)
    ensures var t, key := Next(limits, Next(limits, s, Handle(w, normally)), Finish(w)), s.workers[w].key;
            && w in t.workers
            && (if normally then t.rows == CompleteRows(s.rows, key, token) && t.workers[w] == Work(key, Acking)
                else t.rows == RetryRows(s.rows, key, token, s.now + limits(w).retry) && t.workers[w] == Work(key, Naking))
  {
  }

  /** Redelivery gets a message done. After that wait, one round whose handler returns leaves it
      completed and acknowledged, whoever crashed with it before; one whose handler raises leaves
      it open and unacknowledged, unless it was done already. Either way the consumer is free. */
  lemma RedeliveryIsAnswered(limits: Fleet, s: State, elapsed: nat, w: nat, key: Key, normally: bool)
    requires Reachable(limits, s) && w !in s.workers && forall v :: elapsed >= limits(v).lease && elapsed >= limits(v).retry
    ensures var t := Next(limits, Processed(limits, Next(limits, s, Tick(elapsed)), w, key, normally), Answer(w));
            && w !in t.workers
            && (Done(t, key) <==> normally || Done(s, key))
            && (key in t.acked <==> normally || Done(s, key))
  {
    ReachableInv(limits, s);
    assert KeyInv(s, key);
    if key in s.rows { assert RowInv(limits, s, key); }
    hide Reachable, Processed, Inv;
    ProcessedIs(limits, Next(limits, s, Tick(elapsed)), w, key, normally);
    ProcessedAcksNothing(limits, Next(limits, s, Tick(elapsed)), w, key, normally);
  }

  lemma ProcessedAcksNothing(limits: Fleet, s: State, w: nat, key: Key, normally: bool)
    ensures Processed(limits, s, w, key, normally).acked == s.acked
  {
    var a := Next(limits, s, Receive(w, key));
    var b := Next(limits, a, Claim(w));
    var c := Next(limits, b, Handle(w, normally));
    assert a.acked == s.acked && b.acked == a.acked && c.acked == b.acked;
    assert Next(limits, c, Finish(w)).acked == c.acked;
  }

  class InboxConsumer {
    const store: InboxStore
    const workerId: nat
    const consumerId: string
    const limits: Limits

    constructor (store: InboxStore, workerId: nat, consumerId: string, limits: Limits)
      ensures this.store == store && this.workerId == workerId && this.consumerId == consumerId && this.limits == limits
    {
      this.store, this.workerId, this.consumerId, this.limits := store, workerId, consumerId, limits;
    }

    /** One received message; `normally` says whether its payload decodes and the handler
        returns. The store and the answer to the broker are those of the protocol, and the
        handler ran exactly when a token was acquired. */
    method ProcessOnce(message: string, now: nat, normally: bool, ghost fleet: Fleet, ghost s: State) returns (processed: bool, reply: Reply, handled: bool)
      requires s.rows == store.rows && s.now == now && workerId !in s.workers && fleet(workerId) == limits
      modifies store
      ensures var key := Key(message, consumerId);
              var t := Processed(fleet, s, workerId, key, normally);
              && store.rows == t.rows && t.workers[workerId] == Work(key, if reply.Ack? then Acking else Naking)
              && processed == reply.Ack? && handled == ClaimResult(s.rows, key, now).Acquired?
              && (reply.Ack? ==> key in store.rows && store.rows[key].status.Completed?)
    {
      var key := Key(message, consumerId);
      ProcessedIs(fleet, s, workerId, key, normally);
      hide Processed;
      var claim := store.ClaimInbox(key, now, limits.lease);
      match claim {
        case AlreadyCompleted => return true, Ack, false;
        case Busy => return false, Nak, false;
        case Acquired(token) =>
          if !normally {
            var _ := store.RetryInbox(key, token, now + limits.retry);
            return false, Nak, true;
          }
          processed := store.CompleteInbox(key, token);
          return processed, if processed then Ack else Nak, true;
      }
    }
  }
}
