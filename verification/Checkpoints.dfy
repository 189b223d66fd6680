/** Durable watermarks of event-stream consumers, and the projection that restores them. */
module Checkpoints {
  import opened Basics
  import opened EventLog
  import opened Attention

  /** Neither the watermark nor the head it observed may fall. */
  predicate Follows(current: Option<Checkpoint>, next: Checkpoint) {
    current.Some? ==> current.value.completed <= next.completed && current.value.observed <= next.observed
  }

  predicate WellFormed(e: AttentionEvent) {
    e.body.CheckpointAdvanced? && e.body.checkpoint.consumer != "" && e.body.checkpoint.completed <= e.body.checkpoint.observed
  }

  /** The last checkpoint of a consumer in the log. */
  function Latest(log: History, consumer: string): Option<Checkpoint> {
    if log == [] then None
    else
      var last := log[|log| - 1].body;
      if last.CheckpointAdvanced? && last.checkpoint.consumer == consumer then Some(last.checkpoint)
      else Latest(log[..|log| - 1], consumer)
  }

  predicate Claims(e: AttentionEvent) { TypeOf(e.body) == CHECKPOINT_ADVANCED }

  /** What restoring a checkpoint demands of the event that claims to be one. */
  predicate CheckpointAccepted(current: Option<Checkpoint>, e: AttentionEvent) {
    Claims(e) ==> WellFormed(e) && Follows(current, e.body.checkpoint)
  }

  function Lookup(checkpoints: map<string, Checkpoint>, consumer: string): Option<Checkpoint> {
    if consumer in checkpoints then Some(checkpoints[consumer]) else None
  }

  function ConsumerOf(e: AttentionEvent): string {
    if e.body.CheckpointAdvanced? then e.body.checkpoint.consumer else ""
  }

  /** Rebuilding every consumer's checkpoint; None when some checkpoint regresses. */
  function RestoreAll(log: History): Option<map<string, Checkpoint>> {
    if log == [] then Some(map[])
    else
      var before, e := RestoreAll(log[..|log| - 1]), log[|log| - 1];
      if before.None? || !CheckpointAccepted(Lookup(before.value, ConsumerOf(e)), e) then None
      else if Claims(e) then Some(before.value[e.body.checkpoint.consumer := e.body.checkpoint])
      else before
  }

  /** A restored checkpoint is the last one the consumer wrote. */
  lemma {:induction false} RestoredIsLatest(log: History, consumer: string)
    requires RestoreAll(log).Some?
    ensures Lookup(RestoreAll(log).value, consumer) == Latest(log, consumer)
  {
    if log != [] {
      RestoredIsLatest(log[..|log| - 1], consumer);
    }
  }

  lemma RestoreSnoc(log: History, e: AttentionEvent)
    requires RestoreAll(log).Some?
    ensures RestoreAll(log + [e]).Some? <==> CheckpointAccepted(Latest(log, ConsumerOf(e)), e)
  {
    hide CheckpointAccepted, Latest;
    RestoredIsLatest(log, ConsumerOf(e));
    assert (log + [e])[..|log|] == log;
  }

  /** Where the latest checkpoint of a consumer stands: no later one is the consumer's. */
  lemma {:induction false} LatestStands(log: History, consumer: string) returns (s: nat)
    requires Latest(log, consumer).Some?
    ensures 1 <= s <= |log| && At(log, s).body.CheckpointAdvanced? && At(log, s).body.checkpoint == Latest(log, consumer).value
    ensures Latest(log, consumer).value.consumer == consumer
    ensures forall t :: s < t <= |log| && At(log, t).body.CheckpointAdvanced? ==> At(log, t).body.checkpoint.consumer != consumer
  {
    var n := |log|;
    if log[n - 1].body.CheckpointAdvanced? && log[n - 1].body.checkpoint.consumer == consumer {
      s := n;
    } else {
      s := LatestStands(log[..n - 1], consumer);
      assert forall t :: 1 <= t < n ==> At(log[..n - 1], t) == At(log, t);
    }
  }

  class ConsumerCheckpointProjection {
    var checkpoints: map<string, Checkpoint>

    constructor ()
      ensures checkpoints == map[]
    {
      checkpoints := map[];
    }

    /** Whether the event was taken, and whether it was a checkpoint at all. */
    method Apply(e: AttentionEvent) returns (ok: bool, handled: bool)
      modifies this
      ensures ok == CheckpointAccepted(Lookup(old(checkpoints), ConsumerOf(e)), e) && handled == (ok && Claims(e))
      ensures checkpoints == if handled then old(checkpoints)[e.body.checkpoint.consumer := e.body.checkpoint] else old(checkpoints)
    {
      if !Claims(e) {
        return true, false;
      }
      if !WellFormed(e) {
        return false, false;
      }
      var checkpoint := e.body.checkpoint;
      if checkpoint.consumer in checkpoints {
        var current := checkpoints[checkpoint.consumer];
        if checkpoint.completed < current.completed || checkpoint.observed < current.observed {
          return false, false;
        }
      }
      checkpoints := checkpoints[checkpoint.consumer := checkpoint];
      return true, true;
    }

    method Rebuild(history: History) returns (ok: bool)
      modifies this
      ensures ok == RestoreAll(history).Some? && (ok ==> checkpoints == RestoreAll(history).value)
    {
      checkpoints := map[];
      for i := 0 to |history|
        invariant RestoreAll(history[..i]) == Some(checkpoints)
      {
        assert history[..i + 1][..i] == history[..i];
        var handled;
        ok, handled := Apply(history[i]);
        if !ok {
          RaisesForGood(history, i + 1);
          return;
        }
      }
      assert history[..|history|] == history;
      ok := true;
    }
  }

  lemma {:induction false} RaisesForGood(log: History, n: nat)
    requires n <= |log| && RestoreAll(log[..n]).None?
    ensures RestoreAll(log).None?
  {
    if n == |log| {
      assert log[..n] == log;
    } else {
      assert log[..|log| - 1][..n] == log[..n];
      RaisesForGood(log[..|log| - 1], n);
    }
  }
}
