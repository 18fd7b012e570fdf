/**
 The packet deduplicator shared by several network interfaces: a bounded queue
 of recently accepted packet hashes, pruned only from its front.

 The specification is a plain log of every packet ever accepted as new. Hashes
 are opaque values, times are nanoseconds of a monotone clock.
 */
module MultiIfDedup {

  const MAX_LEN: nat := 48
  const TTL: nat := 750_000_000

  datatype Entry = Entry(hash: nat, timestamp: nat)

  // `hash` was accepted among the last `MAX_LEN` entries, no longer than the
  // time to live ago.
  predicate Remembered(log: seq<Entry>, hash: nat, now: nat) {
    exists i :: 0 <= i < |log| && i + MAX_LEN >= |log| && log[i].hash == hash && log[i].timestamp + TTL >= now
  }

  predicate Ordered(log: seq<Entry>) {
    forall i, j :: 0 <= i < j < |log| ==> log[i].timestamp <= log[j].timestamp
  }

  predicate NotAfter(log: seq<Entry>, now: nat) {
    forall i :: 0 <= i < |log| ==> log[i].timestamp <= now
  }

  predicate Distinct(entries: seq<Entry>) {
    forall i, j :: 0 <= i < j < |entries| ==> entries[i].hash != entries[j].hash
  }

  class MultiIfDedup {
    var deque: seq<Entry>
    // Every accepted packet, and the latest time the clock was read.
    ghost var log: seq<Entry>
    ghost var latest: nat

    // The deque is the end of the log; whatever the last `MAX_LEN` entries lost
    // has outlived its time.
    ghost predicate Valid() reads this {
      Tracks(log, deque, latest)
    }

    constructor ()
      ensures Valid() && log == [] && latest == 0
    {
      deque, log, latest := [], [], 0;
    }

    // Pops the front while it has outlived its time.
    method Prune(now: nat)
      requires NotAfter(deque, now)
      modifies this`deque
      ensures |deque| <= |old(deque)| && deque == old(deque)[|old(deque)| - |deque|..]
      ensures deque != [] ==> deque[0].timestamp + TTL >= now
      ensures forall i :: 0 <= i < |old(deque)| - |deque| ==> old(deque)[i].timestamp + TTL < now
    {
      var start := deque;
      while deque != [] && now - deque[0].timestamp > TTL
        invariant |deque| <= |start| && deque == start[|start| - |deque|..]
        invariant forall i :: 0 <= i < |start| - |deque| ==> start[i].timestamp + TTL < now
        decreases |deque|
      {
        deque := deque[1..];
      }
    }

    method Contains(hash: nat) returns (found: bool)
      ensures found <==> exists k :: 0 <= k < |deque| && deque[k].hash == hash
    {
      for k := 0 to |deque|
        invariant forall j :: 0 <= j < k ==> deque[j].hash != hash
      {
        if deque[k].hash == hash {
          return true;
        }
      }
      return false;
    }

    // The oldest hash makes room when the queue is full.
    method Record(e: Entry)
      requires Tracks(log, deque, e.timestamp) && latest == e.timestamp
      requires forall k :: 0 <= k < |deque| ==> deque[k].hash != e.hash
      modifies this
      ensures Valid() && latest == old(latest) && log == old(log) + [e]
    {
      PushKeeps(log, deque, e);
      if |deque| >= MAX_LEN {
        deque := deque[1..];
      }
      deque := deque + [e];
      log := log + [e];
    }

    /** Answers exactly what the log says, records new hashes, and leaves a
        duplicate's age alone. */
    method IsDuplicate(hash: nat, now: nat) returns (duplicate: bool)
      requires Valid() && latest <= now
      modifies this
      ensures Valid() && latest == now
      ensures duplicate <==> Remembered(old(log), hash, now)
      ensures log == if duplicate then old(log) else old(log) + [Entry(hash, now)]
    {
      TailNotAfter(log, deque, now);
      Prune(now);
      PruneKeeps(log, old(deque), deque, latest, now);
      latest := now;
      RemembersExactly(log, deque, hash, now);
      duplicate := Contains(hash);
      if !duplicate {
        Record(Entry(hash, now));
      }
    }
  }

  lemma TailNotAfter(log: seq<Entry>, deque: seq<Entry>, now: nat)
    requires |deque| <= |log| && deque == log[|log| - |deque|..]
    requires forall i :: 0 <= i < |log| ==> log[i].timestamp <= now
    ensures NotAfter(deque, now)
  {
  }

  ghost predicate Tracks(log: seq<Entry>, deque: seq<Entry>, now: nat) {
    Forgotten(log, deque, now) && Ordered(log) && NotAfter(log, now) && Distinct(deque)
  }

  // The part of the last `MAX_LEN` entries the deque no longer holds has expired.
  ghost predicate Forgotten(log: seq<Entry>, deque: seq<Entry>, now: nat) {
    && |deque| <= |log| && |deque| <= MAX_LEN && deque == log[|log| - |deque|..]
    && forall i :: 0 <= i < |log| - |deque| && i + MAX_LEN >= |log| ==> log[i].timestamp + TTL < now
  }

  lemma PruneKeeps(log: seq<Entry>, before: seq<Entry>, after: seq<Entry>, earlier: nat, now: nat)
    requires Tracks(log, before, earlier) && earlier <= now
    requires |after| <= |before| && after == before[|before| - |after|..]
    requires forall i :: 0 <= i < |before| - |after| ==> before[i].timestamp + TTL < now
    ensures Tracks(log, after, now)
  {
    forall i | |log| - |before| <= i < |log| - |after|
      ensures log[i].timestamp + TTL < now
    {
      assert log[i] == before[i - (|log| - |before|)];
    }
  }

  function Pushed(deque: seq<Entry>, e: Entry): seq<Entry> {
    (if |deque| >= MAX_LEN then deque[1..] else deque) + [e]
  }

  lemma PushKeeps(log: seq<Entry>, deque: seq<Entry>, e: Entry)
    requires Tracks(log, deque, e.timestamp)
    requires forall k :: 0 <= k < |deque| ==> deque[k].hash != e.hash
    ensures Tracks(log + [e], Pushed(deque, e), e.timestamp)
  {
    var longer, pushed := log + [e], Pushed(deque, e);
    assert pushed == longer[|longer| - |pushed|..];
  }

  lemma RemembersExactly(log: seq<Entry>, deque: seq<Entry>, hash: nat, now: nat)
    requires Forgotten(log, deque, now) && Ordered(log)
    requires deque != [] ==> deque[0].timestamp + TTL >= now
    ensures Remembered(log, hash, now) <==> exists k :: 0 <= k < |deque| && deque[k].hash == hash
  {
    if Remembered(log, hash, now) {
      MissedByNobody(log, deque, hash, now);
    }
    if k :| 0 <= k < |deque| && deque[k].hash == hash {
      DequeRemembers(log, deque, hash, now, k);
    }
  }

  // Front-only pruning keeps nothing that has expired: times grow along the log.
  lemma DequeRemembers(log: seq<Entry>, deque: seq<Entry>, hash: nat, now: nat, k: nat)
    requires Forgotten(log, deque, now) && Ordered(log)
    requires k < |deque| && deque[k].hash == hash && deque[0].timestamp + TTL >= now
    ensures Remembered(log, hash, now)
  {
    var i := |log| - |deque| + k;
    assert log[i] == deque[k] && deque[0] == log[|log| - |deque|];
    assert log[i].timestamp + TTL >= now;
  }

  lemma MissedByNobody(log: seq<Entry>, deque: seq<Entry>, hash: nat, now: nat)
    requires Forgotten(log, deque, now) && Remembered(log, hash, now)
    ensures exists k :: 0 <= k < |deque| && deque[k].hash == hash
  {
    var i :| 0 <= i < |log| && i + MAX_LEN >= |log| && log[i].hash == hash && log[i].timestamp + TTL >= now;
    assert log[i] == deque[i - (|log| - |deque|)];
  }
}
