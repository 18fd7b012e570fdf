/**
 The bounded history of private ratchet keys, newest first.

 Keys live in one buffer of fixed capacity that is never reallocated; a slot past
 the live length holds no key material. `Rotated` and `Shrunk` say what the
 operations do to the list of keys.
 */
module RatchetRing {
  import opened Basics

  const RATCHET_COUNT: nat := 512
  const RATCHET_INTERVAL: nat := 1800

  type Key = s: seq<byte> | |s| == 32 witness seq(32, i => 0)

  const ZERO: Key := seq(32, i => 0)

  // An unknown age is due, a clock that ran backwards is not.
  predicate Due(lastRotation: real, interval: nat, now: Time) {
    Usable(now) && (lastRotation == 0.0 || now.seconds >= lastRotation + interval as real)
  }

  function Min(a: nat, b: nat): nat {
    if a < b then a else b
  }

  function Shrunk(keys: seq<Key>, retained: nat): seq<Key> {
    keys[..Min(|keys|, retained)]
  }

  function Rotated(keys: seq<Key>, retained: nat, key: Key): seq<Key>
    requires retained > 0
  {
    [key] + Shrunk(keys, retained - 1)
  }

  class RatchetRing {
    const buffer: array<Key>
    var len: nat
    var lastRotation: real
    var retainedCount: nat
    var rotationInterval: nat

    ghost predicate Valid() reads this, buffer {
      && buffer.Length == RATCHET_COUNT
      && len <= retainedCount && 1 <= retainedCount <= RATCHET_COUNT
      && lastRotation >= 0.0 && rotationInterval > 0
      && forall i :: len <= i < buffer.Length ==> buffer[i] == ZERO
    }

    ghost function Keys(): seq<Key>
      requires Valid()
      reads this, buffer
    {
      buffer[..len]
    }

    ghost function View(): Ring
      requires Valid()
      reads this, buffer
    {
      Ring(Keys(), retainedCount)
    }

    constructor ()
      ensures Valid() && Keys() == [] && fresh(buffer)
      ensures lastRotation == 0.0 && retainedCount == RATCHET_COUNT && rotationInterval == RATCHET_INTERVAL
    {
      buffer := new Key[RATCHET_COUNT](i => ZERO);
      len, lastRotation, retainedCount, rotationInterval := 0, 0.0, RATCHET_COUNT, RATCHET_INTERVAL;
    }

    // What decoding a stored ring builds: its age is never trusted.
    constructor Decoded(keys: seq<Key>)
      requires |keys| <= RATCHET_COUNT
      ensures Valid() && Keys() == keys && fresh(buffer)
      ensures lastRotation == 0.0 && retainedCount == RATCHET_COUNT && rotationInterval == RATCHET_INTERVAL
    {
      buffer := new Key[RATCHET_COUNT](i => if 0 <= i < |keys| then keys[i] else ZERO);
      len, lastRotation, retainedCount, rotationInterval := |keys|, 0.0, RATCHET_COUNT, RATCHET_INTERVAL;
      new;
      assert buffer[..len] == keys;
    }

    constructor Duplicate(other: RatchetRing)
      requires other.Valid()
      ensures Valid() && Keys() == other.Keys() && fresh(buffer)
      ensures lastRotation == other.lastRotation && retainedCount == other.retainedCount
      ensures rotationInterval == other.rotationInterval
    {
      var keys := other.buffer[..other.len];
      buffer := new Key[RATCHET_COUNT](i => if 0 <= i < |keys| then keys[i] else ZERO);
      len, lastRotation := |keys|, other.lastRotation;
      retainedCount, rotationInterval := other.retainedCount, other.rotationInterval;
      new;
      assert buffer[..len] == keys;
    }

    // Wipes and drops the oldest keys until `limit` are left.
    method EvictTo(limit: nat)
      requires Valid()
      modifies this`len, buffer
      ensures Valid() && Keys() == Shrunk(old(Keys()), limit)
    {
      ghost var start := buffer[..len];
      while len > limit
        invariant Valid() && len <= |start| && buffer[..len] == start[..len]
        invariant len >= limit || len == |start|
        decreases len
      {
        var last := len - 1;
        assert start[..len][..last] == start[..last];
        buffer[last] := ZERO;
        len := last;
      }
    }

    // Wipes every key past `limit`, then drops them together.
    method Clean(limit: nat)
      requires Valid()
      modifies this`len, buffer
      ensures Valid() && Keys() == Shrunk(old(Keys()), limit)
    {
      if len > limit {
        ghost var start := buffer[..len];
        for i := limit to len
          invariant len == |start| && buffer[..limit] == start[..limit]
          invariant forall j :: limit <= j < i ==> buffer[j] == ZERO
          invariant forall j :: len <= j < buffer.Length ==> buffer[j] == ZERO
        {
          buffer[i] := ZERO;
        }
        len := limit;
      }
    }

    // Moves every key one slot up to free the first.
    method InsertFront(key: Key)
      requires Valid() && len < retainedCount
      modifies this`len, buffer
      ensures Valid() && Keys() == [key] + old(Keys())
    {
      forall j | 0 < j <= len {
        buffer[j] := buffer[j - 1];
      }
      buffer[0] := key;
      len := len + 1;
      assert buffer[1..len] == old(buffer[..len]);
    }

    method RotateAt(key: Key, now: Time)
      requires Valid()
      modifies this`len, this`lastRotation, buffer
      ensures Valid() && Keys() == Rotated(old(Keys()), retainedCount, key)
      ensures View() == Next(old(View()), Rotate(key))
      ensures lastRotation == if Usable(now) then now.seconds else 0.0
    {
      EvictTo(retainedCount - 1);
      InsertFront(key);
      lastRotation := if now.Finite? && now.seconds >= 0.0 then now.seconds else 0.0;
    }

    method SetRetained(count: nat) returns (ok: bool)
      requires Valid()
      modifies this`len, this`retainedCount, buffer
      ensures Valid() && (ok <==> 1 <= count <= RATCHET_COUNT)
      ensures retainedCount == if ok then count else old(retainedCount)
      ensures Keys() == if ok then Shrunk(old(Keys()), count) else old(Keys())
      ensures View() == Next(old(View()), Retain(count))
    {
      if count < 1 || count > RATCHET_COUNT {
        return false;
      }
      Clean(count);
      retainedCount := count;
      return true;
    }

    method NeedsRotation(now: Time) returns (due: bool)
      requires Valid()
      ensures due <==> Due(lastRotation, rotationInterval, now)
    {
      if !now.Finite? || now.seconds < 0.0 {
        return false;
      }
      if lastRotation <= 0.0 {
        return true;
      }
      due := now.seconds >= lastRotation && now.seconds - lastRotation >= rotationInterval as real;
    }
  }

  // ---------------------------------------------------------------------
  // Whole histories
  // ---------------------------------------------------------------------

  datatype Step = Rotate(key: Key) | Retain(count: nat)

  datatype Ring = Ring(keys: seq<Key>, retained: nat)

  function Next(r: Ring, step: Step): Ring {
    match step
    case Rotate(key) => if r.retained == 0 then r else r.(keys := Rotated(r.keys, r.retained, key))
    case Retain(count) =>
      if 1 <= count <= RATCHET_COUNT then Ring(Shrunk(r.keys, count), count) else r
  }

  function From(start: Ring, steps: seq<Step>): Ring {
    if steps == [] then start else Next(From(start, steps[..|steps| - 1]), steps[|steps| - 1])
  }

  function After(steps: seq<Step>): Ring {
    From(Ring([], RATCHET_COUNT), steps)
  }

  // Every key ever generated, newest first.
  function Generated(steps: seq<Step>): seq<Key> {
    if steps == [] then []
    else
      var before, last := Generated(steps[..|steps| - 1]), steps[|steps| - 1];
      if last.Rotate? then [last.key] + before else before
  }

  /** In every history the ring is a prefix of the generated keys, newest first,
      no longer than the retained count, which stays within its bounds. */
  lemma {:induction false} RingIsNewestPrefix(steps: seq<Step>)
    ensures var r := After(steps);
            r.keys <= Generated(steps) && |r.keys| <= r.retained && 1 <= r.retained <= RATCHET_COUNT
  {
    if steps != [] {
      RingIsNewestPrefix(steps[..|steps| - 1]);
    }
  }

  function Rotations(steps: seq<Step>): nat {
    if steps == [] then 0 else Rotations(steps[..|steps| - 1]) + if steps[|steps| - 1].Rotate? then 1 else 0
  }

  predicate Sound(r: Ring) {
    |r.keys| <= r.retained && 1 <= r.retained <= RATCHET_COUNT
  }

  // At every point of the history the place of the key, which each rotation
  // moves back by one, is below the retained count of that point.
  predicate Survives(start: Ring, place: nat, steps: seq<Step>) {
    && place + Rotations(steps) < From(start, steps).retained
    && (steps == [] || Survives(start, place, steps[..|steps| - 1]))
  }

  // `key` is at `place` and nowhere else.
  predicate OnlyAt(keys: seq<Key>, key: Key, place: nat) {
    place < |keys| && forall i :: 0 <= i < |keys| ==> (keys[i] == key <==> i == place)
  }

  /** A key is still held after a history of rotations and changes of the retained
      count exactly if it survives every point of it, and then at the place its
      rotations have moved it to. */
  lemma {:induction false} KeyHeldIff(start: Ring, place: nat, key: Key, steps: seq<Step>)
    requires Sound(start) && OnlyAt(start.keys, key, place) && key !in Generated(steps)
    ensures Sound(From(start, steps))
    ensures key in From(start, steps).keys <==> Survives(start, place, steps)
    ensures Survives(start, place, steps) ==> OnlyAt(From(start, steps).keys, key, place + Rotations(steps))
  {
    if steps == [] {
      assert start.keys[place] == key;
    } else {
      var prefix, last := steps[..|steps| - 1], steps[|steps| - 1];
      KeyHeldIff(start, place, key, prefix);
      StepMoves(From(start, prefix), place + Rotations(prefix), key, last);
    }
  }

  lemma StepMoves(r: Ring, place: nat, key: Key, step: Step)
    requires Sound(r) && (step.Rotate? ==> step.key != key)
    requires key in r.keys ==> OnlyAt(r.keys, key, place)
    ensures Sound(Next(r, step))
    ensures var t, moved := Next(r, step), if step.Rotate? then place + 1 else place;
            && (key in t.keys <==> key in r.keys && moved < t.retained)
            && (key in t.keys ==> OnlyAt(t.keys, key, moved))
  {
    var t, moved := Next(r, step), if step.Rotate? then place + 1 else place;
    assert forall i :: 0 <= i < |t.keys| ==>
             t.keys[i] == if !step.Rotate? then r.keys[i] else if i == 0 then step.key else r.keys[i - 1];
    if key in r.keys && moved < t.retained {
      assert t.keys[moved] == key;
    }
  }

  /** With the retained count left alone, that is a matter of counting. */
  lemma {:induction false} SurvivesRotationsIff(start: Ring, place: nat, steps: seq<Step>)
    requires forall i :: 0 <= i < |steps| ==> steps[i].Rotate?
    ensures From(start, steps).retained == start.retained && Rotations(steps) == |steps|
    ensures Survives(start, place, steps) <==> place + |steps| < start.retained
  {
    if steps != [] {
      SurvivesRotationsIff(start, place, steps[..|steps| - 1]);
    }
  }

  /** A ring holds only keys it started with or generated since. */
  lemma {:induction false} HoldsOnlyKnown(start: Ring, steps: seq<Step>)
    ensures forall k :: k in From(start, steps).keys ==> k in start.keys || k in Generated(steps)
  {
    if steps != [] {
      HoldsOnlyKnown(start, steps[..|steps| - 1]);
    }
  }

  // Further rotations, oldest first.
  function RotateAll(keys: seq<Key>, retained: nat, newer: seq<Key>): seq<Key>
    requires retained > 0
  {
    if newer == [] then keys
    else Rotated(RotateAll(keys, retained, newer[..|newer| - 1]), retained, newer[|newer| - 1])
  }

  function Reversed(keys: seq<Key>): seq<Key> {
    if keys == [] then [] else [keys[|keys| - 1]] + Reversed(keys[..|keys| - 1])
  }

  /** Rotating any number of times keeps exactly the newest `retained` keys. */
  lemma {:induction false} RotateAllKeeps(keys: seq<Key>, retained: nat, newer: seq<Key>)
    requires retained > 0 && |keys| <= retained
    ensures RotateAll(keys, retained, newer) == Shrunk(Reversed(newer) + keys, retained)
  {
    if newer == [] {
      assert [] + keys == keys;
      assert Shrunk(keys, retained) == keys;
    } else {
      var older, last := newer[..|newer| - 1], newer[|newer| - 1];
      RotateAllKeeps(keys, retained, older);
      var before := Reversed(older) + keys;
      assert Reversed(newer) + keys == [last] + before;
      ShrinkInsert(before, retained, last);
    }
  }

  lemma ShrinkInsert(keys: seq<Key>, retained: nat, key: Key)
    requires retained > 0
    ensures Rotated(Shrunk(keys, retained), retained, key) == Shrunk([key] + keys, retained)
  {
  }
}
