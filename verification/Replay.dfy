/** The bounded replay buffer (openjax-core/src/streaming/replay.rs) refines the
    log of everything ever pushed.  Sequence numbers stay below the machine limit. */
module Replay {
  import opened Common

  datatype Answer<T> = Entries(items: seq<(nat, T)>) | WindowError(requested: nat, minAllowed: nat)

  /** Entries numbered from 1 in the order they were pushed. */
  function Numbered<T>(log: seq<T>): (r: seq<(nat, T)>)
    ensures |r| == |log|
    ensures forall i :: 0 <= i < |log| ==> r[i] == (i + 1, log[i])
  {
    if log == [] then [] else Numbered(log[..|log| - 1]) + [(|log|, log[|log| - 1])]
  }

  function Newer<T>(entries: seq<(nat, T)>, after: Option<nat>): seq<(nat, T)> {
    if entries == [] then []
    else (if after.None? || entries[0].0 > after.value then [entries[0]] else []) + Newer(entries[1..], after)
  }

  function MinAllowed<T>(entries: seq<(nat, T)>): nat {
    if entries == [] then 0 else if entries[0].0 == 0 then 0 else entries[0].0 - 1
  }

  function ReplayAnswer<T>(entries: seq<(nat, T)>, after: Option<nat>): Answer<T> {
    if after.Some? && after.value < MinAllowed(entries) then WindowError(after.value, MinAllowed(entries))
    else Entries(Newer(entries, after))
  }

  class ReplayBuffer<T> {
    const capacity: nat
    var nextSeq: nat
    var entries: seq<(nat, T)>
    ghost var log: seq<T>

    ghost predicate Valid()
      reads this
    {
      capacity >= 1 && nextSeq == |log| + 1 && entries == Retained(log, capacity)
    }

    constructor (capacity: nat)
      ensures Valid() && log == [] && this.capacity == if capacity < 1 then 1 else capacity
    {
      this.capacity := if capacity < 1 then 1 else capacity;
      nextSeq, entries, log := 1, [], [];
    }

    method Push(item: T) returns (seqNo: nat)
      requires Valid()
      modifies this
      ensures Valid() && log == old(log) + [item] && seqNo == |log|
    {
      hide Retained;
      seqNo := nextSeq;
      nextSeq := nextSeq + 1;
      RetainedSnoc(log, item, capacity);
      if |entries| >= capacity {
        entries := entries[1..];
      }
      entries := entries + [(seqNo, item)];
      log := log + [item];
    }

    method ReplayFrom(after: Option<nat>) returns (a: Answer<T>)
      requires Valid()
      ensures a == match after
                   case None => Entries(Numbered(log)[Lost(|log|, capacity)..])
                   case Some(k) =>
                     if k >= Lost(|log|, capacity) then Entries(Numbered(log)[Clamp(k, 0, |log|)..])
                     else WindowError(k, Lost(|log|, capacity))
    {
      if after.None? { ReplayAll(log, capacity); } else { ReplayExact(log, capacity, after.value); }
      var minAllowed := MinAllowed(entries);
      if after.Some? && after.value < minAllowed {
        return WindowError(after.value, minAllowed);
      }
      a := Entries(Newer(entries, after));
    }

    method LastSeq() returns (n: nat)
      requires Valid()
      ensures n == |log|
    {
      n := if entries == [] then 0 else entries[|entries| - 1].0;
    }
  }

  /** The last min(capacity, n) entries of the numbered log. */
  function Retained<T>(log: seq<T>, capacity: nat): seq<(nat, T)> {
    Numbered(log)[Lost(|log|, capacity)..]
  }

  /** How many entries have fallen out of the buffer. */
  function Lost(n: nat, capacity: nat): (lost: nat)
    ensures lost <= n
  {
    if n <= capacity then 0 else n - capacity
  }

  lemma {:induction false} RetainedSnoc<T>(log: seq<T>, item: T, capacity: nat)
    requires capacity >= 1
    ensures var kept := Retained(log, capacity);
      Retained(log + [item], capacity) ==
      (if |kept| >= capacity then kept[1..] else kept) + [(|log| + 1, item)]
  {
    assert (log + [item])[..|log|] == log;
  }

  lemma {:induction false} NewerExact<T>(log: seq<T>, lo: nat, k: nat)
    requires lo <= |log|
    ensures Newer(Numbered(log)[lo..], Some(k)) == Numbered(log)[Clamp(k, lo, |log|)..]
    decreases |log| - lo
  {
    hide Numbered;
    var all := Numbered(log);
    if lo < |log| {
      assert all[lo..][1..] == all[lo + 1..];
      NewerExact(log, lo + 1, k);
      if k <= lo { assert all[lo..] == [all[lo]] + all[lo + 1..]; }
    }
  }

  lemma {:induction false} NewerNone<T>(entries: seq<(nat, T)>)
    ensures Newer(entries, None) == entries
  {
    if entries != [] { NewerNone(entries[1..]); }
  }

  lemma {:induction false} RetainedFront<T>(log: seq<T>, capacity: nat)
    requires capacity >= 1
    ensures MinAllowed(Retained(log, capacity)) == Lost(|log|, capacity)
  {
  }

  /** A replay from a cursor succeeds exactly when nothing after the cursor has been
      lost, and then returns exactly what was pushed after it. */
  lemma {:induction false} ReplayExact<T>(log: seq<T>, capacity: nat, k: nat)
    requires capacity >= 1
    ensures ReplayAnswer(Retained(log, capacity), Some(k)) ==
      if k >= Lost(|log|, capacity) then Entries(Numbered(log)[Clamp(k, 0, |log|)..])
      else WindowError(k, Lost(|log|, capacity))
  {
    hide Newer, MinAllowed, Numbered;
    RetainedFront(log, capacity);
    NewerExact(log, Lost(|log|, capacity), k);
  }

  /** Without a cursor the retained entries come back, even if earlier ones are gone. */
  lemma {:induction false} ReplayAll<T>(log: seq<T>, capacity: nat)
    requires capacity >= 1
    ensures ReplayAnswer(Retained(log, capacity), None) == Entries(Retained(log, capacity))
  {
    NewerNone(Retained(log, capacity));
  }
}
