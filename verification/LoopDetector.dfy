/** Detecting repeated tool calls in a window of sixteen
    (openjax-core/src/agent/loop_detector.rs). */
module LoopDetector {
  import opened Common

  datatype Key = Key(tool: string, args: string)

  datatype Signal = Quiet | Warned | Halt

  const CAPACITY: nat := 16
  const THRESHOLD: nat := 5

  /** How many keys at the end of `s` equal `key`. */
  function Trailing(s: seq<Key>, key: Key): (n: nat)
    ensures n <= |s|
  {
    if s == [] || s[|s| - 1] != key then 0 else 1 + Trailing(s[..|s| - 1], key)
  }

  function LastN(s: seq<Key>, n: nat): seq<Key> {
    if |s| <= n then s else s[|s| - n..]
  }

  // ---- The detector as built ---------------------------------------------

  datatype State = State(window: seq<Key>, state: Signal, warnedTool: Option<Key>)

  const FRESH: State := State([], Quiet, None)

  function Check(d: State, key: Key): (State, Signal) {
    if d.state == Warned && d.warnedTool == Some(key) then (d.(state := Halt), Halt)
    else
      var calm := if d.state == Warned then d.(state := Quiet, warnedTool := None) else d;
      var pushed := calm.window + [key];
      var kept := calm.(window := if |pushed| > CAPACITY then pushed[1..] else pushed);
      if Trailing(kept.window, key) >= THRESHOLD then (kept.(state := Warned, warnedTool := Some(key)), Warned)
      else (kept, Quiet)
  }

  class Detector {
    var window: seq<Key>
    var state: Signal
    var warnedTool: Option<Key>

    ghost function View(): State
      reads this
    {
      State(window, state, warnedTool)
    }

    constructor ()
      ensures View() == FRESH
    {
      window, state, warnedTool := [], Quiet, None;
    }

    method CheckAndAdvance(key: Key) returns (signal: Signal)
      modifies this
      ensures (View(), signal) == Check(old(View()), key)
    {
      if state == Warned {
        if warnedTool == Some(key) {
          state := Halt;
          return Halt;
        }
        state, warnedTool := Quiet, None;
      }
      window := window + [key];
      if |window| > CAPACITY {
        window := window[1..];
      }
      if Trailing(window, key) >= THRESHOLD {
        state, warnedTool := Warned, Some(key);
        return Warned;
      }
      signal := Quiet;
    }

    method Reset()
      modifies this
      ensures View().window == [] && View().state == Quiet && View().warnedTool == None
    {
      window, state, warnedTool := [], Quiet, None;
    }
  }

  // ---- The detector that forgets nothing ---------------------------------

  /** All keys recorded so far, and the key the last signal warned about, if it did. */
  datatype Memory = Memory(recorded: seq<Key>, warnedNow: Option<Key>)

  predicate LastFiveAre(s: seq<Key>, key: Key) {
    |s| >= 5 && forall i :: |s| - 5 <= i < |s| ==> s[i] == key
  }

  function Judge(m: Memory, key: Key): (Memory, Signal) {
    if m.warnedNow == Some(key) then (m.(warnedNow := None), Halt)
    else if LastFiveAre(m.recorded + [key], key) then (Memory(m.recorded + [key], Some(key)), Warned)
    else (Memory(m.recorded + [key], None), Quiet)
  }

  function Signals(d: State, keys: seq<Key>): (r: seq<Signal>)
    ensures |r| == |keys|
    decreases |keys|
  {
    if keys == [] then [] else [Check(d, keys[0]).1] + Signals(Check(d, keys[0]).0, keys[1..])
  }

  function StateAfter(d: State, keys: seq<Key>): State
    decreases |keys|
  {
    if keys == [] then d else StateAfter(Check(d, keys[0]).0, keys[1..])
  }

  lemma {:induction false} SignalsSnoc(d: State, keys: seq<Key>, key: Key)
    ensures Signals(d, keys + [key]) == Signals(d, keys) + [Check(StateAfter(d, keys), key).1]
    ensures StateAfter(d, keys + [key]) == Check(StateAfter(d, keys), key).0
    decreases |keys|
  {
    hide Check;
    if keys == [] {
      assert [key][1..] == [];
    } else {
      assert (keys + [key])[1..] == keys[1..] + [key];
      SignalsSnoc(Check(d, keys[0]).0, keys[1..], key);
    }
  }

  function Judgements(m: Memory, keys: seq<Key>): (r: seq<Signal>)
    ensures |r| == |keys|
    decreases |keys|
  {
    if keys == [] then [] else [Judge(m, keys[0]).1] + Judgements(Judge(m, keys[0]).0, keys[1..])
  }

  ghost predicate Refines(d: State, m: Memory) {
    && d.window == LastN(m.recorded, CAPACITY)
    && (d.state == Warned <==> m.warnedNow.Some?)
    && (d.state == Warned ==> d.warnedTool == m.warnedNow)
  }

  lemma {:induction false} TrailingFive(s: seq<Key>, key: Key, n: nat)
    requires n <= |s|
    ensures Trailing(s, key) >= n <==> forall i :: |s| - n <= i < |s| ==> s[i] == key
    decreases n
  {
    if n > 0 {
      var most := s[..|s| - 1];
      TrailingFive(most, key, n - 1);
      if s[|s| - 1] == key {
        assert (forall i :: |s| - n <= i < |s| ==> s[i] == key) <==>
            (forall i :: |most| - (n - 1) <= i < |most| ==> most[i] == key);
      }
    }
  }

  lemma {:induction false} WindowSees(all: seq<Key>, key: Key)
    ensures Trailing(LastN(all, CAPACITY), key) >= THRESHOLD <==> LastFiveAre(all, key)
  {
    var window, shift := LastN(all, CAPACITY), |all| - |LastN(all, CAPACITY)|;
    if |window| >= THRESHOLD {
      TrailingFive(window, key, THRESHOLD);
      assert forall i :: |window| - THRESHOLD <= i < |window| ==> window[i] == all[i + shift];
      assert forall i :: |all| - THRESHOLD <= i < |all| ==> all[i] == window[i - shift];
    }
  }

  lemma {:induction false} WindowSlides(all: seq<Key>, key: Key)
    ensures var pushed := LastN(all, CAPACITY) + [key];
      LastN(all + [key], CAPACITY) == if |pushed| > CAPACITY then pushed[1..] else pushed
  {
  }

  lemma {:induction false} CheckRefines(d: State, m: Memory, key: Key)
    requires Refines(d, m)
    ensures Check(d, key).1 == Judge(m, key).1
    ensures Refines(Check(d, key).0, Judge(m, key).0)
  {
    hide LastN, Trailing, LastFiveAre;
    WindowSlides(m.recorded, key);
    WindowSees(m.recorded + [key], key);
  }

  lemma {:induction false} RunRefines(d: State, m: Memory, keys: seq<Key>)
    requires Refines(d, m)
    ensures Signals(d, keys) == Judgements(m, keys)
    decreases |keys|
  {
    hide Check, Judge, Refines;
    if keys != [] {
      CheckRefines(d, m, keys[0]);
      RunRefines(Check(d, keys[0]).0, Judge(m, keys[0]).0, keys[1..]);
    }
  }

  /** Sixteen entries are enough: the signals are those of an unbounded memory. */
  lemma {:induction false} WindowIsEnough(keys: seq<Key>)
    ensures Signals(FRESH, keys) == Judgements(Memory([], None), keys)
  {
    RunRefines(FRESH, Memory([], None), keys);
  }

  /** The window holds the last sixteen recorded keys. */
  lemma {:induction false} WindowHolds(d: State, m: Memory, keys: seq<Key>)
    requires Refines(d, m)
    ensures StateAfter(d, keys).window == LastN(After(m, keys).recorded, 16)
    decreases |keys|
  {
    hide Check, Judge;
    if keys != [] {
      CheckRefines(d, m, keys[0]);
      WindowHolds(Check(d, keys[0]).0, Judge(m, keys[0]).0, keys[1..]);
    }
  }

  /** From any memory, n equal calls with no Halt leave at least n equal keys recorded. */
  lemma {:induction false} RepeatsRecorded(m: Memory, key: Key, keys: seq<Key>)
    requires forall i :: 0 <= i < |keys| ==> keys[i] == key
    requires forall i :: 0 <= i < |keys| ==> Judgements(m, keys)[i] != Halt
    ensures |keys| <= 5
    ensures var t := After(m, keys); |keys| > 0 ==> Trailing(t.recorded, key) >= |keys|
    ensures |keys| == 5 ==> After(m, keys).warnedNow == Some(key)
    decreases |keys|
  {
    if keys != [] {
      hide Judge, LastFiveAre;
      var n := |keys| - 1;
      var most := keys[..n];
      assert keys == most + [key];
      JudgementsSplit(m, most, [key]);
      assert forall i :: 0 <= i < n ==> Judgements(m, most)[i] == Judgements(m, keys)[i];
      RepeatsRecorded(m, key, most);
      var t := After(m, most);
      assert Judgements(m, keys)[n] == Judge(t, key).1;
      NoHaltRecords(t, key);
    }
  }

  lemma {:induction false} NoHaltRecords(t: Memory, key: Key)
    requires Judge(t, key).1 != Halt
    ensures t.warnedNow != Some(key)
    ensures Trailing(Judge(t, key).0.recorded, key) == Trailing(t.recorded, key) + 1
    ensures Trailing(t.recorded, key) >= 4 ==> Judge(t, key).0.warnedNow == Some(key)
  {
    var all := t.recorded + [key];
    assert all[..|t.recorded|] == t.recorded;
    if Trailing(t.recorded, key) >= 4 { TrailingFive(all, key, 5); }
  }

  function After(m: Memory, keys: seq<Key>): Memory
    decreases |keys|
  {
    if keys == [] then m else After(Judge(m, keys[0]).0, keys[1..])
  }

  lemma {:induction false} JudgementsSplit(m: Memory, a: seq<Key>, b: seq<Key>)
    ensures Judgements(m, a + b) == Judgements(m, a) + Judgements(After(m, a), b)
    ensures After(m, a + b) == After(After(m, a), b)
    decreases |a|
  {
    hide Judge;
    if a == [] {
      assert a + b == b;
    } else {
      assert (a + b)[1..] == a[1..] + b;
      JudgementsSplit(Judge(m, a[0]).0, a[1..], b);
    }
  }

  lemma {:induction false} SixHalt(m: Memory, key: Key, keys: seq<Key>)
    requires |keys| == 6 && forall i :: 0 <= i < 6 ==> keys[i] == key
    ensures exists i :: 0 <= i < 6 && Judgements(m, keys)[i] == Halt
  {
    if forall i :: 0 <= i < 6 ==> Judgements(m, keys)[i] != Halt {
      RepeatsRecorded(m, key, keys);
    }
  }

  /** No run contains six equal calls in a row without a Halt among them. */
  lemma {:induction false} SixInARowHalt(keys: seq<Key>, start: nat)
    requires start + 6 <= |keys|
    requires forall i :: start <= i < start + 6 ==> keys[i] == keys[start]
    ensures exists i :: start <= i < start + 6 && Signals(FRESH, keys)[i] == Halt
  {
    hide Signals, Judgements, Judge, After;
    WindowIsEnough(keys);
    var m := Memory([], None);
    var at := After(m, keys[..start]);
    SixHalt(at, keys[start], keys[start..start + 6]);
    var i :| 0 <= i < 6 && Judgements(at, keys[start..start + 6])[i] == Halt;
    JudgementWithin(m, keys, start, start + 6, i);
    assert Signals(FRESH, keys)[start + i] == Halt;
  }

  lemma {:induction false} JudgementWithin(m: Memory, keys: seq<Key>, lo: nat, hi: nat, i: nat)
    requires lo + i < hi <= |keys|
    ensures Judgements(m, keys)[lo + i] == Judgements(After(m, keys[..lo]), keys[lo..hi])[i]
  {
    hide Judgements, Judge, After;
    var a, b, c := keys[..lo], keys[lo..hi], keys[hi..];
    assert b + c == keys[lo..];
    assert a + keys[lo..] == keys;
    JudgementsSplit(m, a, keys[lo..]);
    JudgementsSplit(After(m, a), b, c);
  }
}
