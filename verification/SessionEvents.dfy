/** The Python backend's event log and its live subscribers (python/backend/app.py). */
module SessionEvents {
  import opened Common

  datatype Input = Input(turnId: Option<string>, payload: string)

  datatype Envelope = Envelope(eventSeq: nat, turnId: Option<string>, turnSeq: nat, payload: string)

  /** Python truth: neither None nor the empty string names a turn. */
  predicate HasTurn(id: Option<string>) {
    id.Some? && id.value != ""
  }

  // ---- Everything ever published -----------------------------------------

  function CountTurn(inputs: seq<Input>, id: string): nat {
    if inputs == [] then 0
    else CountTurn(inputs[..|inputs| - 1], id) + (if inputs[|inputs| - 1].turnId == Some(id) then 1 else 0)
  }

  function EnvelopeOf(before: seq<Input>, x: Input): Envelope {
    Envelope(|before| + 1, x.turnId, if HasTurn(x.turnId) then CountTurn(before, x.turnId.value) + 1 else 0, x.payload)
  }

  function FullLog(inputs: seq<Input>): (r: seq<Envelope>)
    ensures |r| == |inputs|
    ensures forall i :: 0 <= i < |r| ==> r[i].eventSeq == i + 1
  {
    if inputs == [] then []
    else FullLog(inputs[..|inputs| - 1]) + [EnvelopeOf(inputs[..|inputs| - 1], inputs[|inputs| - 1])]
  }

  ghost function NamedBy(inputs: seq<Input>, n: nat, id: string): set<nat>
    requires n <= |inputs|
  {
    set j: nat | j < n && inputs[j].turnId == Some(id)
  }

  lemma {:induction false} CountIsNamedBy(inputs: seq<Input>, n: nat, id: string)
    requires n <= |inputs|
    ensures CountTurn(inputs[..n], id) == |NamedBy(inputs, n, id)|
  {
    if n > 0 {
      CountIsNamedBy(inputs, n - 1, id);
      assert inputs[..n][..n - 1] == inputs[..n - 1];
      if inputs[n - 1].turnId == Some(id) {
        assert NamedBy(inputs, n, id) == NamedBy(inputs, n - 1, id) + {n - 1};
      } else {
        assert NamedBy(inputs, n, id) == NamedBy(inputs, n - 1, id);
      }
    } else {
      assert NamedBy(inputs, 0, id) == {};
    }
  }

  /** Events are numbered from 1 in the session, and from 1 in their turn; an event that names
      no turn has turn number 0; what was published is what is kept. */
  lemma {:induction false} NumberedExactly(inputs: seq<Input>, i: nat)
    requires i < |inputs|
    ensures var e := FullLog(inputs)[i];
      && e.eventSeq == i + 1 && e.turnId == inputs[i].turnId && e.payload == inputs[i].payload
      && e.turnSeq == match inputs[i].turnId
                      case None => 0
                      case Some(id) => if id == "" then 0 else |NamedBy(inputs, i + 1, id)|
  {
    LogEntry(inputs, i);
    if inputs[i].turnId.Some? {
      var id := inputs[i].turnId.value;
      CountIsNamedBy(inputs, i, id);
      CountIsNamedBy(inputs, i + 1, id);
      assert inputs[..i + 1][..i] == inputs[..i];
    }
  }

  lemma {:induction false} LogEntry(inputs: seq<Input>, i: nat)
    requires i < |inputs|
    ensures FullLog(inputs)[i] == EnvelopeOf(inputs[..i], inputs[i])
  {
    var n := |inputs| - 1;
    if i < n {
      LogEntry(inputs[..n], i);
      assert inputs[..n][..i] == inputs[..i];
    }
  }

  /** `log[-limit:]` once the log is longer than the limit; `log[-0:]` is all of it. */
  function Trim(log: seq<Envelope>, limit: nat): seq<Envelope> {
    if |log| > limit && limit > 0 then log[|log| - limit..] else log
  }

  /** A limit of 0 bounds nothing: an empty slice bound means the whole log. */
  lemma {:induction false} TrimBoundsExactly(log: seq<Envelope>, limit: nat)
    ensures |Trim(log, limit)| <= limit <==> limit > 0 || log == []
    ensures limit == 0 ==> Trim(log, limit) == log
  {
  }

  function Newer(log: seq<Envelope>, after: int): seq<Envelope> {
    if log == [] then [] else (if log[0].eventSeq > after then [log[0]] else []) + Newer(log[1..], after)
  }

  datatype Replayed = Events(events: seq<Envelope>) | WindowExceeded(minAllowed: int)

  function ReplayAnswer(log: seq<Envelope>, after: Option<int>): Replayed {
    if after.None? || after.value == 0 then Events(log)
    else
      var minAllowed := if log == [] then 0 else log[0].eventSeq - 1;
      if after.value < minAllowed then WindowExceeded(minAllowed) else Events(Newer(log, after.value))
  }

  /** The counter holds, for each turn named so far, how many events name it. */
  ghost predicate Counted(counter: map<string, nat>, inputs: seq<Input>) {
    && (forall id :: id in counter ==> id != "" && counter[id] == CountTurn(inputs, id))
    && (forall id :: id != "" && id !in counter ==> CountTurn(inputs, id) == 0)
  }

  class SessionRuntime {
    const replayLimit: nat
    var nextEventSeq: nat
    var turnSeqCounter: map<string, nat>
    var eventLog: seq<Envelope>
    ghost var inputs: seq<Input>

    ghost predicate Valid()
      reads this
    {
      && nextEventSeq == |inputs| + 1
      && eventLog == Trim(FullLog(inputs), replayLimit)
      && Counted(turnSeqCounter, inputs)
    }

    constructor (limit: nat)
      ensures Valid() && inputs == [] && replayLimit == limit
    {
      replayLimit, nextEventSeq, turnSeqCounter, eventLog, inputs := limit, 1, map[], [], [];
    }

    method Publish(x: Input) returns (e: Envelope)
      requires Valid()
      modifies this
      ensures Valid() && inputs == old(inputs) + [x]
      ensures e == EnvelopeOf(old(inputs), x)
    {
      hide FullLog, Trim, CountTurn, Counted;
      var turnSeq := CountUp(x);
      e := Envelope(nextEventSeq, x.turnId, turnSeq, x.payload);
      nextEventSeq := nextEventSeq + 1;
      TrimSnoc(inputs, x, replayLimit);
      eventLog := eventLog + [e];
      if |eventLog| > replayLimit {
        eventLog := if replayLimit == 0 then eventLog else eventLog[|eventLog| - replayLimit..];
      }
      inputs := inputs + [x];
    }

    /** The turn's own counter, for an event that names a turn. */
    method CountUp(x: Input) returns (turnSeq: nat)
      requires Valid()
      modifies `turnSeqCounter
      ensures turnSeq == if HasTurn(x.turnId) then CountTurn(inputs, x.turnId.value) + 1 else 0
      ensures HasTurn(x.turnId) ==> turnSeqCounter == old(turnSeqCounter)[x.turnId.value := turnSeq]
      ensures !HasTurn(x.turnId) ==> turnSeqCounter == old(turnSeqCounter)
      ensures Counted(turnSeqCounter, inputs + [x])
    {
      CountsSnoc(inputs, x);
      turnSeq := 0;
      if HasTurn(x.turnId) {
        var id := x.turnId.value;
        turnSeq := (if id in turnSeqCounter then turnSeqCounter[id] else 0) + 1;
        turnSeqCounter := turnSeqCounter[id := turnSeq];
      }
    }

    method ReplayFrom(after: Option<int>) returns (r: Replayed)
      requires Valid()
      ensures r == Owed(inputs, replayLimit, after)
    {
      hide FullLog, Trim, CountTurn, Lost;
      ReplayOwed(inputs, replayLimit, after);
      if after.None? || after.value == 0 {
        return Events(eventLog);
      }
      var minAllowed := if eventLog == [] then 0 else eventLog[0].eventSeq - 1;
      if after.value < minAllowed {
        return WindowExceeded(minAllowed);
      }
      r := Events(Newer(eventLog, after.value));
    }
  }

  lemma {:induction false} CountsSnoc(inputs: seq<Input>, x: Input)
    ensures forall id :: CountTurn(inputs + [x], id) == CountTurn(inputs, id) + (if x.turnId == Some(id) then 1 else 0)
  {
    assert (inputs + [x])[..|inputs|] == inputs;
  }

  lemma {:induction false} TrimSnoc(inputs: seq<Input>, x: Input, limit: nat)
    ensures var log := Trim(FullLog(inputs), limit) + [EnvelopeOf(inputs, x)];
      Trim(FullLog(inputs + [x]), limit) == if |log| > limit && limit > 0 then log[|log| - limit..] else log
  {
    hide FullLog, Trim;
    FullLogGrows(inputs, x);
    TrimAgain(FullLog(inputs), EnvelopeOf(inputs, x), limit);
  }

  /** Trimming an already trimmed log after each event is trimming it once. */
  lemma {:induction false} TrimAgain(all: seq<Envelope>, e: Envelope, limit: nat)
    ensures Trim(Trim(all, limit) + [e], limit) == Trim(all + [e], limit)
    ensures var log := Trim(all, limit) + [e];
      Trim(log, limit) == if |log| > limit && limit > 0 then log[|log| - limit..] else log
  {
    var n := |all|;
    if n > limit && limit > 0 {
      assert (all[n - limit..] + [e])[1..] == (all + [e])[n + 1 - limit..];
    }
  }

  // ---- Replay, exactly ---------------------------------------------------

  lemma {:induction false} NewerExact(all: seq<Envelope>, lo: nat, k: nat)
    requires lo <= |all| && forall i :: 0 <= i < |all| ==> all[i].eventSeq == i + 1
    ensures Newer(all[lo..], k) == all[Clamp(k, lo, |all|)..]
    decreases |all| - lo
  {
    if lo < |all| {
      assert all[lo..][1..] == all[lo + 1..];
      NewerExact(all, lo + 1, k);
      if k <= lo { assert all[lo..] == [all[lo]] + all[lo + 1..]; }
    }
  }

  /** What has fallen out of the log. */
  function Lost(n: nat, limit: nat): (lost: nat)
    ensures lost <= n
  {
    if n > limit && limit > 0 then n - limit else 0
  }

  /** What the published events owe a client: all that is kept without a cursor, all
      that follows the cursor if none of it is lost, and a refusal otherwise. */
  function Owed(inputs: seq<Input>, limit: nat, after: Option<int>): Replayed {
    var all, lost := FullLog(inputs), Lost(|inputs|, limit);
    if after.None? || after.value == 0 then Events(all[lost..])
    else if after.value >= lost then Events(all[Clamp(after.value, 0, |all|)..])
    else WindowExceeded(lost)
  }

  lemma {:induction false} ReplayOwed(inputs: seq<Input>, limit: nat, after: Option<int>)
    ensures ReplayAnswer(Trim(FullLog(inputs), limit), after) == Owed(inputs, limit, after)
  {
    if after.Some? && after.value != 0 {
      ReplayExact(inputs, limit, after.value);
    }
  }

  /** A cursor other than 0 is served exactly when nothing after it is lost; then the
      answer is the exact suffix. */
  lemma {:induction false} ReplayExact(inputs: seq<Input>, limit: nat, k: int)
    requires k != 0
    ensures var all := FullLog(inputs);
      ReplayAnswer(Trim(all, limit), Some(k)) ==
      if k >= Lost(|all|, limit) then Events(all[Clamp(k, 0, |all|)..]) else WindowExceeded(Lost(|all|, limit))
  {
    var all := FullLog(inputs);
    if k > 0 { NewerExact(all, Lost(|all|, limit), k); }
  }

  /** Cursor 0 counts as none: it is always served, and what is lost is skipped silently. */
  lemma {:induction false} ReplayFromZero(inputs: seq<Input>, limit: nat)
    ensures var all := FullLog(inputs); ReplayAnswer(Trim(all, limit), Some(0)) == Events(all[Lost(|all|, limit)..])
  {
  }

  // ---- A live subscriber -------------------------------------------------

  datatype Action = Publish(x: Input) | Poll

  datatype World = World(inputs: seq<Input>, cursor: int, delivered: seq<Envelope>)

  /** One round of the generator's loop over the events that `wait_new_events` returned. */
  function Deliver(cursor: int, delivered: seq<Envelope>, events: seq<Envelope>): (int, seq<Envelope>)
    decreases |events|
  {
    if events == [] then (cursor, delivered)
    else if events[0].eventSeq <= cursor then Deliver(cursor, delivered, events[1..])
    else Deliver(events[0].eventSeq, delivered + [events[0]], events[1..])
  }

  function Act(w: World, a: Action, limit: nat): World {
    match a
    case Publish(x) => w.(inputs := w.inputs + [x])
    case Poll =>
      var (cursor, delivered) := Deliver(w.cursor, w.delivered, Newer(Trim(FullLog(w.inputs), limit), w.cursor));
      w.(cursor := cursor, delivered := delivered)
  }

  function ActAll(w: World, actions: seq<Action>, limit: nat): World {
    if actions == [] then w else Act(ActAll(w, actions[..|actions| - 1], limit), actions[|actions| - 1], limit)
  }

  function MaxSeq(cursor: int, events: seq<Envelope>): int
    decreases |events|
  {
    if events == [] then cursor
    else MaxSeq(if events[0].eventSeq > cursor then events[0].eventSeq else cursor, events[1..])
  }

  /** After a successful replay: its events have been sent, and the cursor follows. */
  function Subscribe(inputs: seq<Input>, after: Option<int>, replay: seq<Envelope>): World {
    World(inputs, MaxSeq(match after case Some(k) => k case None => 0, replay), replay)
  }

  class Subscriber {
    var cursor: int
    var delivered: seq<Envelope>

    constructor (after: Option<int>, replay: seq<Envelope>)
      ensures cursor == MaxSeq(match after case Some(k) => k case None => 0, replay) && delivered == replay
    {
      var c := match after case Some(k) => k case None => 0;
      ghost var start := c;
      for i := 0 to |replay|
        invariant MaxSeq(c, replay[i..]) == MaxSeq(start, replay)
      {
        assert replay[i..][1..] == replay[i + 1..];
        if replay[i].eventSeq > c {
          c := replay[i].eventSeq;
        }
      }
      cursor, delivered := c, replay;
    }

    method OnEvents(events: seq<Envelope>)
      modifies this
      ensures (cursor, delivered) == Deliver(old(cursor), old(delivered), events)
    {
      for i := 0 to |events|
        invariant Deliver(cursor, delivered, events[i..]) == Deliver(old(cursor), old(delivered), events)
      {
        assert events[i..][1..] == events[i + 1..];
        if events[i].eventSeq <= cursor {
          continue;
        }
        cursor := events[i].eventSeq;
        delivered := delivered + [events[i]];
      }
    }
  }

  ghost predicate Increasing(s: seq<Envelope>) {
    forall i, j :: 0 <= i < j < |s| ==> s[i].eventSeq < s[j].eventSeq
  }

  /** Delivered events are genuine, strictly increasing and not ahead of the cursor. */
  ghost predicate Sound(w: World) {
    && Increasing(w.delivered)
    && (forall i :: 0 <= i < |w.delivered| ==>
          w.delivered[i].eventSeq <= w.cursor && w.delivered[i] in FullLog(w.inputs))
  }

  lemma {:induction false} DeliverSound(cursor: int, delivered: seq<Envelope>, events: seq<Envelope>,
      all: seq<Envelope>)
    requires Increasing(delivered)
    requires forall i :: 0 <= i < |delivered| ==> delivered[i].eventSeq <= cursor && delivered[i] in all
    requires forall i :: 0 <= i < |events| ==> events[i] in all
    ensures var (c, d) := Deliver(cursor, delivered, events);
      Increasing(d) && (forall i :: 0 <= i < |d| ==> d[i].eventSeq <= c && d[i] in all)
    decreases |events|
  {
    if events != [] {
      if events[0].eventSeq <= cursor {
        DeliverSound(cursor, delivered, events[1..], all);
      } else {
        DeliverSound(events[0].eventSeq, delivered + [events[0]], events[1..], all);
      }
    }
  }

  lemma {:induction false} NewerWithin(log: seq<Envelope>, after: int)
    ensures forall i :: 0 <= i < |Newer(log, after)| ==> Newer(log, after)[i] in log
  {
    if log != [] {
      NewerWithin(log[1..], after);
      assert log == [log[0]] + log[1..];
    }
  }

  lemma {:induction false} FullLogGrows(inputs: seq<Input>, x: Input)
    ensures FullLog(inputs + [x]) == FullLog(inputs) + [EnvelopeOf(inputs, x)]
  {
    assert (inputs + [x])[..|inputs|] == inputs;
  }

  lemma {:induction false} ActSound(w: World, a: Action, limit: nat)
    requires Sound(w)
    ensures Sound(Act(w, a, limit))
  {
    match a
    case Publish(x) => FullLogGrows(w.inputs, x);
    case Poll =>
      var all := FullLog(w.inputs);
      NewerWithin(Trim(all, limit), w.cursor);
      DeliverSound(w.cursor, w.delivered, Newer(Trim(all, limit), w.cursor), all);
  }

  /** Whatever the pace of publishing and polling, a subscriber never sees an event
      twice, out of order, or one that was not published. */
  lemma {:induction false} AlwaysIncreasing(w: World, actions: seq<Action>, limit: nat)
    requires Sound(w)
    ensures Sound(ActAll(w, actions, limit))
  {
    hide Sound;
    if actions != [] {
      AlwaysIncreasing(w, actions[..|actions| - 1], limit);
      ActSound(ActAll(w, actions[..|actions| - 1], limit), actions[|actions| - 1], limit);
    }
  }

  /** Everything from event `from + 1` up to the cursor has been delivered. */
  ghost predicate GapFree(w: World, from: nat) {
    && from <= w.cursor
    && (w.cursor <= |w.inputs| ==> w.delivered == FullLog(w.inputs)[from..w.cursor])
    && (w.cursor > |w.inputs| ==> w.cursor == from && w.delivered == [])
  }

  lemma {:induction false} DeliverSuffix(all: seq<Envelope>, cursor: nat, lo: nat, delivered: seq<Envelope>)
    requires forall i :: 0 <= i < |all| ==> all[i].eventSeq == i + 1
    requires cursor <= lo <= |all|
    ensures Deliver(cursor, delivered, all[lo..]) == (if lo < |all| then |all| else cursor, delivered + all[lo..])
    decreases |all| - lo
  {
    if lo < |all| {
      assert all[lo..][1..] == all[lo + 1..];
      DeliverSuffix(all, lo + 1, lo + 1, delivered + [all[lo]]);
      assert (delivered + [all[lo]]) + all[lo + 1..] == delivered + all[lo..];
    } else {
      assert delivered + all[lo..] == delivered;
    }
  }

  lemma {:induction false} PollExact(w: World, limit: nat)
    requires w.cursor >= 0
    ensures var all, t := FullLog(w.inputs), Act(w, Poll, limit);
      var lo := Clamp(w.cursor, Lost(|all|, limit), |all|);
      && t.delivered == w.delivered + all[lo..]
      && t.cursor == if lo < |all| then |all| else w.cursor
  {
    var all := FullLog(w.inputs);
    NewerExact(all, Lost(|all|, limit), w.cursor);
    if w.cursor >= |all| {
      assert all[|all|..] == [];
    } else {
      DeliverSuffix(all, w.cursor, Clamp(w.cursor, Lost(|all|, limit), |all|), w.delivered);
    }
  }

  /** A poll leaves no gap exactly when nothing after the cursor has been trimmed:
      the publisher is at most `limit` events ahead. */
  lemma {:induction false} PollGapFreeExactly(w: World, from: nat, limit: nat)
    requires GapFree(w, from)
    ensures GapFree(Act(w, Poll, limit), from) <==> Lost(|w.inputs|, limit) <= w.cursor
  {
    PollExact(w, limit);
    var all := FullLog(w.inputs);
    if w.cursor < |all| {
      if Lost(|all|, limit) <= w.cursor {
        assert all[from..w.cursor] + all[w.cursor..] == all[from..|all|];
      } else {
        assert |Act(w, Poll, limit).delivered| < |all[from..|all|]|;
      }
    } else {
      assert w.delivered + all[|all|..] == w.delivered;
    }
  }

  /** Before each poll the publisher is at most the limit ahead of the cursor. */
  ghost predicate KeepsUp(w: World, actions: seq<Action>, limit: nat) {
    forall i :: 0 <= i < |actions| && actions[i] == Poll ==>
      Lost(|ActAll(w, actions[..i], limit).inputs|, limit) <= ActAll(w, actions[..i], limit).cursor
  }

  lemma {:induction false} PublishGapFree(w: World, from: nat, x: Input, limit: nat)
    requires GapFree(w, from)
    ensures GapFree(Act(w, Publish(x), limit), from)
  {
    FullLogGrows(w.inputs, x);
    var all := FullLog(w.inputs);
    if w.cursor <= |all| {
      assert (all + [EnvelopeOf(w.inputs, x)])[from..w.cursor] == all[from..w.cursor];
    } else if w.cursor == |all| + 1 {
      assert FullLog(w.inputs + [x])[from..w.cursor] == [];
    }
  }

  lemma {:induction false} KeepsUpSnoc(w: World, actions: seq<Action>, limit: nat)
    requires actions != []
    ensures var past := actions[..|actions| - 1];
      KeepsUp(w, actions, limit) <==>
      KeepsUp(w, past, limit)
      && (actions[|actions| - 1] == Poll ==>
            Lost(|ActAll(w, past, limit).inputs|, limit) <= ActAll(w, past, limit).cursor)
  {
    hide ActAll, Lost;
    var n := |actions| - 1;
    var past := actions[..n];
    assert forall i :: 0 <= i < n ==> past[..i] == actions[..i] && past[i] == actions[i];
    if KeepsUp(w, past, limit) {
      assert forall i :: 0 <= i < |actions| && actions[i] == Poll && i != n ==> past[i] == Poll;
    }
  }

  /** Fewer events delivered than the cursor has moved. */
  ghost predicate Behind(w: World, from: nat) {
    |w.delivered| < w.cursor - from
  }

  /** What has been missed once is never made up for. */
  lemma {:induction false} StaysBehind(w: World, from: nat, a: Action, limit: nat)
    requires Behind(w, from)
    ensures Behind(Act(w, a, limit), from)
  {
    if a == Poll { PollExact(w, limit); }
  }

  lemma {:induction false} LatePollFallsBehind(w: World, from: nat, limit: nat)
    requires GapFree(w, from) && Lost(|w.inputs|, limit) > w.cursor
    ensures Behind(Act(w, Poll, limit), from)
  {
    PollExact(w, limit);
  }

  lemma {:induction false} KeepsUpOrBehind(w: World, from: nat, actions: seq<Action>, limit: nat)
    requires GapFree(w, from)
    ensures var t := ActAll(w, actions, limit);
      if KeepsUp(w, actions, limit) then GapFree(t, from) else Behind(t, from)
  {
    if actions != [] {
      hide GapFree, KeepsUp, Behind, Lost, Act;
      var n := |actions| - 1;
      var past := actions[..n];
      KeepsUpOrBehind(w, from, past, limit);
      KeepsUpSnoc(w, actions, limit);
      var s := ActAll(w, past, limit);
      if !KeepsUp(w, past, limit) {
        StaysBehind(s, from, actions[n], limit);
      } else {
        match actions[n]
        case Publish(x) => PublishGapFree(s, from, x, limit);
        case Poll =>
          PollGapFreeExactly(s, from, limit);
          if Lost(|s.inputs|, limit) > s.cursor { LatePollFallsBehind(s, from, limit); }
      }
    } else {
      assert KeepsUp(w, actions, limit);
    }
  }

  /** Over any run a subscriber misses nothing from its starting point on if and only
      if it keeps up before every poll: a gap once made is never closed. */
  lemma {:induction false} KeepingUpIsGapFree(w: World, from: nat, actions: seq<Action>, limit: nat)
    requires GapFree(w, from)
    ensures GapFree(ActAll(w, actions, limit), from) <==> KeepsUp(w, actions, limit)
  {
    KeepsUpOrBehind(w, from, actions, limit);
  }

  lemma {:induction false} MaxSeqSuffix(all: seq<Envelope>, lo: nat, cursor: int)
    requires forall i :: 0 <= i < |all| ==> all[i].eventSeq == i + 1
    requires lo <= |all|
    ensures MaxSeq(cursor, all[lo..]) == if lo < |all| && cursor < |all| then |all| else cursor
    decreases |all| - lo
  {
    if lo < |all| {
      assert all[lo..][1..] == all[lo + 1..];
      MaxSeqSuffix(all, lo + 1, if all[lo].eventSeq > cursor then all[lo].eventSeq else cursor);
    }
  }

  /** A subscription starts sound and gap-free: after its cursor, or, without one,
      after whatever has already been lost. */
  lemma {:induction false} SubscriptionStarts(inputs: seq<Input>, limit: nat, after: Option<int>)
    requires ReplayAnswer(Trim(FullLog(inputs), limit), after).Events?
    ensures var w := Subscribe(inputs, after, ReplayAnswer(Trim(FullLog(inputs), limit), after).events);
      Sound(w) && GapFree(w, if after.Some? && after.value > 0 then after.value else Lost(|inputs|, limit))
  {
    if after.Some? && after.value > 0 {
      SubscriptionAfter(inputs, limit, after.value);
    } else {
      SubscriptionFromStart(inputs, limit, after);
    }
  }

  lemma {:induction false} SubscriptionAfter(inputs: seq<Input>, limit: nat, k: nat)
    requires k > 0 && ReplayAnswer(Trim(FullLog(inputs), limit), Some(k)).Events?
    ensures var w := Subscribe(inputs, Some(k), ReplayAnswer(Trim(FullLog(inputs), limit), Some(k)).events);
      Sound(w) && GapFree(w, k)
  {
    hide Trim, ReplayAnswer;
    var all := FullLog(inputs);
    ReplayExact(inputs, limit, k);
    var lo := Clamp(k, 0, |all|);
    MaxSeqSuffix(all, lo, k);
    SuffixSound(inputs, lo, if k < |all| then |all| else k);
  }

  lemma {:induction false} SubscriptionFromStart(inputs: seq<Input>, limit: nat, after: Option<int>)
    requires after.None? || after.value == 0
    ensures var w := Subscribe(inputs, after, ReplayAnswer(Trim(FullLog(inputs), limit), after).events);
      Sound(w) && GapFree(w, Lost(|inputs|, limit))
  {
    var all := FullLog(inputs);
    var lost := Lost(|all|, limit);
    assert Trim(all, limit) == all[lost..];
    MaxSeqSuffix(all, lost, 0);
    SuffixSound(inputs, lost, |all|);
  }

  lemma {:induction false} SuffixSound(inputs: seq<Input>, lo: nat, cursor: int)
    requires lo <= |inputs| <= cursor
    ensures Sound(World(inputs, cursor, FullLog(inputs)[lo..]))
    ensures FullLog(inputs)[lo..] == FullLog(inputs)[lo..|inputs|]
  {
  }

}
