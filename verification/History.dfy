/** The conversation history across turns: commits, the hundred-turn quota and
    compaction (openjax-core/src/agent/state.rs, context_compressor.rs). */
module History {
  import opened Common

  datatype TurnRecord = TurnRecord(userInput: string, toolTraces: seq<string>, assistantOutput: string)

  datatype Item = Turn(turn: TurnRecord) | Summary(text: string)

  const MAX_TURNS: nat := 100
  const KEPT: nat := 3

  function CountTurns(h: seq<Item>): nat {
    if h == [] then 0 else CountTurns(h[..|h| - 1]) + (if h[|h| - 1].Turn? then 1 else 0)
  }

  /** `retain`: drops the first `overflow` turns, keeping everything else. */
  function Retain(h: seq<Item>, overflow: nat): seq<Item> {
    if h == [] then []
    else if overflow > 0 && h[0].Turn? then Retain(h[1..], overflow - 1)
    else [h[0]] + Retain(h[1..], overflow)
  }

  function Commit(h: seq<Item>, t: TurnRecord): seq<Item> {
    var pushed := h + [Turn(t)];
    if CountTurns(pushed) > MAX_TURNS then Retain(pushed, CountTurns(pushed) - MAX_TURNS) else pushed
  }

  /** The positions of the turns, in order. */
  function TurnIndices(h: seq<Item>): (r: seq<nat>)
    ensures |r| == CountTurns(h)
    ensures forall i :: 0 <= i < |r| ==> r[i] < |h|
  {
    if h == [] then []
    else TurnIndices(h[..|h| - 1]) + (if h[|h| - 1].Turn? then [|h| - 1] else [])
  }

  /** `split_for_compression`: what to summarise, and the last three turns. */
  function Split(h: seq<Item>): Option<(seq<Item>, seq<Item>)> {
    var indices := TurnIndices(h);
    if |indices| <= 4 then None
    else var cutoff := indices[|indices| - KEPT]; Some((h[..cutoff], h[cutoff..]))
  }

  /** `try_compact`; the model's answer is `reply`, None when the call failed. */
  function TryCompact(h: seq<Item>, reply: Option<string>): Option<seq<Item>> {
    match Split(h)
    case None => None
    case Some(parts) =>
      if CountTurns(parts.0) == 0 || reply.None? then None
      else Some([Summary(reply.value)] + parts.1)
  }

  /** The event a compaction reports. */
  datatype Report = Skipped | Compacted(compressed: int, retained: nat, preview: string)

  function Preview(h: seq<Item>): string {
    if h == [] then ""
    else if h[0].Summary? then (if |h[0].text| <= 120 then h[0].text else h[0].text[..120])
    else Preview(h[1..])
  }

  function Compact(h: seq<Item>, reply: Option<string>): (seq<Item>, Report) {
    match TryCompact(h, reply)
    case None => (h, Skipped)
    case Some(next) => (next, Compacted(CountTurns(h) - CountTurns(next), CountTurns(next), Preview(next)))
  }

  class Conversation {
    var history: seq<Item>
    var lastInputTokens: Option<nat>

    constructor ()
      ensures history == [] && lastInputTokens == None
    {
      history, lastInputTokens := [], None;
    }

    method CommitTurn(t: TurnRecord)
      modifies `history
      ensures history == Commit(old(history), t)
    {
      history := history + [Turn(t)];
      var count := CountTurns(history);
      if count > MAX_TURNS {
        RetainAfter(count - MAX_TURNS);
      }
    }

    method RetainAfter(overflow: nat)
      modifies `history
      ensures history == Retain(old(history), overflow)
    {
      var kept, removed := [], 0;
      for i := 0 to |history|
        invariant removed <= overflow
        invariant kept + Retain(history[i..], overflow - removed) == Retain(history, overflow)
      {
        var item := history[i];
        assert history[i..][1..] == history[i + 1..];
        if removed < overflow && item.Turn? {
          removed := removed + 1;
        } else {
          assert kept + ([item] + Retain(history[i + 1..], overflow - removed))
              == (kept + [item]) + Retain(history[i + 1..], overflow - removed);
          kept := kept + [item];
        }
      }
      assert kept + [] == kept;
      history := kept;
    }

    method DoCompact(reply: Option<string>) returns (report: Report)
      modifies this
      ensures (history, report) == Compact(old(history), reply)
      ensures lastInputTokens == if report.Skipped? then old(lastInputTokens) else None
    {
      var turnsBefore := CountTurns(history);
      var next := TryCompact(history, reply);
      if next.None? {
        return Skipped;
      }
      var turnsAfter := CountTurns(next.value);
      history, lastInputTokens := next.value, None;
      report := Compacted(turnsBefore as int - turnsAfter as int, turnsAfter, Preview(next.value));
    }
  }

  // ---- What a history means ----------------------------------------------

  /** A history in two words: perhaps a summary, then some turns. */
  datatype Story = Story(summary: Option<string>, turns: seq<TurnRecord>)

  function Items(turns: seq<TurnRecord>): (r: seq<Item>)
    ensures |r| == |turns|
    ensures forall i :: 0 <= i < |r| ==> r[i] == Turn(turns[i])
  {
    if turns == [] then [] else Items(turns[..|turns| - 1]) + [Turn(turns[|turns| - 1])]
  }

  function Head(summary: Option<string>): seq<Item> {
    match summary case None => [] case Some(s) => [Summary(s)]
  }

  function Build(s: Story): seq<Item> {
    Head(s.summary) + Items(s.turns)
  }

  function LastTurns(turns: seq<TurnRecord>, n: nat): seq<TurnRecord> {
    if |turns| <= n then turns else turns[|turns| - n..]
  }

  function TellTurn(s: Story, t: TurnRecord): Story {
    s.(turns := LastTurns(s.turns + [t], 100))
  }

  function TellCompact(s: Story, reply: Option<string>): Story {
    if |s.turns| > 4 && reply.Some? then Story(reply, LastTurns(s.turns, 3)) else s
  }

  lemma {:induction false} BuildSnoc(s: Story, t: TurnRecord)
    ensures Build(s.(turns := s.turns + [t])) == Build(s) + [Turn(t)]
    ensures |Build(s)| == |Head(s.summary)| + |s.turns|
  {
    assert (s.turns + [t])[..|s.turns|] == s.turns;
  }

  lemma {:induction false} IndicesSnoc(h: seq<Item>, t: TurnRecord)
    ensures TurnIndices(h + [Turn(t)]) == TurnIndices(h) + [|h|]
    ensures CountTurns(h + [Turn(t)]) == CountTurns(h) + 1
  {
    assert (h + [Turn(t)])[..|h|] == h;
  }

  lemma {:induction false} BuildIndices(s: Story)
    ensures var ix := TurnIndices(Build(s));
      |ix| == |s.turns| && forall i :: 0 <= i < |ix| ==> ix[i] == |Head(s.summary)| + i
    ensures CountTurns(Build(s)) == |s.turns|
    decreases |s.turns|
  {
    var h := Build(s);
    if s.turns == [] {
      if s.summary.Some? {
        assert h[..|h| - 1] == [] && TurnIndices(h[..|h| - 1]) == [];
      }
    } else {
      hide TurnIndices, CountTurns, Build;
      var fewer, last := s.(turns := s.turns[..|s.turns| - 1]), s.turns[|s.turns| - 1];
      BuildIndices(fewer);
      BuildSnoc(fewer, last);
      assert s == fewer.(turns := fewer.turns + [last]);
      IndicesSnoc(Build(fewer), last);
    }
  }

  lemma {:induction false} RetainItems(turns: seq<TurnRecord>, k: nat)
    requires k <= |turns|
    ensures Retain(Items(turns), k) == Items(turns[k..])
    decreases |turns|
  {
    if turns != [] {
      hide Items;
      assert Items(turns)[1..] == Items(turns[1..]);
      if k > 0 {
        RetainItems(turns[1..], k - 1);
        assert turns[1..][k - 1..] == turns[k..];
      } else {
        RetainItems(turns[1..], 0);
        assert turns[1..][0..] == turns[1..];
        assert [Turn(turns[0])] + Items(turns[1..]) == Items(turns);
        assert turns[0..] == turns;
      }
    }
  }

  lemma {:induction false} RetainBuild(s: Story, k: nat)
    requires k <= |s.turns|
    ensures Retain(Build(s), k) == Build(s.(turns := s.turns[k..]))
  {
    RetainItems(s.turns, k);
    var h := Build(s);
    if s.summary.Some? {
      assert h[1..] == Items(s.turns);
    } else {
      assert h == Items(s.turns);
    }
  }

  lemma {:induction false} CommitTells(s: Story, t: TurnRecord)
    ensures Commit(Build(s), t) == Build(TellTurn(s, t))
  {
    hide Items, CountTurns, Retain;
    var pushed := s.(turns := s.turns + [t]);
    assert Build(s) + [Turn(t)] == Build(s.(turns := s.turns + [t]));
    BuildIndices(pushed);
    if |pushed.turns| > MAX_TURNS {
      RetainBuild(pushed, |pushed.turns| - MAX_TURNS);
    }
  }

  /** The part of a story that a compaction summarises. */
  function Older(s: Story): Story
    requires |s.turns| > 3
  {
    s.(turns := s.turns[..|s.turns| - 3])
  }

  lemma {:induction false} SplitBuild(s: Story)
    ensures |s.turns| <= 4 ==> Split(Build(s)) == None
    ensures |s.turns| > 4 ==> Split(Build(s)) == Some((Build(Older(s)), Items(LastTurns(s.turns, 3))))
  {
    BuildIndices(s);
    if |s.turns| > 4 {
      var h, cutoff := Build(s), |Head(s.summary)| + |s.turns| - KEPT;
      assert h[..cutoff] == Build(Older(s));
      assert h[cutoff..] == Items(LastTurns(s.turns, KEPT));
    }
  }

  /** A compaction succeeds exactly when there are more than four turns and the model
      answers; it keeps the last three turns behind the new summary, and the counts
      it reports add up. */
  lemma {:induction false} CompactTells(s: Story, reply: Option<string>)
    ensures Compact(Build(s), reply).0 == Build(TellCompact(s, reply))
    ensures Compact(Build(s), reply).1.Compacted? <==> |s.turns| > 4 && reply.Some?
    ensures var r := Compact(Build(s), reply).1;
      r.Compacted? ==> r.retained == 3 && r.compressed >= 2 && r.compressed + r.retained == |s.turns|
    ensures var r := Compact(Build(s), reply).1;
      r.Compacted? ==> r.preview == if |reply.value| <= 120 then reply.value else reply.value[..120]
  {
    BuildIndices(s);
    SplitBuild(s);
    if |s.turns| > 4 {
      BuildIndices(Older(s));
      var next := TellCompact(s, reply);
      BuildIndices(next);
      if reply.Some? { assert [Summary(reply.value)] + Items(LastTurns(s.turns, KEPT)) == Build(next); }
    }
  }

  // ---- Runs --------------------------------------------------------------

  datatype Step = CommitStep(t: TurnRecord) | CompactStep(reply: Option<string>)

  function Run(steps: seq<Step>): seq<Item> {
    if steps == [] then []
    else
      match steps[|steps| - 1]
      case CommitStep(t) => Commit(Run(steps[..|steps| - 1]), t)
      case CompactStep(reply) => Compact(Run(steps[..|steps| - 1]), reply).0
  }

  function Tale(steps: seq<Step>): Story {
    if steps == [] then Story(None, [])
    else
      match steps[|steps| - 1]
      case CommitStep(t) => TellTurn(Tale(steps[..|steps| - 1]), t)
      case CompactStep(reply) => TellCompact(Tale(steps[..|steps| - 1]), reply)
  }

  /** All turns ever committed, in order. */
  function Committed(steps: seq<Step>): seq<TurnRecord> {
    if steps == [] then []
    else Committed(steps[..|steps| - 1]) + (if steps[|steps| - 1].CommitStep? then [steps[|steps| - 1].t] else [])
  }

  lemma {:induction false} RunTells(steps: seq<Step>)
    ensures Run(steps) == Build(Tale(steps))
    ensures var ts, all := Tale(steps).turns, Committed(steps);
      |ts| <= 100 && |ts| <= |all| && ts == all[|all| - |ts|..]
  {
    hide Commit, Compact, Build;
    if steps == [] {
      assert Build(Story(None, [])) == [] by { NothingTold(); }
    } else {
      var past := steps[..|steps| - 1];
      RunTells(past);
      match steps[|steps| - 1]
      case CommitStep(t) => CommitTells(Tale(past), t);
      case CompactStep(reply) => CompactTells(Tale(past), reply);
    }
  }

  lemma {:induction false} NothingTold()
    ensures Build(Story(None, [])) == []
  {
  }

  /** `h` is the summary, if any, and the last n of the committed turns. */
  ghost predicate IsTail(h: seq<Item>, committed: seq<TurnRecord>, s: Option<string>, n: nat) {
    n <= |committed| && h == Head(s) + Items(committed[|committed| - n..])
  }

  /** Every reachable history is at most one summary, in front, and then at most a
      hundred turns, which are the latest ones committed, in order. */
  lemma {:induction false} ReachableShape(steps: seq<Step>)
    ensures var h := Run(steps);
      && (forall i :: 1 <= i < |h| ==> h[i].Turn?)
      && CountTurns(h) <= 100
      && |h| <= 101
    ensures exists s: Option<string>, n: nat :: IsTail(Run(steps), Committed(steps), s, n)
  {
    hide Run, Tale, Committed, Items, CountTurns, TurnIndices;
    RunTells(steps);
    var s := Tale(steps);
    BuildIndices(s);
    assert IsTail(Run(steps), Committed(steps), s.summary, |s.turns|);
  }

  /** Compacting again at once does nothing. */
  lemma {:induction false} CompactTwice(steps: seq<Step>, first: Option<string>, second: Option<string>)
    requires Compact(Run(steps), first).1.Compacted?
    ensures var h := Compact(Run(steps), first).0; Compact(h, second) == (h, Skipped)
  {
    RunTells(steps);
    var s := Tale(steps);
    CompactTells(s, first);
    CompactTells(TellCompact(s, first), second);
    SplitBuild(TellCompact(s, first));
  }
}
