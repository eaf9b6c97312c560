/** One natural-language turn (openjax-core/src/agent/planner.rs). */
module AgentTurn {
  // Planner rounds, tool batches, the duplicate guard, the loop detector and the two
  // budgets; also planner_tool_action.rs, tool_executor.rs, tool_guard.rs and state.rs
  // beside it.  The model and the tools are arbitrary functions of how often they were
  // asked.

  import opened Common
  import LoopDetector
  import ToolCommand

  datatype ToolUse = ToolUse(id: string, name: string, args: string, argsHash: string)

  /** The model's answer to one planner request. */
  datatype Reply =
    | ModelError
    | Answer(text: string, uses: seq<ToolUse>, live: bool, streamed: string)

  datatype ToolReply = ToolOk(success: bool) | ToolErr(approvalBlocked: bool)

  datatype Oracle = Oracle(model: nat -> Reply, tool: nat -> ToolReply)

  datatype Limits = Limits(maxCalls: nat, maxRounds: nat)

  datatype Phase = Planning | StreamingText | ToolBatchRunning | StreamingResumed | Completed | Failed

  datatype Code =
    | ModelRequestFailed | ModelInvalidTool | DuplicateSkipped | DuplicateLoopAbort
    | LoopHalt | ApprovalBlocked | TurnLimitReached

  datatype Event =
    | ToolCallsProposed(count: nat)
    | BudgetExhausted(id: string)
    | ToolCallProgress(id: string)
    | ToolCallFailed(id: string)
    | ToolCallCompleted(id: string, ok: bool)
    | LoopWarning(tool: string)
    | ToolBatchCompleted(total: nat, succeeded: nat, failed: nat)
    | ResponseCompleted(content: string)
    | ResponseError(code: Code)

  datatype Record = Record(name: string, args: string, ok: bool, epoch: nat)

  /** What the model is sent besides the user's input: its own tool uses and their results. */
  datatype Message = Assistant(uses: seq<string>) | ToolResults(ids: seq<string>)

  /** One planner request, and the events sent before it. */
  datatype Request = Request(messages: seq<Message>, events: seq<Event>)

  /** What has become of the calls: passed over as a duplicate or started, and of those that
      were started, replied to (a failing tool does not reply) and finished. */
  datatype Deed =
    | PassedOver(name: string, args: string)
    | Started(name: string, args: string)
    | Replied(name: string)
    | Finished(name: string, args: string, ok: bool)

  /** What a turn reads and changes.  `checked`, `requests` and `deeds` are history variables:
      the keys the loop detector has been asked about, the planner requests made, and what
      has become of the calls; `ran` counts tool executions. */
  datatype Turn = Turn(
    recent: seq<Record>,
    epoch: nat,
    detector: LoopDetector.State,
    committed: seq<string>,
    executed: nat,
    rounds: nat,
    ran: nat,
    skips: nat,
    phase: Phase,
    events: seq<Event>,
    checked: seq<LoopDetector.Key>,
    talk: seq<Message>,
    requests: seq<Request>,
    deeds: seq<Deed>)

  datatype Outcome = Result(ok: bool) | Aborted

  const MAX_SKIPS: nat := 2
  const RECENT: nat := 16

  predicate IsMutating(name: string) {
    name == "Edit" || name == "shell" || name == "exec_command"
  }

  predicate SkipsDuplicateCheck(name: string) {
    name in ["Read", "list_dir", "grep_files", "process_snapshot", "system_load", "disk_usage"]
  }

  /** A remembered success of the same call in the same epoch. */
  predicate AlreadyDone(recent: seq<Record>, epoch: nat, u: ToolUse) {
    && !SkipsDuplicateCheck(u.name)
    && exists i :: 0 <= i < |recent| && recent[i] == Record(u.name, u.args, true, epoch)
  }

  predicate IsDuplicate(t: Turn, u: ToolUse) {
    AlreadyDone(t.recent, t.epoch, u)
  }

  predicate BlankName(name: string) {
    ToolCommand.Trim(name) == ""
  }

  // ---- One tool call -----------------------------------------------------

  function Emit(t: Turn, e: Event): Turn {
    t.(events := t.events + [e])
  }

  function Fail(t: Turn, code: Code): Turn {
    Emit(t, ResponseError(code)).(phase := Failed)
  }

  function KeepRecent(s: seq<Record>): seq<Record> {
    if |s| > RECENT then s[|s| - RECENT..] else s
  }

  function Remember(t: Turn, u: ToolUse, ok: bool): Turn {
    t.(recent := KeepRecent(t.recent + [Record(u.name, u.args, ok, t.epoch)]),
       deeds := t.deeds + [Finished(u.name, u.args, ok)])
  }

  function KeyOf(u: ToolUse): LoopDetector.Key {
    LoopDetector.Key(u.name, u.argsHash)
  }

  /** A mutating call moves the epoch on; the detector is asked about every call. */
  function AskDetector(t: Turn, u: ToolUse): (Turn, LoopDetector.Signal) {
    var t1 := if IsMutating(u.name) then t.(epoch := t.epoch + 1) else t;
    var (detector, signal) := LoopDetector.Check(t1.detector, KeyOf(u));
    (t1.(detector := detector, checked := t1.checked + [KeyOf(u)], deeds := t1.deeds + [Replied(u.name)]), signal)
  }

  function CountCall(t: Turn, u: ToolUse, success: bool): Turn {
    var t1 := Emit(Remember(t, u, success), ToolCallCompleted(u.id, success));
    t1.(executed := t1.executed + 1, skips := 0)
  }

  /** A tool that answered: the epoch, the loop detector, then the books. */
  function AfterOk(t: Turn, u: ToolUse, success: bool): (Turn, Outcome) {
    var (t1, signal) := AskDetector(t, u);
    if signal == LoopDetector.Halt then (Fail(t1, LoopHalt), Aborted)
    else (CountCall(if signal == LoopDetector.Warned then Emit(t1, LoopWarning(u.name)) else t1, u, success),
        Result(success))
  }

  /** A tool that failed: remembered as failed; a blocked approval ends the turn. */
  function AfterErr(t: Turn, u: ToolUse, blocked: bool): (Turn, Outcome) {
    var t1 := Emit(Emit(Remember(t, u, false), ToolCallFailed(u.id)), ToolCallCompleted(u.id, false));
    var t2 := t1.(executed := t1.executed + 1, skips := 0);
    if blocked then (Fail(t2, ApprovalBlocked), Aborted) else (t2, Result(false))
  }

  function Start(t: Turn, u: ToolUse): Turn {
    Emit(t, ToolCallProgress(u.id)).(ran := t.ran + 1, deeds := t.deeds + [Started(u.name, u.args)])
  }

  /** `execute_native_tool_call_body`. */
  function Execute(t0: Turn, u: ToolUse, o: Oracle): (Turn, Outcome) {
    var t := Start(t0, u);
    match o.tool(t0.ran)
    case ToolOk(success) => AfterOk(t, u, success)
    case ToolErr(blocked) => AfterErr(t, u, blocked)
  }

  /** `guard_duplicate_native_tool_call`, for a call that is a duplicate. */
  function SkipDuplicate(t: Turn, u: ToolUse): (Turn, Outcome) {
    var t1 := Emit(t, ResponseError(DuplicateSkipped)).(
      skips := t.skips + 1, deeds := t.deeds + [PassedOver(u.name, u.args)]);
    if t1.skips >= MAX_SKIPS then (Fail(t1, DuplicateLoopAbort), Aborted) else (t1, Result(false))
  }

  /** `execute_native_tool_call`. */
  function Call(t: Turn, u: ToolUse, o: Oracle): (Turn, Outcome) {
    if BlankName(u.name) then (Fail(t, ModelInvalidTool), Aborted)
    else if IsDuplicate(t, u) then SkipDuplicate(t, u)
    else Execute(t, u, o)
  }

  // ---- One batch ---------------------------------------------------------

  function DropCalls(t: Turn, uses: seq<ToolUse>): Turn
    decreases |uses|
  {
    if uses == [] then t
    else DropCalls(Emit(Emit(t, BudgetExhausted(uses[0].id)), ToolCallCompleted(uses[0].id, false)), uses[1..])
  }

  /** The locals of the batch loop: two counters and the tool uses that have a result. */
  datatype Tally = Tally(succeeded: nat, failed: nat, results: seq<string>)

  datatype Batch = Stopped | Ran(tally: Tally)

  function Add(tally: Tally, u: ToolUse, ok: bool): Tally {
    Tally(if ok then tally.succeeded + 1 else tally.succeeded, if ok then tally.failed else tally.failed + 1,
          tally.results + [u.id])
  }

  function RunCalls(t: Turn, uses: seq<ToolUse>, o: Oracle, tally: Tally): (Turn, Batch)
    decreases |uses|
  {
    if uses == [] then (t, Ran(tally))
    else
      var (t1, outcome) := Call(t, uses[0], o);
      match outcome
      case Aborted => (t1, Stopped)
      case Result(ok) => RunCalls(t1, uses[1..], o, Add(tally, uses[0], ok))
  }

  function Min(a: nat, b: nat): nat {
    if a < b then a else b
  }

  // ---- One round and the whole turn --------------------------------------

  datatype Flow = Return | Continue

  function Finish(t: Turn, content: string): Turn {
    Emit(t, ResponseCompleted(content)).(phase := Completed, committed := t.committed + [content])
  }

  function FinalText(text: string, live: bool, streamed: string): string {
    if live && streamed != "" then streamed else text
  }

  function Ids(uses: seq<ToolUse>): (r: seq<string>)
    ensures |r| == |uses|
    ensures forall i :: 0 <= i < |r| ==> r[i] == uses[i].id
  {
    if uses == [] then [] else [uses[0].id] + Ids(uses[1..])
  }

  /** The planner request of a round. */
  function Ask(t: Turn): Turn {
    t.(rounds := t.rounds + 1, requests := t.requests + [Request(t.talk, t.events)])
  }

  function Say(t: Turn, m: Message): Turn {
    t.(talk := t.talk + [m])
  }

  function Propose(t: Turn, uses: seq<ToolUse>): Turn {
    Emit(Say(t, Assistant(Ids(uses))), ToolCallsProposed(|uses|)).(phase := ToolBatchRunning)
  }

  function CloseBatch(t: Turn, total: nat, tally: Tally): Turn {
    var t1 := Emit(t, ToolBatchCompleted(total, tally.succeeded, tally.failed)).(phase := StreamingResumed);
    if tally.results == [] then t1 else Say(t1, ToolResults(tally.results))
  }

  /** The body of the planner loop. */
  function Round(t0: Turn, limits: Limits, o: Oracle): (Turn, Flow)
    requires t0.executed < limits.maxCalls
  {
    var remaining := limits.maxCalls - t0.executed;
    var t := Ask(t0);
    match o.model(t0.rounds)
    case ModelError => (Fail(t, ModelRequestFailed), Return)
    case Answer(text, uses, live, streamed) =>
      if uses == [] then (Finish(Say(t, Assistant([])), FinalText(text, live, streamed)), Return)
      else
        var n := Min(|uses|, remaining);
        var (t2, batch) := RunCalls(DropCalls(Propose(t, uses), uses[n..]), uses[..n], o, Tally(0, |uses| - n, []));
        match batch
        case Stopped => (t2, Return)
        case Ran(tally) => (CloseBatch(t2, |uses|, tally), Continue)
  }

  function LimitReached(t: Turn): Turn {
    var t1 := Emit(t, ResponseError(TurnLimitReached));
    if t1.phase == Planning then t1.(phase := Failed) else t1
  }

  function RunTurn(t: Turn, limits: Limits, o: Oracle): Turn
    decreases limits.maxRounds - t.rounds
  {
    if t.executed < limits.maxCalls && t.rounds < limits.maxRounds then
      var (t1, flow) := Round(t, limits, o);
      if flow == Return then t1
      else
        assert t1.rounds == t.rounds + 1 by { RoundCounts(t, limits, o); }
        RunTurn(t1, limits, o)
    else LimitReached(t)
  }

  /** A new turn: the locals of the method, and a reset detector. */
  function Begin(recent: seq<Record>, epoch: nat, committed: seq<string>): Turn {
    Turn(recent, epoch, LoopDetector.FRESH, committed, 0, 0, 0, 0, Planning, [], [], [], [], [])
  }

  // ---- The agent, updated in place ---------------------------------------

  class Agent {
    const limits: Limits
    const oracle: Oracle
    const detector: LoopDetector.Detector
    var recent: seq<Record>
    var epoch: nat
    var committed: seq<string>
    var executed: nat
    var rounds: nat
    var ran: nat
    var skips: nat
    var phase: Phase
    var events: seq<Event>
    ghost var checked: seq<LoopDetector.Key>
    var talk: seq<Message>
    ghost var requests: seq<Request>
    ghost var deeds: seq<Deed>

    ghost function View(): Turn
      reads this, detector
    {
      Turn(recent, epoch, detector.View(), committed, executed, rounds, ran, skips, phase, events, checked,
           talk, requests, deeds)
    }

    constructor (limits: Limits, oracle: Oracle)
      ensures View() == Begin([], 0, []) && this.limits == limits && this.oracle == oracle && fresh(detector)
    {
      this.limits, this.oracle := limits, oracle;
      detector := new LoopDetector.Detector();
      recent, epoch, committed := [], 0, [];
      executed, rounds, ran, skips, phase, events, checked := 0, 0, 0, 0, Planning, [], [];
      talk, requests, deeds := [], [], [];
    }

    method FailTurn(code: Code)
      modifies this
      ensures View() == Fail(old(View()), code)
    {
      events := events + [ResponseError(code)];
      phase := Failed;
    }

    method RecordToolCall(u: ToolUse, ok: bool)
      modifies this
      ensures View() == Remember(old(View()), u, ok)
    {
      deeds := deeds + [Finished(u.name, u.args, ok)];
      recent := recent + [Record(u.name, u.args, ok, epoch)];
      ghost var all := recent;
      while |recent| > RECENT
        invariant View() == old(View()).(recent := recent, deeds := old(deeds) + [Finished(u.name, u.args, ok)])
        invariant KeepRecent(recent) == KeepRecent(all)
      {
        recent := recent[1..];
      }
    }

    /** `execute_native_tool_call_body`. */
    method ExecuteToolCall(u: ToolUse) returns (outcome: Outcome)
      modifies this, detector
      ensures (View(), outcome) == Execute(old(View()), u, oracle)
    {
      hide AfterOk, AfterErr;
      events := events + [ToolCallProgress(u.id)];
      deeds := deeds + [Started(u.name, u.args)];
      var reply := oracle.tool(ran);
      ran := ran + 1;
      match reply
      case ToolOk(success) => outcome := OnToolOk(u, success);
      case ToolErr(blocked) => outcome := OnToolErr(u, blocked);
    }

    method AskDetectorAbout(u: ToolUse) returns (signal: LoopDetector.Signal)
      modifies this, detector
      ensures (View(), signal) == AskDetector(old(View()), u)
    {
      hide LoopDetector.Check, KeyOf;
      if IsMutating(u.name) {
        epoch := epoch + 1;
      }
      signal := detector.CheckAndAdvance(KeyOf(u));
      checked := checked + [KeyOf(u)];
      deeds := deeds + [Replied(u.name)];
    }

    method BookCall(u: ToolUse, success: bool)
      modifies this
      ensures View() == CountCall(old(View()), u, success)
    {
      hide Remember;
      RecordToolCall(u, success);
      events := events + [ToolCallCompleted(u.id, success)];
      executed, skips := executed + 1, 0;
    }

    method OnToolOk(u: ToolUse, success: bool) returns (outcome: Outcome)
      modifies this, detector
      ensures (View(), outcome) == AfterOk(old(View()), u, success)
    {
      hide AskDetector, CountCall, Fail;
      var signal := AskDetectorAbout(u);
      if signal == LoopDetector.Halt {
        FailTurn(LoopHalt);
        return Aborted;
      }
      if signal == LoopDetector.Warned {
        events := events + [LoopWarning(u.name)];
      }
      BookCall(u, success);
      outcome := Result(success);
    }

    method OnToolErr(u: ToolUse, blocked: bool) returns (outcome: Outcome)
      modifies this
      ensures (View(), outcome) == AfterErr(old(View()), u, blocked)
    {
      hide KeepRecent;
      RecordToolCall(u, false);
      events := events + [ToolCallFailed(u.id)];
      events := events + [ToolCallCompleted(u.id, false)];
      executed, skips := executed + 1, 0;
      if blocked {
        FailTurn(ApprovalBlocked);
        return Aborted;
      }
      outcome := Result(false);
    }

    /** `execute_native_tool_call`: the name, the duplicate guard, the body. */
    method ExecuteNativeToolCall(u: ToolUse) returns (outcome: Outcome)
      modifies this, detector
      ensures (View(), outcome) == Call(old(View()), u, oracle)
    {
      hide Execute;
      if BlankName(u.name) {
        FailTurn(ModelInvalidTool);
        return Aborted;
      }
      if AlreadyDone(recent, epoch, u) {
        events := events + [ResponseError(DuplicateSkipped)];
        deeds := deeds + [PassedOver(u.name, u.args)];
        skips := skips + 1;
        if skips >= MAX_SKIPS {
          FailTurn(DuplicateLoopAbort);
          return Aborted;
        }
        return Result(false);
      }
      outcome := ExecuteToolCall(u);
    }

    method DropToolCalls(uses: seq<ToolUse>)
      modifies this
      ensures View() == DropCalls(old(View()), uses)
    {
      for i := 0 to |uses|
        invariant DropCalls(View(), uses[i..]) == DropCalls(old(View()), uses)
      {
        assert uses[i..][1..] == uses[i + 1..];
        events := events + [BudgetExhausted(uses[i].id)];
        events := events + [ToolCallCompleted(uses[i].id, false)];
      }
    }

    method RunToolCalls(uses: seq<ToolUse>, alreadyFailed: nat) returns (batch: Batch)
      modifies this, detector
      ensures (View(), batch) == RunCalls(old(View()), uses, oracle, Tally(0, alreadyFailed, []))
    {
      hide Call;
      var succeeded, failed, results := 0, alreadyFailed, [];
      for i := 0 to |uses|
        invariant RunCalls(View(), uses[i..], oracle, Tally(succeeded, failed, results))
          == RunCalls(old(View()), uses, oracle, Tally(0, alreadyFailed, []))
      {
        assert uses[i..][1..] == uses[i + 1..];
        var outcome := ExecuteNativeToolCall(uses[i]);
        match outcome
        case Aborted => return Stopped;
        case Result(ok) =>
          if ok { succeeded := succeeded + 1; } else { failed := failed + 1; }
          results := results + [uses[i].id];
      }
      batch := Ran(Tally(succeeded, failed, results));
    }

    /** `submit` of a user's input that is no tool command: the memory of calls is cleared. */
    method SubmitTurn()
      modifies this, detector
      ensures View() == RunTurn(Begin([], 0, old(committed)), limits, oracle)
    {
      recent, epoch := [], 0;
      ExecuteTurn();
    }

    /** `execute_natural_language_turn`. */
    method ExecuteTurn()
      modifies this, detector
      ensures View() == RunTurn(Begin(old(recent), old(epoch), old(committed)), limits, oracle)
    {
      hide Round, Begin, LimitReached;
      BeginTurn();
      ghost var start := View();
      while executed < limits.maxCalls && rounds < limits.maxRounds
        invariant RunTurn(View(), limits, oracle) == RunTurn(start, limits, oracle)
        decreases limits.maxRounds - rounds
      {
        RoundCounts(View(), limits, oracle);
        var flow := PlannerRound();
        if flow == Return {
          return;
        }
      }
      ReachLimit();
    }

    method BeginTurn()
      modifies this, detector
      ensures View() == Begin(old(recent), old(epoch), old(committed))
    {
      detector.Reset();
      executed, rounds, ran, skips, phase, events, checked := 0, 0, 0, 0, Planning, [], [];
      talk, requests, deeds := [], [], [];
    }

    method ReachLimit()
      modifies this
      ensures View() == LimitReached(old(View()))
    {
      events := events + [ResponseError(TurnLimitReached)];
      if phase == Planning {
        phase := Failed;
      }
    }

    /** The body of the planner loop. */
    method PlannerRound() returns (flow: Flow)
      requires executed < limits.maxCalls
      modifies this, detector
      ensures (View(), flow) == Round(old(View()), limits, oracle)
    {
      hide RunCalls, DropCalls, Propose, CloseBatch, Finish, Fail, Ids;
      var remaining := limits.maxCalls - executed;
      var reply := oracle.model(rounds);
      requests := requests + [Request(talk, events)];
      rounds := rounds + 1;
      match reply
      case ModelError =>
        FailTurn(ModelRequestFailed);
        return Return;
      case Answer(text, uses, live, streamed) =>
        if uses == [] {
          talk := talk + [Assistant([])];
          FinishTurn(FinalText(text, live, streamed));
          return Return;
        }
        ProposeBatch(uses);
        var executable := Min(|uses|, remaining);
        DropToolCalls(uses[executable..]);
        var batch := RunToolCalls(uses[..executable], |uses| - executable);
        if batch == Stopped {
          return Return;
        }
        FinishBatch(|uses|, batch.tally);
        flow := Continue;
    }

    method FinishTurn(content: string)
      modifies this
      ensures View() == Finish(old(View()), content)
    {
      events := events + [ResponseCompleted(content)];
      phase := Completed;
      committed := committed + [content];
    }

    method ProposeBatch(uses: seq<ToolUse>)
      modifies this
      ensures View() == Propose(old(View()), uses)
    {
      hide Ids;
      talk := talk + [Assistant(Ids(uses))];
      events := events + [ToolCallsProposed(|uses|)];
      phase := ToolBatchRunning;
    }

    method FinishBatch(total: nat, tally: Tally)
      modifies this
      ensures View() == CloseBatch(old(View()), total, tally)
    {
      events := events + [ToolBatchCompleted(total, tally.succeeded, tally.failed)];
      phase := StreamingResumed;
      if tally.results != [] {
        talk := talk + [ToolResults(tally.results)];
      }
    }
  }

  /** The last thing that happened. */
  predicate LastIs(t: Turn, e: Event) {
    t.events != [] && t.events[|t.events| - 1] == e
  }

  /** The turn has failed over something else than a limit, and said so last. */
  predicate FailedOver(t: Turn) {
    && t.phase == Failed
    && t.events != []
    && t.events[|t.events| - 1].ResponseError?
    && t.events[|t.events| - 1].code != TurnLimitReached
  }

  /** A halt comes after its tool has run and before the call is counted. */
  function Uncounted(t: Turn): nat {
    if LastIs(t, ResponseError(LoopHalt)) then 1 else 0
  }

  lemma {:induction false} CallCounts(t: Turn, u: ToolUse, o: Oracle)
    ensures var (t1, outcome) := Call(t, u, o);
      && t1.rounds == t.rounds && t1.committed == t.committed
      && t.executed <= t1.executed <= t.executed + 1
      && (outcome == Aborted ==> FailedOver(t1) && t1.ran - t.ran == t1.executed - t.executed + Uncounted(t1))
      && (outcome != Aborted ==> t1.phase == t.phase && t1.ran - t.ran == t1.executed - t.executed)
      && t1.ran <= t.ran + 1
  {
    hide Execute;
    ExecuteCounts(t, u, o);
  }

  lemma {:induction false} ExecuteCounts(t: Turn, u: ToolUse, o: Oracle)
    ensures var (t1, outcome) := Execute(t, u, o);
      && t1.rounds == t.rounds && t1.committed == t.committed
      && t.executed <= t1.executed <= t.executed + 1
      && (outcome == Aborted ==> FailedOver(t1) && t1.ran - t.ran == t1.executed - t.executed + Uncounted(t1))
      && (outcome != Aborted ==> t1.phase == t.phase && t1.executed == t.executed + 1)
      && t1.ran == t.ran + 1
  {
    hide LoopDetector.Check;
  }

  lemma {:induction false} DropCounts(t: Turn, uses: seq<ToolUse>)
    ensures DropCalls(t, uses) == t.(events := DropCalls(t, uses).events)
    decreases |uses|
  {
    if uses != [] {
      DropCounts(Emit(Emit(t, BudgetExhausted(uses[0].id)), ToolCallCompleted(uses[0].id, false)), uses[1..]);
    }
  }

  lemma {:induction false} RunCallsCounts(t: Turn, uses: seq<ToolUse>, o: Oracle, tally: Tally)
    ensures var (t1, batch) := RunCalls(t, uses, o, tally);
      && t1.rounds == t.rounds && t1.committed == t.committed
      && t.executed <= t1.executed <= t.executed + |uses|
      && t1.ran <= t.ran + |uses|
      && (batch == Stopped ==> FailedOver(t1) && t1.ran - t.ran == t1.executed - t.executed + Uncounted(t1))
      && (batch != Stopped ==> t1.phase == t.phase && t1.ran - t.ran == t1.executed - t.executed)
      && (batch != Stopped ==>
            batch.tally.succeeded + batch.tally.failed == tally.succeeded + tally.failed + |uses|)
    decreases |uses|
  {
    hide Call;
    if uses != [] {
      CallCounts(t, uses[0], o);
      var (t1, outcome) := Call(t, uses[0], o);
      if outcome != Aborted {
        RunCallsCounts(t1, uses[1..], o, Add(tally, uses[0], outcome.ok));
      }
    }
  }

  /** The turn's last event completes a response, and that response is what is committed. */
  predicate CommitsOnce(t: Turn, t1: Turn) {
    && t1.events != []
    && t1.events[|t1.events| - 1].ResponseCompleted?
    && t1.committed == t.committed + [t1.events[|t1.events| - 1].content]
  }

  lemma {:induction false} RoundCounts(t: Turn, limits: Limits, o: Oracle)
    requires t.executed < limits.maxCalls
    ensures var (t1, flow) := Round(t, limits, o);
      && t1.rounds == t.rounds + 1
      && t1.executed <= limits.maxCalls
      && t1.ran - t.ran <= limits.maxCalls - t.executed
      && (flow == Continue ==> t1.ran - t.ran == t1.executed - t.executed && t1.phase == StreamingResumed)
      && (flow == Return ==> t1.phase == Completed || FailedOver(t1))
      && (flow == Return ==> t1.ran - t.ran == t1.executed - t.executed + Uncounted(t1))
      && (t1.phase == Completed ==> CommitsOnce(t, t1))
      && (t1.phase != Completed ==> t1.committed == t.committed)
  {
    hide RunCalls, DropCalls;
    match o.model(t.rounds)
    case ModelError =>
    case Answer(text, uses, live, streamed) =>
      if uses != [] {
        var n := Min(|uses|, limits.maxCalls - t.executed);
        var t0 := Propose(Ask(t), uses);
        DropCounts(t0, uses[n..]);
        RunCallsCounts(DropCalls(t0, uses[n..]), uses[..n], o, Tally(0, |uses| - n, []));
      }
  }

  // ---- Whole turns -------------------------------------------------------

  /** At the head of the planner loop. */
  predicate AtHead(t: Turn, limits: Limits) {
    && t.ran == t.executed <= limits.maxCalls
    && t.rounds <= limits.maxRounds
    && t.phase == (if t.rounds == 0 then Planning else StreamingResumed)
  }

  /** How a turn can end. */
  predicate EndedWell(t: Turn, t1: Turn, limits: Limits) {
    && t1.ran <= limits.maxCalls
    && t1.rounds <= limits.maxRounds
    && (t1.phase == Completed ==> CommitsOnce(t, t1))
    && (t1.phase != Completed ==> t1.committed == t.committed)
    && t1.phase in {Completed, Failed, StreamingResumed}
    && (t1.phase == StreamingResumed <==> t1.rounds > 0 && LastIs(t1, ResponseError(TurnLimitReached)))
    && t1.ran == t1.executed + Uncounted(t1)
  }

  lemma {:induction false} TurnEnds(t: Turn, limits: Limits, o: Oracle)
    requires AtHead(t, limits)
    ensures EndedWell(t, RunTurn(t, limits, o), limits)
    decreases limits.maxRounds - t.rounds
  {
    hide Round;
    if t.executed < limits.maxCalls && t.rounds < limits.maxRounds {
      RoundCounts(t, limits, o);
      var (t1, flow) := Round(t, limits, o);
      if flow == Continue {
        TurnEnds(t1, limits, o);
      }
    }
  }

  /** Whatever the model and the tools answer: a turn executes no more tools and asks
      for no more plans than its budgets, and commits to history exactly once if it
      ends completed, never otherwise. */
  lemma {:induction false} BudgetsAndCommit(recent: seq<Record>, epoch: nat, committed: seq<string>, limits: Limits,
      o: Oracle)
    ensures var t := RunTurn(Begin(recent, epoch, committed), limits, o);
      && t.ran <= limits.maxCalls && t.rounds <= limits.maxRounds
      && (t.phase == Completed <==> |t.committed| == |committed| + 1)
      && (t.phase != Completed <==> t.committed == committed)
      && (t.phase == Completed ==> CommitsOnce(Begin(recent, epoch, committed), t))
  {
    hide RunTurn;
    TurnEnds(Begin(recent, epoch, committed), limits, o);
  }

  // ---- How a turn ends ---------------------------------------------------

  lemma {:induction false} RoundReplied(t: Turn, limits: Limits, o: Oracle)
    requires t.executed < limits.maxCalls
    ensures var (t1, flow) := Round(t, limits, o);
      match o.model(t.rounds)
      case ModelError => flow == Return && t1.phase == Failed && LastIs(t1, ResponseError(ModelRequestFailed))
      case Answer(text, uses, live, streamed) =>
        if uses == [] then
          var content := if live && streamed != "" then streamed else text;
          && flow == Return && t1.phase == Completed && LastIs(t1, ResponseCompleted(content))
          && t1.committed == t.committed + [content]
        else t1.phase != Completed && !LastIs(t1, ResponseError(ModelRequestFailed))
  {
    hide RunCalls, DropCalls, Ids;
    match o.model(t.rounds)
    case ModelError =>
    case Answer(text, uses, live, streamed) =>
      if uses != [] {
        var n := Min(|uses|, limits.maxCalls - t.executed);
        var t0 := Propose(Ask(t), uses);
        DropCounts(t0, uses[n..]);
        RunCallsCounts(DropCalls(t0, uses[n..]), uses[..n], o, Tally(0, |uses| - n, []));
        RunCallsEnd(DropCalls(t0, uses[n..]), uses[..n], o, Tally(0, |uses| - n, []));
      }
  }

  /** A batch that stops says why: no name, a loop of duplicates, the detector, an approval. */
  lemma {:induction false} RunCallsEnd(t: Turn, uses: seq<ToolUse>, o: Oracle, tally: Tally)
    ensures var (t1, batch) := RunCalls(t, uses, o, tally);
      batch == Stopped ==> StoppedBy(t1)
    decreases |uses|
  {
    hide Call, StoppedBy;
    if uses != [] {
      CallEnds(t, uses[0], o);
      var (t1, outcome) := Call(t, uses[0], o);
      if outcome != Aborted {
        RunCallsEnd(t1, uses[1..], o, Add(tally, uses[0], outcome.ok));
      }
    }
  }

  predicate StoppedBy(t: Turn) {
    t.events != [] && t.events[|t.events| - 1] in [
      ResponseError(ModelInvalidTool), ResponseError(DuplicateLoopAbort), ResponseError(LoopHalt),
      ResponseError(ApprovalBlocked)]
  }

  lemma {:induction false} CallEnds(t: Turn, u: ToolUse, o: Oracle)
    ensures var (t1, outcome) := Call(t, u, o); outcome == Aborted ==> StoppedBy(t1)
  {
    hide LoopDetector.Check, KeyOf, IsMutating, KeepRecent, BlankName, AlreadyDone;
  }

  /** The turn `t1` that began as `t` ended as the model replied last: completed, with that
      answer, exactly if it has no tool uses, and with a model error exactly if there was one. */
  predicate EndsAsReplied(t: Turn, t1: Turn, o: Oracle) {
    var last := if t1.rounds > 0 then Some(o.model(t1.rounds - 1)) else None;
    && (t1.phase == Completed <==> last.Some? && last.value.Answer? && last.value.uses == [])
    && (t1.phase == Completed ==>
          var content := if last.value.live && last.value.streamed != "" then last.value.streamed else last.value.text;
          LastIs(t1, ResponseCompleted(content)) && t1.committed == t.committed + [content])
    && (LastIs(t1, ResponseError(ModelRequestFailed)) <==> last.Some? && last.value.ModelError?)
  }

  /** Whatever the model and the tools answer: the text of a completed turn is the text streamed
      live if there is any, and the answer's own otherwise. */
  lemma {:induction false} CompletedExactly(t: Turn, limits: Limits, o: Oracle)
    requires t.phase != Completed && !LastIs(t, ResponseError(ModelRequestFailed))
    requires t.rounds > 0 ==> o.model(t.rounds - 1).Answer? && o.model(t.rounds - 1).uses != []
    ensures EndsAsReplied(t, RunTurn(t, limits, o), o)
    decreases limits.maxRounds - t.rounds
  {
    hide Round;
    if t.executed < limits.maxCalls && t.rounds < limits.maxRounds {
      RoundCounts(t, limits, o);
      RoundReplied(t, limits, o);
      var (t1, flow) := Round(t, limits, o);
      if flow == Continue {
        CompletedExactly(t1, limits, o);
      }
    }
  }

  // ---- The events of a turn ----------------------------------------------

  /** What a call that is not aborted sends, and what one that is does: progress first, then
      a warning if the detector warns, then how it came out. */
  lemma {:induction false} CallSends(t: Turn, u: ToolUse, o: Oracle)
    ensures var (t1, outcome) := Call(t, u, o);
      var signal := LoopDetector.Check(t.detector, KeyOf(u)).1;
      var start := t.events + [ToolCallProgress(u.id)];
      if BlankName(u.name) then t1.events == t.events + [ResponseError(ModelInvalidTool)] && outcome == Aborted
      else if IsDuplicate(t, u) then
        if t.skips + 1 < 2 then t1.events == t.events + [ResponseError(DuplicateSkipped)] && outcome == Result(false)
        else
          && t1.events == t.events + [ResponseError(DuplicateSkipped)] + [ResponseError(DuplicateLoopAbort)]
          && outcome == Aborted
      else
        match o.tool(t.ran)
        case ToolErr(blocked) =>
          var failed := start + [ToolCallFailed(u.id)] + [ToolCallCompleted(u.id, false)];
          if blocked then t1.events == failed + [ResponseError(ApprovalBlocked)] && outcome == Aborted
          else t1.events == failed && outcome == Result(false)
        case ToolOk(success) =>
          if signal == LoopDetector.Halt then t1.events == start + [ResponseError(LoopHalt)] && outcome == Aborted
          else
            var warned := if signal == LoopDetector.Warned then start + [LoopWarning(u.name)] else start;
            t1.events == warned + [ToolCallCompleted(u.id, success)] && outcome == Result(success)
  {
    hide LoopDetector.Check, KeyOf, IsMutating, KeepRecent, BlankName, AlreadyDone;
  }

  /** What a subscriber may rely on.  `Batch`: the number proposed, how many of them have come
      out well and badly; `run`: the call that has been started, dropped or has failed. */
  datatype Watching =
    | Idle
    | InBatch(total: nat, well: nat, badly: nat)
    | Dropped(id: string, batch: Watching)
    | Running(id: string, batch: Watching)
    | Failing(id: string, batch: Watching)
    | Blocked(batch: Watching)
    | Looping
    | Over
    | Broken

  datatype Watcher = Watcher(now: Watching, skips: nat)

  function Count(w: Watching, ok: bool): Watching {
    match w
    case InBatch(n, well, badly) => if ok then InBatch(n, well + 1, badly) else InBatch(n, well, badly + 1)
    case _ => Broken
  }

  /** The batch a watcher is in, or about to be back in: a failed call may still turn out to be
      blocked. */
  function BatchOf(w: Watching): Watching {
    match w case Blocked(batch) => batch case _ => w
  }

  function Watch(w: Watcher, e: Event): Watcher {
    var batch := BatchOf(w.now);
    match e
    case ToolCallsProposed(n) => if w.now == Idle then w.(now := InBatch(n, 0, 0)) else w.(now := Broken)
    case BudgetExhausted(id) => w.(now := if batch.InBatch? then Dropped(id, batch) else Broken)
    case ToolCallProgress(id) => w.(now := if batch.InBatch? then Running(id, batch) else Broken)
    case LoopWarning(_) => w.(now := if w.now.Running? then w.now else Broken)
    case ToolCallFailed(id) =>
      w.(now := if w.now.Running? && w.now.id == id then Failing(id, w.now.batch) else Broken)
    case ToolCallCompleted(id, ok) =>
      if w.now.Dropped? && w.now.id == id && !ok then w.(now := Count(w.now.batch, false))
      else if w.now.Running? && w.now.id == id then Watcher(Count(w.now.batch, ok), 0)
      else if w.now.Failing? && w.now.id == id && !ok then Watcher(Blocked(Count(w.now.batch, false)), 0)
      else w.(now := Broken)
    case ToolBatchCompleted(total, well, badly) =>
      w.(now := if batch == InBatch(total, well, badly) && well + badly == total then Idle else Broken)
    case ResponseCompleted(_) => w.(now := if w.now == Idle then Over else Broken)
    case ResponseError(code) =>
      match code
      case ModelRequestFailed => w.(now := if w.now == Idle then Over else Broken)
      case TurnLimitReached => w.(now := if w.now == Idle then Over else Broken)
      case ModelInvalidTool => w.(now := if batch.InBatch? then Over else Broken)
      case LoopHalt => w.(now := if w.now.Running? then Over else Broken)
      case ApprovalBlocked => w.(now := if w.now.Blocked? then Over else Broken)
      case DuplicateSkipped =>
        if !batch.InBatch? then w.(now := Broken)
        else if w.skips == 0 then Watcher(Count(batch, false), 1)
        else w.(now := Looping)
      case DuplicateLoopAbort => w.(now := if w.now == Looping then Over else Broken)
  }

  function WatchAll(events: seq<Event>): Watcher {
    if events == [] then Watcher(Idle, 0) else Watch(WatchAll(events[..|events| - 1]), events[|events| - 1])
  }

  lemma {:induction false} WatchSnoc(events: seq<Event>, e: Event)
    ensures WatchAll(events + [e]) == Watch(WatchAll(events), e)
  {
    assert (events + [e])[..|events|] == events;
  }

  /** Within a batch, with so many calls come out. */
  ghost predicate Watched(t: Turn, total: nat, well: nat, badly: nat) {
    && BatchOf(WatchAll(t.events).now) == InBatch(total, well, badly)
    && WatchAll(t.events).skips == t.skips && t.skips < 2
  }

  lemma {:induction false} CallWatched(t: Turn, u: ToolUse, o: Oracle, total: nat, well: nat, badly: nat)
    requires Watched(t, total, well, badly)
    ensures var (t1, outcome) := Call(t, u, o);
      if outcome == Aborted then WatchAll(t1.events).now == Over
      else Watched(t1, total, if outcome.ok then well + 1 else well, if outcome.ok then badly else badly + 1)
  {
    hide WatchAll, Call, LoopDetector.Check, KeyOf, BlankName, IsDuplicate;
    CallSends(t, u, o);
    CallSkips(t, u, o);
    if BlankName(u.name) {
      WatchSnoc(t.events, ResponseError(ModelInvalidTool));
    } else if IsDuplicate(t, u) {
      WatchSnoc(t.events, ResponseError(DuplicateSkipped));
      WatchSnoc(t.events + [ResponseError(DuplicateSkipped)], ResponseError(DuplicateLoopAbort));
    } else {
      var start := t.events + [ToolCallProgress(u.id)];
      WatchSnoc(t.events, ToolCallProgress(u.id));
      match o.tool(t.ran)
      case ToolOk(success) => RepliedWatched(start, u, success);
      case ToolErr(blocked) => FailedWatched(start, u);
    }
  }

  lemma {:induction false} RepliedWatched(start: seq<Event>, u: ToolUse, success: bool)
    requires WatchAll(start).now.Running? && WatchAll(start).now.id == u.id
    ensures WatchAll(start + [ResponseError(LoopHalt)]).now == Over
    ensures var after := Watcher(Count(WatchAll(start).now.batch, success), 0);
      && WatchAll(start + [ToolCallCompleted(u.id, success)]) == after
      && WatchAll(start + [LoopWarning(u.name)] + [ToolCallCompleted(u.id, success)]) == after
  {
    hide WatchAll;
    WatchSnoc(start, ResponseError(LoopHalt));
    WatchSnoc(start, LoopWarning(u.name));
    WatchSnoc(start, ToolCallCompleted(u.id, success));
    WatchSnoc(start + [LoopWarning(u.name)], ToolCallCompleted(u.id, success));
  }

  lemma {:induction false} FailedWatched(start: seq<Event>, u: ToolUse)
    requires WatchAll(start).now.Running? && WatchAll(start).now.id == u.id
    ensures var failed := start + [ToolCallFailed(u.id)] + [ToolCallCompleted(u.id, false)];
      && WatchAll(failed) == Watcher(Blocked(Count(WatchAll(start).now.batch, false)), 0)
      && WatchAll(failed + [ResponseError(ApprovalBlocked)]).now == Over
  {
    hide WatchAll;
    WatchSnoc(start, ToolCallFailed(u.id));
    WatchSnoc(start + [ToolCallFailed(u.id)], ToolCallCompleted(u.id, false));
    WatchSnoc(start + [ToolCallFailed(u.id)] + [ToolCallCompleted(u.id, false)], ResponseError(ApprovalBlocked));
  }

  lemma {:induction false} CallSkips(t: Turn, u: ToolUse, o: Oracle)
    ensures var (t1, outcome) := Call(t, u, o);
      outcome != Aborted ==> t1.skips == if IsDuplicate(t, u) then t.skips + 1 else 0
  {
    hide LoopDetector.Check, KeyOf, IsMutating, KeepRecent, BlankName, AlreadyDone;
  }

  lemma {:induction false} DropsWatched(t: Turn, uses: seq<ToolUse>, total: nat, well: nat, badly: nat)
    requires Watched(t, total, well, badly)
    ensures Watched(DropCalls(t, uses), total, well, badly + |uses|)
    decreases |uses|
  {
    hide WatchAll;
    if uses != [] {
      WatchSnoc(t.events, BudgetExhausted(uses[0].id));
      WatchSnoc(t.events + [BudgetExhausted(uses[0].id)], ToolCallCompleted(uses[0].id, false));
      DropsWatched(Emit(Emit(t, BudgetExhausted(uses[0].id)), ToolCallCompleted(uses[0].id, false)), uses[1..],
                   total, well, badly + 1);
    }
  }

  lemma {:induction false} BatchWatched(t: Turn, uses: seq<ToolUse>, o: Oracle, tally: Tally, total: nat)
    requires Watched(t, total, tally.succeeded, tally.failed)
    ensures var (t1, batch) := RunCalls(t, uses, o, tally);
      if batch == Stopped then WatchAll(t1.events).now == Over
      else Watched(t1, total, batch.tally.succeeded, batch.tally.failed)
    decreases |uses|
  {
    hide Call, Watched, WatchAll;
    if uses != [] {
      CallWatched(t, uses[0], o, total, tally.succeeded, tally.failed);
      var (t1, outcome) := Call(t, uses[0], o);
      if outcome != Aborted {
        BatchWatched(t1, uses[1..], o, Add(tally, uses[0], outcome.ok), total);
      }
    }
  }

  /** Between two rounds. */
  ghost predicate WatchedIdle(t: Turn) {
    WatchAll(t.events) == Watcher(Idle, t.skips) && t.skips < 2
  }

  lemma {:induction false} RoundWatched(t: Turn, limits: Limits, o: Oracle)
    requires t.executed < limits.maxCalls && WatchedIdle(t)
    ensures var (t1, flow) := Round(t, limits, o);
      if flow == Return then WatchAll(t1.events).now == Over else WatchedIdle(t1)
  {
    hide WatchAll, RunCalls, DropCalls;
    match o.model(t.rounds)
    case ModelError => WatchSnoc(t.events, ResponseError(ModelRequestFailed));
    case Answer(text, uses, live, streamed) =>
      if uses == [] {
        WatchSnoc(t.events, ResponseCompleted(FinalText(text, live, streamed)));
      } else {
        UsesWatched(t, limits, o, uses);
      }
  }

  lemma {:induction false} UsesWatched(t: Turn, limits: Limits, o: Oracle, uses: seq<ToolUse>)
    requires t.executed < limits.maxCalls && WatchedIdle(t)
    ensures var n := Min(|uses|, limits.maxCalls - t.executed);
      var (t2, batch) := RunCalls(DropCalls(Propose(Ask(t), uses), uses[n..]), uses[..n], o, Tally(0, |uses| - n, []));
      if batch == Stopped then WatchAll(t2.events).now == Over else WatchedIdle(CloseBatch(t2, |uses|, batch.tally))
  {
    hide WatchAll, RunCalls, DropCalls, Ids;
    var n := Min(|uses|, limits.maxCalls - t.executed);
    var t0 := Propose(Ask(t), uses);
    WatchSnoc(t.events, ToolCallsProposed(|uses|));
    DropsWatched(t0, uses[n..], |uses|, 0, 0);
    var td := DropCalls(t0, uses[n..]);
    var tally := Tally(0, |uses| - n, []);
    BatchWatched(td, uses[..n], o, tally, |uses|);
    RunCallsCounts(td, uses[..n], o, tally);
    var (t2, batch) := RunCalls(td, uses[..n], o, tally);
    if batch != Stopped {
      WatchSnoc(t2.events, ToolBatchCompleted(|uses|, batch.tally.succeeded, batch.tally.failed));
    }
  }

  lemma {:induction false} TurnWatched(t: Turn, limits: Limits, o: Oracle)
    requires WatchedIdle(t)
    ensures WatchAll(RunTurn(t, limits, o).events).now == Over
    decreases limits.maxRounds - t.rounds
  {
    hide WatchAll, Round;
    if t.executed < limits.maxCalls && t.rounds < limits.maxRounds {
      RoundCounts(t, limits, o);
      RoundWatched(t, limits, o);
      var (t1, flow) := Round(t, limits, o);
      if flow == Continue {
        TurnWatched(t1, limits, o);
      }
    } else {
      WatchSnoc(t.events, ResponseError(TurnLimitReached));
    }
  }

  /** Every turn keeps to the protocol to its end: each call that is started comes out once,
      under its own id; each batch is closed with exactly the numbers of calls that came out
      well and badly, which add up to the number proposed; two duplicates with no call run in
      between abort the turn, and one does not; and nothing follows the end. */
  lemma {:induction false} BatchesAddUp(recent: seq<Record>, epoch: nat, committed: seq<string>, limits: Limits,
      o: Oracle)
    ensures WatchAll(RunTurn(Begin(recent, epoch, committed), limits, o).events).now == Over
  {
    hide RunTurn;
    TurnWatched(Begin(recent, epoch, committed), limits, o);
  }

  // ---- What the model is sent --------------------------------------------

  /** Every tool use the model made has its own result, in the message after it. */
  predicate Answered(messages: seq<Message>) {
    forall i :: 0 <= i < |messages| && messages[i].Assistant? && messages[i].uses != [] ==>
      i + 1 < |messages| && messages[i + 1] == ToolResults(messages[i].uses)
  }

  /** No tool use has been dropped for want of budget. */
  predicate NoneDropped(events: seq<Event>) {
    forall i :: 0 <= i < |events| ==> !events[i].BudgetExhausted?
  }

  /** How many calls have been skipped as duplicates. */
  function Skipped(events: seq<Event>): nat {
    if events == [] then 0
    else Skipped(events[..|events| - 1]) + (if events[|events| - 1] == ResponseError(DuplicateSkipped) then 1 else 0)
  }

  /** What the events say of drops and skips. */
  datatype Losses = Losses(clean: bool, skipped: nat)

  function LossesOf(events: seq<Event>): Losses {
    Losses(NoneDropped(events), Skipped(events))
  }

  lemma {:induction false} LossesSnoc(events: seq<Event>, e: Event)
    ensures LossesOf(events + [e]) ==
      Losses(NoneDropped(events) && !e.BudgetExhausted?,
             Skipped(events) + (if e == ResponseError(DuplicateSkipped) then 1 else 0))
  {
    assert (events + [e])[..|events|] == events;
    if NoneDropped(events + [e]) {
      assert forall i :: 0 <= i < |events| ==> events[i] == (events + [e])[i];
      assert (events + [e])[|events|] == e;
    }
  }

  /** A step that leaves the conversation alone, drops nothing and skips `skips` calls. */
  ghost predicate Quietly(t: Turn, t1: Turn, skips: nat) {
    && t1.talk == t.talk && t1.requests == t.requests
    && LossesOf(t1.events) == Losses(NoneDropped(t.events), Skipped(t.events) + skips)
  }

  lemma {:induction false} EmitQuietly(t: Turn, e: Event)
    requires !e.BudgetExhausted? && e != ResponseError(DuplicateSkipped)
    ensures Quietly(t, Emit(t, e), 0)
  {
    LossesSnoc(t.events, e);
  }

  lemma {:induction false} ExecuteQuietly(t0: Turn, u: ToolUse, o: Oracle)
    ensures Quietly(t0, Execute(t0, u, o).0, 0)
  {
    hide Skipped, NoneDropped, LoopDetector.Check, KeepRecent, IsMutating, KeyOf;
    var e := t0.events + [ToolCallProgress(u.id)];
    LossesSnoc(t0.events, ToolCallProgress(u.id));
    match o.tool(t0.ran)
    case ToolOk(success) =>
      LossesSnoc(e, ResponseError(LoopHalt));
      LossesSnoc(e, LoopWarning(u.name));
      LossesSnoc(e, ToolCallCompleted(u.id, success));
      LossesSnoc(e + [LoopWarning(u.name)], ToolCallCompleted(u.id, success));
    case ToolErr(blocked) =>
      LossesSnoc(e, ToolCallFailed(u.id));
      LossesSnoc(e + [ToolCallFailed(u.id)], ToolCallCompleted(u.id, false));
      LossesSnoc((e + [ToolCallFailed(u.id)]) + [ToolCallCompleted(u.id, false)], ResponseError(ApprovalBlocked));
  }

  /** Of the calls that end with a result, those not skipped as duplicates are counted. */
  lemma {:induction false} CallQuietly(t: Turn, u: ToolUse, o: Oracle)
    ensures var (t1, outcome) := Call(t, u, o);
      && t1.talk == t.talk && t1.requests == t.requests
      && NoneDropped(t1.events) == NoneDropped(t.events)
      && Skipped(t1.events) >= Skipped(t.events)
      && (outcome != Aborted ==> (t1.executed - t.executed) + (Skipped(t1.events) - Skipped(t.events)) == 1)
  {
    hide Skipped, NoneDropped, Execute, BlankName, AlreadyDone;
    ExecuteQuietly(t, u, o);
    ExecuteCounts(t, u, o);
    LossesSnoc(t.events, ResponseError(ModelInvalidTool));
    LossesSnoc(t.events, ResponseError(DuplicateSkipped));
    LossesSnoc(t.events + [ResponseError(DuplicateSkipped)], ResponseError(DuplicateLoopAbort));
  }

  lemma {:induction false} DropsTell(t: Turn, uses: seq<ToolUse>)
    ensures LossesOf(DropCalls(t, uses).events) == Losses(NoneDropped(t.events) && uses == [], Skipped(t.events))
    decreases |uses|
  {
    hide Skipped, NoneDropped;
    if uses != [] {
      var e := t.events + [BudgetExhausted(uses[0].id)];
      LossesSnoc(t.events, BudgetExhausted(uses[0].id));
      LossesSnoc(e, ToolCallCompleted(uses[0].id, false));
      DropsTell(Emit(Emit(t, BudgetExhausted(uses[0].id)), ToolCallCompleted(uses[0].id, false)), uses[1..]);
    }
  }

  /** A finished batch has one result for each of its calls, in order. */
  lemma {:induction false} BatchTells(t: Turn, uses: seq<ToolUse>, o: Oracle, tally: Tally)
    ensures var (t1, batch) := RunCalls(t, uses, o, tally);
      && t1.talk == t.talk && t1.requests == t.requests
      && NoneDropped(t1.events) == NoneDropped(t.events)
      && Skipped(t1.events) >= Skipped(t.events)
      && (batch != Stopped ==>
            && batch.tally.results == tally.results + Ids(uses)
            && (t1.executed - t.executed) + (Skipped(t1.events) - Skipped(t.events)) == |uses|)
    decreases |uses|
  {
    hide Call, Skipped, NoneDropped, Ids;
    if uses == [] {
      assert Ids(uses) == [];
      assert tally.results + [] == tally.results;
    } else {
      CallQuietly(t, uses[0], o);
      var (t1, outcome) := Call(t, uses[0], o);
      if outcome != Aborted {
        var next := Add(tally, uses[0], outcome.ok);
        BatchTells(t1, uses[1..], o, next);
        assert Ids(uses) == [uses[0].id] + Ids(uses[1..]);
        assert next.results + Ids(uses[1..]) == tally.results + ([uses[0].id] + Ids(uses[1..]));
      }
    }
  }

  lemma {:induction false} AnsweredPair(messages: seq<Message>, uses: seq<string>, ids: seq<string>)
    requires uses != []
    ensures Answered(messages + [Assistant(uses)] + [ToolResults(ids)]) <==> Answered(messages) && ids == uses
  {
    var all, n := messages + [Assistant(uses)] + [ToolResults(ids)], |messages|;
    assert all[n] == Assistant(uses) && all[n + 1] == ToolResults(ids);
    assert forall i :: 0 <= i < n ==> all[i] == messages[i];
    if Answered(all) {
      forall i | 0 <= i < n && messages[i].Assistant? && messages[i].uses != []
        ensures i + 1 < n && messages[i + 1] == ToolResults(messages[i].uses)
      {
        assert all[i + 1] == ToolResults(all[i].uses);
      }
    }
  }

  /** A round that goes on has given each tool use its result exactly when none was dropped,
      and what the budget has left is what was skipped if one was. */
  lemma {:induction false} RoundTells(t: Turn, limits: Limits, o: Oracle)
    requires t.executed < limits.maxCalls
    ensures var (t1, flow) := Round(t, limits, o);
      && t1.requests == t.requests + [Request(t.talk, t.events)]
      && Skipped(t1.events) >= Skipped(t.events)
      && (flow == Continue ==>
            var dropped := |o.model(t.rounds).uses| > limits.maxCalls - t.executed;
            && (Answered(t1.talk) <==> Answered(t.talk) && !dropped)
            && (NoneDropped(t1.events) <==> NoneDropped(t.events) && !dropped)
            && (dropped ==> limits.maxCalls - t1.executed == Skipped(t1.events) - Skipped(t.events)))
  {
    hide RunCalls, DropCalls, Skipped, NoneDropped, Answered, Ids;
    match o.model(t.rounds)
    case ModelError => LossesSnoc(t.events, ResponseError(ModelRequestFailed));
    case Answer(text, uses, live, streamed) =>
      if uses == [] {
        LossesSnoc(t.events, ResponseCompleted(FinalText(text, live, streamed)));
      } else {
        BatchRoundTells(t, limits, o, uses);
      }
  }

  lemma {:induction false} BatchRoundTells(t: Turn, limits: Limits, o: Oracle, uses: seq<ToolUse>)
    requires t.executed < limits.maxCalls && uses != []
    ensures var n := Min(|uses|, limits.maxCalls - t.executed);
      var (t2, batch) := RunCalls(DropCalls(Propose(Ask(t), uses), uses[n..]), uses[..n], o, Tally(0, |uses| - n, []));
      && t2.requests == t.requests + [Request(t.talk, t.events)]
      && Skipped(t2.events) >= Skipped(t.events)
      && (batch != Stopped ==>
            var t1 := CloseBatch(t2, |uses|, batch.tally);
            && t1.requests == t2.requests && Skipped(t1.events) == Skipped(t2.events)
            && (Answered(t1.talk) <==> Answered(t.talk) && n == |uses|)
            && (NoneDropped(t1.events) <==> NoneDropped(t.events) && n == |uses|)
            && t1.executed - t.executed + (Skipped(t1.events) - Skipped(t.events)) == n)
  {
    hide RunCalls, DropCalls, Skipped, NoneDropped, Answered, Ids;
    var n := Min(|uses|, limits.maxCalls - t.executed);
    var t0 := Propose(Ask(t), uses);
    var td := DropCalls(t0, uses[n..]);
    LossesSnoc(t.events, ToolCallsProposed(|uses|));
    DropCounts(t0, uses[n..]);
    DropsTell(t0, uses[n..]);
    var (t2, batch) := RunCalls(td, uses[..n], o, Tally(0, |uses| - n, []));
    BatchTells(td, uses[..n], o, Tally(0, |uses| - n, []));
    if batch != Stopped {
      LossesSnoc(t2.events, ToolBatchCompleted(|uses|, batch.tally.succeeded, batch.tally.failed));
      AnsweredPair(t.talk, Ids(uses), Ids(uses[..n]));
      assert uses[..|uses|] == uses;
      assert [] + Ids(uses[..n]) == Ids(uses[..n]);
    }
  }

  /** Up to here a request has all its results exactly when nothing was dropped before it,
      and where something was dropped, something was skipped. */
  ghost predicate Told(r: Request) {
    && (Answered(r.messages) <==> NoneDropped(r.events))
    && (!NoneDropped(r.events) ==> Skipped(r.events) > 0)
  }

  ghost predicate AllTold(t: Turn) {
    forall i :: 0 <= i < |t.requests| ==> Told(t.requests[i])
  }

  /** At the head of the loop the next request, if there is one, is told too. */
  ghost predicate ReadyToTell(t: Turn, limits: Limits) {
    && AllTold(t)
    && (Answered(t.talk) <==> NoneDropped(t.events))
    && (!NoneDropped(t.events) && t.executed < limits.maxCalls ==> Skipped(t.events) > 0)
  }

  lemma {:induction false} RequestsTold(t: Turn, limits: Limits, o: Oracle)
    requires ReadyToTell(t, limits)
    ensures AllTold(RunTurn(t, limits, o))
    decreases limits.maxRounds - t.rounds
  {
    hide Round, Answered, NoneDropped, Skipped;
    if t.executed < limits.maxCalls && t.rounds < limits.maxRounds {
      RoundCounts(t, limits, o);
      RoundTells(t, limits, o);
      var (t1, flow) := Round(t, limits, o);
      if flow == Continue {
        RequestsTold(t1, limits, o);
      }
    }
  }

  /** For every model and every tool behaviour: a planner request holds one result for every
      tool use of the turn before it if and only if no tool use was dropped before it, and
      where one was, a call was skipped as a duplicate. */
  lemma {:induction false} AnsweredExactly(recent: seq<Record>, epoch: nat, committed: seq<string>, limits: Limits,
      o: Oracle)
    ensures var requests := RunTurn(Begin(recent, epoch, committed), limits, o).requests;
      forall i :: 0 <= i < |requests| ==>
        && (Answered(requests[i].messages) <==> NoneDropped(requests[i].events))
        && (!NoneDropped(requests[i].events) ==> Skipped(requests[i].events) > 0)
  {
    hide RunTurn, Skipped;
    RequestsTold(Begin(recent, epoch, committed), limits, o);
  }

  // ---- Guards ------------------------------------------------------------

  /** Of the remembered calls no two are the same successful, guarded call in the
      same epoch, and none comes from a later epoch. */
  ghost predicate NoRepeats(recent: seq<Record>, epoch: nat) {
    && (forall i :: 0 <= i < |recent| ==> recent[i].epoch <= epoch)
    && (forall i, j :: 0 <= i < j < |recent| && recent[i].ok && !SkipsDuplicateCheck(recent[i].name)
          ==> recent[i] != recent[j])
  }

  /** The detector has seen exactly the checked keys and has not halted yet. */
  ghost predicate Unhalted(t: Turn) {
    && t.detector == LoopDetector.StateAfter(LoopDetector.FRESH, t.checked)
    && forall i :: 0 <= i < |t.checked| ==> LoopDetector.Signals(LoopDetector.FRESH, t.checked)[i] != LoopDetector.Halt
  }

  /** A halt, if there is one, was the very last thing and failed the turn. */
  ghost predicate HaltIsLast(t: Turn) {
    forall i :: 0 <= i < |t.checked| && LoopDetector.Signals(LoopDetector.FRESH, t.checked)[i] == LoopDetector.Halt
      ==> i == |t.checked| - 1 && t.phase == Failed
  }

  /** `clean`: the memory the turn started with held no repeats. */
  ghost predicate Guarded(t: Turn, clean: bool) {
    (clean ==> NoRepeats(t.recent, t.epoch)) && Unhalted(t) && t.skips < MAX_SKIPS
  }

  ghost predicate GuardedAtEnd(t: Turn, clean: bool) {
    (clean ==> NoRepeats(t.recent, t.epoch)) && HaltIsLast(t) && (t.skips < MAX_SKIPS || t.phase == Failed)
  }

  lemma {:induction false} RememberKeeps(recent: seq<Record>, epoch: nat, u: ToolUse, ok: bool, later: nat)
    requires NoRepeats(recent, epoch) && epoch <= later
    requires ok && !SkipsDuplicateCheck(u.name) ==> Record(u.name, u.args, true, later) !in recent
    ensures NoRepeats(KeepRecent(recent + [Record(u.name, u.args, ok, later)]), later)
  {
    var all := recent + [Record(u.name, u.args, ok, later)];
    forall i, j | 0 <= i < j < |all| && all[i].ok && !SkipsDuplicateCheck(all[i].name) ensures all[i] != all[j] {
      if j == |recent| {
        assert all[i] == recent[i] && recent[i] in recent;
      }
    }
    var kept := KeepRecent(all);
    var shift := |all| - |kept|;
    assert forall i :: 0 <= i < |kept| ==> kept[i] == all[i + shift];
  }

  lemma {:induction false} CheckedSnoc(t: Turn, key: LoopDetector.Key)
    requires Unhalted(t)
    ensures var (detector, signal) := LoopDetector.Check(t.detector, key);
      var signals := LoopDetector.Signals(LoopDetector.FRESH, t.checked + [key]);
      && detector == LoopDetector.StateAfter(LoopDetector.FRESH, t.checked + [key])
      && (forall i :: 0 <= i < |t.checked| ==> signals[i] != LoopDetector.Halt)
      && signals[|t.checked|] == signal
  {
    LoopDetector.SignalsSnoc(LoopDetector.FRESH, t.checked, key);
  }

  lemma {:induction false} ExecuteKeeps(t: Turn, u: ToolUse, o: Oracle, clean: bool)
    requires Guarded(t, clean) && !IsDuplicate(t, u)
    ensures var (t1, outcome) := Execute(t, u, o);
      if outcome == Aborted then GuardedAtEnd(t1, clean) else Guarded(t1, clean)
  {
    hide AfterOk, AfterErr, Guarded, GuardedAtEnd;
    var t1 := Start(t, u);
    GuardedFrame(t, t1, clean);
    match o.tool(t.ran)
    case ToolOk(success) => OkKeeps(t1, u, success, clean);
    case ToolErr(blocked) => ErrKeeps(t1, u, blocked, clean);
  }

  lemma {:induction false} OkKeeps(t: Turn, u: ToolUse, success: bool, clean: bool)
    requires Guarded(t, clean) && !IsDuplicate(t, u)
    ensures var (t1, outcome) := AfterOk(t, u, success);
      if outcome == Aborted then GuardedAtEnd(t1, clean) else Guarded(t1, clean)
  {
    hide LoopDetector.Check, LoopDetector.Signals, LoopDetector.StateAfter, NoRepeats, KeepRecent;
    CheckedSnoc(t, KeyOf(u));
    var later := if IsMutating(u.name) then t.epoch + 1 else t.epoch;
    if clean {
      NotRemembered(t, u, later);
      RememberKeeps(t.recent, t.epoch, u, success, later);
      LaterKeeps(t.recent, t.epoch, later);
    }
  }

  lemma {:induction false} NotRemembered(t: Turn, u: ToolUse, later: nat)
    requires NoRepeats(t.recent, t.epoch) && !IsDuplicate(t, u) && later >= t.epoch
    ensures !SkipsDuplicateCheck(u.name) ==> Record(u.name, u.args, true, later) !in t.recent
  {
  }

  lemma {:induction false} LaterKeeps(recent: seq<Record>, epoch: nat, later: nat)
    requires NoRepeats(recent, epoch) && epoch <= later
    ensures NoRepeats(recent, later)
  {
  }

  lemma {:induction false} ErrKeeps(t: Turn, u: ToolUse, blocked: bool, clean: bool)
    requires Guarded(t, clean)
    ensures var (t1, outcome) := AfterErr(t, u, blocked);
      if outcome == Aborted then GuardedAtEnd(t1, clean) else Guarded(t1, clean)
  {
    hide LoopDetector.Signals, LoopDetector.StateAfter, NoRepeats, KeepRecent;
    if clean { RememberKeeps(t.recent, t.epoch, u, false, t.epoch); }
  }

  lemma {:induction false} CallKeeps(t: Turn, u: ToolUse, o: Oracle, clean: bool)
    requires Guarded(t, clean)
    ensures var (t1, outcome) := Call(t, u, o);
      if outcome == Aborted then GuardedAtEnd(t1, clean) else Guarded(t1, clean)
  {
    hide Execute, Guarded, GuardedAtEnd, BlankName, AlreadyDone;
    var t1 := Call(t, u, o).0;
    if BlankName(u.name) {
      GuardedFrame(t, t1, clean);
    } else if IsDuplicate(t, u) {
      SkipKeeps(t, t1, clean);
    } else {
      ExecuteKeeps(t, u, o, clean);
    }
  }

  lemma {:induction false} SkipKeeps(t: Turn, t1: Turn, clean: bool)
    requires Guarded(t, clean) && (t1.skips < MAX_SKIPS || t1.phase == Failed)
    requires t1.recent == t.recent && t1.epoch == t.epoch && t1.detector == t.detector && t1.checked == t.checked
    ensures GuardedAtEnd(t1, clean) && (t1.skips < MAX_SKIPS ==> Guarded(t1, clean))
  {
    hide NoRepeats, LoopDetector.Signals, LoopDetector.StateAfter;
  }

  lemma {:induction false} RunCallsKeeps(t: Turn, uses: seq<ToolUse>, o: Oracle, tally: Tally, clean: bool)
    requires Guarded(t, clean)
    ensures var (t1, batch) := RunCalls(t, uses, o, tally);
      if batch == Stopped then GuardedAtEnd(t1, clean) else Guarded(t1, clean)
    decreases |uses|
  {
    hide Call, Guarded, GuardedAtEnd;
    if uses != [] {
      CallKeeps(t, uses[0], o, clean);
      var (t1, outcome) := Call(t, uses[0], o);
      if outcome != Aborted {
        RunCallsKeeps(t1, uses[1..], o, Add(tally, uses[0], outcome.ok), clean);
      }
    }
  }

  lemma {:induction false} RoundKeeps(t: Turn, limits: Limits, o: Oracle, clean: bool)
    requires t.executed < limits.maxCalls && Guarded(t, clean)
    ensures var (t1, flow) := Round(t, limits, o);
      if flow == Return then GuardedAtEnd(t1, clean) else Guarded(t1, clean)
  {
    hide RunCalls, DropCalls, Guarded, GuardedAtEnd;
    var (t1, flow) := Round(t, limits, o);
    match o.model(t.rounds)
    case ModelError => GuardedFrame(t, t1, clean);
    case Answer(text, uses, live, streamed) =>
      if uses == [] {
        GuardedFrame(t, t1, clean);
      } else {
        var n := Min(|uses|, limits.maxCalls - t.executed);
        var t0 := Propose(Ask(t), uses);
        DropCounts(t0, uses[n..]);
        var td := DropCalls(t0, uses[n..]);
        GuardedFrame(t, td, clean);
        RunCallsKeeps(td, uses[..n], o, Tally(0, |uses| - n, []), clean);
        var (t2, batch) := RunCalls(td, uses[..n], o, Tally(0, |uses| - n, []));
        if batch != Stopped { GuardedFrame(t2, t1, clean); }
      }
  }

  /** Events, counters and phases do not matter to the guards. */
  lemma {:induction false} GuardedFrame(t: Turn, t1: Turn, clean: bool)
    requires Guarded(t, clean)
    requires t1.recent == t.recent && t1.epoch == t.epoch && t1.detector == t.detector
    requires t1.checked == t.checked && t1.skips == t.skips
    ensures Guarded(t1, clean) && GuardedAtEnd(t1, clean)
  {
    hide LoopDetector.Signals, LoopDetector.StateAfter;
  }

  lemma {:induction false} TurnKeeps(t: Turn, limits: Limits, o: Oracle, clean: bool)
    requires Guarded(t, clean)
    ensures GuardedAtEnd(RunTurn(t, limits, o), clean)
    decreases limits.maxRounds - t.rounds
  {
    hide Round;
    if t.executed < limits.maxCalls && t.rounds < limits.maxRounds {
      RoundCounts(t, limits, o);
      RoundKeeps(t, limits, o, clean);
      var (t1, flow) := Round(t, limits, o);
      if flow == Continue {
        TurnKeeps(t1, limits, o, clean);
      }
    }
  }

  /** The guard over turns: a remembered successful call is never repeated in its
      epoch while it is remembered, whatever the earlier turns left behind. */
  lemma {:induction false} NeverRepeatsRemembered(recent: seq<Record>, epoch: nat, committed: seq<string>,
      limits: Limits, o: Oracle)
    requires NoRepeats(recent, epoch)
    ensures var t := RunTurn(Begin(recent, epoch, committed), limits, o); NoRepeats(t.recent, t.epoch)
  {
    hide RunTurn;
    TurnKeeps(Begin(recent, epoch, committed), limits, o, true);
  }

  /** Six equal calls in a row can only be the last six, and then the turn has failed. */
  lemma {:induction false} SixInARowEndTheTurn(recent: seq<Record>, epoch: nat, committed: seq<string>,
      limits: Limits, o: Oracle, start: nat)
    requires var t := RunTurn(Begin(recent, epoch, committed), limits, o);
      start + 6 <= |t.checked| && forall i :: start <= i < start + 6 ==> t.checked[i] == t.checked[start]
    ensures var t := RunTurn(Begin(recent, epoch, committed), limits, o);
      start + 6 == |t.checked| && t.phase == Failed
  {
    hide RunTurn, LoopDetector.Signals;
    TurnKeeps(Begin(recent, epoch, committed), limits, o, false);
    LoopDetector.SixInARowHalt(RunTurn(Begin(recent, epoch, committed), limits, o).checked, start);
  }

  // ---- Which calls are run -----------------------------------------------

  const EXEMPT: set<string> := {"Read", "list_dir", "grep_files", "process_snapshot", "system_load", "disk_usage"}
  const MUTATING: set<string> := {"Edit", "shell", "exec_command"}

  /** How many of the deeds finish a call. */
  function FinishedIn(deeds: seq<Deed>): nat {
    if deeds == [] then 0
    else FinishedIn(deeds[..|deeds| - 1]) + (if deeds[|deeds| - 1].Finished? then 1 else 0)
  }

  /** No tool that changes things has replied. */
  predicate Unchanged(deeds: seq<Deed>) {
    forall i :: 0 <= i < |deeds| && deeds[i].Replied? ==> deeds[i].name !in MUTATING
  }

  /** The same call has succeeded among the last sixteen finished ones, and nothing has been
      changed since. */
  ghost predicate Repeats(deeds: seq<Deed>, name: string, args: string) {
    && name !in EXEMPT
    && exists i :: 0 <= i < |deeds| && deeds[i] == Finished(name, args, true)
                   && FinishedIn(deeds[i..]) <= 16 && Unchanged(deeds[i..])
  }

  /** Passed over were exactly the repeats; everything else was run. */
  ghost predicate Obeys(deeds: seq<Deed>) {
    forall i :: 0 <= i < |deeds| ==>
      && (deeds[i].PassedOver? ==> Repeats(deeds[..i], deeds[i].name, deeds[i].args))
      && (deeds[i].Started? ==> !Repeats(deeds[..i], deeds[i].name, deeds[i].args))
  }

  /** The epoch that the deeds amount to, and the records they leave. */
  function EpochOf(deeds: seq<Deed>): nat {
    if deeds == [] then 0
    else
      var last := deeds[|deeds| - 1];
      EpochOf(deeds[..|deeds| - 1]) + (if last.Replied? && IsMutating(last.name) then 1 else 0)
  }

  function RecordsOf(deeds: seq<Deed>): seq<Record> {
    if deeds == [] then []
    else
      var most, last := deeds[..|deeds| - 1], deeds[|deeds| - 1];
      RecordsOf(most) + (match last case Finished(n, a, ok) => [Record(n, a, ok, EpochOf(most))] case _ => [])
  }

  function LastOf(s: seq<Record>, n: nat): seq<Record> {
    if |s| > n then s[|s| - n..] else s
  }

  /** A finished deed, so many finished ones from the end, in the given epoch. */
  ghost predicate FinishedSo(deeds: seq<Deed>, n: nat, name: string, args: string, epoch: nat) {
    exists i: nat :: FinishedAt(deeds, i, n, name, args, epoch)
  }

  ghost predicate FinishedAt(deeds: seq<Deed>, i: nat, n: nat, name: string, args: string, epoch: nat) {
    && i < |deeds| && deeds[i] == Finished(name, args, true)
    && FinishedIn(deeds[i..]) <= n && EpochOf(deeds[..i]) == epoch
  }

  lemma {:induction false} FinishedInSnoc(most: seq<Deed>, x: Deed, i: nat)
    requires i <= |most|
    ensures FinishedIn((most + [x])[i..]) == FinishedIn(most[i..]) + (if x.Finished? then 1 else 0)
  {
    assert (most + [x])[i..] == most[i..] + [x];
    assert (most[i..] + [x])[..|most[i..]|] == most[i..];
  }

  lemma {:induction false} FinishedAtSnoc(
      most: seq<Deed>, x: Deed, i: nat, n: nat, name: string, args: string, epoch: nat)
    requires i < |most|
    ensures FinishedAt(most + [x], i, n, name, args, epoch) <==>
      if !x.Finished? then FinishedAt(most, i, n, name, args, epoch)
      else n > 0 && FinishedAt(most, i, n - 1, name, args, epoch)
  {
    hide FinishedIn, EpochOf;
    FinishedInSnoc(most, x, i);
    assert (most + [x])[i] == most[i] && (most + [x])[..i] == most[..i];
  }

  lemma {:induction false} FinishedLast(most: seq<Deed>, x: Deed, n: nat, name: string, args: string, epoch: nat)
    ensures FinishedAt(most + [x], |most|, n, name, args, epoch) <==>
      n > 0 && x == Finished(name, args, true) && EpochOf(most) == epoch
  {
    FinishedInSnoc(most, x, |most|);
    hide EpochOf;
    assert (most + [x])[|most|] == x && (most + [x])[..|most|] == most && most[|most|..] == [];
  }

  lemma {:induction false} FinishedSoSnoc(most: seq<Deed>, x: Deed, n: nat, name: string, args: string, epoch: nat)
    ensures FinishedSo(most + [x], n, name, args, epoch) <==>
      if !x.Finished? then FinishedSo(most, n, name, args, epoch)
      else n > 0 && ((x == Finished(name, args, true) && EpochOf(most) == epoch)
                     || FinishedSo(most, n - 1, name, args, epoch))
  {
    var all := most + [x];
    FinishedLast(most, x, n, name, args, epoch);
    forall i: nat | i < |most|
      ensures FinishedAt(all, i, n, name, args, epoch) <==>
        if !x.Finished? then FinishedAt(most, i, n, name, args, epoch)
        else n > 0 && FinishedAt(most, i, n - 1, name, args, epoch)
    {
      FinishedAtSnoc(most, x, i, n, name, args, epoch);
    }
    forall i: nat, m: nat ensures FinishedAt(most, i, m, name, args, epoch) ==> i < |most| { }
    forall i: nat ensures FinishedAt(all, i, n, name, args, epoch) ==> i <= |most| { }
    hide FinishedAt, EpochOf;
    if FinishedSo(all, n, name, args, epoch) {
      var i: nat :| FinishedAt(all, i, n, name, args, epoch);
      assert i < |most| || i == |most|;
    }
    var m := if x.Finished? then n - 1 else n;
    if m >= 0 && FinishedSo(most, m, name, args, epoch) {
      var i: nat :| FinishedAt(most, i, m, name, args, epoch);
      assert FinishedAt(all, i, n, name, args, epoch);
    }
  }

  /** What is remembered is what has finished, the last of it. */
  lemma {:induction false} RecordedExactly(deeds: seq<Deed>, n: nat, name: string, args: string, epoch: nat)
    ensures Record(name, args, true, epoch) in LastOf(RecordsOf(deeds), n) <==>
      FinishedSo(deeds, n, name, args, epoch)
  {
    if deeds != [] {
      hide FinishedSo;
      var most, x := deeds[..|deeds| - 1], deeds[|deeds| - 1];
      assert deeds == most + [x];
      FinishedSoSnoc(most, x, n, name, args, epoch);
      if x.Finished? {
        var r := Record(x.name, x.args, x.ok, EpochOf(most));
        assert RecordsOf(deeds) == RecordsOf(most) + [r];
        if n > 0 {
          RecordedExactly(most, n - 1, name, args, epoch);
          assert LastOf(RecordsOf(most) + [r], n) == LastOf(RecordsOf(most), n - 1) + [r];
        } else {
          assert LastOf(RecordsOf(deeds), n) == [];
        }
      } else {
        RecordedExactly(most, n, name, args, epoch);
        assert RecordsOf(deeds) == RecordsOf(most) + [] == RecordsOf(most);
      }
    }
  }

  lemma {:induction false} EpochSince(deeds: seq<Deed>, i: nat)
    requires i <= |deeds|
    ensures EpochOf(deeds[..i]) <= EpochOf(deeds)
    ensures EpochOf(deeds[..i]) == EpochOf(deeds) <==> Unchanged(deeds[i..])
    decreases |deeds|
  {
    if i == |deeds| {
      assert deeds[..i] == deeds;
    } else {
      var most, x := deeds[..|deeds| - 1], deeds[|deeds| - 1];
      EpochSince(most, i);
      assert most[..i] == deeds[..i];
      assert deeds[i..] == most[i..] + [x];
      UnchangedSnoc(most[i..], x);
    }
  }

  lemma {:induction false} UnchangedSnoc(deeds: seq<Deed>, x: Deed)
    ensures Unchanged(deeds + [x]) <==> Unchanged(deeds) && !(x.Replied? && IsMutating(x.name))
  {
    var all := deeds + [x];
    assert all[|deeds|] == x && forall i :: 0 <= i < |deeds| ==> all[i] == deeds[i];
  }

  /** The memory holds what the deeds amount to. */
  ghost predicate Remembers(t: Turn) {
    t.recent == LastOf(RecordsOf(t.deeds), 16) && t.epoch == EpochOf(t.deeds) && Obeys(t.deeds)
  }

  /** So a call counts as done already exactly when it repeats one. */
  lemma {:induction false} DuplicateExactly(t: Turn, u: ToolUse)
    requires Remembers(t)
    ensures IsDuplicate(t, u) <==> Repeats(t.deeds, u.name, u.args)
  {
    hide Obeys, RecordsOf, EpochOf, LastOf, Unchanged, FinishedIn;
    RecordedExactly(t.deeds, 16, u.name, u.args, t.epoch);
    forall i: nat | i < |t.deeds|
      ensures FinishedAt(t.deeds, i, 16, u.name, u.args, t.epoch) <==>
        t.deeds[i] == Finished(u.name, u.args, true) && FinishedIn(t.deeds[i..]) <= 16 && Unchanged(t.deeds[i..])
    {
      EpochSince(t.deeds, i);
    }
    SameList(t.recent, Record(u.name, u.args, true, t.epoch));
  }

  lemma {:induction false} SameList(recent: seq<Record>, r: Record)
    ensures r in recent <==> exists i :: 0 <= i < |recent| && recent[i] == r
  {
  }

  lemma {:induction false} DeedsSnoc(deeds: seq<Deed>, x: Deed)
    ensures EpochOf(deeds + [x]) == EpochOf(deeds) + (if x.Replied? && IsMutating(x.name) then 1 else 0)
    ensures RecordsOf(deeds + [x]) ==
      RecordsOf(deeds) + (match x case Finished(n, a, ok) => [Record(n, a, ok, EpochOf(deeds))] case _ => [])
    ensures Obeys(deeds + [x]) <==>
      && Obeys(deeds)
      && (x.PassedOver? ==> Repeats(deeds, x.name, x.args))
      && (x.Started? ==> !Repeats(deeds, x.name, x.args))
  {
    hide Repeats;
    var all := deeds + [x];
    assert all[..|deeds|] == deeds && all[|deeds|] == x;
    assert forall i :: 0 <= i < |deeds| ==> all[i] == deeds[i] && all[..i] == deeds[..i];
  }

  /** One more deed that leaves no record. */
  lemma {:induction false} NoteKeeps(t: Turn, t1: Turn, x: Deed)
    requires Remembers(t) && t1.deeds == t.deeds + [x] && t1.recent == t.recent && !x.Finished?
    requires t1.epoch == t.epoch + if x.Replied? && IsMutating(x.name) then 1 else 0
    requires x.PassedOver? ==> Repeats(t.deeds, x.name, x.args)
    requires x.Started? ==> !Repeats(t.deeds, x.name, x.args)
    ensures Remembers(t1)
  {
    hide Obeys, Repeats, RecordsOf, EpochOf, IsMutating;
    DeedsSnoc(t.deeds, x);
    assert RecordsOf(t.deeds) + [] == RecordsOf(t.deeds);
  }

  lemma {:induction false} RecordKeeps(t: Turn, u: ToolUse, ok: bool)
    requires Remembers(t)
    ensures Remembers(Remember(t, u, ok))
  {
    hide Obeys, Repeats, RecordsOf, EpochOf, IsMutating;
    DeedsSnoc(t.deeds, Finished(u.name, u.args, ok));
    var all, r := RecordsOf(t.deeds), Record(u.name, u.args, ok, t.epoch);
    assert LastOf(LastOf(all, 16) + [r], 16) == LastOf(all + [r], 16);
  }

  /** A step that leaves memory and deeds alone. */
  lemma {:induction false} RememberFrame(t: Turn, t1: Turn)
    requires Remembers(t) && t1.recent == t.recent && t1.epoch == t.epoch && t1.deeds == t.deeds
    ensures Remembers(t1)
  {
  }

  lemma {:induction false} ExecuteRemembers(t: Turn, u: ToolUse, o: Oracle)
    requires Remembers(t) && !Repeats(t.deeds, u.name, u.args)
    ensures Remembers(Execute(t, u, o).0)
  {
    hide Remembers, Repeats, Remember, LoopDetector.Check, KeyOf, IsMutating;
    var t1 := Start(t, u);
    NoteKeeps(t, t1, Started(u.name, u.args));
    match o.tool(t.ran)
    case ToolOk(success) =>
      var (t2, signal) := AskDetector(t1, u);
      NoteKeeps(t1, t2, Replied(u.name));
      var t3 := if signal == LoopDetector.Warned then Emit(t2, LoopWarning(u.name)) else t2;
      RememberFrame(t2, t3);
      RecordKeeps(t3, u, success);
      RememberFrame(t2, Fail(t2, LoopHalt));
      RememberFrame(Remember(t3, u, success), CountCall(t3, u, success));
    case ToolErr(blocked) =>
      RecordKeeps(t1, u, false);
      RememberFrame(Remember(t1, u, false), AfterErr(t1, u, blocked).0);
  }

  /** A call with a name is passed over exactly when it repeats one, and then no tool is run;
      otherwise its tool is run, once. */
  lemma {:induction false} CallRunExactly(t: Turn, u: ToolUse, o: Oracle)
    requires Remembers(t)
    ensures var t1 := Call(t, u, o).0;
      && Remembers(t1)
      && (if BlankName(u.name) then t1.deeds == t.deeds && t1.ran == t.ran
          else if Repeats(t.deeds, u.name, u.args)
          then t1.deeds == t.deeds + [PassedOver(u.name, u.args)] && t1.ran == t.ran
          else t.deeds + [Started(u.name, u.args)] <= t1.deeds && t1.ran == t.ran + 1)
  {
    hide Remembers, Repeats, BlankName, Execute, IsDuplicate;
    DuplicateExactly(t, u);
    var t1 := Call(t, u, o).0;
    if BlankName(u.name) {
      RememberFrame(t, t1);
    } else if Repeats(t.deeds, u.name, u.args) {
      NoteKeeps(t, t1, PassedOver(u.name, u.args));
    } else {
      ExecuteRemembers(t, u, o);
      ExecuteCounts(t, u, o);
      ExecuteStarts(t, u, o);
    }
  }

  lemma {:induction false} ExecuteStarts(t: Turn, u: ToolUse, o: Oracle)
    ensures t.deeds + [Started(u.name, u.args)] <= Execute(t, u, o).0.deeds
  {
    hide LoopDetector.Check, KeyOf, IsMutating, KeepRecent;
  }

  lemma {:induction false} DropRemembers(t: Turn, uses: seq<ToolUse>)
    requires Remembers(t)
    ensures Remembers(DropCalls(t, uses))
  {
    DropCounts(t, uses);
    RememberFrame(t, DropCalls(t, uses));
  }

  lemma {:induction false} RunCallsRemembers(t: Turn, uses: seq<ToolUse>, o: Oracle, tally: Tally)
    requires Remembers(t)
    ensures Remembers(RunCalls(t, uses, o, tally).0)
    decreases |uses|
  {
    hide Call, Remembers;
    if uses != [] {
      CallRunExactly(t, uses[0], o);
      var (t1, outcome) := Call(t, uses[0], o);
      if outcome != Aborted {
        RunCallsRemembers(t1, uses[1..], o, Add(tally, uses[0], outcome.ok));
      }
    }
  }

  lemma {:induction false} RoundRemembers(t: Turn, limits: Limits, o: Oracle)
    requires t.executed < limits.maxCalls && Remembers(t)
    ensures Remembers(Round(t, limits, o).0)
  {
    hide RunCalls, DropCalls, Remembers;
    var t1 := Round(t, limits, o).0;
    match o.model(t.rounds)
    case ModelError => RememberFrame(t, t1);
    case Answer(text, uses, live, streamed) =>
      if uses == [] {
        RememberFrame(t, t1);
      } else {
        var n := Min(|uses|, limits.maxCalls - t.executed);
        var t0 := Propose(Ask(t), uses);
        RememberFrame(t, t0);
        DropRemembers(t0, uses[n..]);
        var td := DropCalls(t0, uses[n..]);
        RunCallsRemembers(td, uses[..n], o, Tally(0, |uses| - n, []));
        var (t2, batch) := RunCalls(td, uses[..n], o, Tally(0, |uses| - n, []));
        if batch != Stopped { RememberFrame(t2, t1); }
      }
  }

  lemma {:induction false} TurnRemembers(t: Turn, limits: Limits, o: Oracle)
    requires Remembers(t)
    ensures Remembers(RunTurn(t, limits, o))
    decreases limits.maxRounds - t.rounds
  {
    hide Round, Remembers;
    if t.executed < limits.maxCalls && t.rounds < limits.maxRounds {
      RoundCounts(t, limits, o);
      RoundRemembers(t, limits, o);
      var (t1, flow) := Round(t, limits, o);
      if flow == Continue {
        TurnRemembers(t1, limits, o);
      }
    } else {
      RememberFrame(t, RunTurn(t, limits, o));
    }
  }

  /** Over every turn a user starts: passed over were exactly the calls of tools that are not
      exempt that repeated a success among the last sixteen finished calls, with nothing
      changed since; every other call was run. */
  lemma {:induction false} PassedOverExactly(committed: seq<string>, limits: Limits, o: Oracle)
    ensures Obeys(RunTurn(Begin([], 0, committed), limits, o).deeds)
  {
    hide RunTurn, Obeys;
    var t := Begin([], 0, committed);
    assert Obeys(t.deeds) by { NothingDone(); }
    assert RecordsOf(t.deeds) == [];
    TurnRemembers(t, limits, o);
  }

  lemma {:induction false} NothingDone()
    ensures Obeys([])
  {
  }

  // ---- Three odd turns ----------------------------------------------------

  const READ: ToolUse := ToolUse("", "Read", "", "")

  function Copies<T>(x: T, n: nat): (r: seq<T>)
    ensures |r| == n && forall i :: 0 <= i < n ==> r[i] == x
  {
    if n == 0 then [] else Copies(x, n - 1) + [x]
  }

  /** A model that always asks for the same n reads, and tools that succeed. */
  function ReadsOnly(n: nat): Oracle {
    Oracle(_ => Answer("", Copies(READ, n), false, ""), _ => ToolOk(true))
  }

  /** The detector after n of the same reads; it warns at the fifth. */
  function ReadState(n: nat): LoopDetector.State {
    LoopDetector.State(Copies(KeyOf(READ), n), if n == 5 then LoopDetector.Warned else LoopDetector.Quiet,
                       if n == 5 then Some(KeyOf(READ)) else None)
  }

  lemma {:induction false} CheckRead(n: nat)
    requires n <= 5
    ensures n < 5 ==> LoopDetector.Check(ReadState(n), KeyOf(READ)) == (ReadState(n + 1), ReadState(n + 1).state)
    ensures n == 5 ==> LoopDetector.Check(ReadState(n), KeyOf(READ)).1 == LoopDetector.Halt
  {
    if n < 5 { LoopDetector.TrailingFive(Copies(KeyOf(READ), n + 1), KeyOf(READ), n + 1); }
  }

  lemma {:induction false} ReadRuns(t: Turn, o: Oracle)
    ensures Call(t, READ, o) == Execute(t, READ, o)
  {
    ToolCommand.TrimNothing("Read");
    assert !BlankName("Read");
  }

  /** The first five reads run through; the sixth is a halt. */
  lemma {:induction false} ReadOnce(t: Turn, o: Oracle, n: nat)
    requires t.detector == ReadState(n) && n <= 5 && o.tool(t.ran) == ToolOk(true)
    ensures var (t1, outcome) := Call(t, READ, o);
      && t1.ran == t.ran + 1
      && (n < 5 ==> outcome == Result(true) && t1.detector == ReadState(n + 1) && t1.executed == t.executed + 1)
      && (n == 5 ==> outcome == Aborted && t1.executed == t.executed && LastIs(t1, ResponseError(LoopHalt)))
  {
    hide LoopDetector.Check, ReadState, Call, KeepRecent, IsMutating;
    ReadRuns(t, o);
    CheckRead(n);
    ReadSignal(n + 1);
  }

  lemma {:induction false} ReadSignal(n: nat)
    ensures ReadState(n).state != LoopDetector.Halt
  {
  }

  /** k reads after n of them, all within the first five. */
  lemma {:induction false} ReadsGoOn(t: Turn, o: Oracle, n: nat, k: nat, tally: Tally)
    requires t.detector == ReadState(n) && n + k <= 5 && forall i :: o.tool(i) == ToolOk(true)
    ensures var (t1, batch) := RunCalls(t, Copies(READ, k), o, tally);
      && batch != Stopped && t1.executed == t.executed + k
    decreases k
  {
    hide Call, ReadState;
    if k > 0 {
      ReadOnce(t, o, n);
      assert Copies(READ, k)[1..] == Copies(READ, k - 1);
      ReadsGoOn(Call(t, READ, o).0, o, n + 1, k - 1, Add(tally, READ, true));
    }
  }

  /** All reads from the (n + 1)st to the sixth. */
  lemma {:induction false} ReadsHalt(t: Turn, o: Oracle, n: nat, tally: Tally)
    requires t.detector == ReadState(n) && n <= 5 && forall i :: o.tool(i) == ToolOk(true)
    ensures var (t1, batch) := RunCalls(t, Copies(READ, 6 - n), o, tally);
      && batch == Stopped && LastIs(t1, ResponseError(LoopHalt))
      && t1.ran == t.ran + (6 - n) && t1.executed == t.executed + (5 - n)
    decreases 6 - n
  {
    hide Call, ReadState;
    ReadOnce(t, o, n);
    assert Copies(READ, 6 - n)[1..] == Copies(READ, 5 - n);
    if n < 5 { ReadsHalt(Call(t, READ, o).0, o, n + 1, Add(tally, READ, true)); }
  }

  /** The first round of such a turn. */
  lemma {:induction false} FirstRound(k: nat, limits: Limits)
    requires 0 < k <= limits.maxCalls
    ensures var o, t := ReadsOnly(k), Propose(Ask(Begin([], 0, [])), Copies(READ, k));
      var (t1, batch) := RunCalls(t, Copies(READ, k), o, Tally(0, 0, []));
      var (t2, flow) := Round(Begin([], 0, []), limits, o);
      && t.detector == ReadState(0)
      && (batch == Stopped ==> t2 == t1 && flow == Return)
      && (batch != Stopped ==> flow == Continue && t2.executed == t1.executed)
  {
    hide RunCalls;
    var uses := Copies(READ, k);
    assert uses[..k] == uses && uses[k..] == [];
  }

  /** One read in the only round: the limit leaves the turn resumed, not failed. */
  lemma {:induction false} LimitLeavesResumed()
    ensures var t := RunTurn(Begin([], 0, []), Limits(5, 1), ReadsOnly(1));
      t.phase == StreamingResumed && t.executed == 1 && LastIs(t, ResponseError(TurnLimitReached))
  {
    hide RunCalls, Round, ReadState;
    var limits, o, t := Limits(5, 1), ReadsOnly(1), Begin([], 0, []);
    FirstRound(1, limits);
    ReadsGoOn(Propose(Ask(t), Copies(READ, 1)), o, 0, 1, Tally(0, 0, []));
    RoundCounts(t, limits, o);
    var t1 := Round(t, limits, o).0;
    assert RunTurn(t1, limits, o) == LimitReached(t1);
  }

  /** Six reads in one batch: six tools have run, five are counted. */
  lemma {:induction false} HaltLeavesUncounted()
    ensures var t := RunTurn(Begin([], 0, []), Limits(10, 1), ReadsOnly(6));
      t.phase == Failed && t.ran == 6 && t.executed == 5 && LastIs(t, ResponseError(LoopHalt))
  {
    hide RunCalls, Round, ReadState;
    var limits, o, t := Limits(10, 1), ReadsOnly(6), Begin([], 0, []);
    FirstRound(6, limits);
    ReadsHalt(Propose(Ask(t), Copies(READ, 6)), o, 0, Tally(0, 0, []));
    RoundCounts(t, limits, o);
  }

  function Search(id: string): ToolUse {
    ToolUse(id, "search", "", "")
  }

  /** A model that asks for the same search three times at once, and then fails. */
  function SearchesOnce(): Oracle {
    Oracle(k => if k == 0 then Answer("", SEARCHES, false, "") else ModelError, _ => ToolOk(true))
  }

  /** The first search is run and counted. */
  lemma {:induction false} FirstSearch(t: Turn, o: Oracle)
    requires t.recent == [] && t.detector == LoopDetector.FRESH && o.tool(t.ran) == ToolOk(true)
    ensures var (t1, outcome) := Call(t, Search("1"), o);
      && outcome == Result(true) && t1.executed == t.executed + 1 && t1.skips == 0 && t1.rounds == t.rounds
      && t1.recent == [Record("search", "", true, t.epoch)] && t1.epoch == t.epoch
  {
    hide LoopDetector.Check, KeyOf, KeepRecent, IsMutating, BlankName;
    var u := Search("1");
    SearchRuns(t, u, o);
    FirstCheck(KeyOf(u));
    assert t.recent + [Record("search", "", true, t.epoch)] == [Record("search", "", true, t.epoch)];
    KeepOne(Record("search", "", true, t.epoch));
  }

  lemma {:induction false} SearchRuns(t: Turn, u: ToolUse, o: Oracle)
    requires u.name == "search" && t.recent == []
    ensures Call(t, u, o) == Execute(t, u, o) && !IsMutating(u.name)
  {
    hide Execute;
    ToolCommand.TrimNothing("search");
  }

  lemma {:induction false} FirstCheck(key: LoopDetector.Key)
    ensures LoopDetector.Check(LoopDetector.FRESH, key).1 == LoopDetector.Quiet
  {
    hide LoopDetector.Trailing;
  }

  lemma {:induction false} KeepOne(r: Record)
    ensures KeepRecent([r]) == [r]
  {
  }

  /** The second is skipped, with a result of its own. */
  lemma {:induction false} SecondSearch(t: Turn, o: Oracle)
    requires t.recent == [Record("search", "", true, t.epoch)] && t.skips == 0
    ensures var (t1, outcome) := Call(t, Search("2"), o);
      outcome == Result(false) && t1.executed == t.executed && t1.rounds == t.rounds
  {
    ToolCommand.TrimNothing("search");
    assert !BlankName("search");
    assert t.recent[0] == Record("search", "", true, t.epoch);
  }

  const SEARCHES: seq<ToolUse> := [Search("1"), Search("2"), Search("3")]

  /** The batch within the budget: both calls have a result, one is counted. */
  lemma {:induction false} TwoSearches(t: Turn, o: Oracle)
    requires t.recent == [] && t.detector == LoopDetector.FRESH && o.tool(t.ran) == ToolOk(true)
    ensures var (t1, batch) := RunCalls(t, SEARCHES[..2], o, Tally(0, 1, []));
      && batch == Ran(Tally(1, 2, ["1", "2"])) && t1.executed == t.executed + 1 && t1.rounds == t.rounds
      && t1.talk == t.talk && t1.requests == t.requests
  {
    hide Call;
    var pair := SEARCHES[..2];
    assert pair == [Search("1"), Search("2")] && pair[1..] == [Search("2")] && pair[1..][1..] == [];
    BatchTells(t, pair, o, Tally(0, 1, []));
    FirstSearch(t, o);
    var t1 := Call(t, Search("1"), o).0;
    SecondSearch(t1, o);
    var tally := Add(Tally(0, 1, []), Search("1"), true);
    assert tally == Tally(1, 1, ["1"]) && Add(tally, Search("2"), false) == Tally(1, 2, ["1", "2"]);
    assert RunCalls(t1, [Search("2")], o, tally) == (Call(t1, Search("2"), o).0, Ran(Tally(1, 2, ["1", "2"])));
  }

  /** Three equal searches with a budget of two: the third is dropped, the second skipped, so
      that the loop goes on, and the model is asked with a tool use that has no result. */
  lemma {:induction false} UnansweredRequest()
    ensures var requests := RunTurn(Begin([], 0, []), Limits(2, 2), SearchesOnce()).requests;
      && |requests| == 2
      && requests[1].messages == [Assistant(["1", "2", "3"]), ToolResults(["1", "2"])]
      && !Answered(requests[1].messages)
  {
    hide Call, RunCalls;
    var o, limits, t := SearchesOnce(), Limits(2, 2), Begin([], 0, []);
    var proposed := Propose(Ask(t), SEARCHES);
    DropCounts(proposed, SEARCHES[2..]);
    TwoSearches(DropCalls(proposed, SEARCHES[2..]), o);
    SearchIds();
    var t1 := Round(t, limits, o).0;
    assert t1.talk == [Assistant(["1", "2", "3"]), ToolResults(["1", "2"])];
    assert Round(t1, limits, o) == (Fail(Ask(t1), ModelRequestFailed), Return);
    RoundCounts(t, limits, o);
    assert t1.talk[0].uses != [] && t1.talk[1] != ToolResults(t1.talk[0].uses) by {
      assert |t1.talk[0].uses| == 3;
    }
  }

  lemma {:induction false} SearchIds()
    ensures Ids(SEARCHES) == ["1", "2", "3"]
  {
    assert SEARCHES[1..] == [Search("2"), Search("3")] && SEARCHES[1..][1..] == [Search("3")];
    assert SEARCHES[1..][1..][1..] == [];
  }
}
