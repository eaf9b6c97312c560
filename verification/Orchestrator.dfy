/** The approval gate in front of every tool (openjax-core/src/tools/orchestrator.rs,
    context.rs, openjax-core/src/sandbox/policy.rs). */
module Orchestrator {
  import opened Common
  import opened Policy
  import PolicyRuntime
  import ToolCommand

  // ---- Risk tags of a shell command --------------------------------------

  predicate ContainsAny(s: string, parts: seq<string>) {
    exists i :: 0 <= i < |parts| && Contains(s, parts[i])
  }

  const DESTRUCTIVE_PATTERNS: seq<string> := ["rm -rf /", "mkfs", "dd if=", ":(){:|:&};:"]

  const WRITE_TOKENS: seq<string> := [
    ">", ">>", "tee ", "touch ", "mkdir ", "rmdir ", "rm ", "mv ", "cp ", "chmod ", "chown ", "sed -i", "perl -i",
    "truncate ", "git add ", "git commit", "git merge", "git rebase", "git cherry-pick", "git tag -a",
    "git reset --hard", "git clean -fd"]

  const NETWORK_TOKENS: seq<string> := [
    "curl ", "wget ", "ssh ", "scp ", "nc ", "nmap ", "ping ", "dig ", "nslookup "]

  /** The part before the first space, when there is a space. */
  function FirstWord(s: string): Option<string> {
    if s == "" then None
    else if s[0] == ' ' then Some("")
    else match FirstWord(s[1..]) case None => None case Some(w) => Some([s[0]] + w)
  }

  predicate StartsWithEnvAssignment(command: string) {
    match FirstWord(command)
    case None => false
    case Some(left) => Contains(left, "=") && !("./" <= left) && !("/" <= left)
  }

  predicate Writes(command: string) {
    ContainsAny(Lower(command), WRITE_TOKENS) || Contains(Lower(command), "export ") || StartsWithEnvAssignment(command)
  }

  /** `extract_shell_risk_tags`: an ordered set of tags, listed in order. */
  function ShellTags(command: string, escalated: bool): seq<string> {
    var lower := Lower(command);
    (if ContainsAny(lower, DESTRUCTIVE_PATTERNS) then [PolicyRuntime.DESTRUCTIVE] else [])
    + (if ContainsAny(lower, NETWORK_TOKENS) then ["network"] else [])
    + (if Contains(lower, "sudo ") then ["privilege_escalation"] else [])
    + (if escalated then ["require_escalated"] else [])
    + (if Writes(command) then ["write"] else [])
  }

  /** `split_whitespace` joined by single spaces. */
  function Normalize(s: string): string
    decreases |s|
  {
    var r := ToolCommand.SkipSpaces(s);
    if r == "" then ""
    else
      var (word, rest) := ToolCommand.Word(r, false);
      assert |word| + |rest| == |r|;
      var more := Normalize(rest);
      if more == "" then word else word + " " + more
  }

  // ---- The invocation and its descriptor ---------------------------------

  /** `shell` is what the arguments of a shell tool say, when they can be read. */
  datatype Invocation = Invocation(
    toolName: string, turnId: nat, session: string, resource: string, shell: Option<(string, bool)>)

  datatype Descriptor = Descriptor(action: string, capabilities: seq<string>, riskTags: seq<string>)

  predicate IsShellLike(tool: string) {
    tool == "shell" || tool == "exec_command"
  }

  predicate IsMutating(tool: string) {
    IsShellLike(tool) || tool == "Edit"
  }

  function PolicyDescriptor(tool: string): Option<Descriptor> {
    match tool
    case "Read" => Some(Descriptor("read", ["fs_read"], []))
    case "list_dir" => Some(Descriptor("read", ["fs_read"], []))
    case "grep_files" => Some(Descriptor("read", ["fs_read"], []))
    case "Edit" => Some(Descriptor("write", ["fs_write"], ["mutating"]))
    case "process_snapshot" => Some(Descriptor("observe", ["process_exec"], []))
    case "system_load" => Some(Descriptor("observe", ["process_exec"], []))
    case "disk_usage" => Some(Descriptor("observe", ["process_exec"], []))
    case "shell" => Some(Descriptor("exec", ["process_exec"], []))
    case "exec_command" => Some(Descriptor("exec", ["process_exec"], []))
    case _ => None
  }

  /** The loop that adds the tags that are not there yet. */
  function Inject(tags: seq<string>, more: seq<string>): (r: seq<string>)
    ensures forall t :: t in r <==> t in tags || t in more
    decreases |more|
  {
    if more == [] then tags
    else
      var rest := Inject(if more[0] in tags then tags else tags + [more[0]], more[1..]);
      assert forall t :: t in more <==> t == more[0] || t in more[1..];
      rest
  }

  method InjectTags(tags: seq<string>, more: seq<string>) returns (all: seq<string>)
    ensures all == Inject(tags, more)
  {
    all := tags;
    for i := 0 to |more|
      invariant Inject(all, more[i..]) == Inject(tags, more)
    {
      assert more[i..][1..] == more[i + 1..];
      if more[i] !in all {
        all := all + [more[i]];
      }
    }
  }

  /** The descriptor with the tags of the very command put in. */
  function FullDescriptor(inv: Invocation): Option<Descriptor> {
    match PolicyDescriptor(inv.toolName)
    case None => None
    case Some(d) =>
      if IsShellLike(inv.toolName) && inv.shell.Some? then
        Some(d.(riskTags := Inject(d.riskTags, ShellTags(Normalize(inv.shell.value.0), inv.shell.value.1))))
      else Some(d)
  }

  function ToInput(inv: Invocation, d: Option<Descriptor>, version: nat): Input {
    match d
    case Some(x) =>
      Input(inv.toolName, x.action, Some(inv.session), Some("user"), Some(inv.resource), x.capabilities, x.riskTags,
          version)
    case None =>
      Input(inv.toolName, "invoke", Some(inv.session), Some("user"), Some(inv.resource), [],
          ["unknown_tool_descriptor"], version)
  }

  function AllowRule(d: Descriptor, tool: string): Rule {
    Rule("descriptor:" + tool + ":" + d.action, Allow, 100, Some(tool), Some(d.action), None, None, None,
         d.capabilities, d.riskTags, "tool `" + tool + "` is declared in policy descriptor")
  }

  /** `evaluate_policy_center_decision`. */
  function Evaluate(inv: Invocation, runtime: Option<PolicyRuntime.Snapshot>): Decision {
    var d := FullDescriptor(inv);
    match runtime
    case Some(s) => PolicyRuntime.HandleDecide(s, ToInput(inv, d, s.version))
    case None =>
      var hasRisk := d.None? || d.value.riskTags != [];
      var rules := if hasRisk then [] else [AllowRule(d.value, inv.toolName)];
      PolicyRuntime.HandleDecide(PolicyRuntime.Snapshot(1, PolicyRuntime.NewStore(Ask, rules), map[]),
          ToInput(inv, d, 1))
  }

  lemma {:induction false} DecideNone(input: Input, rules: seq<Rule>)
    requires forall r :: r in rules ==> !Matches(r, input)
    ensures Decide(input, rules, Ask).kind == Ask
  {
    DecidedByWinner(input, rules, Ask);
  }

  lemma {:induction false} DecideOnly(input: Input, rules: seq<Rule>, w: Rule)
    requires w in rules && Matches(w, input)
    requires forall r :: r in rules && Matches(r, input) ==> r == w
    ensures Decide(input, rules, Ask).kind == w.decision
  {
    hide Decide, Matches, ComparePrecedence;
    DecidedByWinner(input, rules, Ask);
    var v :| Wins(input, rules, v)
        && Decide(input, rules, Ask) == Decision(v.decision, Some(v.id), input.version, v.reason);
  }

  /** With no policy runtime: allowed exactly when the tool is known and nothing about
      it or its command is risky, escalated exactly when something is destructive,
      and otherwise the user is asked. */
  lemma {:induction false} NoRuntimeExactly(inv: Invocation)
    ensures var kind, d := Evaluate(inv, None).kind, FullDescriptor(inv);
      && (kind == Allow <==> d.Some? && d.value.riskTags == [])
      && (kind == Escalate <==> d.Some? && PolicyRuntime.DESTRUCTIVE in d.value.riskTags)
      && kind != Deny
  {
    hide Decide, FullDescriptor;
    var d := FullDescriptor(inv);
    var input := ToInput(inv, d, 1);
    var system := PolicyRuntime.SYSTEM_RULE;
    assert Matches(PolicyRuntime.SYSTEM_RULE, input) <==> PolicyRuntime.DESTRUCTIVE in input.riskTags;
    if d.None? || d.value.riskTags != [] {
      var rules := [] + [system];
      if PolicyRuntime.DESTRUCTIVE in input.riskTags {
        DecideOnly(input, rules, system);
      } else {
        DecideNone(input, rules);
      }
    } else {
      AllowRuleMatches(inv, d.value);
      DecideOnly(input, [AllowRule(d.value, inv.toolName)] + [system], AllowRule(d.value, inv.toolName));
    }
  }

  lemma {:induction false} AllowRuleMatches(inv: Invocation, d: Descriptor)
    ensures Matches(AllowRule(d, inv.toolName), ToInput(inv, Some(d), 1))
  {
  }

  /** For a shell command that can be read this comes down to the command's text. */
  lemma {:induction false} ShellDecision(inv: Invocation)
    requires IsShellLike(inv.toolName) && inv.shell.Some?
    ensures var kind, tags := Evaluate(inv, None).kind, ShellTags(Normalize(inv.shell.value.0), inv.shell.value.1);
      && (kind == Allow <==> tags == [])
      && (kind == Escalate <==> ContainsAny(Lower(Normalize(inv.shell.value.0)), DESTRUCTIVE_PATTERNS))
  {
    hide Evaluate, Inject, Contains, ContainsAny, Normalize, Lower, Writes;
    NoRuntimeExactly(inv);
    var tags := ShellTags(Normalize(inv.shell.value.0), inv.shell.value.1);
    DestructiveTag(Normalize(inv.shell.value.0), inv.shell.value.1);
    InjectEmpty(tags);
  }

  lemma {:induction false} InjectEmpty(tags: seq<string>)
    ensures Inject([], tags) == [] <==> tags == []
  {
    hide Inject;
    var r := Inject([], tags);
    if tags != [] { assert tags[0] in tags && tags[0] in r; }
    if r != [] { assert r[0] in r; }
  }

  lemma {:induction false} DestructiveTag(command: string, escalated: bool)
    ensures PolicyRuntime.DESTRUCTIVE in ShellTags(command, escalated) <==>
        ContainsAny(Lower(command), DESTRUCTIVE_PATTERNS)
  {
    hide Contains, ContainsAny, Lower, Writes;
    assert |PolicyRuntime.DESTRUCTIVE| == 11 && |"network"| == 7 && |"privilege_escalation"| == 20
      && |"require_escalated"| == 17 && |"write"| == 5;
  }

  // ---- Which commands are harmless ---------------------------------------

  /** Signs of risk anywhere in the lower-cased text: of destruction, of the network, of more
      rights, of writing. */
  const SIGNS: set<string> := {
    "rm -rf /", "mkfs", "dd if=", ":(){:|:&};:",
    "curl ", "wget ", "ssh ", "scp ", "nc ", "nmap ", "ping ", "dig ", "nslookup ",
    "sudo ", "export ",
    ">", ">>", "tee ", "touch ", "mkdir ", "rmdir ", "rm ", "mv ", "cp ", "chmod ", "chown ", "sed -i", "perl -i",
    "truncate ", "git add ", "git commit", "git merge", "git rebase", "git cherry-pick", "git tag -a",
    "git reset --hard", "git clean -fd"}

  /** The first word, ended by a space, assigns to a variable and is no path. */
  ghost predicate SetsVariable(command: string) {
    exists k :: 0 <= k < |command| && command[k] == ' ' && ' ' !in command[..k]
                && Occurs(command[..k], "=") && !("./" <= command[..k]) && !("/" <= command[..k])
  }

  lemma {:induction false} FirstWordExactly(s: string)
    ensures match FirstWord(s)
            case None => ' ' !in s
            case Some(w) => |w| < |s| && w == s[..|w|] && s[|w|] == ' ' && ' ' !in w
  {
    if s != "" {
      assert s == [s[0]] + s[1..];
      if s[0] != ' ' { FirstWordExactly(s[1..]); }
    }
  }

  lemma {:induction false} FirstSpace(s: string, i: nat, k: nat)
    requires i < |s| && k <= |s| && s[i] == ' '
    ensures i < k ==> ' ' in s[..k]
  {
    if i < k { assert s[..k][i] == ' '; }
  }

  lemma {:induction false} SetsVariableExactly(command: string)
    ensures StartsWithEnvAssignment(command) <==> SetsVariable(command)
  {
    FirstWordExactly(command);
    if FirstWord(command).Some? {
      var w := FirstWord(command).value;
      ContainsExactly(w, "=");
      assert command[..|w|] == w;
      forall k | 0 <= k < |command| && command[k] == ' ' && ' ' !in command[..k] ensures k == |w| {
        FirstSpace(command, |w|, k);
        FirstSpace(command, k, |w|);
      }
    }
  }

  /** One of the parts stands somewhere in the text. */
  ghost predicate AnyOccurs(s: string, parts: seq<string>) {
    exists p :: p in parts && Occurs(s, p)
  }

  lemma {:induction false} ContainsAnyExactly(s: string, parts: seq<string>)
    ensures ContainsAny(s, parts) <==> AnyOccurs(s, parts)
  {
    hide Contains, Occurs;
    forall p ensures Contains(s, p) <==> Occurs(s, p) { ContainsExactly(s, p); }
    if exists p :: p in parts && Occurs(s, p) {
      var p :| p in parts && Occurs(s, p);
      var i :| 0 <= i < |parts| && parts[i] == p;
    }
  }

  /** No tag is found exactly when no extended rights are asked for, the text has none of the
      signs, and its first word sets no variable. */
  lemma {:induction false} HarmlessExactly(command: string, escalated: bool)
    ensures ShellTags(command, escalated) == [] <==>
      !escalated && (forall p :: p in SIGNS ==> !Occurs(Lower(command), p)) && !SetsVariable(command)
  {
    hide Contains, Occurs, AnyOccurs, ContainsAny, StartsWithEnvAssignment, SetsVariable, Lower;
    var lower := Lower(command);
    ContainsAnyExactly(lower, DESTRUCTIVE_PATTERNS);
    ContainsAnyExactly(lower, NETWORK_TOKENS);
    ContainsAnyExactly(lower, WRITE_TOKENS);
    ContainsExactly(lower, "sudo ");
    ContainsExactly(lower, "export ");
    SetsVariableExactly(command);
    SignsSplit(lower);
  }

  lemma {:induction false} SignsSplit(s: string)
    ensures (exists p :: p in SIGNS && Occurs(s, p)) <==>
      || AnyOccurs(s, DESTRUCTIVE_PATTERNS) || AnyOccurs(s, NETWORK_TOKENS) || AnyOccurs(s, WRITE_TOKENS)
      || Occurs(s, "sudo ") || Occurs(s, "export ")
  {
    hide Occurs;
    SignsAre();
  }

  lemma {:induction false} SignsAre()
    ensures forall p :: p in SIGNS <==>
      p in DESTRUCTIVE_PATTERNS || p in NETWORK_TOKENS || p in WRITE_TOKENS || p == "sudo " || p == "export "
  {
  }

  /** A shell command that can be read is allowed exactly when it is harmless. */
  lemma {:induction false} ShellAllowedExactly(inv: Invocation)
    requires IsShellLike(inv.toolName) && inv.shell.Some?
    ensures var text, escalated := Normalize(inv.shell.value.0), inv.shell.value.1;
      Evaluate(inv, None).kind == Allow <==>
      !escalated && (forall p :: p in SIGNS ==> !Occurs(Lower(text), p)) && !SetsVariable(text)
  {
    hide Evaluate, Normalize, ShellTags, Lower, Occurs, SetsVariable;
    ShellDecision(inv);
    HarmlessExactly(Normalize(inv.shell.value.0), inv.shell.value.1);
  }

  /** Which tag says what. */
  lemma {:induction false} TagsExactly(command: string, escalated: bool)
    ensures var tags, lower := ShellTags(command, escalated), Lower(command);
      && ("destructive" in tags <==> AnyOccurs(lower, ["rm -rf /", "mkfs", "dd if=", ":(){:|:&};:"]))
      && ("network" in tags <==>
            AnyOccurs(lower, ["curl ", "wget ", "ssh ", "scp ", "nc ", "nmap ", "ping ", "dig ", "nslookup "]))
      && ("privilege_escalation" in tags <==> Occurs(lower, "sudo "))
      && ("require_escalated" in tags <==> escalated)
      && ("write" in tags <==>
            AnyOccurs(lower, WRITE_TOKENS) || Occurs(lower, "export ") || SetsVariable(command))
  {
    hide Contains, Occurs, AnyOccurs, ContainsAny, StartsWithEnvAssignment, SetsVariable, Lower;
    var lower := Lower(command);
    ContainsAnyExactly(lower, DESTRUCTIVE_PATTERNS);
    ContainsAnyExactly(lower, NETWORK_TOKENS);
    ContainsAnyExactly(lower, WRITE_TOKENS);
    ContainsExactly(lower, "sudo ");
    ContainsExactly(lower, "export ");
    SetsVariableExactly(command);
    assert |"destructive"| == 11 && |"network"| == 7 && |"privilege_escalation"| == 20
      && |"require_escalated"| == 17 && |"write"| == 5;
  }

  /** Words set apart by any white space come out set apart by single spaces. */
  lemma {:induction false} NormalizeWords(before: string, words: seq<(string, string)>)
    requires ToolCommand.Blank(before)
    requires forall i :: 0 <= i < |words| ==> ToolCommand.Token(words[i].0, false) && ToolCommand.Blank(words[i].1)
    requires forall i :: 0 <= i < |words| - 1 ==> words[i].1 != ""
    ensures Normalize(before + Spread(words)) == Spaced(words)
    decreases |words|
  {
    hide ToolCommand.SkipSpaces, ToolCommand.Word;
    if words == [] {
      assert before + "" == before;
      ToolCommand.SkipGap(before, "");
    } else {
      var (word, gap) := words[0];
      var tail := gap + Spread(words[1..]);
      ToolCommand.SkipGap(before, word + tail);
      if |words| > 1 { assert tail[0] == gap[0]; } else { assert tail == gap; }
      ToolCommand.WordToken(word, false, tail);
      assert forall i :: 0 <= i < |words[1..]| ==> words[1..][i] == words[i + 1];
      NormalizeWords(gap, words[1..]);
      SpacedEmpty(words[1..]);
    }
  }

  /** Each word with the white space behind it. */
  function Spread(words: seq<(string, string)>): string {
    if words == [] then "" else words[0].0 + (words[0].1 + Spread(words[1..]))
  }

  function Spaced(words: seq<(string, string)>): string {
    if words == [] then "" else if |words| == 1 then words[0].0 else words[0].0 + " " + Spaced(words[1..])
  }

  lemma {:induction false} SpacedEmpty(words: seq<(string, string)>)
    requires forall i :: 0 <= i < |words| ==> words[i].0 != ""
    ensures Spaced(words) == "" <==> words == []
  {
  }

  // ---- What the rules get to see -----------------------------------------

  const READERS: set<string> := {"Read", "list_dir", "grep_files"}
  const OBSERVERS: set<string> := {"process_snapshot", "system_load", "disk_usage"}
  const SHELLS: set<string> := {"shell", "exec_command"}

  /** With no policy runtime, other tools: readers and observers are allowed, and so is a shell
      tool whose arguments cannot be read; edits and unknown tools are asked about. */
  lemma {:induction false} OtherToolsExactly(inv: Invocation)
    requires inv.toolName in SHELLS ==> inv.shell.None?
    ensures Evaluate(inv, None).kind == if inv.toolName in READERS + OBSERVERS + SHELLS then Allow else Ask
  {
    hide Evaluate;
    NoRuntimeExactly(inv);
    assert |"mutating"| != |PolicyRuntime.DESTRUCTIVE| by { assert |"mutating"| == 8 && |"destructive"| == 11; }
    KindsAreFour(Evaluate(inv, None).kind);
  }

  lemma {:induction false} KindsAreFour(k: Kind)
    ensures k in {Allow, Ask, Escalate, Deny}
  {
  }

  /** With no policy runtime each decision says which rule it comes from, and why. */
  lemma {:induction false} NoRuntimeBecause(inv: Invocation)
    ensures var d := Evaluate(inv, None);
      match d.kind
      case Allow =>
        && FullDescriptor(inv).Some?
        && d.ruleId == Some("descriptor:" + inv.toolName + ":" + FullDescriptor(inv).value.action)
        && d.reason == "tool `" + inv.toolName + "` is declared in policy descriptor"
      case Escalate =>
        && d.ruleId == Some("system:destructive_escalate")
        && d.reason == "destructive commands always require escalation approval"
      case Ask => d.ruleId == None && d.reason == "no matching rule; default decision applied"
      case Deny => false
  {
    hide Decide, FullDescriptor, Matches, ComparePrecedence;
    NoRuntimeExactly(inv);
    var d := FullDescriptor(inv);
    var input := ToInput(inv, d, 1);
    var rules := (if d.None? || d.value.riskTags != [] then [] else [AllowRule(d.value, inv.toolName)])
      + [PolicyRuntime.SYSTEM_RULE];
    DecidedByWinner(input, rules, Ask);
  }

  /** What an invocation offers to the rules of a policy runtime, fact by fact. */
  lemma {:induction false} OffersExactly(inv: Invocation, version: nat, d: Demand)
    ensures var tool := inv.toolName;
      d in Facts(ToInput(inv, FullDescriptor(inv), version)) <==>
      match d.field
      case ToolName => d.value == tool
      case SessionId => d.value == inv.session
      case Actor => d.value == "user"
      case Resource => d.value == inv.resource
      case Action =>
        || (d.value == "read" && tool in READERS) || (d.value == "write" && tool == "Edit")
        || (d.value == "observe" && tool in OBSERVERS) || (d.value == "exec" && tool in SHELLS)
        || (d.value == "invoke" && tool !in READERS + OBSERVERS + SHELLS + {"Edit"})
      case Capability =>
        || (d.value == "fs_read" && tool in READERS) || (d.value == "fs_write" && tool == "Edit")
        || (d.value == "process_exec" && tool in OBSERVERS + SHELLS)
      case RiskTag =>
        || (d.value == "mutating" && tool == "Edit")
        || (d.value == "unknown_tool_descriptor" && tool !in READERS + OBSERVERS + SHELLS + {"Edit"})
        || (tool in SHELLS && inv.shell.Some? && d.value in ShellTags(Normalize(inv.shell.value.0), inv.shell.value.1))
  {
    hide Inject, ShellTags, Normalize, Facts;
    Offers(ToInput(inv, FullDescriptor(inv), version), d);
    TagsOffered(inv, d.value);
  }

  lemma {:induction false} TagsOffered(inv: Invocation, tag: string)
    ensures var d := FullDescriptor(inv);
      d.Some? && inv.toolName in SHELLS ==>
        (tag in d.value.riskTags <==>
         inv.shell.Some? && tag in ShellTags(Normalize(inv.shell.value.0), inv.shell.value.1))
  {
    hide Inject, ShellTags, Normalize;
  }

  // ---- One call through the gate -----------------------------------------

  const MAX_APPROVED: nat := 256

  predicate Reusable(approved: set<nat>, tool: string, turn: nat) {
    IsMutating(tool) && !IsShellLike(tool) && turn in approved
  }

  function RecordApproval(approved: set<nat>, tool: string, turn: nat): set<nat> {
    if !IsMutating(tool) || IsShellLike(tool) then approved
    else
      var more := approved + {turn};
      if |more| > MAX_APPROVED then {} else more
  }

  predicate NeedsApproval(kind: Kind, approved: set<nat>, tool: string, turn: nat) {
    (kind == Ask || kind == Escalate) && !Reusable(approved, tool, turn)
  }

  /** The user's side of an approval request. */
  datatype Answer = Approved | Rejected | TimedOut | HandlerFailed

  datatype RunResult = PolicyDenied | ApprovalError(answer: Answer) | Dispatched

  function RunCall(approved: set<nat>, inv: Invocation, kind: Kind, answer: Answer): (set<nat>, RunResult) {
    if kind == Deny then (approved, PolicyDenied)
    else if NeedsApproval(kind, approved, inv.toolName, inv.turnId) then
      if answer != Approved then (approved, ApprovalError(answer))
      else (RecordApproval(approved, inv.toolName, inv.turnId), Dispatched)
    else (approved, Dispatched)
  }

  /** What a call comes to, by its tool's name, its turn and the answer: an edit in a turn that
      has an approval is not asked about again. */
  lemma {:induction false} RunCallExactly(approved: set<nat>, inv: Invocation, kind: Kind, answer: Answer)
    ensures var asked := (kind == Ask || kind == Escalate) && !(inv.toolName == "Edit" && inv.turnId in approved);
      var (after, r) := RunCall(approved, inv, kind, answer);
      && (r == PolicyDenied <==> kind == Deny)
      && (r == ApprovalError(answer) <==> asked && answer != Approved)
      && (r == Dispatched <==> kind == Allow || (kind != Deny && (!asked || answer == Approved)))
      && (after != approved ==> asked && answer == Approved && inv.toolName == "Edit")
      && (asked && answer == Approved && inv.toolName == "Edit" ==>
            after == if |approved + {inv.turnId}| <= 256 then approved + {inv.turnId} else {})
  {
  }

  class ToolOrchestrator {
    var approvedMutatingTurns: set<nat>

    constructor ()
      ensures approvedMutatingTurns == {}
    {
      approvedMutatingTurns := {};
    }

    method Run(inv: Invocation, runtime: Option<PolicyRuntime.Snapshot>, answer: Answer) returns (r: RunResult)
      modifies this
      ensures (approvedMutatingTurns, r) ==
        RunCall(old(approvedMutatingTurns), inv, Evaluate(inv, runtime).kind, answer)
    {
      hide Evaluate, RecordApproval;
      var kind := Evaluate(inv, runtime).kind;
      if kind == Deny {
        return PolicyDenied;
      }
      var reusable := IsMutating(inv.toolName) && !IsShellLike(inv.toolName) && inv.turnId in approvedMutatingTurns;
      if (kind == Ask || kind == Escalate) && !reusable {
        if answer != Approved {
          return ApprovalError(answer);
        }
        RecordMutatingApproval(inv.toolName, inv.turnId);
      }
      r := Dispatched;
    }

    method RecordMutatingApproval(tool: string, turn: nat)
      modifies this
      ensures approvedMutatingTurns == RecordApproval(old(approvedMutatingTurns), tool, turn)
    {
      if !IsMutating(tool) || IsShellLike(tool) {
        return;
      }
      approvedMutatingTurns := approvedMutatingTurns + {turn};
      if |approvedMutatingTurns| > MAX_APPROVED {
        approvedMutatingTurns := {};
      }
    }
  }

  // ---- Many calls at once ------------------------------------------------

  /** A call in flight; its policy decision may be anything. */
  datatype Call = Call(tool: string, turn: nat, kind: Kind)

  datatype Status = Waiting | Ready | Sent | Refused

  /** A run interleaves these steps of any number of calls, named by number. */
  datatype Step = Begin(id: nat, call: Call) | Reply(id: nat, answer: Answer) | Dispatch(id: nat)

  datatype Happened = WasApproved(id: nat) | WasDispatched(id: nat)

  datatype Gate = Gate(
    approved: set<nat>, calls: map<nat, Call>, status: map<nat, Status>, log: seq<Happened>)

  const OPENING: Gate := Gate({}, map[], map[], [])

  function Advance(g: Gate, step: Step): Gate {
    match step
    case Begin(id, call) =>
      if id in g.calls then g
      else
        var status :=
          if call.kind == Deny then Refused
          else if NeedsApproval(call.kind, g.approved, call.tool, call.turn) then Waiting
          else Ready;
        g.(calls := g.calls[id := call], status := g.status[id := status])
    case Reply(id, answer) =>
      if id !in g.calls || id !in g.status || g.status[id] != Waiting then g
      else if answer != Approved then g.(status := g.status[id := Refused])
      else
        g.(approved := RecordApproval(g.approved, g.calls[id].tool, g.calls[id].turn),
           status := g.status[id := Ready], log := g.log + [WasApproved(id)])
    case Dispatch(id) =>
      if id !in g.status || g.status[id] != Ready then g
      else g.(status := g.status[id := Sent], log := g.log + [WasDispatched(id)])
  }

  function AdvanceAll(steps: seq<Step>): Gate {
    if steps == [] then OPENING else Advance(AdvanceAll(steps[..|steps| - 1]), steps[|steps| - 1])
  }

  /** A mutating tool other than the shell. */
  predicate EditLike(c: Call) {
    IsMutating(c.tool) && !IsShellLike(c.tool)
  }

  /** `id` was approved among the first n things that happened. */
  predicate ApprovedBy(log: seq<Happened>, n: nat, id: nat) {
    exists q :: 0 <= q < n && q < |log| && log[q] == WasApproved(id)
  }

  /** Some edit-like call of this turn was approved among the first n things. */
  ghost predicate TurnApprovedBy(g: Gate, n: nat, turn: nat) {
    exists id :: id in g.calls && EditLike(g.calls[id]) && g.calls[id].turn == turn && ApprovedBy(g.log, n, id)
  }

  /** What entitles a call to be dispatched, within the first n things that happened. */
  ghost predicate Entitled(g: Gate, n: nat, id: nat)
    requires id in g.calls
  {
    var c := g.calls[id];
    && c.kind != Deny
    && (c.kind == Allow || ApprovedBy(g.log, n, id) || (EditLike(c) && TurnApprovedBy(g, n, c.turn)))
  }

  ghost predicate Inv(g: Gate) {
    && |g.approved| <= MAX_APPROVED
    && g.calls.Keys == g.status.Keys
    && (forall turn :: turn in g.approved ==> TurnApprovedBy(g, |g.log|, turn))
    && (forall id :: id in g.status && g.status[id] == Waiting ==> g.calls[id].kind != Deny)
    && (forall id :: id in g.status && g.status[id] == Ready ==> Entitled(g, |g.log|, id))
    && (forall p :: 0 <= p < |g.log| && g.log[p].WasDispatched? ==>
        g.log[p].id in g.calls && Entitled(g, p, g.log[p].id))
  }

  /** Entitlement is not lost as more calls come and more happens. */
  lemma {:induction false} EntitledStays(g: Gate, h: Gate, n: nat, m: nat, id: nat)
    requires id in g.calls && n <= m && n <= |g.log|
    requires g.log <= h.log && g.calls.Keys <= h.calls.Keys && forall x :: x in g.calls ==> h.calls[x] == g.calls[x]
    requires Entitled(g, n, id)
    ensures Entitled(h, m, id)
  {
  }

  lemma {:induction false} Grows(g: Gate, step: Step)
    requires Inv(g)
    ensures var h := Advance(g, step);
      && g.log <= h.log && g.calls.Keys <= h.calls.Keys && (forall x :: x in g.calls ==> h.calls[x] == g.calls[x])
      && |h.approved| <= MAX_APPROVED && h.calls.Keys == h.status.Keys
      && |g.log| <= |h.log| <= |g.log| + 1
  {
  }

  /** The parts of the invariant about what was there before the step. */
  lemma {:induction false} OldStays(g: Gate, step: Step)
    requires Inv(g)
    ensures var h := Advance(g, step);
      && (forall turn :: turn in g.approved ==> TurnApprovedBy(h, |h.log|, turn))
      && (forall id :: id in g.status && g.status[id] == Ready ==> Entitled(h, |h.log|, id))
      && (forall p :: 0 <= p < |g.log| && h.log[p].WasDispatched? ==>
          h.log[p].id in h.calls && Entitled(h, p, h.log[p].id))
  {
    Grows(g, step);
    hide Advance;
    var h := Advance(g, step);
    forall id | id in g.status && g.status[id] == Ready ensures Entitled(h, |h.log|, id) {
      EntitledStays(g, h, |g.log|, |h.log|, id);
    }
    forall p | 0 <= p < |g.log| && h.log[p].WasDispatched?
      ensures h.log[p].id in h.calls && Entitled(h, p, h.log[p].id) {
      assert h.log[p] == g.log[p];
      EntitledStays(g, h, p, p, h.log[p].id);
    }
  }

  lemma {:induction false} BeginKeeps(g: Gate, id: nat, call: Call)
    requires Inv(g)
    ensures Inv(Advance(g, Begin(id, call)))
  {
    hide TurnApprovedBy, ApprovedBy;
    var h := Advance(g, Begin(id, call));
    Grows(g, Begin(id, call));
    OldStays(g, Begin(id, call));
  }

  lemma {:induction false} ReplyKeeps(g: Gate, id: nat, answer: Answer)
    requires Inv(g)
    ensures Inv(Advance(g, Reply(id, answer)))
  {
    hide TurnApprovedBy, ApprovedBy, RecordApproval;
    var h := Advance(g, Reply(id, answer));
    Grows(g, Reply(id, answer));
    OldStays(g, Reply(id, answer));
    if h.log != g.log {
      assert h.log == g.log + [WasApproved(id)];
      NowApproved(h, id);
      RecordsOwnTurn(g.approved, h.calls[id]);
      forall turn | turn in h.approved && turn !in g.approved ensures TurnApprovedBy(h, |h.log|, turn) { }
    }
  }

  lemma {:induction false} NowApproved(h: Gate, id: nat)
    requires id in h.calls && h.log != [] && h.log[|h.log| - 1] == WasApproved(id)
    ensures ApprovedBy(h.log, |h.log|, id)
    ensures EditLike(h.calls[id]) ==> TurnApprovedBy(h, |h.log|, h.calls[id].turn)
  {
    assert ApprovedBy(h.log, |h.log|, id);
  }

  lemma {:induction false} RecordsOwnTurn(approved: set<nat>, c: Call)
    ensures forall turn :: turn in RecordApproval(approved, c.tool, c.turn) && turn !in approved ==>
      turn == c.turn && EditLike(c)
  {
  }

  lemma {:induction false} DispatchKeeps(g: Gate, id: nat)
    requires Inv(g)
    ensures Inv(Advance(g, Dispatch(id)))
  {
    hide TurnApprovedBy, ApprovedBy;
    var h := Advance(g, Dispatch(id));
    Grows(g, Dispatch(id));
    OldStays(g, Dispatch(id));
    if h.log != g.log {
      assert h.log[|g.log|] == WasDispatched(id);
      EntitledStays(g, h, |g.log|, |g.log|, id);
    }
  }

  lemma {:induction false} InvAlways(steps: seq<Step>)
    ensures Inv(AdvanceAll(steps))
  {
    hide Inv, Advance;
    if steps == [] {
      OpeningInv();
    } else {
      var g := AdvanceAll(steps[..|steps| - 1]);
      InvAlways(steps[..|steps| - 1]);
      match steps[|steps| - 1]
      case Begin(id, call) => BeginKeeps(g, id, call);
      case Reply(id, answer) => ReplyKeeps(g, id, answer);
      case Dispatch(id) => DispatchKeeps(g, id);
    }
  }

  lemma {:induction false} OpeningInv()
    ensures Inv(OPENING)
  {
  }

  /** However calls interleave: a call is dispatched only if it was allowed, or was
      itself approved before, or is a non-shell mutating call in whose turn such a
      call was approved before; a denied call never is; and the set of approved
      turns stays within its bound. */
  lemma {:induction false} DispatchIsEntitled(steps: seq<Step>, p: nat)
    requires p < |AdvanceAll(steps).log| && AdvanceAll(steps).log[p].WasDispatched?
    ensures var g := AdvanceAll(steps);
      var id := g.log[p].id;
      && id in g.calls
      && g.calls[id].kind != Deny
      && (g.calls[id].kind == Allow || ApprovedBy(g.log, p, id)
          || (EditLike(g.calls[id]) && TurnApprovedBy(g, p, g.calls[id].turn)))
      && |g.approved| <= MAX_APPROVED
  {
    hide TurnApprovedBy, ApprovedBy;
    InvAlways(steps);
  }

  // ---- An approval covers its turn ---------------------------------------

  /** The turns in which an edit has been approved. */
  ghost function ApprovedTurns(g: Gate): set<nat> {
    set id | id in g.calls && g.calls[id].tool == "Edit" && ApprovedBy(g.log, |g.log|, id) :: g.calls[id].turn
  }

  lemma {:induction false} ApprovedBySnoc(log: seq<Happened>, x: Happened, id: nat)
    ensures ApprovedBy(log + [x], |log| + 1, id) <==> ApprovedBy(log, |log|, id) || x == WasApproved(id)
  {
    var all := log + [x];
    assert all[|log|] == x && forall q :: 0 <= q < |log| ==> all[q] == log[q];
  }

  /** Whatever happened, happened to a call that has begun. */
  ghost predicate Known(g: Gate) {
    g.calls.Keys == g.status.Keys && forall q :: 0 <= q < |g.log| ==> g.log[q].id in g.calls
  }

  lemma {:induction false} KnownStep(g: Gate, step: Step)
    requires Known(g)
    ensures Known(Advance(g, step))
  {
    hide RecordApproval, NeedsApproval;
  }

  /** An edit that is approved adds its turn; nothing else adds or removes one. */
  lemma {:induction false} TurnsStep(g: Gate, step: Step)
    requires Known(g)
    ensures var h := Advance(g, step);
      ApprovedTurns(h) ==
      if step.Reply? && step.id in g.calls && g.status[step.id] == Waiting
         && step.answer == Approved && g.calls[step.id].tool == "Edit"
      then ApprovedTurns(g) + {g.calls[step.id].turn} else ApprovedTurns(g)
  {
    hide ApprovedBy, RecordApproval, NeedsApproval;
    var h := Advance(g, step);
    match step
    case Begin(id, call) =>
      if id !in g.calls { NotYetApproved(g, id); }
    case Reply(id, answer) =>
      forall x ensures ApprovedBy(g.log + [WasApproved(id)], |g.log| + 1, x) <==>
          ApprovedBy(g.log, |g.log|, x) || x == id
      {
        ApprovedBySnoc(g.log, WasApproved(id), x);
      }
    case Dispatch(id) =>
      forall x ensures ApprovedBy(g.log + [WasDispatched(id)], |g.log| + 1, x) <==> ApprovedBy(g.log, |g.log|, x) {
        ApprovedBySnoc(g.log, WasDispatched(id), x);
      }
  }

  lemma {:induction false} NotYetApproved(g: Gate, id: nat)
    requires Known(g) && id !in g.calls
    ensures !ApprovedBy(g.log, |g.log|, id)
  {
  }

  /** With no more turns than the gate can remember, it remembers them all. */
  ghost predicate Covers(g: Gate) {
    |ApprovedTurns(g)| <= MAX_APPROVED ==> g.approved == ApprovedTurns(g)
  }

  lemma {:induction false} CoversStep(g: Gate, step: Step)
    requires Known(g) && Covers(g)
    ensures Covers(Advance(g, step))
  {
    hide ApprovedTurns;
    var h := Advance(g, step);
    TurnsStep(g, step);
    FewerTurns(ApprovedTurns(g), ApprovedTurns(h));
  }

  lemma {:induction false} FewerTurns(a: set<nat>, b: set<nat>)
    ensures a <= b ==> |a| <= |b|
  {
    if a <= b {
      assert b == a + (b - a);
      assert |b| == |a| + |b - a|;
    }
  }

  lemma {:induction false} CoversAlways(steps: seq<Step>)
    ensures Known(AdvanceAll(steps)) && Covers(AdvanceAll(steps))
  {
    hide Advance, Known, Covers;
    if steps == [] {
      NothingApproved();
    } else {
      CoversAlways(steps[..|steps| - 1]);
      KnownStep(AdvanceAll(steps[..|steps| - 1]), steps[|steps| - 1]);
      CoversStep(AdvanceAll(steps[..|steps| - 1]), steps[|steps| - 1]);
    }
  }

  lemma {:induction false} NothingApproved()
    ensures Known(OPENING) && Covers(OPENING)
  {
    assert ApprovedTurns(OPENING) == {};
  }

  /** However calls interleave: a new call is refused exactly when it is denied, asked about
      exactly when the policy asks and it is no edit in a turn that has an approval, and ready
      otherwise, as long as no more turns have been approved than are remembered. */
  lemma {:induction false} AskedExactly(steps: seq<Step>, id: nat, call: Call)
    requires id !in AdvanceAll(steps).calls && |ApprovedTurns(AdvanceAll(steps))| <= 256
    ensures var g := AdvanceAll(steps);
      var h := Advance(g, Begin(id, call));
      && id in h.status
      && (h.status[id] == Refused <==> call.kind == Deny)
      && (h.status[id] == Waiting <==>
            (call.kind == Ask || call.kind == Escalate) && !(call.tool == "Edit" && call.turn in ApprovedTurns(g)))
      && (h.status[id] == Ready <==> h.status[id] != Refused && h.status[id] != Waiting)
  {
    hide ApprovedTurns;
    CoversAlways(steps);
  }

  /** A call that is ready is sent when it is dispatched, and a call that waits goes the way of
      the answer. */
  lemma {:induction false} AnswerDecides(g: Gate, id: nat, answer: Answer)
    requires id in g.calls && id in g.status
    ensures g.status[id] == Waiting ==>
      var h := Advance(g, Reply(id, answer));
      h.status[id] == (if answer == Approved then Ready else Refused)
      && h.log == (if answer == Approved then g.log + [WasApproved(id)] else g.log)
    ensures g.status[id] == Ready ==>
      var h := Advance(g, Dispatch(id)); h.status[id] == Sent && h.log == g.log + [WasDispatched(id)]
    ensures g.status[id] != Waiting ==> Advance(g, Reply(id, answer)) == g
    ensures g.status[id] != Ready ==> Advance(g, Dispatch(id)) == g
  {
    hide RecordApproval;
  }

  /** A call that runs without interruption is the three steps taken one after the other. */
  lemma {:induction false} RunIsThreeSteps(g: Gate, id: nat, inv: Invocation, kind: Kind, answer: Answer)
    requires id !in g.calls && id !in g.status
    ensures var call := Call(inv.toolName, inv.turnId, kind);
      var h := Advance(Advance(Advance(g, Begin(id, call)), Reply(id, answer)), Dispatch(id));
      var (approved, r) := RunCall(g.approved, inv, kind, answer);
      && h.approved == approved
      && (r == Dispatched <==> h.status[id] == Sent)
      && (r != Dispatched <==> h.status[id] == Refused)
  {
    hide RecordApproval;
  }
}
