/** The text block a shell tool prints (openjax-core/src/sandbox/mod.rs) and the
    parser that reads it back (openjax-core/src/tools/router_impl.rs). */
module ShellBlock {
  import opened Common
  import opened Decimal

  datatype Meta = Meta(
    resultClass: string, backend: string, exitCode: int, policyDecision: string, runtimeAllowed: bool,
    degradeReason: Option<string>, runtimeDenyReason: Option<string>)

  const STDOUT: string := "\nstdout:\n"
  const STDERR: string := "\nstderr:\n"

  // ---- Printing ----------------------------------------------------------

  function PrintBool(b: bool): string {
    if b then "true" else "false"
  }

  function OrNone(reason: Option<string>): string {
    match reason case Some(r) => r case None => "none"
  }

  function Field(name: string, value: string): string {
    name + "=" + value
  }

  /** The seven field lines and the exit code line, without a final line break. */
  function Header(m: Meta, command: string): string {
    Field("result_class", m.resultClass) + "\n" +
    (Field("command", command) + "\n" +
    (Field("backend", m.backend) + "\n" +
    (Field("policy_decision", m.policyDecision) + "\n" +
    (Field("runtime_allowed", PrintBool(m.runtimeAllowed)) + "\n" +
    (Field("degrade_reason", OrNone(m.degradeReason)) + "\n" +
    (Field("runtime_deny_reason", OrNone(m.runtimeDenyReason)) + "\n" +
     Field("exit_code", PrintInt(m.exitCode))))))))
  }

  function ModelContent(exitCode: int, stdout: string, stderr: string): string {
    Field("exit_code", PrintInt(exitCode)) + (STDOUT + (stdout + (STDERR + stderr)))
  }

  function Display(m: Meta, command: string, stdout: string, stderr: string): string {
    Header(m, command) + (STDOUT + (stdout + (STDERR + stderr)))
  }

  /** The block in full, line by line. */
  lemma {:induction false} DisplayIs(m: Meta, command: string, stdout: string, stderr: string)
    ensures Display(m, command, stdout, stderr) ==
      "result_class=" + m.resultClass + "\n" +
      ("command=" + command + "\n" +
      ("backend=" + m.backend + "\n" +
      ("policy_decision=" + m.policyDecision + "\n" +
      ("runtime_allowed=" + (if m.runtimeAllowed then "true" else "false") + "\n" +
      ("degrade_reason=" + (if m.degradeReason.Some? then m.degradeReason.value else "none") + "\n" +
      ("runtime_deny_reason=" + (if m.runtimeDenyReason.Some? then m.runtimeDenyReason.value else "none") + "\n" +
       ("exit_code=" + PrintInt(m.exitCode)))))))) +
      ("\nstdout:\n" + (stdout + ("\nstderr:\n" + stderr)))
    ensures ModelContent(m.exitCode, stdout, stderr) ==
      "exit_code=" + PrintInt(m.exitCode) + ("\nstdout:\n" + (stdout + ("\nstderr:\n" + stderr)))
  {
    hide PrintInt;
    assert "result_class" + "=" == "result_class=" && "command" + "=" == "command=" && "backend" + "=" == "backend=";
    assert "policy_decision" + "=" == "policy_decision=" && "runtime_allowed" + "=" == "runtime_allowed=";
    assert "degrade_reason" + "=" == "degrade_reason=" && "runtime_deny_reason" + "=" == "runtime_deny_reason=";
    assert "exit_code" + "=" == "exit_code=";
  }

  // ---- Parsing -----------------------------------------------------------

  /** `split_once`: at the first occurrence. */
  function SplitOnce(s: string, sep: string): Option<(string, string)> {
    if sep <= s then Some(("", s[|sep|..]))
    else if s == "" then None
    else match SplitOnce(s[1..], sep)
      case None => None
      case Some(p) => Some(([s[0]] + p.0, p.1))
  }

  /** A line ended by '\n' loses a carriage return before it. */
  function StripCr(line: string): string {
    if line != "" && line[|line| - 1] == '\r' then line[..|line| - 1] else line
  }

  function BreakAt(s: string): (i: nat)
    ensures i <= |s|
    ensures i < |s| ==> s[i] == '\n'
    ensures forall k :: 0 <= k < i ==> s[k] != '\n'
  {
    if s == "" || s[0] == '\n' then 0 else 1 + BreakAt(s[1..])
  }

  /** `str::lines`. */
  function Lines(s: string): seq<string>
    decreases |s|
  {
    if s == "" then []
    else
      var i := BreakAt(s);
      if i == |s| then [s] else [StripCr(s[..i])] + Lines(s[i + 1..])
  }

  /** What has been read of the header. */
  datatype Fields = Fields(
    resultClass: Option<string>, backend: Option<string>, exitCode: Option<int>, policyDecision: Option<string>,
    runtimeAllowed: Option<bool>, degradeReason: Option<string>, runtimeDenyReason: Option<string>)

  const NOTHING: Fields := Fields(None, None, None, None, None, None, None)

  function Value(line: string, name: string): Option<string> {
    if name + "=" <= line then Some(line[|name| + 1..]) else None
  }

  function ParseBool(s: string): Option<bool> {
    if s == "true" then Some(true) else if s == "false" then Some(false) else None
  }

  function OptionalField(v: string): Option<string> {
    if v == "" || v == "none" then None else Some(v)
  }

  function ReadLine(f: Fields, line: string): Fields {
    if Value(line, "result_class").Some? then f.(resultClass := Value(line, "result_class"))
    else if Value(line, "backend").Some? then f.(backend := Value(line, "backend"))
    else if Value(line, "exit_code").Some? then f.(exitCode := ParseI32(Value(line, "exit_code").value))
    else if Value(line, "policy_decision").Some? then f.(policyDecision := Value(line, "policy_decision"))
    else if Value(line, "runtime_allowed").Some? then
      f.(runtimeAllowed := ParseBool(Value(line, "runtime_allowed").value))
    else if Value(line, "degrade_reason").Some? then
      f.(degradeReason := OptionalField(Value(line, "degrade_reason").value))
    else if Value(line, "runtime_deny_reason").Some? then
      f.(runtimeDenyReason := OptionalField(Value(line, "runtime_deny_reason").value))
    else f
  }

  function ReadLines(f: Fields, lines: seq<string>): Fields {
    if lines == [] then f else ReadLine(ReadLines(f, lines[..|lines| - 1]), lines[|lines| - 1])
  }

  function Rebuild(exitCode: int, stdout: string, stderr: string): string {
    Field("exit_code", PrintInt(exitCode)) + (STDOUT + stdout) + (if stderr == "" then "" else STDERR + stderr)
  }

  function Complete(f: Fields): Option<Meta> {
    if f.exitCode.None? || f.resultClass.None? || f.backend.None? || f.policyDecision.None? || f.runtimeAllowed.None?
    then None
    else Some(Meta(f.resultClass.value, f.backend.value, f.exitCode.value, f.policyDecision.value,
                   f.runtimeAllowed.value, f.degradeReason, f.runtimeDenyReason))
  }

  function Parse(display: string): Option<(string, Meta)> {
    match SplitOnce(display, STDOUT)
    case None => None
    case Some(p) =>
      match SplitOnce(p.1, STDERR)
      case None => None
      case Some(q) =>
        match Complete(ReadLines(NOTHING, Lines(p.0)))
        case None => None
        case Some(m) => Some((Rebuild(m.exitCode, q.0, q.1), m))
  }

  method ParseShellDisplayOutput(display: string) returns (r: Option<(string, Meta)>)
    ensures r == Parse(display)
  {
    var outer := SplitOnce(display, STDOUT);
    if outer.None? {
      return None;
    }
    var inner := SplitOnce(outer.value.1, STDERR);
    if inner.None? {
      return None;
    }
    var lines := Lines(outer.value.0);
    var f := NOTHING;
    for i := 0 to |lines|
      invariant f == ReadLines(NOTHING, lines[..i])
    {
      assert lines[..i + 1][..i] == lines[..i];
      f := ReadLine(f, lines[i]);
    }
    assert lines[..|lines|] == lines;
    var m := Complete(f);
    if m.None? {
      return None;
    }
    r := Some((Rebuild(m.value.exitCode, inner.value.0, inner.value.1), m.value));
  }

  // ---- Splitting ---------------------------------------------------------

  ghost predicate OccursAt(s: string, sep: string, i: nat) {
    i <= |s| && sep <= s[i..]
  }

  lemma {:induction false} SplitFirst(h: string, sep: string, rest: string)
    requires forall i :: 0 <= i < |h| ==> !OccursAt(h + (sep + rest), sep, i)
    ensures SplitOnce(h + (sep + rest), sep) == Some((h, rest))
    decreases |h|
  {
    var s := h + (sep + rest);
    if h == "" {
      assert s == sep + rest && s[|sep|..] == rest;
    } else {
      assert s[0..] == s && !OccursAt(s, sep, 0);
      assert s[1..] == h[1..] + (sep + rest);
      forall i | 0 <= i < |h[1..]| ensures !OccursAt(s[1..], sep, i) {
        assert s[1..][i..] == s[i + 1..];
        assert !OccursAt(s, sep, i + 1);
      }
      SplitFirst(h[1..], sep, rest);
      assert [h[0]] + h[1..] == h;
    }
  }

  lemma {:induction false} Regroup(a: string, b: string, c: string)
    ensures (a + b) + c == a + (b + c)
  {
  }

  /** A split puts the text back together, and finds the separator no later than it occurs. */
  lemma {:induction false} SplitRejoins(h: string, sep: string, rest: string)
    ensures var p := SplitOnce(h + (sep + rest), sep);
      p.Some? && p.value.0 + (sep + p.value.1) == h + (sep + rest) && |p.value.0| <= |h|
    decreases |h|
  {
    var s := h + (sep + rest);
    if h == "" { assert s == sep + rest && sep <= s; }
    if sep <= s {
      assert s == sep + s[|sep|..];
      assert "" + s == s;
    } else {
      assert s[1..] == h[1..] + (sep + rest);
      SplitRejoins(h[1..], sep, rest);
      var q := SplitOnce(s[1..], sep).value;
      Regroup([s[0]], q.0, sep + q.1);
      assert s == [s[0]] + s[1..];
    }
  }

  /** The header has no stdout marker of its own. */
  ghost predicate MarkerFree(h: string) {
    forall i :: 0 <= i <= |h| ==> !OccursAt(h, STDOUT, i)
  }

  lemma {:induction false} HeaderEnd(m: Meta, command: string)
    ensures var h := Header(m, command); h != "" && IsDigit(h[|h| - 1])
  {
    var n := m.exitCode;
    var digits := PrintInt(n);
    LastDigit(n);
    var h, tail := Header(m, command), Field("exit_code", digits);
    assert tail[|tail| - 1] == digits[|digits| - 1];
  }

  lemma {:induction false} LastDigit(n: int)
    ensures IsDigit(PrintInt(n)[|PrintInt(n)| - 1])
  {
    if n < 0 { assert PrintInt(n)[|PrintInt(n)| - 1] == PrintNat(-n)[|PrintNat(-n)| - 1]; }
  }

  /** The marker overlaps itself by one character only: an occurrence that starts in
      `h` lies within it, or `h` ends in the character before that one. */
  lemma {:induction false} MarkerWithin(h: string, rest: string, i: nat)
    requires i < |h| && OccursAt(h + (STDOUT + rest), STDOUT, i)
    ensures OccursAt(h, STDOUT, i) || h[|h| - 1] == ':'
  {
    var s := h + (STDOUT + rest);
    assert forall k :: 0 <= k < 9 ==> STDOUT[k] == s[i..][k] == s[i + k];
    if i + 9 <= |h| {
      assert forall k :: 0 <= k < 9 ==> h[i..][k] == STDOUT[k];
    } else {
      var k := |h| - i;
      assert STDOUT[k] == s[|h|] == STDOUT[0];
      assert STDOUT[0] == '\n';
      assert k == 8;
      assert STDOUT[7] == s[i + 7] == h[|h| - 1];
    }
  }

  /** So, after a header that has no marker, the first marker is the printed one. */
  lemma {:induction false} FirstMarker(h: string, rest: string)
    requires MarkerFree(h) && h != "" && h[|h| - 1] != ':'
    ensures SplitOnce(h + (STDOUT + rest), STDOUT) == Some((h, rest))
  {
    forall i | 0 <= i < |h| ensures !OccursAt(h + (STDOUT + rest), STDOUT, i) {
      if OccursAt(h + (STDOUT + rest), STDOUT, i) { MarkerWithin(h, rest, i); }
    }
    SplitFirst(h, STDOUT, rest);
  }

  // ---- The contents ------------------------------------------------------

  /** What the parser rebuilds is the printed model content, but for an empty stderr section. */
  ghost predicate Rebuilds(content: string, exitCode: int, stdout: string, stderr: string) {
    || content == ModelContent(exitCode, stdout, stderr)
    || (stderr == "" && content + STDERR == ModelContent(exitCode, stdout, stderr))
  }

  /** For arbitrary stdout and stderr: the model content comes back as it was, except
      that an empty stderr section at the end is dropped. */
  lemma {:induction false} ContentRebuilt(exitCode: int, stdout: string, stderr: string)
    ensures var p := SplitOnce(stdout + (STDERR + stderr), STDERR);
      && p.Some?
      && var rebuilt := Rebuild(exitCode, p.value.0, p.value.1);
      && (p.value.1 != "" ==> rebuilt == ModelContent(exitCode, stdout, stderr))
      && (p.value.1 == "" ==>
          stderr == "" && p.value.0 == stdout && rebuilt + STDERR == ModelContent(exitCode, stdout, stderr))
  {
    SplitRejoins(stdout, STDERR, stderr);
    var p := SplitOnce(stdout + (STDERR + stderr), STDERR).value;
    var e := Field("exit_code", PrintInt(exitCode));
    Regroup(e, STDOUT + p.0, STDERR + p.1);
    Regroup(STDOUT, p.0, STDERR + p.1);
    if p.1 == "" {
      assert |p.0| + |STDERR| == |stdout| + |STDERR| + |stderr|;
      assert p.0 == (p.0 + (STDERR + p.1))[..|p.0|] == (stdout + (STDERR + stderr))[..|stdout|] == stdout;
      assert STDERR + p.1 == STDERR && e + (STDOUT + p.0) + "" == e + (STDOUT + p.0);
    }
  }

  // ---- Lines -------------------------------------------------------------

  lemma {:induction false} BreakIs(s: string, i: nat)
    requires i <= |s| && (i < |s| ==> s[i] == '\n') && forall k :: 0 <= k < i ==> s[k] != '\n'
    ensures BreakAt(s) == i
  {
  }

  /** A carriage return in front of a line break belongs to the break, alone it stays. */
  lemma {:induction false} CarriageReturns(line: string, rest: string)
    requires '\n' !in line && (line == "" || line[|line| - 1] != '\r')
    ensures Lines(line + "\r\n" + rest) == Lines(line + "\n" + rest) == [line] + Lines(rest)
    ensures Lines(line + "\r") == [line + "\r"]
  {
    hide Lines, StripCr;
    assert line + "\r\n" + rest == (line + "\r") + ("\n" + rest) && line + "\n" + rest == line + ("\n" + rest);
    EndedLine(line + "\r", rest);
    EndedLine(line, rest);
    Stripped(line);
    OnlyLine(line + "\r");
  }

  lemma {:induction false} EndedLine(line: string, rest: string)
    requires '\n' !in line
    ensures Lines(line + ("\n" + rest)) == [StripCr(line)] + Lines(rest)
  {
    hide Lines, StripCr;
    var s := line + ("\n" + rest);
    assert s[..|line|] == line && s[|line| + 1..] == rest;
    assert forall k :: 0 <= k < |line| ==> s[k] == line[k] && line[k] in line;
    LinesStep(s, |line|);
  }

  lemma {:induction false} Stripped(line: string)
    ensures StripCr(line + "\r") == line
    ensures (line == "" || line[|line| - 1] != '\r') ==> StripCr(line) == line
  {
  }

  lemma {:induction false} OnlyLine(line: string)
    requires '\n' !in line && line != ""
    ensures Lines(line) == [line]
  {
    assert forall k :: 0 <= k < |line| ==> line[k] in line;
    BreakIs(line, |line|);
  }

  lemma {:induction false} LinesStep(s: string, i: nat)
    requires i < |s| && s[i] == '\n' && forall k :: 0 <= k < i ==> s[k] != '\n'
    ensures Lines(s) == [StripCr(s[..i])] + Lines(s[i + 1..])
  {
    BreakIs(s, i);
  }

  lemma {:induction false} LinesConcat(a: string, b: string)
    ensures Lines(a + "\n" + b) == Lines(a + "\n") + Lines(b)
    decreases |a|
  {
    hide Lines, StripCr, BreakAt;
    var s, t := a + "\n", a + "\n" + b;
    assert s[|a|] == '\n' && t == s + b;
    var i := BreakAt(s);
    assert i <= |a|;
    assert forall k :: 0 <= k < |s| ==> t[k] == s[k];
    LinesStep(s, i);
    LinesStep(t, i);
    assert t[..i] == s[..i];
    var head, tail := [StripCr(s[..i])], s[i + 1..];
    assert t[i + 1..] == tail + b;
    assert Lines(tail + b) == Lines(tail) + Lines(b) by {
      if i == |a| {
        assert tail == "" && tail + b == b;
        NoLines();
      } else {
        var rest := a[i + 1..];
        assert tail == rest + "\n" && tail + b == rest + "\n" + b;
        LinesConcat(rest, b);
      }
    }
    assert head + (Lines(tail) + Lines(b)) == (head + Lines(tail)) + Lines(b);
  }

  lemma {:induction false} NoLines()
    ensures Lines("") == []
  {
  }

  predicate OneLine(v: string) {
    '\n' !in v && (v != "" ==> v[|v| - 1] != '\r')
  }

  lemma {:induction false} LineAlone(line: string)
    requires OneLine(line)
    ensures Lines(line + "\n") == [line]
    ensures line != "" ==> Lines(line) == [line]
  {
    BreakIs(line + "\n", |line|);
    assert (line + "\n")[..|line|] == line && (line + "\n")[|line| + 1..] == "";
    if line != "" { BreakIs(line, |line|); }
  }

  lemma {:induction false} ReadAppend(f: Fields, a: seq<string>, b: seq<string>)
    ensures ReadLines(f, a + b) == ReadLines(ReadLines(f, a), b)
    decreases |b|
  {
    hide ReadLine;
    if b == [] {
      assert a + b == a;
    } else {
      assert (a + b)[..|a + b| - 1] == a + b[..|b| - 1];
      ReadAppend(f, a, b[..|b| - 1]);
    }
  }

  lemma {:induction false} ReadOne(f: Fields, line: string)
    ensures ReadLines(f, [line]) == ReadLine(f, line)
  {
    assert [line][..0] == [];
  }

  /** The fields after the lines of `text`. */
  function ReadText(f: Fields, text: string): Fields {
    ReadLines(f, Lines(text))
  }

  lemma {:induction false} ReadTextConcat(f: Fields, a: string, b: string)
    ensures ReadText(f, a + "\n" + b) == ReadText(ReadText(f, a + "\n"), b)
  {
    LinesConcat(a, b);
    ReadAppend(f, Lines(a + "\n"), Lines(b));
  }

  lemma {:induction false} NotNamed(line: string, name: string, k: nat)
    requires k < |line| && k < |name| && line[k] != name[k]
    ensures Value(line, name) == None
  {
    assert (name + "=")[k] == name[k];
  }

  lemma {:induction false} Named(name: string, v: string)
    ensures Value(Field(name, v), name) == Some(v)
  {
    assert name + "=" <= Field(name, v);
    assert Field(name, v)[|name| + 1..] == v;
  }

  // ---- Single-line fields ------------------------------------------------

  ghost predicate PlainMeta(m: Meta, command: string) {
    && OneLine(m.resultClass) && OneLine(command) && OneLine(m.backend) && OneLine(m.policyDecision)
    && OneLine(OrNone(m.degradeReason)) && OneLine(OrNone(m.runtimeDenyReason)) && InI32(m.exitCode)
  }

  /** One single-line field in front of more text is read on its own. */
  lemma {:induction false} ReadField(f: Fields, name: string, v: string, rest: string)
    requires OneLine(v) && '\n' !in name
    ensures ReadText(f, Field(name, v) + "\n" + rest) == ReadText(ReadLine(f, Field(name, v)), rest)
  {
    hide ReadLine, ReadLines;
    ReadTextConcat(f, Field(name, v), rest);
    LineAlone(Field(name, v));
    ReadOne(f, Field(name, v));
  }

  /** Which field each of the printed lines sets. */
  lemma {:induction false} LineReads(f: Fields, v: string)
    ensures ReadLine(f, Field("result_class", v)) == f.(resultClass := Some(v))
    ensures ReadLine(f, Field("command", v)) == f
    ensures ReadLine(f, Field("backend", v)) == f.(backend := Some(v))
    ensures ReadLine(f, Field("policy_decision", v)) == f.(policyDecision := Some(v))
  {
    Named("result_class", v);
    Named("backend", v);
    Named("policy_decision", v);
    NotNamed(Field("backend", v), "result_class", 0);
    NotNamed(Field("policy_decision", v), "result_class", 0);
    NotNamed(Field("policy_decision", v), "backend", 0);
    NotNamed(Field("policy_decision", v), "exit_code", 0);
    NotNamed(Field("command", v), "result_class", 0);
    NotNamed(Field("command", v), "backend", 0);
    NotNamed(Field("command", v), "exit_code", 0);
    NotNamed(Field("command", v), "policy_decision", 0);
    NotNamed(Field("command", v), "runtime_allowed", 0);
    NotNamed(Field("command", v), "degrade_reason", 0);
    NotNamed(Field("command", v), "runtime_deny_reason", 0);
  }

  lemma {:induction false} MoreLineReads(f: Fields, v: string)
    ensures ReadLine(f, Field("runtime_allowed", v)) == f.(runtimeAllowed := ParseBool(v))
    ensures ReadLine(f, Field("degrade_reason", v)) == f.(degradeReason := OptionalField(v))
    ensures ReadLine(f, Field("exit_code", v)) == f.(exitCode := ParseI32(v))
  {
    hide ParseI32, ParseBool, OptionalField, Value;
    Named("runtime_allowed", v);
    Named("degrade_reason", v);
    Named("exit_code", v);
    NotNamed(Field("exit_code", v), "result_class", 0);
    NotNamed(Field("exit_code", v), "backend", 0);
    NotNamed(Field("degrade_reason", v), "result_class", 0);
    NotNamed(Field("degrade_reason", v), "backend", 0);
    NotNamed(Field("degrade_reason", v), "exit_code", 0);
    NotNamed(Field("degrade_reason", v), "policy_decision", 0);
    NotNamed(Field("degrade_reason", v), "runtime_allowed", 0);
    NotNamed(Field("runtime_allowed", v), "result_class", 1);
    NotNamed(Field("runtime_allowed", v), "backend", 0);
    NotNamed(Field("runtime_allowed", v), "exit_code", 0);
    NotNamed(Field("runtime_allowed", v), "policy_decision", 0);
  }

  lemma {:induction false} DenyLineReads(f: Fields, v: string)
    ensures ReadLine(f, Field("runtime_deny_reason", v)) == f.(runtimeDenyReason := OptionalField(v))
  {
    hide ParseI32, ParseBool, OptionalField, Value;
    Named("runtime_deny_reason", v);
    NotNamed(Field("runtime_deny_reason", v), "result_class", 1);
    NotNamed(Field("runtime_deny_reason", v), "backend", 0);
    NotNamed(Field("runtime_deny_reason", v), "exit_code", 0);
    NotNamed(Field("runtime_deny_reason", v), "policy_decision", 0);
    NotNamed(Field("runtime_deny_reason", v), "runtime_allowed", 8);
    NotNamed(Field("runtime_deny_reason", v), "degrade_reason", 0);
  }

  lemma {:induction false} ExitLine(f: Fields, n: int)
    requires InI32(n)
    ensures ReadText(f, Field("exit_code", PrintInt(n))) == f.(exitCode := Some(n))
  {
    hide ReadLine, ReadLines;
    var line := Field("exit_code", PrintInt(n));
    LineAlone(line);
    ReadOne(f, line);
    MoreLineReads(f, PrintInt(n));
    PrintedIntParses(n);
  }

  /** Absent, empty and "none" reasons are one and the same. */
  function Normal(reason: Option<string>): Option<string> {
    if reason == Some("") || reason == Some("none") then None else reason
  }

  /** With single-line fields the header is read back field by field. */
  lemma {:induction false} HeaderRead(m: Meta, command: string)
    requires PlainMeta(m, command)
    ensures Complete(ReadText(NOTHING, Header(m, command))) ==
      Some(m.(degradeReason := Normal(m.degradeReason), runtimeDenyReason := Normal(m.runtimeDenyReason)))
  {
    hide ReadText, ReadLine, PrintInt;
    var end := Field("exit_code", PrintInt(m.exitCode));
    var t7 := Field("runtime_deny_reason", OrNone(m.runtimeDenyReason)) + "\n" + end;
    var t6 := Field("degrade_reason", OrNone(m.degradeReason)) + "\n" + t7;
    var t5 := Field("runtime_allowed", PrintBool(m.runtimeAllowed)) + "\n" + t6;
    var t4 := Field("policy_decision", m.policyDecision) + "\n" + t5;
    var t3 := Field("backend", m.backend) + "\n" + t4;
    var t2 := Field("command", command) + "\n" + t3;
    ReadField(NOTHING, "result_class", m.resultClass, t2);
    LineReads(NOTHING, m.resultClass);
    var f1 := NOTHING.(resultClass := Some(m.resultClass));
    ReadField(f1, "command", command, t3);
    LineReads(f1, command);
    ReadField(f1, "backend", m.backend, t4);
    LineReads(f1, m.backend);
    var f3 := f1.(backend := Some(m.backend));
    ReadField(f3, "policy_decision", m.policyDecision, t5);
    LineReads(f3, m.policyDecision);
    HeaderTail(f3.(policyDecision := Some(m.policyDecision)), m);
  }

  lemma {:induction false} HeaderTail(f: Fields, m: Meta)
    requires OneLine(OrNone(m.degradeReason)) && OneLine(OrNone(m.runtimeDenyReason)) && InI32(m.exitCode)
    ensures ReadText(f,
      Field("runtime_allowed", PrintBool(m.runtimeAllowed)) + "\n" +
      (Field("degrade_reason", OrNone(m.degradeReason)) + "\n" +
      (Field("runtime_deny_reason", OrNone(m.runtimeDenyReason)) + "\n" + Field("exit_code", PrintInt(m.exitCode))))) ==
      f.(runtimeAllowed := Some(m.runtimeAllowed), degradeReason := Normal(m.degradeReason),
         runtimeDenyReason := Normal(m.runtimeDenyReason), exitCode := Some(m.exitCode))
  {
    hide ReadText, ReadLine, PrintInt;
    var end := Field("exit_code", PrintInt(m.exitCode));
    var t7 := Field("runtime_deny_reason", OrNone(m.runtimeDenyReason)) + "\n" + end;
    var t6 := Field("degrade_reason", OrNone(m.degradeReason)) + "\n" + t7;
    ReadField(f, "runtime_allowed", PrintBool(m.runtimeAllowed), t6);
    MoreLineReads(f, PrintBool(m.runtimeAllowed));
    var f5 := f.(runtimeAllowed := Some(m.runtimeAllowed));
    assert ParseBool(PrintBool(m.runtimeAllowed)) == Some(m.runtimeAllowed) by { assert |"true"| != |"false"|; }
    ReadField(f5, "degrade_reason", OrNone(m.degradeReason), t7);
    MoreLineReads(f5, OrNone(m.degradeReason));
    var f6 := f5.(degradeReason := Normal(m.degradeReason));
    ReadField(f6, "runtime_deny_reason", OrNone(m.runtimeDenyReason), end);
    DenyLineReads(f6, OrNone(m.runtimeDenyReason));
    ExitLine(f6.(runtimeDenyReason := Normal(m.runtimeDenyReason)), m.exitCode);
  }

  /** Every line break is followed by a character other than the marker's first. */
  ghost predicate CalmBreaks(h: string) {
    forall i :: 0 <= i < |h| && h[i] == '\n' ==> i + 1 < |h| && h[i + 1] != 's'
  }

  lemma {:induction false} CalmIsMarkerFree(h: string)
    requires CalmBreaks(h)
    ensures MarkerFree(h)
  {
    forall i | 0 <= i <= |h| ensures !OccursAt(h, STDOUT, i) {
      if i < |h| && h[i] == '\n' {
        assert h[i..][1] == h[i + 1] && STDOUT[1] == 's';
      } else if i < |h| {
        assert h[i..][0] == h[i] && STDOUT[0] == '\n';
      }
    }
  }

  lemma {:induction false} CalmField(name: string, v: string, rest: string)
    requires name != "" && name[0] != 's' && '\n' !in name && OneLine(v)
    requires CalmBreaks(rest) && rest != "" && rest[0] != 's'
    ensures var h := Field(name, v) + "\n" + rest; CalmBreaks(h) && h != "" && h[0] != 's'
  {
    var line, h := Field(name, v), Field(name, v) + "\n" + rest;
    assert forall i :: 0 <= i < |line| ==> h[i] == line[i];
    assert forall i :: |line| < i < |h| ==> h[i] == rest[i - |line| - 1];
    assert h[|line| + 1] == rest[0];
    assert h[0] == name[0];
  }

  lemma {:induction false} CalmExit(n: int)
    ensures var end := Field("exit_code", PrintInt(n)); CalmBreaks(end) && end != "" && end[0] == 'e'
  {
    var end := Field("exit_code", PrintInt(n));

  }

  lemma {:induction false} CalmHeader(m: Meta, command: string)
    requires PlainMeta(m, command)
    ensures CalmBreaks(Header(m, command))
  {
    hide CalmBreaks, Field, OneLine, PrintInt;
    var end := Field("exit_code", PrintInt(m.exitCode));
    var t7 := Field("runtime_deny_reason", OrNone(m.runtimeDenyReason)) + "\n" + end;
    var t6 := Field("degrade_reason", OrNone(m.degradeReason)) + "\n" + t7;
    var t5 := Field("runtime_allowed", PrintBool(m.runtimeAllowed)) + "\n" + t6;
    var t4 := Field("policy_decision", m.policyDecision) + "\n" + t5;
    var t3 := Field("backend", m.backend) + "\n" + t4;
    var t2 := Field("command", command) + "\n" + t3;
    CalmExit(m.exitCode);
    CalmField("runtime_deny_reason", OrNone(m.runtimeDenyReason), end);
    CalmField("degrade_reason", OrNone(m.degradeReason), t7);
    CalmField("runtime_allowed", PrintBool(m.runtimeAllowed), t6);
    CalmField("policy_decision", m.policyDecision, t5);
    CalmField("backend", m.backend, t4);
    CalmField("command", command, t3);
    CalmField("result_class", m.resultClass, t2);
  }

  /** Parsing a printed block whose header has no marker comes down to its header's lines. */
  lemma {:induction false} ParsePrinted(m: Meta, command: string, stdout: string, stderr: string)
    requires MarkerFree(Header(m, command))
    ensures var p := SplitOnce(stdout + (STDERR + stderr), STDERR);
      && p.Some?
      && Parse(Display(m, command, stdout, stderr)) ==
         (match Complete(ReadText(NOTHING, Header(m, command)))
          case None => None
          case Some(r) => Some((Rebuild(r.exitCode, p.value.0, p.value.1), r)))
  {
    hide ReadText, Complete;
    HeaderEnd(m, command);
    var body := stdout + (STDERR + stderr);
    FirstMarker(Header(m, command), body);
    SplitRejoins(stdout, STDERR, stderr);
    ReadTextIs(Header(m, command));
  }

  lemma {:induction false} ReadTextIs(h: string)
    ensures ReadText(NOTHING, h) == ReadLines(NOTHING, Lines(h))
  {
  }

  /** The round trip: with single-line header fields all metadata comes back, reasons
      up to normal form, and the model content is rebuilt. */
  lemma {:induction false} MetadataRecovered(m: Meta, command: string, stdout: string, stderr: string)
    requires PlainMeta(m, command)
    ensures var r := Parse(Display(m, command, stdout, stderr));
      && r.Some?
      && r.value.1 == m.(degradeReason := Normal(m.degradeReason), runtimeDenyReason := Normal(m.runtimeDenyReason))
      && Rebuilds(r.value.0, m.exitCode, stdout, stderr)
  {
    hide Header, ReadText, Complete, Rebuild, ModelContent, Parse, Display, SplitOnce;
    CalmHeader(m, command);
    CalmIsMarkerFree(Header(m, command));
    ParsePrinted(m, command, stdout, stderr);
    HeaderRead(m, command);
    ContentRebuilt(m.exitCode, stdout, stderr);
  }

  // ---- Any header --------------------------------------------------------

  /** The value on the last line that starts with `name=`. */
  function LastValue(lines: seq<string>, name: string): Option<string> {
    if lines == [] then None
    else
      var v := Value(lines[|lines| - 1], name);
      if v.Some? then v else LastValue(lines[..|lines| - 1], name)
  }

  function LastReason(lines: seq<string>, name: string): Option<string> {
    match LastValue(lines, name) case Some(v) => OptionalField(v) case None => None
  }

  /** Each field by itself, out of the last line that has its name. */
  function FieldsOf(lines: seq<string>): Fields {
    Fields(
      LastValue(lines, "result_class"),
      LastValue(lines, "backend"),
      match LastValue(lines, "exit_code") case Some(v) => ParseI32(v) case None => None,
      LastValue(lines, "policy_decision"),
      match LastValue(lines, "runtime_allowed") case Some(v) => ParseBool(v) case None => None,
      LastReason(lines, "degrade_reason"),
      LastReason(lines, "runtime_deny_reason"))
  }

  lemma {:induction false} Starts(line: string, name: string, k: nat)
    requires k < |name|
    ensures Value(line, name).Some? ==> k < |line| && line[k] == name[k]
  {
    assert (name + "=")[k] == name[k];
  }

  /** A line has at most one of the names. */
  lemma {:induction false} NamesExclude(line: string)
    ensures Value(line, "backend").Some? ==> line != "" && line[0] == 'b'
    ensures Value(line, "exit_code").Some? ==> line != "" && line[0] == 'e'
    ensures Value(line, "policy_decision").Some? ==> line != "" && line[0] == 'p'
    ensures Value(line, "degrade_reason").Some? ==> line != "" && line[0] == 'd'
    ensures Value(line, "result_class").Some? ==> |line| > 1 && line[0] == 'r' && line[1] == 'e'
    ensures Value(line, "runtime_allowed").Some? ==> |line| > 8 && line[0] == 'r' && line[1] == 'u' && line[8] == 'a'
    ensures Value(line, "runtime_deny_reason").Some? ==>
        |line| > 8 && line[0] == 'r' && line[1] == 'u' && line[8] == 'd'
  {
    hide Value;
    Starts(line, "backend", 0);
    Starts(line, "exit_code", 0);
    Starts(line, "policy_decision", 0);
    Starts(line, "degrade_reason", 0);
    Starts(line, "result_class", 0);
    Starts(line, "result_class", 1);
    Starts(line, "runtime_allowed", 0);
    Starts(line, "runtime_allowed", 1);
    Starts(line, "runtime_allowed", 8);
    Starts(line, "runtime_deny_reason", 0);
    Starts(line, "runtime_deny_reason", 1);
    Starts(line, "runtime_deny_reason", 8);
  }

  function Or<T>(a: Option<T>, b: Option<T>): Option<T> {
    if a.Some? then a else b
  }

  /** Every field is set by a line with its name and kept by any other line. */
  lemma {:induction false} LineSets(f: Fields, line: string)
    ensures var g := ReadLine(f, line);
      && g.resultClass == Or(Value(line, "result_class"), f.resultClass)
      && g.backend == Or(Value(line, "backend"), f.backend)
      && g.policyDecision == Or(Value(line, "policy_decision"), f.policyDecision)
      && g.exitCode == (match Value(line, "exit_code") case Some(v) => ParseI32(v) case None => f.exitCode)
      && g.runtimeAllowed ==
          (match Value(line, "runtime_allowed") case Some(v) => ParseBool(v) case None => f.runtimeAllowed)
      && g.degradeReason ==
          (match Value(line, "degrade_reason") case Some(v) => OptionalField(v) case None => f.degradeReason)
      && g.runtimeDenyReason ==
           (match Value(line, "runtime_deny_reason") case Some(v) => OptionalField(v) case None => f.runtimeDenyReason)
  {
    hide Value, ParseI32, ParseBool, OptionalField;
    NamesExclude(line);
  }

  /** What is read of any lines: each field on its last line. */
  lemma {:induction false} FieldsAreLast(lines: seq<string>)
    ensures ReadLines(NOTHING, lines) == FieldsOf(lines)
  {
    hide ReadLine, Value, ParseI32, ParseBool, OptionalField;
    if lines != [] {
      FieldsAreLast(lines[..|lines| - 1]);
      LineSets(ReadLines(NOTHING, lines[..|lines| - 1]), lines[|lines| - 1]);
    }
  }

  /** Once read, these fields stay read. */
  predicate Keeps(f: Fields, g: Fields) {
    && (f.resultClass.Some? ==> g.resultClass.Some?)
    && (f.backend.Some? ==> g.backend.Some?)
    && (f.policyDecision.Some? ==> g.policyDecision.Some?)
  }

  lemma {:induction false} ReadKeeps(f: Fields, lines: seq<string>)
    ensures Keeps(f, ReadLines(f, lines))
  {
    hide Value;
    if lines != [] { ReadKeeps(f, lines[..|lines| - 1]); }
  }

  /** The first line of a field, whatever its value, is that field. */
  lemma {:induction false} FirstLine(f: Fields, name: string, v: string)
    requires '\n' !in name
    ensures exists w, lines :: ReadText(f, Field(name, v) + "\n") == ReadLines(ReadLine(f, Field(name, w)), lines)
  {
    hide ReadLine, ReadLines, Lines;
    var s := Field(name, v) + "\n";
    var i := BreakAt(s);
    assert s[|s| - 1] == '\n' && i < |s|;
    assert forall k :: 0 <= k < |name| ==> s[k] == name[k];
    assert s[|name|] == '=';
    LinesStep(s, i);
    var line := StripCr(s[..i]);
    assert name + "=" <= line by {
      assert s[..i][|name|] == '=';
      assert name + "=" <= s[..i];
    }
    var w := line[|name| + 1..];
    assert line == Field(name, w);
    ReadAppend(f, [line], Lines(s[i + 1..]));
    ReadOne(f, line);
    assert ReadText(f, s) == ReadLines(ReadLine(f, Field(name, w)), Lines(s[i + 1..]));
  }

  lemma {:induction false} FieldSets(f: Fields, v: string)
    ensures ReadText(f, Field("result_class", v) + "\n").resultClass.Some?
    ensures ReadText(f, Field("backend", v) + "\n").backend.Some?
    ensures ReadText(f, Field("policy_decision", v) + "\n").policyDecision.Some?
  {
    hide ReadText, ReadLine, ReadLines;
    FirstLine(f, "result_class", v);
    var w1, l1 :| ReadText(f, Field("result_class", v) + "\n") == ReadLines(ReadLine(f, Field("result_class", w1)), l1);
    LineReads(f, w1);
    ReadKeeps(ReadLine(f, Field("result_class", w1)), l1);
    FirstLine(f, "backend", v);
    var w2, l2 :| ReadText(f, Field("backend", v) + "\n") == ReadLines(ReadLine(f, Field("backend", w2)), l2);
    LineReads(f, w2);
    ReadKeeps(ReadLine(f, Field("backend", w2)), l2);
    FirstLine(f, "policy_decision", v);
    var w3, l3 :| ReadText(f, Field("policy_decision", v) + "\n") ==
        ReadLines(ReadLine(f, Field("policy_decision", w3)), l3);
    LineReads(f, w3);
    ReadKeeps(ReadLine(f, Field("policy_decision", w3)), l3);
  }

  lemma {:induction false} TextKeeps(f: Fields, text: string)
    ensures Keeps(f, ReadText(f, text))
  {
    ReadKeeps(f, Lines(text));
  }

  /** Whatever its fields contain, a printed header yields a result class, a backend, a
      policy decision and, on its last line, the exit code. */
  lemma {:induction false} HeaderYields(m: Meta, command: string)
    requires InI32(m.exitCode)
    ensures var f := ReadText(NOTHING, Header(m, command));
      f.resultClass.Some? && f.backend.Some? && f.policyDecision.Some? && f.exitCode == Some(m.exitCode)
  {
    hide ReadText, PrintInt, PrintBool, OrNone;
    var end := Field("exit_code", PrintInt(m.exitCode));
    var a7 := Field("runtime_deny_reason", OrNone(m.runtimeDenyReason));
    var a6 := Field("degrade_reason", OrNone(m.degradeReason));
    var a5 := Field("runtime_allowed", PrintBool(m.runtimeAllowed));
    var a4 := Field("policy_decision", m.policyDecision);
    var a3 := Field("backend", m.backend);
    var a2 := Field("command", command);
    var a1 := Field("result_class", m.resultClass);
    var t7 := a7 + "\n" + end;
    var t6 := a6 + "\n" + t7;
    var t5 := a5 + "\n" + t6;
    var t4 := a4 + "\n" + t5;
    var t3 := a3 + "\n" + t4;
    var t2 := a2 + "\n" + t3;
    var f1 := ReadText(NOTHING, a1 + "\n");
    var f2 := ReadText(f1, a2 + "\n");
    var f3 := ReadText(f2, a3 + "\n");
    var f4 := ReadText(f3, a4 + "\n");
    var f5 := ReadText(f4, a5 + "\n");
    var f6 := ReadText(f5, a6 + "\n");
    var f7 := ReadText(f6, a7 + "\n");
    ReadTextConcat(NOTHING, a1, t2);
    ReadTextConcat(f1, a2, t3);
    ReadTextConcat(f2, a3, t4);
    ReadTextConcat(f3, a4, t5);
    ReadTextConcat(f4, a5, t6);
    ReadTextConcat(f5, a6, t7);
    ReadTextConcat(f6, a7, end);
    FieldSets(NOTHING, m.resultClass);
    TextKeeps(f1, a2 + "\n");
    FieldSets(f2, m.backend);
    TextKeeps(f2, a3 + "\n");
    FieldSets(f3, m.policyDecision);
    TextKeeps(f3, a4 + "\n");
    TextKeeps(f4, a5 + "\n");
    TextKeeps(f5, a6 + "\n");
    TextKeeps(f6, a7 + "\n");
    ExitLine(f7, m.exitCode);
  }

  // ---- Any header at all --------------------------------------------------

  /** What the parser takes for the header: the text before the header's own first marker,
      or all of it when it has none. */
  function Front(h: string): string {
    match SplitOnce(h, STDOUT) case None => h case Some(p) => p.0
  }

  lemma {:induction false} SplitNone(s: string, sep: string)
    ensures SplitOnce(s, sep).None? <==> forall i :: 0 <= i <= |s| ==> !OccursAt(s, sep, i)
  {
    assert s[0..] == s;
    if sep <= s {
      assert OccursAt(s, sep, 0);
    } else if s != "" {
      SplitNone(s[1..], sep);
      assert forall i :: 0 <= i <= |s[1..]| ==> s[1..][i..] == s[i + 1..];
      assert forall i :: 0 <= i <= |s[1..]| ==> (OccursAt(s[1..], sep, i) <==> OccursAt(s, sep, i + 1));
      assert forall i :: 0 < i <= |s| ==> (OccursAt(s, sep, i) <==> OccursAt(s[1..], sep, i - 1));
    }
  }

  lemma {:induction false} PrefixOfFront(sep: string, s: string, t: string)
    requires |sep| <= |s|
    ensures sep <= s + t <==> sep <= s
  {
    assert (s + t)[..|sep|] == s[..|sep|];
  }

  lemma {:induction false} SplitExtends(s: string, sep: string, t: string)
    requires SplitOnce(s, sep).Some?
    ensures var p := SplitOnce(s, sep).value;
      s == p.0 + (sep + p.1) && SplitOnce(s + t, sep) == Some((p.0, p.1 + t))
  {
    if sep <= s {
      SplitHere(s, sep);
      SplitHere(s + t, sep);
      assert (s + t)[|sep|..] == s[|sep|..] + t;
    } else {
      SplitExtends(s[1..], sep, t);
      PrefixOfFront(sep, s, t);
      var p := SplitOnce(s[1..], sep).value;
      assert (s + t)[1..] == s[1..] + t;
      Regroup([s[0]], p.0, sep + p.1);
      assert s == [s[0]] + s[1..];
    }
  }

  lemma {:induction false} SplitHere(s: string, sep: string)
    requires sep <= s
    ensures SplitOnce(s, sep) == Some(("", s[|sep|..])) && s == "" + (sep + s[|sep|..])
  {
  }

  lemma {:induction false} FrontIs(h: string, rest: string)
    requires h != "" && IsDigit(h[|h| - 1])
    ensures MarkerFree(h) <==> SplitOnce(h, STDOUT).None?
    ensures MarkerFree(h) ==> SplitOnce(h + (STDOUT + rest), STDOUT) == Some((h, rest))
    ensures !MarkerFree(h) ==>
      var p := SplitOnce(h, STDOUT).value;
      p.1 != "" && SplitOnce(h + (STDOUT + rest), STDOUT) == Some((p.0, p.1 + (STDOUT + rest)))
  {
    SplitNone(h, STDOUT);
    if MarkerFree(h) {
      FirstMarker(h, rest);
    } else {
      SplitExtends(h, STDOUT, STDOUT + rest);
      var p := SplitOnce(h, STDOUT).value;
      assert (p.0 + (STDOUT + ""))[|p.0| + 8] == STDOUT[8] == '\n';
    }
  }

  /** Two texts that go on after an exit code say the same one, and go on alike. */
  lemma {:induction false} SameExit(a: int, b: int, x: string, y: string)
    requires Field("exit_code", PrintInt(a)) + (STDOUT + x) == Field("exit_code", PrintInt(b)) + (STDOUT + y)
    ensures x == y
  {
    hide Field, PrintInt;
    NoBreak(a);
    NoBreak(b);
    SameLine(Field("exit_code", PrintInt(a)), Field("exit_code", PrintInt(b)), x, y);
  }

  lemma {:induction false} SameLine(s: string, t: string, x: string, y: string)
    requires forall k :: 0 <= k < |s| ==> s[k] != '\n'
    requires forall k :: 0 <= k < |t| ==> t[k] != '\n'
    requires s + (STDOUT + x) == t + (STDOUT + y)
    ensures x == y
  {
    EndOfLine(s, x);
    EndOfLine(t, y);
    var u := s + (STDOUT + x);
    assert |s| == BreakAt(u) == |t|;
    assert x == u[|s| + 9..] == y;
  }

  lemma {:induction false} EndOfLine(s: string, x: string)
    requires forall k :: 0 <= k < |s| ==> s[k] != '\n'
    ensures BreakAt(s + (STDOUT + x)) == |s|
  {
    var u := s + (STDOUT + x);
    assert u[|s|] == '\n' && forall k :: 0 <= k < |s| ==> u[k] == s[k];
    BreakIs(u, |s|);
  }

  lemma {:induction false} NoBreak(n: int)
    ensures forall k :: 0 <= k < |Field("exit_code", PrintInt(n))| ==> Field("exit_code", PrintInt(n))[k] != '\n'
  {
    var digits := PrintInt(n);
    assert forall k :: 1 <= k < |digits| ==> n < 0 ==> digits[k] == PrintNat(-n)[k - 1];
    assert forall k :: 0 <= k < |digits| ==> digits[k] != '\n';
    assert forall k :: 0 <= k < 10 ==> "exit_code="[k] != '\n';
  }

  /** The body of what is rebuilt from the two sections. */
  function Sections(stdout: string, stderr: string): string {
    stdout + (if stderr == "" then "" else STDERR + stderr)
  }

  lemma {:induction false} RebuiltIs(exitCode: int, stdout: string, stderr: string)
    ensures Rebuild(exitCode, stdout, stderr) ==
        Field("exit_code", PrintInt(exitCode)) + (STDOUT + Sections(stdout, stderr))
  {
    hide Field, PrintInt;
    var e, r := Field("exit_code", PrintInt(exitCode)), if stderr == "" then "" else STDERR + stderr;
    Regroup(e, STDOUT + stdout, r);
    Regroup(STDOUT, stdout, r);
  }

  /** A body longer than the printed one rebuilds something else. */
  lemma {:induction false} LongerDiffers(exitCode: int, a: string, b: string, printed: int, stdout: string,
      stderr: string)
    requires |Sections(a, b)| > |stdout| + 9 + |stderr|
    ensures !Rebuilds(Rebuild(exitCode, a, b), printed, stdout, stderr)
  {
    hide Field, PrintInt, Rebuild, Sections;
    RebuiltIs(exitCode, a, b);
    var content, e := Rebuild(exitCode, a, b), Field("exit_code", PrintInt(exitCode));
    if content == ModelContent(printed, stdout, stderr) {
      SameExit(exitCode, printed, Sections(a, b), stdout + (STDERR + stderr));
    }
    if content + STDERR == ModelContent(printed, stdout, stderr) {
      Regroup(e, STDOUT + Sections(a, b), STDERR);
      Regroup(STDOUT, Sections(a, b), STDERR);
      SameExit(exitCode, printed, Sections(a, b) + STDERR, stdout + (STDERR + stderr));
    }
  }

  /** What follows a marker inside the header ends up in the content, which is then too long. */
  lemma {:induction false} ContentTooLong(tail: string, exitCode: int, printed: int, stdout: string, stderr: string)
    requires tail != ""
    ensures var p := SplitOnce(tail + (STDOUT + (stdout + (STDERR + stderr))), STDERR);
      p.Some? && !Rebuilds(Rebuild(exitCode, p.value.0, p.value.1), printed, stdout, stderr)
  {
    hide SplitOnce, Rebuild, Rebuilds;
    var all, front := tail + (STDOUT + (stdout + (STDERR + stderr))), tail + STDOUT + stdout;
    assert all == front + (STDERR + stderr);
    SplitRejoins(front, STDERR, stderr);
    var p := SplitOnce(all, STDERR).value;
    assert |p.0| + 9 + |p.1| == |front| + 9 + |stderr|;
    LongerDiffers(exitCode, p.0, p.1, printed, stdout, stderr);
  }

  /** For any fields whatever.  What the parser reads is the header up to its own first
      marker: every field is the one on its last line there, and the block is read back
      exactly when all required ones are.  Without a marker only `runtime_allowed` can be
      missing.  The model content is rebuilt exactly when the header has no marker. */
  lemma {:induction false} ReadBackExactly(m: Meta, command: string, stdout: string, stderr: string)
    requires InI32(m.exitCode)
    ensures var h := Header(m, command);
      var r, f := Parse(Display(m, command, stdout, stderr)), FieldsOf(Lines(Front(h)));
      && (r.Some? <==> Complete(f).Some?)
      && (r.Some? ==> Complete(f) == Some(r.value.1))
      && (MarkerFree(h) ==> Front(h) == h && f.exitCode == Some(m.exitCode) && (r.Some? <==> f.runtimeAllowed.Some?))
      && (r.Some? ==> (Rebuilds(r.value.0, m.exitCode, stdout, stderr) <==> MarkerFree(h)))
  {
    hide Header, Rebuild, ModelContent, SplitOnce, ReadLines, Lines, FieldsOf, MarkerFree;
    var h, body := Header(m, command), stdout + (STDERR + stderr);
    HeaderEnd(m, command);
    FrontIs(h, body);
    FieldsAreLast(Lines(Front(h)));
    ReadTextIs(Front(h));
    if MarkerFree(h) {
      HeaderYields(m, command);
      ContentRebuilt(m.exitCode, stdout, stderr);
    } else {
      var f := FieldsOf(Lines(Front(h)));
      var exitCode := if f.exitCode.Some? then f.exitCode.value else 0;
      ContentTooLong(SplitOnce(h, STDOUT).value.1, exitCode, m.exitCode, stdout, stderr);
    }
  }

  function Normalized(m: Meta): Meta {
    m.(degradeReason := Normal(m.degradeReason), runtimeDenyReason := Normal(m.runtimeDenyReason))
  }

  /** The last line with its name holds the printed value of every field. */
  predicate LastLinesTell(m: Meta, lines: seq<string>) {
    && LastValue(lines, "result_class") == Some(m.resultClass)
    && LastValue(lines, "backend") == Some(m.backend)
    && LastValue(lines, "policy_decision") == Some(m.policyDecision)
    && LastValue(lines, "runtime_allowed") == Some(PrintBool(m.runtimeAllowed))
    && LastReason(lines, "degrade_reason") == Normal(m.degradeReason)
    && LastReason(lines, "runtime_deny_reason") == Normal(m.runtimeDenyReason)
  }

  /** The whole block comes back, metadata and model content, exactly when the header has
      no marker of its own, no later line speaks for a field, and no field needs more than
      its own line. */
  lemma {:induction false} BlockExactly(m: Meta, command: string, stdout: string, stderr: string)
    requires InI32(m.exitCode)
    ensures var r, h := Parse(Display(m, command, stdout, stderr)), Header(m, command);
      r.Some? && r.value.1 == Normalized(m) && Rebuilds(r.value.0, m.exitCode, stdout, stderr)
      <==> MarkerFree(h) && LastLinesTell(m, Lines(h))
  {
    hide Header, Parse, Display, Lines, LastValue, LastReason, Rebuilds, MarkerFree, Front;
    ReadBackExactly(m, command, stdout, stderr);
    BoolText(m.runtimeAllowed);
  }

  /** The metadata alone comes back exactly when the same lines, up to the first marker,
      tell it and the exit code. */
  lemma {:induction false} MetadataExactly(m: Meta, command: string, stdout: string, stderr: string)
    requires InI32(m.exitCode)
    ensures var r, lines := Parse(Display(m, command, stdout, stderr)), Lines(Front(Header(m, command)));
      r.Some? && r.value.1 == Normalized(m) <==> LastLinesTell(m, lines) && FieldsOf(lines).exitCode == Some(m.exitCode)
  {
    hide Header, Parse, Display, Lines, LastValue, LastReason, Rebuilds, MarkerFree, Front;
    ReadBackExactly(m, command, stdout, stderr);
    BoolText(m.runtimeAllowed);
  }

  /** A marker in front of, behind or between other text. */
  ghost predicate HasMarker(s: string) {
    exists a, b :: s == a + (STDOUT + b)
  }

  lemma {:induction false} MarkerBehind(a: string, s: string)
    requires HasMarker(s)
    ensures HasMarker(a + s)
  {
    var x, y :| s == x + (STDOUT + y);
    assert a + s == (a + x) + (STDOUT + y);
  }

  lemma {:induction false} MarkedIsNotFree(s: string)
    requires HasMarker(s)
    ensures !MarkerFree(s)
  {
    var a, b :| s == a + (STDOUT + b);
    assert s[|a|..] == STDOUT + b;
    assert OccursAt(s, STDOUT, |a|);
  }

  /** A deny reason with a line `stdout:` in the middle, which is what a command leaves that
      prints one to stderr and fails: the block does not come back, whatever else is in it. */
  lemma {:induction false} StderrMarkerCuts(m: Meta, command: string, x: string, y: string, stdout: string,
      stderr: string)
    requires m.runtimeDenyReason == Some(x + (STDOUT + y)) && InI32(m.exitCode)
    ensures !MarkerFree(Header(m, command))
    ensures var r := Parse(Display(m, command, stdout, stderr));
      !(r.Some? && Rebuilds(r.value.0, m.exitCode, stdout, stderr))
  {
    hide Parse, Display, Rebuilds, PrintInt, Lines, FieldsOf, Complete;
    var end := Field("exit_code", PrintInt(m.exitCode));
    var t7 := Field("runtime_deny_reason", x + (STDOUT + y)) + "\n" + end;
    assert t7 == Field("runtime_deny_reason", x) + (STDOUT + (y + "\n" + end));
    assert HasMarker(t7);
    var t6 := Field("degrade_reason", OrNone(m.degradeReason)) + "\n" + t7;
    MarkerBehind(Field("degrade_reason", OrNone(m.degradeReason)) + "\n", t7);
    var t5 := Field("runtime_allowed", PrintBool(m.runtimeAllowed)) + "\n" + t6;
    MarkerBehind(Field("runtime_allowed", PrintBool(m.runtimeAllowed)) + "\n", t6);
    var t4 := Field("policy_decision", m.policyDecision) + "\n" + t5;
    MarkerBehind(Field("policy_decision", m.policyDecision) + "\n", t5);
    var t3 := Field("backend", m.backend) + "\n" + t4;
    MarkerBehind(Field("backend", m.backend) + "\n", t4);
    var t2 := Field("command", command) + "\n" + t3;
    MarkerBehind(Field("command", command) + "\n", t3);
    MarkerBehind(Field("result_class", m.resultClass) + "\n", t2);
    MarkedIsNotFree(Header(m, command));
    ReadBackExactly(m, command, stdout, stderr);
  }

  lemma {:induction false} BoolText(b: bool)
    ensures forall v :: ParseBool(v) == Some(b) <==> v == PrintBool(b)
  {
    assert "true"[0] != "false"[0];
  }

  lemma {:induction false} SpoilerParts()
    ensures "x" + "\n" + Field("runtime_allowed", "maybe") == "x\nruntime_allowed=maybe"
    ensures ParseBool("maybe") == None && OneLine("x") && OneLine("maybe")
  {
    assert "maybe"[0] == 'm' && "true"[0] == 't' && "false"[0] == 'f';
  }

  lemma {:induction false} FlipperParts()
    ensures "x" + "\n" + Field("runtime_allowed", "true") == "x\nruntime_allowed=true"
    ensures ParseBool("true") == Some(true) && OneLine("x") && OneLine("true")
    ensures OptionalField("x") == Some("x")
  {
    assert |"x"| == 1 && |"none"| == 4;
  }

  lemma {:induction false} FailedLs()
    ensures PlainMeta(Meta("failure", "none", 1, "Allow", false, None, None), "ls")
  {
  }

  /** The deny reason of a failed command is its trimmed stderr, which may well have several
      lines.  One that starts with `runtime_allowed=` spoils the block, whatever else is printed. */
  lemma {:induction false} StderrLineSpoils(stdout: string, stderr: string)
    ensures var m := Meta("failure", "none", 1, "Allow", false, None, Some("x\nruntime_allowed=maybe"));
      Parse(Display(m, "ls", stdout, stderr)) == None
  {
    hide ReadText, Header, CalmBreaks, Parse, Display;
    var m := Meta("failure", "none", 1, "Allow", false, None, Some("x\nruntime_allowed=maybe"));
    SpoilerParts();
    FailedLs();
    SpoiledHeader(m, "x", "maybe", "ls");
    CalmIsMarkerFree(Header(m, "ls"));
    ParsePrinted(m, "ls", stdout, stderr);
  }

  /** And one that holds the other truth value flips the flag, and is cut from the reason. */
  lemma {:induction false} StderrLineFlips(stdout: string, stderr: string)
    ensures var m := Meta("failure", "none", 1, "Allow", false, None, Some("x\nruntime_allowed=true"));
      var r := Parse(Display(m, "ls", stdout, stderr));
      r.Some? && r.value.1 == m.(runtimeAllowed := true, runtimeDenyReason := Some("x"))
  {
    hide ReadText, Header, CalmBreaks, Parse, Display;
    var m := Meta("failure", "none", 1, "Allow", false, None, Some("x\nruntime_allowed=true"));
    FlipperParts();
    FailedLs();
    SpoiledHeader(m, "x", "true", "ls");
    CalmIsMarkerFree(Header(m, "ls"));
    ParsePrinted(m, "ls", stdout, stderr);
  }

  lemma {:induction false} TwoLines(name: string, x: string, y: string, end: string)
    ensures Field(name, x + "\n" + y) + "\n" + end == Field(name, x) + "\n" + (y + "\n" + end)
  {
    assert (name + "=" + (x + "\n" + y)) + "\n" + end == name + "=" + x + "\n" + (y + "\n" + end);
  }

  /** What is read when the deny reason has a second line that sets the flag to `v`. */
  function SpoiledFields(m: Meta, x: string, v: string): Fields {
    Fields(Some(m.resultClass), Some(m.backend), Some(m.exitCode), Some(m.policyDecision), ParseBool(v),
           OptionalField(OrNone(m.degradeReason)), OptionalField(x))
  }

  lemma {:induction false} SpoiledHeader(m: Meta, x: string, v: string, command: string)
    requires PlainMeta(m.(runtimeDenyReason := None), command) && OneLine(x) && OneLine(v)
    requires m.runtimeDenyReason == Some(x + "\n" + Field("runtime_allowed", v))
    ensures CalmBreaks(Header(m, command))
    ensures ReadText(NOTHING, Header(m, command)) == SpoiledFields(m, x, v)
  {
    hide ReadText, CalmBreaks, PrintInt, Field, OneLine;
    var end := Field("exit_code", PrintInt(m.exitCode));
    var spoiled := Field("runtime_allowed", v) + "\n" + end;
    var t7 := Field("runtime_deny_reason", x) + "\n" + spoiled;
    TwoLines("runtime_deny_reason", x, Field("runtime_allowed", v), end);
    var t6 := Field("degrade_reason", OrNone(m.degradeReason)) + "\n" + t7;
    var t5 := Field("runtime_allowed", PrintBool(m.runtimeAllowed)) + "\n" + t6;
    var t4 := Field("policy_decision", m.policyDecision) + "\n" + t5;
    var t3 := Field("backend", m.backend) + "\n" + t4;
    var t2 := Field("command", command) + "\n" + t3;
    CalmExit(m.exitCode);
    CalmField("runtime_allowed", v, end);
    CalmField("runtime_deny_reason", x, spoiled);
    CalmField("degrade_reason", OrNone(m.degradeReason), t7);
    CalmField("runtime_allowed", PrintBool(m.runtimeAllowed), t6);
    CalmField("policy_decision", m.policyDecision, t5);
    CalmField("backend", m.backend, t4);
    CalmField("command", command, t3);
    CalmField("result_class", m.resultClass, t2);
    assert Header(m, command) == Field("result_class", m.resultClass) + "\n" + t2;
    SpoiledRead(m, x, v, command);
  }

  lemma {:induction false} SpoiledRead(m: Meta, x: string, v: string, command: string)
    requires PlainMeta(m.(runtimeDenyReason := None), command) && OneLine(x) && OneLine(v)
    requires m.runtimeDenyReason == Some(x + "\n" + Field("runtime_allowed", v))
    ensures ReadText(NOTHING, Header(m, command)) == SpoiledFields(m, x, v)
  {
    hide ReadText, ReadLine, PrintInt, PrintBool, ParseBool, OptionalField, Field, OneLine;
    var end := Field("exit_code", PrintInt(m.exitCode));
    var spoiled := Field("runtime_allowed", v) + "\n" + end;
    var t7 := Field("runtime_deny_reason", x) + "\n" + spoiled;
    TwoLines("runtime_deny_reason", x, Field("runtime_allowed", v), end);
    var t6 := Field("degrade_reason", OrNone(m.degradeReason)) + "\n" + t7;
    var t5 := Field("runtime_allowed", PrintBool(m.runtimeAllowed)) + "\n" + t6;
    var t4 := Field("policy_decision", m.policyDecision) + "\n" + t5;
    var t3 := Field("backend", m.backend) + "\n" + t4;
    var t2 := Field("command", command) + "\n" + t3;
    BoolIsOneLine(m.runtimeAllowed);
    ReadField(NOTHING, "result_class", m.resultClass, t2);
    LineReads(NOTHING, m.resultClass);
    var f1 := NOTHING.(resultClass := Some(m.resultClass));
    ReadField(f1, "command", command, t3);
    LineReads(f1, command);
    ReadField(f1, "backend", m.backend, t4);
    LineReads(f1, m.backend);
    var f3 := f1.(backend := Some(m.backend));
    ReadField(f3, "policy_decision", m.policyDecision, t5);
    LineReads(f3, m.policyDecision);
    var f4 := f3.(policyDecision := Some(m.policyDecision));
    SpoiledTail(f4, m, x, v);
  }

  lemma {:induction false} SpoiledTail(f: Fields, m: Meta, x: string, v: string)
    requires OneLine(OrNone(m.degradeReason)) && OneLine(x) && OneLine(v) && InI32(m.exitCode)
    ensures var spoiled := Field("runtime_allowed", v) + "\n" + Field("exit_code", PrintInt(m.exitCode));
      var reason := Field("degrade_reason", OrNone(m.degradeReason)) + "\n" +
          (Field("runtime_deny_reason", x) + "\n" + spoiled);
      ReadText(f, Field("runtime_allowed", PrintBool(m.runtimeAllowed)) + "\n" + reason) ==
      f.(exitCode := Some(m.exitCode), runtimeAllowed := ParseBool(v),
         degradeReason := OptionalField(OrNone(m.degradeReason)), runtimeDenyReason := OptionalField(x))
  {
    hide ReadText, ReadLine, PrintInt, PrintBool, ParseBool, OptionalField, Field, OneLine;
    var end := Field("exit_code", PrintInt(m.exitCode));
    var spoiled := Field("runtime_allowed", v) + "\n" + end;
    var t7 := Field("runtime_deny_reason", x) + "\n" + spoiled;
    var t6 := Field("degrade_reason", OrNone(m.degradeReason)) + "\n" + t7;
    BoolIsOneLine(m.runtimeAllowed);
    ReadField(f, "runtime_allowed", PrintBool(m.runtimeAllowed), t6);
    MoreLineReads(f, PrintBool(m.runtimeAllowed));
    var f5 := f.(runtimeAllowed := ParseBool(PrintBool(m.runtimeAllowed)));
    ReadField(f5, "degrade_reason", OrNone(m.degradeReason), t7);
    MoreLineReads(f5, OrNone(m.degradeReason));
    var f6 := f5.(degradeReason := OptionalField(OrNone(m.degradeReason)));
    ReadField(f6, "runtime_deny_reason", x, spoiled);
    DenyLineReads(f6, x);
    var f7 := f6.(runtimeDenyReason := OptionalField(x));
    ReadField(f7, "runtime_allowed", v, end);
    MoreLineReads(f7, v);
    ExitLine(f7.(runtimeAllowed := ParseBool(v)), m.exitCode);
  }

  lemma {:induction false} BoolIsOneLine(b: bool)
    ensures OneLine(PrintBool(b))
  {
  }
}
