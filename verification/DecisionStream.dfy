/** The character-level parser that releases the text of a decision's `message`
    while the JSON is still arriving (openjax-core/src/agent/decision.rs). */
module DecisionStream {
  import opened Common

  datatype Role = Key | StringValue | Other

  datatype Frame = Frame(expectingKey: bool, pendingKey: Option<string>)

  datatype StreamChunk = StreamChunk(messageDelta: string, action: Option<string>)

  /** The parser's fields, without the raw transcript. */
  datatype Parser = Parser(
    stack: seq<Frame>,
    inString: bool,
    escape: bool,
    unicodeMode: bool,
    unicodeBuf: string,
    current: string,
    role: Role,
    action: Option<string>,
    pending: string)

  /** A parser together with what it has released so far in this call. */
  datatype Effect = Effect(next: Parser, out: string, reported: Option<string>)

  const START: Parser := Parser([], false, false, false, "", "", Other, None, "")

  /** The parser between two tokens: outside every string, nothing half read. */
  function Between(stack: seq<Frame>, action: Option<string>, pending: string): Parser {
    Parser(stack, false, false, false, "", "", Other, action, pending)
  }

  function Top(stack: seq<Frame>): Frame
    requires stack != []
  {
    stack[|stack| - 1]
  }

  function SetTop(stack: seq<Frame>, f: Frame): (r: seq<Frame>)
    requires stack != []
    ensures |r| == |stack| && Top(r) == f && r[..|r| - 1] == stack[..|stack| - 1]
  {
    stack[..|stack| - 1] + [f]
  }

  // ---- Hexadecimal -------------------------------------------------------

  predicate IsHexDigit(c: char) {
    '0' <= c <= '9' || 'a' <= c <= 'f' || 'A' <= c <= 'F'
  }

  function HexDigit(c: char): (d: nat)
    requires IsHexDigit(c)
    ensures d < 16
  {
    if '0' <= c <= '9' then c as int - '0' as int
    else if 'a' <= c <= 'f' then c as int - 'a' as int + 10
    else c as int - 'A' as int + 10
  }

  predicate IsHex4(s: string) {
    |s| == 4 && forall i :: 0 <= i < 4 ==> IsHexDigit(s[i])
  }

  function HexCode(s: string): (code: nat)
    requires IsHex4(s)
    ensures code < 0x1_0000
  {
    ((HexDigit(s[0]) * 16 + HexDigit(s[1])) * 16 + HexDigit(s[2])) * 16 + HexDigit(s[3])
  }

  predicate IsSurrogate(code: nat) {
    0xD800 <= code < 0xE000
  }

  /** `char::from_u32`: a surrogate code unit alone is no character. */
  function CharOf(code: nat): string
    requires code < 0x1_0000
  {
    if IsSurrogate(code) then "" else [code as char]
  }

  // ---- One step ----------------------------------------------------------

  function ResolveRole(stack: seq<Frame>): Role {
    if stack == [] then Other
    else if Top(stack).expectingKey then Key
    else if Top(stack).pendingKey.Some? then StringValue
    else Other
  }

  /** The string being read is the top-level value of key `message`. */
  predicate Heard(p: Parser) {
    && p.role == StringValue
    && |p.stack| == 1
    && p.stack[0].pendingKey == Some("message")
  }

  const FINAL: string := "final"

  /** Appends decoded text to the current string and routes it. */
  function Speak(p: Parser, s: string): Effect {
    var q := p.(current := p.current + s);
    if !Heard(p) then Effect(q, "", None)
    else if p.action == Some(FINAL) then Effect(q, s, None)
    else Effect(q.(pending := p.pending + s), "", None)
  }

  function Finalize(p: Parser): Effect {
    match p.role
    case Key =>
      if p.stack == [] then Effect(p, "", None)
      else Effect(p.(stack := SetTop(p.stack, Top(p.stack).(pendingKey := Some(p.current)))), "", None)
    case StringValue =>
      if |p.stack| != 1 then Effect(p, "", None)
      else
        var cleared := p.(stack := [p.stack[0].(pendingKey := None)]);
        if p.stack[0].pendingKey == Some("action") then
          var action := Lower(p.current);
          if action == FINAL && p.pending != "" then
            Effect(cleared.(action := Some(action), pending := ""), p.pending, Some(action))
          else
            Effect(cleared.(action := Some(action)), "", Some(action))
        else Effect(cleared, "", None)
    case Other => Effect(p, "", None)
  }

  function Unescape(ch: char): char {
    match ch
    case 'b' => '\U{0008}'
    case 'f' => '\U{000C}'
    case 'n' => '\n'
    case 'r' => '\r'
    case 't' => '\t'
    case _ => ch
  }

  function StringStep(p: Parser, ch: char): Effect {
    if p.unicodeMode then
      if IsHexDigit(ch) then
        var buf := p.unicodeBuf + [ch];
        if |buf| == 4 then
          var spoken := if IsHex4(buf) then Speak(p, CharOf(HexCode(buf))) else Effect(p, "", None);
          Effect(spoken.next.(unicodeMode := false, unicodeBuf := ""), spoken.out, None)
        else Effect(p.(unicodeBuf := buf), "", None)
      else Effect(p.(unicodeMode := false, unicodeBuf := ""), "", None)
    else if p.escape then
      if ch == 'u' then Effect(p.(escape := false, unicodeMode := true, unicodeBuf := ""), "", None)
      else Speak(p.(escape := false), [Unescape(ch)])
    else if ch == '\\' then Effect(p.(escape := true), "", None)
    else if ch == '"' then
      var closed := Finalize(p.(inString := false));
      Effect(closed.next.(current := "", role := Other), closed.out, closed.reported)
    else Speak(p, [ch])
  }

  function OutsideStep(p: Parser, ch: char): Effect {
    match ch
    case '{' => Effect(p.(stack := p.stack + [Frame(true, None)]), "", None)
    case '}' => Effect(if p.stack == [] then p else p.(stack := p.stack[..|p.stack| - 1]), "", None)
    case '"' =>
      Effect(p.(inString := true, escape := false, unicodeMode := false, unicodeBuf := "",
                current := "", role := ResolveRole(p.stack)), "", None)
    case ':' =>
      Effect(if p.stack == [] then p
             else p.(stack := SetTop(p.stack, Top(p.stack).(expectingKey := false))), "", None)
    case ',' =>
      Effect(if p.stack == [] then p
             else p.(stack := SetTop(p.stack, Frame(true, None))), "", None)
    case _ => Effect(p, "", None)
  }

  function Step(p: Parser, ch: char): Effect {
    if p.inString then StringStep(p, ch) else OutsideStep(p, ch)
  }

  function Then(a: Effect, b: Effect): Effect {
    Effect(b.next, a.out + b.out, if b.reported.Some? then b.reported else a.reported)
  }

  /** Reads a whole text, first character first. */
  function Run(p: Parser, text: string): Effect
    decreases |text|
  {
    if text == "" then Effect(p, "", None)
    else
      var first := Step(p, text[0]);
      Then(first, Run(first.next, text[1..]))
  }

  /** One `push_chunk` call per element; the list of calls' deltas. */
  function Deltas(p: Parser, chunks: seq<string>): seq<string>
    decreases |chunks|
  {
    if chunks == [] then []
    else
      var first := Run(p, chunks[0]);
      [first.out] + Deltas(first.next, chunks[1..])
  }

  lemma {:induction false} ThenAssoc(a: Effect, b: Effect, c: Effect)
    ensures Then(Then(a, b), c) == Then(a, Then(b, c))
  {
    assert (a.out + b.out) + c.out == a.out + (b.out + c.out);
  }

  lemma {:induction false} RunAppend(p: Parser, a: string, b: string)
    ensures Run(p, a + b) == Then(Run(p, a), Run(Run(p, a).next, b))
    decreases |a|
  {
    hide Step;
    if a == "" {
      assert a + b == b;
      assert "" + Run(p, b).out == Run(p, b).out;
    } else {
      var first := Step(p, a[0]);
      assert (a + b)[1..] == a[1..] + b && (a + b)[0] == a[0];
      RunAppend(first.next, a[1..], b);
      var mid := Run(first.next, a[1..]);
      ThenAssoc(first, mid, Run(mid.next, b));
      hide Then;
    }
  }

  lemma {:induction false} RunOne(p: Parser, ch: char)
    ensures Run(p, [ch]) == Step(p, ch)
  {
    var first := Step(p, ch);
    assert Run(first.next, []) == Effect(first.next, "", None);
    assert first.out + "" == first.out;
  }

  lemma {:induction false} StepReports(p: Parser, ch: char)
    ensures var e := Step(p, ch); e.next.action == if e.reported.Some? then e.reported else p.action
  {
  }

  /** A call reports the action exactly when it has learnt one, and it reports the latest. */
  lemma {:induction false} RunReports(p: Parser, text: string)
    ensures var e := Run(p, text); e.next.action == if e.reported.Some? then e.reported else p.action
    decreases |text|
  {
    if text != "" {
      hide Step;
      StepReports(p, text[0]);
      RunReports(Step(p, text[0]).next, text[1..]);
    }
  }

  /** How the text is cut into chunks never matters. */
  lemma {:induction false} ChunkingIrrelevant(p: Parser, chunks: seq<string>)
    ensures Flatten(Deltas(p, chunks)) == Run(p, Flatten(chunks)).out
    decreases |chunks|
  {
    hide Step;
    if chunks != [] {
      var first := Run(p, chunks[0]);
      ChunkingIrrelevant(first.next, chunks[1..]);
      RunAppend(p, chunks[0], Flatten(chunks[1..]));
      var rest := Deltas(first.next, chunks[1..]);
      assert ([first.out] + rest)[1..] == rest;
    }
  }

  /** The parser as the program keeps it, updated in place. */
  class DecisionJsonStreamParser {
    var raw: string
    var objectStack: seq<Frame>
    var inString: bool
    var escape: bool
    var unicodeMode: bool
    var unicodeBuf: string
    var currentString: string
    var currentStringRole: Role
    var action: Option<string>
    var pendingMessage: string

    ghost function State(): Parser
      reads this
    {
      Parser(objectStack, inString, escape, unicodeMode, unicodeBuf, currentString,
             currentStringRole, action, pendingMessage)
    }

    constructor ()
      ensures State() == START && raw == ""
    {
      raw, objectStack, inString, escape, unicodeMode := "", [], false, false, false;
      unicodeBuf, currentString, currentStringRole := "", "", Other;
      action, pendingMessage := None, "";
    }

    method PushChunk(chunk: string) returns (out: StreamChunk)
      modifies this
      ensures raw == old(raw) + chunk
      ensures State() == Run(old(State()), chunk).next
      ensures out == StreamChunk(Run(old(State()), chunk).out, Run(old(State()), chunk).reported)
    {
      raw := raw + chunk;
      out := StreamChunk("", None);
      ghost var before := State();
      for i := 0 to |chunk|
        invariant raw == old(raw) + chunk
        invariant Run(before, chunk[..i]) == Effect(State(), out.messageDelta, out.action)
      {
        var ch := chunk[i];
        assert chunk[..i + 1] == chunk[..i] + [ch];
        RunAppend(before, chunk[..i], [ch]);
        RunOne(State(), ch);
        if inString {
          out := ConsumeStringChar(ch, out);
        } else {
          ConsumeStructuralChar(ch);
        }
      }
      assert chunk[..|chunk|] == chunk;
    }

    /** The `match` of `push_chunk` for a character outside every string. */
    method ConsumeStructuralChar(ch: char)
      requires !inString
      modifies this
      ensures raw == old(raw)
      ensures Step(old(State()), ch) == Effect(State(), "", None)
    {
      match ch
      case '{' => objectStack := objectStack + [Frame(true, None)];
      case '}' =>
        if objectStack != [] { objectStack := objectStack[..|objectStack| - 1]; }
      case '"' =>
        inString, escape, unicodeMode, unicodeBuf := true, false, false, "";
        currentString := "";
        currentStringRole := ResolveRole(objectStack);
      case ':' =>
        if objectStack != [] {
          objectStack := SetTop(objectStack, Top(objectStack).(expectingKey := false));
        }
      case ',' =>
        if objectStack != [] { objectStack := SetTop(objectStack, Frame(true, None)); }
      case _ =>
    }

    method ConsumeStringChar(ch: char, given: StreamChunk) returns (out: StreamChunk)
      requires inString
      modifies this
      ensures raw == old(raw)
      ensures var e := Step(old(State()), ch);
        && State() == e.next
        && out == StreamChunk(given.messageDelta + e.out, if e.reported.Some? then e.reported else given.action)
    {
      out := given;
      if unicodeMode {
        out := ConsumeUnicodeChar(ch, out);
        return;
      }
      if escape {
        escape := false;
        if ch == 'u' {
          unicodeMode, unicodeBuf := true, "";
        } else {
          out := PushDecodedChar(Unescape(ch), out);
        }
        return;
      }
      match ch
      case '\\' => escape := true;
      case '"' =>
        inString := false;
        out := FinalizeStringToken(out);
        currentString, currentStringRole := "", Other;
      case _ => out := PushDecodedChar(ch, out);
    }

    /** The `unicode_mode` branch of `consume_string_char`. */
    method ConsumeUnicodeChar(ch: char, given: StreamChunk) returns (out: StreamChunk)
      requires inString && unicodeMode
      modifies this
      ensures raw == old(raw)
      ensures var e := Step(old(State()), ch);
        && State() == e.next
        && out == given.(messageDelta := given.messageDelta + e.out)
        && e.reported == None
    {
      out := given;
      if IsHexDigit(ch) {
        unicodeBuf := unicodeBuf + [ch];
        if |unicodeBuf| == 4 {
          if IsHex4(unicodeBuf) {
            var code := HexCode(unicodeBuf);
            if !IsSurrogate(code) {
              out := PushDecodedChar(code as char, out);
            }
          }
          unicodeMode, unicodeBuf := false, "";
        }
      } else {
        unicodeMode, unicodeBuf := false, "";
      }
    }

    method PushDecodedChar(ch: char, given: StreamChunk) returns (out: StreamChunk)
      modifies `currentString, `pendingMessage
      ensures var e := Speak(old(State()), [ch]);
        && State() == e.next
        && out == given.(messageDelta := given.messageDelta + e.out)
    {
      out := given;
      currentString := currentString + [ch];
      if currentStringRole != StringValue {
        return;
      }
      if |objectStack| == 1 && objectStack[0].pendingKey == Some("message") {
        if action == Some(FINAL) {
          out := out.(messageDelta := out.messageDelta + [ch]);
        } else {
          pendingMessage := pendingMessage + [ch];
        }
      }
    }

    method FinalizeStringToken(given: StreamChunk) returns (out: StreamChunk)
      modifies `objectStack, `action, `pendingMessage
      ensures var e := Finalize(old(State()));
        && State() == e.next
        && out == StreamChunk(given.messageDelta + e.out, if e.reported.Some? then e.reported else given.action)
    {
      out := given;
      match currentStringRole
      case Key =>
        if objectStack != [] {
          objectStack := SetTop(objectStack, Top(objectStack).(pendingKey := Some(currentString)));
        }
      case StringValue =>
        if |objectStack| == 1 {
          if objectStack[0].pendingKey == Some("action") {
            action := Some(Lower(currentString));
            out := out.(action := action);
            if action == Some(FINAL) && pendingMessage != "" {
              out := out.(messageDelta := out.messageDelta + pendingMessage);
              pendingMessage := "";
            }
          }
          objectStack := [objectStack[0].(pendingKey := None)];
        }
      case Other =>
    }
  }
}
