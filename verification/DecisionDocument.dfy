/** JSON texts (section 2 of RFC 8259) as printed trees, and what the stream
    parser releases for every one of them. */
module DecisionDocument {
  import opened Common
  import opened DecisionStream

  /** A character `c` of a string literal in one of its spellings (section 7 of RFC 8259): as
      it is, by a letter after a backslash, by four hexadecimal digits, or, outside the Basic
      Multilingual Plane, by the digits of a surrogate pair.  `upper` says of each digit
      whether it is written in upper case. */
  datatype Piece =
    | Raw(c: char)
    | Short(c: char)
    | Hex(c: char, upper: seq<bool>)
    | Pair(c: char, upper: seq<bool>)

  /** White space between tokens. */
  type Gap = string

  /** A value; `Scalar` covers numbers, `true`, `false` and `null`. */
  datatype Json =
    | Scalar(text: string)
    | Str(lit: seq<Piece>)
    | Obj(open: Gap, members: Members)
    | Arr(open: Gap, elems: Elems)

  datatype Members =
    | NoMembers
    | Member(g0: Gap, key: seq<Piece>, g1: Gap, g2: Gap, value: Json, g3: Gap, rest: Members)

  datatype Elems =
    | NoElems
    | Elem(g0: Gap, value: Json, g1: Gap, rest: Elems)

  // ---- Which trees are JSON ----------------------------------------------

  predicate WellFormedPiece(x: Piece) {
    match x
    case Raw(c) => c != '"' && c != '\\'
    case Short(c) => c in LETTERS
    case Hex(c, upper) => c as int < 0x1_0000 && |upper| == 4
    case Pair(c, upper) => c as int >= 0x1_0000 && |upper| == 8
  }

  /** The characters that have a short form, by code point, and its letter. */
  const LETTERS: map<char, char> := map[
    '\U{0022}' := '"', '\U{005C}' := '\\', '\U{002F}' := '/', '\U{0008}' := 'b',
    '\U{000C}' := 'f', '\U{000A}' := 'n', '\U{000D}' := 'r', '\U{0009}' := 't']

  predicate WellFormedLit(lit: seq<Piece>) {
    forall i :: 0 <= i < |lit| ==> WellFormedPiece(lit[i])
  }

  /** Characters that carry no structure: white space and those of scalars. */
  predicate Plain(c: char) {
    c !in "{}[]\":,"
  }

  predicate PlainText(s: string) {
    forall i :: 0 <= i < |s| ==> Plain(s[i])
  }

  predicate IsGap(s: string) {
    forall i :: 0 <= i < |s| ==> s[i] in " \t\n\r"
  }

  predicate WellFormed(v: Json) {
    match v
    case Scalar(text) => text != "" && PlainText(text)
    case Str(lit) => WellFormedLit(lit)
    case Obj(open, members) => IsGap(open) && WellFormedMembers(members)
    case Arr(open, elems) => IsGap(open) && WellFormedElems(elems)
  }

  predicate WellFormedMembers(ms: Members) {
    match ms
    case NoMembers => true
    case Member(g0, key, g1, g2, value, g3, rest) =>
      && IsGap(g0) && IsGap(g1) && IsGap(g2) && IsGap(g3)
      && WellFormedLit(key) && WellFormed(value) && WellFormedMembers(rest)
  }

  predicate WellFormedElems(es: Elems) {
    match es
    case NoElems => true
    case Elem(g0, value, g1, rest) =>
      IsGap(g0) && IsGap(g1) && WellFormed(value) && WellFormedElems(rest)
  }

  // ---- Printing ----------------------------------------------------------

  /** A digit's value is its place in one of these. */
  const LOWER_DIGITS: string := "0123456789abcdef"
  const UPPER_DIGITS: string := "0123456789ABCDEF"

  function DigitText(d: nat, upper: bool): char
    requires d < 16
  {
    if upper then UPPER_DIGITS[d] else LOWER_DIGITS[d]
  }

  /** A code unit in four digits. */
  function UnitText(unit: nat, upper: seq<bool>): string
    requires unit < 0x1_0000 && |upper| == 4
  {
    "\\u" + [DigitText(unit / 0x1000, upper[0]), DigitText(unit / 0x100 % 0x10, upper[1]),
             DigitText(unit / 0x10 % 0x10, upper[2]), DigitText(unit % 0x10, upper[3])]
  }

  /** What is no piece prints nothing. */
  function PieceText(x: Piece): string {
    if !WellFormedPiece(x) then "" else
    match x
    case Raw(c) => [c]
    case Short(c) => ['\\', LETTERS[c]]
    case Hex(c, upper) => UnitText(c as int, upper)
    case Pair(c, upper) =>
      var rest := c as int - 0x1_0000;
      UnitText(0xD800 + rest / 0x400, upper[..4]) + UnitText(0xDC00 + rest % 0x400, upper[4..])
  }

  function LitText(lit: seq<Piece>): string {
    if lit == [] then "" else PieceText(lit[0]) + LitText(lit[1..])
  }

  function Quoted(lit: seq<Piece>): string {
    "\"" + (LitText(lit) + "\"")
  }

  function Text(v: Json): string {
    match v
    case Scalar(text) => text
    case Str(lit) => Quoted(lit)
    case Obj(open, members) => "{" + (open + (MembersText(members) + "}"))
    case Arr(open, elems) => "[" + (open + (ElemsText(elems) + "]"))
  }

  function MembersText(ms: Members): string {
    match ms
    case NoMembers => ""
    case Member(g0, key, g1, g2, value, g3, rest) =>
      g0 + (Quoted(key) + (g1 + (":" + (g2 + (Text(value) + (g3 +
        (if rest.NoMembers? then "" else "," + MembersText(rest))))))))
  }

  function ElemsText(es: Elems): string {
    match es
    case NoElems => ""
    case Elem(g0, value, g1, rest) =>
      g0 + (Text(value) + (g1 + (if rest.NoElems? then "" else "," + ElemsText(rest))))
  }

  function Header(ms: Members): string
    requires ms.Member?
  {
    ms.g0 + (Quoted(ms.key) + (ms.g1 + (":" + ms.g2)))
  }

  function MembersTail(ms: Members): string
    requires ms.Member?
  {
    ms.g3 + (if ms.rest.NoMembers? then "" else "," + MembersText(ms.rest))
  }

  lemma {:induction false} MembersTextParts(ms: Members)
    requires ms.Member?
    ensures MembersText(ms) == Header(ms) + (Text(ms.value) + MembersTail(ms))
  {
  }

  function ElemsTail(es: Elems): string
    requires es.Elem?
  {
    es.g1 + (if es.rest.NoElems? then "" else "," + ElemsText(es.rest))
  }

  // ---- Meaning of a string literal ---------------------------------------

  /** The text that RFC 8259 assigns to a literal. */
  function Decode(lit: seq<Piece>): (r: string)
    requires WellFormedLit(lit)
    ensures |r| == |lit|
  {
    if lit == [] then "" else [lit[0].c] + Decode(lit[1..])
  }

  /** What the parser makes of a piece: surrogate pairs vanish. */
  function Kept(x: Piece): string
    requires WellFormedPiece(x)
  {
    if x.Pair? then "" else [x.c]
  }

  function Keep(lit: seq<Piece>): string
    requires WellFormedLit(lit)
  {
    if lit == [] then "" else Kept(lit[0]) + Keep(lit[1..])
  }

  predicate NoPairs(lit: seq<Piece>) {
    forall i :: 0 <= i < |lit| ==> !lit[i].Pair?
  }

  /** The parser reads a literal as RFC 8259 does exactly when it has no pair. */
  lemma {:induction false} KeepExact(lit: seq<Piece>)
    requires WellFormedLit(lit)
    ensures |Keep(lit)| <= |lit|
    ensures |Keep(lit)| == |lit| <==> NoPairs(lit)
    ensures Keep(lit) == Decode(lit) <==> NoPairs(lit)
  {
    if lit != [] {
      KeepExact(lit[1..]);
      var x, r := lit[0], lit[1..];
      assert NoPairs(lit) <==> !x.Pair? && NoPairs(r) by {
        if NoPairs(lit) { assert forall i :: 0 <= i < |r| ==> r[i] == lit[i + 1]; }
        if !x.Pair? && NoPairs(r) { assert forall i :: 1 <= i < |lit| ==> lit[i] == r[i - 1]; }
      }
      if !x.Pair? && Keep(lit) == Decode(lit) {
        assert Keep(r) == Keep(lit)[1..];
        assert Decode(r) == Decode(lit)[1..];
      }
    }
  }

  // ---- Strings under the parser ------------------------------------------

  predicate Reading(p: Parser) {
    p.inString && !p.escape && !p.unicodeMode && p.unicodeBuf == ""
  }

  /** A character that releases nothing only moves the parser on. */
  lemma {:induction false} RunSkip(p: Parser, ch: char, q: Parser, rest: string)
    requires Step(p, ch) == Effect(q, "", None)
    ensures Run(p, [ch] + rest) == Run(q, rest)
  {
    hide Step;
    assert "" + Run(q, rest).out == Run(q, rest).out;
  }

  lemma {:induction false} RunHex(p: Parser, d: string)
    requires Reading(p) && IsHex4(d)
    ensures Run(p, "\\u" + d) == Speak(p, CharOf(HexCode(d)))
  {
    var b := p.(unicodeMode := true);
    var q1 := b.(unicodeBuf := [d[0]]);
    var q2 := b.(unicodeBuf := [d[0], d[1]]);
    var q3 := b.(unicodeBuf := [d[0], d[1], d[2]]);
    assert "\\u" + d == ['\\'] + ("u" + d) && "u" + d == ['u'] + d;
    assert d == [d[0]] + d[1..] && d[1..] == [d[1]] + d[2..] && d[2..] == [d[2]] + d[3..] && d[3..] == [d[3]];
    RunSkip(p, '\\', p.(escape := true), "u" + d);
    RunSkip(p.(escape := true), 'u', b, d);
    RunSkip(b, d[0], q1, d[1..]);
    RunSkip(q1, d[1], q2, d[2..]);
    RunSkip(q2, d[2], q3, d[3..]);
    RunOne(q3, d[3]);
    LastHexDigit(p, q3, d);
  }

  lemma {:induction false} LastHexDigit(p: Parser, q3: Parser, d: string)
    requires Reading(p) && IsHex4(d)
    requires q3 == p.(unicodeMode := true, unicodeBuf := [d[0], d[1], d[2]])
    ensures Step(q3, d[3]) == Speak(p, CharOf(HexCode(d)))
  {
    assert [d[0], d[1], d[2]] + [d[3]] == d;
  }

  lemma {:induction false} SpeakTwice(p: Parser, a: string, b: string)
    ensures Then(Speak(p, a), Speak(Speak(p, a).next, b)) == Speak(p, a + b)
  {
    assert p.current + a + b == p.current + (a + b);
    assert p.pending + a + b == p.pending + (a + b);
  }

  /** The parser reads the digits it is given for what they are. */
  lemma {:induction false} DigitsRead(unit: nat, upper: seq<bool>)
    requires unit < 0x1_0000 && |upper| == 4
    ensures var d := UnitText(unit, upper)[2..];
      UnitText(unit, upper) == "\\u" + d && IsHex4(d) && HexCode(d) == unit
  {
    DigitRead(unit / 0x1000, upper[0]);
    DigitRead(unit / 0x100 % 0x10, upper[1]);
    DigitRead(unit / 0x10 % 0x10, upper[2]);
    DigitRead(unit % 0x10, upper[3]);
    DigitsSum(unit);
    hide HexDigit, IsHexDigit, DigitText;
  }

  lemma {:induction false} DigitsSum(unit: nat)
    requires unit < 0x1_0000
    ensures unit / 0x1000 < 16
    ensures ((unit / 0x1000 * 16 + unit / 0x100 % 0x10) * 16 + unit / 0x10 % 0x10) * 16 + unit % 0x10 == unit
  {
    assert unit / 0x10 == unit / 0x100 * 0x10 + unit / 0x10 % 0x10;
    assert unit / 0x100 == unit / 0x1000 * 0x10 + unit / 0x100 % 0x10;
  }

  lemma {:induction false} DigitRead(d: nat, upper: bool)
    requires d < 16
    ensures IsHexDigit(DigitText(d, upper)) && HexDigit(DigitText(d, upper)) == d
  {
  }

  lemma {:induction false} LetterRead(c: char)
    requires c in LETTERS
    ensures LETTERS[c] != 'u' && Unescape(LETTERS[c]) == c
  {
  }

  /** Every spelling of a character speaks that character, but for surrogate pairs. */
  lemma {:induction false} RunPiece(p: Parser, x: Piece)
    requires Reading(p) && WellFormedPiece(x)
    ensures Run(p, PieceText(x)) == Speak(p, if x.Pair? then "" else [x.c])
  {
    hide Step, UnitText, Speak, Run;
    match x
    case Raw(c) => RunRaw(p, c);
    case Short(c) => RunShort(p, c);
    case Hex(c, upper) =>
      DigitsRead(c as int, upper);
      RunHex(p, UnitText(c as int, upper)[2..]);
    case Pair(c, upper) =>
      var rest := c as int - 0x1_0000;
      RunSurrogates(p, 0xD800 + rest / 0x400, 0xDC00 + rest % 0x400, upper);
  }

  lemma {:induction false} RunRaw(p: Parser, c: char)
    requires Reading(p) && c != '"' && c != '\\'
    ensures Run(p, [c]) == Speak(p, [c])
  {
    RunOne(p, c);
  }

  lemma {:induction false} RunShort(p: Parser, c: char)
    requires Reading(p) && c in LETTERS
    ensures Run(p, ['\\', LETTERS[c]]) == Speak(p, [c])
  {
    LetterRead(c);
    hide Unescape;
    assert ['\\', LETTERS[c]] == ['\\'] + [LETTERS[c]];
    RunSkip(p, '\\', p.(escape := true), [LETTERS[c]]);
    RunOne(p.(escape := true), LETTERS[c]);
  }

  /** A letter after a backslash that RFC 8259 gives no meaning speaks itself. */
  lemma {:induction false} UnknownEscape(p: Parser, e: char)
    requires Reading(p) && e != 'u' && forall c :: c in LETTERS ==> LETTERS[c] != e
    ensures Run(p, ['\\', e]) == Speak(p, [e])
  {
    assert LETTERS['\U{0008}'] == 'b' && LETTERS['\U{000C}'] == 'f' && LETTERS['\U{000A}'] == 'n';
    assert LETTERS['\U{000D}'] == 'r' && LETTERS['\U{0009}'] == 't';
    assert Unescape(e) == e;
    hide Unescape;
    assert ['\\', e] == ['\\'] + [e];
    RunSkip(p, '\\', p.(escape := true), [e]);
    RunOne(p.(escape := true), e);
  }

  /** A unicode escape that breaks off before its fourth digit is dropped, together with the
      character that breaks it. */
  lemma {:induction false} BrokenEscape(p: Parser, digits: string, bad: char)
    requires Reading(p) && |digits| < 4 && (forall i :: 0 <= i < |digits| ==> IsHexDigit(digits[i]))
    requires bad !in LOWER_DIGITS && bad !in UPPER_DIGITS
    ensures Run(p, "\\u" + digits + [bad]) == Effect(p, "", None)
  {
    NotADigit(bad);
    assert "\\u" + digits + [bad] == ['\\'] + (['u'] + (digits + [bad]));
    RunSkip(p, '\\', p.(escape := true), ['u'] + (digits + [bad]));
    RunSkip(p.(escape := true), 'u', p.(unicodeMode := true), digits + [bad]);
    BrokenDigits(p, "", digits, bad);
  }

  lemma {:induction false} NotADigit(bad: char)
    ensures bad in LOWER_DIGITS || bad in UPPER_DIGITS <==> IsHexDigit(bad)
  {
    if '0' <= bad <= '9' { assert LOWER_DIGITS[bad as int - '0' as int] == bad; }
    if 'a' <= bad <= 'f' { assert LOWER_DIGITS[bad as int - 'a' as int + 10] == bad; }
    if 'A' <= bad <= 'F' { assert UPPER_DIGITS[bad as int - 'A' as int + 10] == bad; }
  }

  lemma {:induction false} BrokenDigits(p: Parser, read: string, digits: string, bad: char)
    requires Reading(p) && |read| + |digits| < 4 && !IsHexDigit(bad)
    requires forall i :: 0 <= i < |digits| ==> IsHexDigit(digits[i])
    ensures Run(p.(unicodeMode := true, unicodeBuf := read), digits + [bad]) == Effect(p, "", None)
    decreases |digits|
  {
    if digits == "" {
      assert digits + [bad] == [bad];
      RunOne(p.(unicodeMode := true, unicodeBuf := read), bad);
    } else {
      assert digits + [bad] == [digits[0]] + (digits[1..] + [bad]);
      RunSkip(p.(unicodeMode := true, unicodeBuf := read), digits[0],
              p.(unicodeMode := true, unicodeBuf := read + [digits[0]]), digits[1..] + [bad]);
      BrokenDigits(p, read + [digits[0]], digits[1..], bad);
    }
  }

  lemma {:induction false} RunSurrogates(p: Parser, hi: nat, lo: nat, upper: seq<bool>)
    requires Reading(p) && 0xD800 <= hi < 0xE000 && 0xD800 <= lo < 0xE000 && |upper| == 8
    ensures Run(p, UnitText(hi, upper[..4]) + UnitText(lo, upper[4..])) == Speak(p, "")
  {
    hide Step, UnitText;
    DigitsRead(hi, upper[..4]);
    DigitsRead(lo, upper[4..]);
    RunHex(p, UnitText(hi, upper[..4])[2..]);
    RunAppend(p, UnitText(hi, upper[..4]), UnitText(lo, upper[4..]));
    var q := Speak(p, "").next;
    RunHex(q, UnitText(lo, upper[4..])[2..]);
    SpeakTwice(p, "", "");
  }

  lemma {:induction false} RunLit(p: Parser, lit: seq<Piece>)
    requires Reading(p) && WellFormedLit(lit)
    ensures Run(p, LitText(lit)) == Speak(p, Keep(lit))
    decreases |lit|
  {
    hide Step;
    if lit == [] {
      assert p.current + "" == p.current && p.pending + "" == p.pending;
    } else {
      RunPiece(p, lit[0]);
      var q := Speak(p, Kept(lit[0])).next;
      RunAppend(p, PieceText(lit[0]), LitText(lit[1..]));
      RunLit(q, lit[1..]);
      SpeakTwice(p, Kept(lit[0]), Keep(lit[1..]));
    }
  }

  /** The parser just inside the opening quote. */
  function Opened(stack: seq<Frame>, action: Option<string>, pending: string): Parser {
    Between(stack, action, pending).(inString := true, role := ResolveRole(stack))
  }

  function Closed(p: Parser): Effect {
    var e := Finalize(p.(inString := false));
    Effect(e.next.(current := "", role := Other), e.out, e.reported)
  }

  lemma {:induction false} RunQuoted(stack: seq<Frame>, action: Option<string>, pending: string, lit: seq<Piece>)
    requires WellFormedLit(lit)
    ensures var said := Speak(Opened(stack, action, pending), Keep(lit));
      Run(Between(stack, action, pending), Quoted(lit)) == Then(said, Closed(said.next))
  {
    hide Step;
    var p := Between(stack, action, pending);
    var o := Opened(stack, action, pending);
    OpeningQuote(stack, action, pending);
    RunSkip(p, '"', o, LitText(lit) + "\"");
    RunLit(o, lit);
    RunAppend(o, LitText(lit), "\"");
    var said := Speak(o, Keep(lit));
    RunOne(said.next, '"');
    ClosingQuote(said.next);
    assert Quoted(lit) == ['"'] + (LitText(lit) + "\"");
  }

  lemma {:induction false} OpeningQuote(stack: seq<Frame>, action: Option<string>, pending: string)
    ensures Step(Between(stack, action, pending), '"') == Effect(Opened(stack, action, pending), "", None)
  {
  }

  lemma {:induction false} ClosingQuote(p: Parser)
    requires Reading(p)
    ensures Step(p, '"') == Closed(p)
  {
  }

  // ---- Silent text -------------------------------------------------------

  lemma {:induction false} RunPlain(stack: seq<Frame>, action: Option<string>, pending: string, s: string)
    requires PlainText(s)
    ensures Run(Between(stack, action, pending), s) == Effect(Between(stack, action, pending), "", None)
    decreases |s|
  {
    if s != "" {
      RunPlain(stack, action, pending, s[1..]);
    }
  }

  /** Text read below the top level, or in an array after its first comma. */
  predicate Deaf(stack: seq<Frame>) {
    |stack| >= 2 || (|stack| == 1 && Top(stack).expectingKey)
  }

  function Outer(stack: seq<Frame>): seq<Frame> {
    if stack == [] then [] else stack[..|stack| - 1]
  }

  /** `e` changed nothing but the top frame. */
  ghost predicate Silent(e: Effect, stack: seq<Frame>, action: Option<string>, pending: string) {
    Deaf(e.next.stack) && e == Effect(Between(Outer(stack) + [TopOf(e)], action, pending), "", None)
  }

  /** Reading `a + b`, given what reading `a` does. */
  lemma {:induction false} Sequel(p: Parser, a: string, b: string, ea: Effect, eb: Effect)
    requires Run(p, a) == ea && Run(ea.next, b) == eb
    ensures Run(p, a + b) == Then(ea, eb)
  {
    hide Step, Run;
    RunAppend(p, a, b);
  }

  lemma {:induction false} SilentThen(p: Parser, a: string, b: string, stack: seq<Frame>, action: Option<string>,
      pending: string)
    requires p == Between(stack, action, pending)
    requires Silent(Run(p, a), stack, action, pending)
    requires var q := Run(p, a).next; Silent(Run(q, b), q.stack, action, pending)
    ensures Silent(Run(p, a + b), stack, action, pending)
  {
    hide Step, Run;
    RunAppend(p, a, b);
  }

  lemma {:induction false} SilentGap(stack: seq<Frame>, action: Option<string>, pending: string, g: Gap)
    requires Deaf(stack) && IsGap(g)
    ensures Run(Between(stack, action, pending), g) == Effect(Between(stack, action, pending), "", None)
    ensures Silent(Run(Between(stack, action, pending), g), stack, action, pending)
  {
    hide Step, Run;
    assert PlainText(g);
    RunPlain(stack, action, pending, g);
  }

  lemma {:induction false} SilentQuoted(stack: seq<Frame>, action: Option<string>, pending: string, lit: seq<Piece>)
    requires Deaf(stack) && WellFormedLit(lit)
    ensures Silent(Run(Between(stack, action, pending), Quoted(lit)), stack, action, pending)
  {
    hide Step, Run;
    RunQuoted(stack, action, pending, lit);
    SilentString(stack, action, pending, Keep(lit));
  }

  lemma {:induction false} SilentString(stack: seq<Frame>, action: Option<string>, pending: string, s: string)
    requires Deaf(stack)
    ensures var said := Speak(Opened(stack, action, pending), s);
      Silent(Then(said, Closed(said.next)), stack, action, pending)
  {
    var p := Opened(stack, action, pending);
    assert Speak(p, s) == Effect(p.(current := p.current + s), "", None);
  }

  lemma {:induction false} SilentComma(stack: seq<Frame>, action: Option<string>, pending: string)
    requires Deaf(stack)
    ensures Silent(Run(Between(stack, action, pending), ","), stack, action, pending)
  {
    RunOne(Between(stack, action, pending), ',');
  }

  lemma {:induction false} SilentColon(stack: seq<Frame>, action: Option<string>, pending: string)
    requires |stack| >= 2
    ensures Silent(Run(Between(stack, action, pending), ":"), stack, action, pending)
  {
    RunOne(Between(stack, action, pending), ':');
  }

  lemma {:induction false} SilentValue(stack: seq<Frame>, action: Option<string>, pending: string, v: Json)
    requires Deaf(stack) && WellFormed(v)
    ensures Silent(Run(Between(stack, action, pending), Text(v)), stack, action, pending)
    decreases v, 1
  {
    hide Step, Run;
    var p := Between(stack, action, pending);
    match v
    case Scalar(text) => RunPlain(stack, action, pending, text);
    case Str(lit) => SilentQuoted(stack, action, pending, lit);
    case Obj(open, members) =>
      SilentObject(stack, action, pending, open, members);
    case Arr(open, elems) =>
      SilentArray(stack, action, pending, open, elems);
  }

  lemma {:induction false} SilentArray(stack: seq<Frame>, action: Option<string>, pending: string, open: Gap,
      elems: Elems)
    requires Deaf(stack) && IsGap(open) && WellFormedElems(elems)
    ensures Silent(Run(Between(stack, action, pending), Text(Arr(open, elems))), stack, action, pending)
    decreases elems, 1
  {
    hide Step, Run;
    SilentElems(stack, action, pending, elems);
    var q := Run(Between(stack, action, pending), ElemsText(elems)).next;
    SilentBracket(q.stack, action, pending, ']');
    SilentThen(Between(stack, action, pending), ElemsText(elems), "]", stack, action, pending);
    SilentGap(stack, action, pending, open);
    SilentPrefix(stack, action, pending, open, ElemsText(elems) + "]");
    SilentBracket(stack, action, pending, '[');
    SilentPrefix(stack, action, pending, "[", open + (ElemsText(elems) + "]"));
  }

  /** Plain text in front of silent text. */
  lemma {:induction false} SilentPrefix(stack: seq<Frame>, action: Option<string>, pending: string, a: string,
      b: string)
    requires Run(Between(stack, action, pending), a) == Effect(Between(stack, action, pending), "", None)
    requires Silent(Run(Between(stack, action, pending), b), stack, action, pending)
    ensures Silent(Run(Between(stack, action, pending), a + b), stack, action, pending)
  {
    hide Step, Run;
    RunAppend(Between(stack, action, pending), a, b);
  }

  lemma {:induction false} SilentBracket(stack: seq<Frame>, action: Option<string>, pending: string, c: char)
    requires Deaf(stack) && c in "[]"
    ensures Run(Between(stack, action, pending), [c]) == Effect(Between(stack, action, pending), "", None)
    ensures Silent(Run(Between(stack, action, pending), [c]), stack, action, pending)
  {
    RunOne(Between(stack, action, pending), c);
  }

  /** An object is read one level down and leaves its surroundings as they were. */
  lemma {:induction false} SilentObject(stack: seq<Frame>, action: Option<string>, pending: string, open: Gap,
      members: Members)
    requires stack != [] && IsGap(open) && WellFormedMembers(members)
    ensures Run(Between(stack, action, pending), Text(Obj(open, members))) ==
            Effect(Between(stack, action, pending), "", None)
    decreases members, 2
  {
    hide Step, Run;
    var p := Between(stack, action, pending);
    var inner := stack + [Frame(true, None)];
    var q := Between(inner, action, pending);
    SilentBody(inner, action, pending, open, members);
    var body := open + MembersText(members);
    var z := Run(q, body).next;
    assert z.stack == stack + [Top(z.stack)] by {
      assert z.stack[..|stack|] == inner[..|stack|] == stack;
    }
    Braced(stack, Top(z.stack), action, pending, body);
    assert body + "}" == open + (MembersText(members) + "}");
  }

  lemma {:induction false} SilentBody(inner: seq<Frame>, action: Option<string>, pending: string, open: Gap,
      members: Members)
    requires |inner| >= 2 && IsGap(open) && WellFormedMembers(members)
    ensures Silent(Run(Between(inner, action, pending), open + MembersText(members)), inner, action, pending)
    decreases members, 1
  {
    hide Step, Run;
    var q := Between(inner, action, pending);
    SilentGap(inner, action, pending, open);
    var r := Run(q, open).next;
    SilentMembers(r.stack, action, pending, members);
    SilentThen(q, open, MembersText(members), inner, action, pending);
  }

  lemma {:induction false} Braced(stack: seq<Frame>, f: Frame, action: Option<string>, pending: string, body: string)
    requires Run(Between(stack + [Frame(true, None)], action, pending), body) ==
             Effect(Between(stack + [f], action, pending), "", None)
    ensures Run(Between(stack, action, pending), "{" + (body + "}")) ==
            Effect(Between(stack, action, pending), "", None)
  {
    hide Step, Run;
    var p := Between(stack, action, pending);
    var q := Between(stack + [Frame(true, None)], action, pending);
    OpenBrace(stack, action, pending);
    CloseBrace(stack, f, action, pending);
    Sequel(q, body, "}", Effect(Between(stack + [f], action, pending), "", None), Effect(p, "", None));
    Sequel(p, "{", body + "}", Effect(q, "", None), Effect(p, "", None));
  }

  lemma {:induction false} OpenBrace(stack: seq<Frame>, action: Option<string>, pending: string)
    ensures Run(Between(stack, action, pending), "{") ==
            Effect(Between(stack + [Frame(true, None)], action, pending), "", None)
  {
    RunOne(Between(stack, action, pending), '{');
  }

  lemma {:induction false} CloseBrace(stack: seq<Frame>, f: Frame, action: Option<string>, pending: string)
    ensures Run(Between(stack + [f], action, pending), "}") == Effect(Between(stack, action, pending), "", None)
  {
    RunOne(Between(stack + [f], action, pending), '}');
    assert (stack + [f])[..|stack|] == stack;
  }

  lemma {:induction false} SilentMembers(stack: seq<Frame>, action: Option<string>, pending: string, ms: Members)
    requires |stack| >= 2 && WellFormedMembers(ms)
    ensures Silent(Run(Between(stack, action, pending), MembersText(ms)), stack, action, pending)
    decreases ms, 0
  {
    hide Step, Run;
    var p := Between(stack, action, pending);
    if ms.NoMembers? {
      SilentGap(stack, action, pending, "");
    } else {
      SilentHeader(stack, action, pending, ms);
      var p1 := Run(p, Header(ms)).next;
      SilentValue(p1.stack, action, pending, ms.value);
      var p2 := Run(p1, Text(ms.value)).next;
      SilentGap(p2.stack, action, pending, ms.g3);
      var tail := if ms.rest.NoMembers? then "" else "," + MembersText(ms.rest);
      if ms.rest.Member? {
        SilentComma(p2.stack, action, pending);
        var p3 := Run(p2, ",").next;
        SilentMembers(p3.stack, action, pending, ms.rest);
        SilentThen(p2, ",", MembersText(ms.rest), p2.stack, action, pending);
      } else {
        SilentGap(p2.stack, action, pending, "");
      }
      SilentPrefix(p2.stack, action, pending, ms.g3, tail);
      SilentThen(p1, Text(ms.value), MembersTail(ms), p1.stack, action, pending);
      SilentThen(p, Header(ms), Text(ms.value) + MembersTail(ms), stack, action, pending);
      MembersTextParts(ms);
    }
  }

  lemma {:induction false} SilentHeader(stack: seq<Frame>, action: Option<string>, pending: string, ms: Members)
    requires |stack| >= 2 && ms.Member? && WellFormedMembers(ms)
    ensures Silent(Run(Between(stack, action, pending), Header(ms)), stack, action, pending)
  {
    hide Step, Run;
    var p := Between(stack, action, pending);
    SilentGap(stack, action, pending, ms.g0);
    SilentQuoted(stack, action, pending, ms.key);
    var p1 := Run(p, Quoted(ms.key)).next;
    SilentGap(p1.stack, action, pending, ms.g1);
    SilentColon(p1.stack, action, pending);
    var p2 := Run(p1, ":").next;
    SilentGap(p2.stack, action, pending, ms.g2);
    SilentThen(p1, ":", ms.g2, p1.stack, action, pending);
    SilentPrefix(p1.stack, action, pending, ms.g1, ":" + ms.g2);
    SilentThen(p, Quoted(ms.key), ms.g1 + (":" + ms.g2), stack, action, pending);
    SilentPrefix(stack, action, pending, ms.g0, Quoted(ms.key) + (ms.g1 + (":" + ms.g2)));
  }

  lemma {:induction false} SilentElems(stack: seq<Frame>, action: Option<string>, pending: string, es: Elems)
    requires Deaf(stack) && WellFormedElems(es)
    ensures Silent(Run(Between(stack, action, pending), ElemsText(es)), stack, action, pending)
    decreases es, 0
  {
    hide Step, Run;
    var p := Between(stack, action, pending);
    if es.NoElems? {
      SilentGap(stack, action, pending, "");
    } else {
      SilentGap(stack, action, pending, es.g0);
      SilentValue(stack, action, pending, es.value);
      var p1 := Run(p, Text(es.value)).next;
      SilentGap(p1.stack, action, pending, es.g1);
      var tail := if es.rest.NoElems? then "" else "," + ElemsText(es.rest);
      if es.rest.Elem? {
        SilentComma(p1.stack, action, pending);
        var p2 := Run(p1, ",").next;
        SilentElems(p2.stack, action, pending, es.rest);
        SilentThen(p1, ",", ElemsText(es.rest), p1.stack, action, pending);
      } else {
        SilentGap(p1.stack, action, pending, "");
      }
      SilentPrefix(p1.stack, action, pending, es.g1, tail);
      SilentThen(p, Text(es.value), es.g1 + tail, stack, action, pending);
      SilentPrefix(stack, action, pending, es.g0, Text(es.value) + (es.g1 + tail));
    }
  }

  // ---- The top level -----------------------------------------------------

  /** The string the parser takes for a member's value: the value itself, or the
      first thing in an array, however deeply the array is nested. */
  function Lead(v: Json): Option<seq<Piece>> {
    match v
    case Str(lit) => Some(lit)
    case Arr(_, elems) => if elems.NoElems? then None else Lead(elems.value)
    case _ => None
  }

  /** What is known so far: the action, the text held back, the text released. */
  datatype Voice = Voice(action: Option<string>, pending: string, said: string)

  /** One top-level member with key `key` and string value `s`. */
  function Tell(w: Voice, key: string, s: string): Voice {
    if key == "action" then
      var action := Lower(s);
      if action == FINAL then Voice(Some(action), "", w.said + w.pending)
      else w.(action := Some(action))
    else if key == "message" then
      if w.action == Some(FINAL) then w.(said := w.said + s) else w.(pending := w.pending + s)
    else w
  }

  function TellLead(w: Voice, key: string, v: Json): Voice
    requires WellFormed(v)
  {
    match Lead(v)
    case None => w
    case Some(lit) => LeadWellFormed(v); Tell(w, key, Keep(lit))
  }

  function TellMember(w: Voice, key: seq<Piece>, v: Json): Voice
    requires WellFormedLit(key) && WellFormed(v)
  {
    TellLead(w, Keep(key), v)
  }

  lemma {:induction false} LeadWellFormed(v: Json)
    requires WellFormed(v) && Lead(v).Some?
    ensures WellFormedLit(Lead(v).value)
  {
    if v.Arr? { LeadWellFormed(v.elems.value); }
  }

  /** The top-level members, told in order. */
  function TellAll(w: Voice, ms: Members): Voice
    requires WellFormedMembers(ms)
    decreases ms
  {
    match ms
    case NoMembers => w
    case Member(_, key, _, _, value, _, rest) => TellAll(TellMember(w, key, value), rest)
  }

  /** Between two tokens at the top level, having released `w.said` overall. */
  ghost predicate Follows(e: Effect, from: Voice, to: Voice, frame: Frame) {
    && e.next == Between([frame], to.action, to.pending)
    && to.said == from.said + e.out
  }

  function TopOf(e: Effect): Frame {
    if e.next.stack == [] then Frame(true, None) else Top(e.next.stack)
  }

  lemma {:induction false} TopString(key: string, w: Voice, lit: seq<Piece>)
    requires WellFormedLit(lit)
    ensures var e := Run(Between([Frame(false, Some(key))], w.action, w.pending), Quoted(lit));
      Follows(e, w, Tell(w, key, Keep(lit)), Frame(false, None))
  {
    hide Step, Run;
    var stack := [Frame(false, Some(key))];
    RunQuoted(stack, w.action, w.pending, lit);
    SpokenTop(key, w, Keep(lit));
    ClosedTop(key, w, Keep(lit));
  }

  /** The released part of a top-level string, before its closing quote. */
  function Released(key: string, w: Voice, s: string): string {
    if key == "message" && w.action == Some(FINAL) then s else ""
  }

  function Held(key: string, w: Voice, s: string): string {
    if key == "message" && w.action != Some(FINAL) then w.pending + s else w.pending
  }

  function Read(key: string, w: Voice, s: string): Parser {
    Opened([Frame(false, Some(key))], w.action, Held(key, w, s)).(current := s)
  }

  lemma {:induction false} SpokenTop(key: string, w: Voice, s: string)
    ensures Speak(Opened([Frame(false, Some(key))], w.action, w.pending), s) ==
            Effect(Read(key, w, s), Released(key, w, s), None)
  {
    assert "" + s == s;
  }

  lemma {:induction false} ClosedTop(key: string, w: Voice, s: string)
    ensures var c := Closed(Read(key, w, s));
      var t := Tell(w, key, s);
      c.next == Between([Frame(false, None)], t.action, t.pending) &&
      w.said + (Released(key, w, s) + c.out) == t.said
  {
    var t := Tell(w, key, s);
    var stack := [Frame(false, Some(key))];
    assert stack[0].(pendingKey := None) == Frame(false, None);
    if key == "action" {
      assert "" + w.pending == w.pending;
    } else {
      assert w.said + "" == w.said && s + "" == s;
    }
  }

  function At(w: Voice, f: Frame): Parser {
    Between([f], w.action, w.pending)
  }

  lemma {:induction false} FollowsThen(a: string, b: string, w0: Voice, w1: Voice, w2: Voice, f0: Frame, f1: Frame,
      f2: Frame)
    requires Follows(Run(At(w0, f0), a), w0, w1, f1)
    requires Follows(Run(At(w1, f1), b), w1, w2, f2)
    ensures Follows(Run(At(w0, f0), a + b), w0, w2, f2)
  {
    hide Step, Run;
    FollowsSequel(At(w0, f0), a, b, Run(At(w0, f0), a), Run(At(w1, f1), b), w0, w1, w2, f1, f2);
  }

  lemma {:induction false} FollowsSequel(p: Parser, a: string, b: string, ea: Effect, eb: Effect,
                      w0: Voice, w1: Voice, w2: Voice, f1: Frame, f2: Frame)
    requires Run(p, a) == ea && Follows(ea, w0, w1, f1)
    requires Run(At(w1, f1), b) == eb && Follows(eb, w1, w2, f2)
    ensures Follows(Run(p, a + b), w0, w2, f2)
  {
    hide Step, Run;
    assert ea.next == At(w1, f1);
    assert (w0.said + ea.out) + eb.out == w0.said + (ea.out + eb.out);
    Sequel(p, a, b, ea, eb);
  }

  lemma {:induction false} TopGap(w: Voice, f: Frame, g: Gap)
    requires IsGap(g)
    ensures Follows(Run(At(w, f), g), w, w, f)
  {
    hide Step, Run;
    assert PlainText(g);
    RunPlain([f], w.action, w.pending, g);
  }

  lemma {:induction false} TopPlain(w: Voice, f: Frame, s: string)
    requires PlainText(s)
    ensures Follows(Run(At(w, f), s), w, w, f)
  {
    hide Step, Run;
    RunPlain([f], w.action, w.pending, s);
  }

  lemma {:induction false} TopChar(w: Voice, f: Frame, c: char)
    requires c in "[]:,"
    ensures Follows(Run(At(w, f), [c]), w, w,
                    if c == ':' then f.(expectingKey := false) else if c == ',' then Frame(true, None) else f)
  {
    RunOne(At(w, f), c);
  }

  lemma {:induction false} TopKey(w: Voice, f: Frame, lit: seq<Piece>)
    requires f.expectingKey && WellFormedLit(lit)
    ensures Follows(Run(At(w, f), Quoted(lit)), w, w, Frame(true, Some(Keep(lit))))
  {
    RunQuoted([f], w.action, w.pending, lit);
    var o := Opened([f], w.action, w.pending);
    var said := Speak(o, Keep(lit));
    assert "" + Keep(lit) == Keep(lit);
    assert said.next == o.(current := Keep(lit)) && said.out == "";
    KeyClosed(said.next);
  }

  lemma {:induction false} KeyClosed(p: Parser)
    requires p.role == Key && |p.stack| == 1 && p.stack[0].expectingKey && !p.escape && !p.unicodeMode
    requires p.unicodeBuf == ""
    ensures Closed(p) == Effect(Between([Frame(true, Some(p.current))], p.action, p.pending), "", None)
  {
    assert SetTop(p.stack, Frame(true, Some(p.current))) == [Frame(true, Some(p.current))];
  }

  /** The value of a top-level member speaks through its leading string only. */
  lemma {:induction false} TopValue(w: Voice, key: string, v: Json)
    requires WellFormed(v)
    ensures var e := Run(At(w, Frame(false, Some(key))), Text(v));
      Follows(e, w, TellLead(w, key, v), TopOf(e))
    decreases v
  {
    hide Step, Run;
    var f := Frame(false, Some(key));
    match v
    case Scalar(text) => TopPlain(w, f, text);
    case Str(lit) => TopString(key, w, lit);
    case Obj(open, members) => SilentObject([f], w.action, w.pending, open, members);
    case Arr(open, elems) =>
      TopChar(w, f, '[');
      TopGap(w, f, open);
      if elems.NoElems? {
        TopChar(w, f, ']');
        TopPlain(w, f, "");
        FollowsThen("", "]", w, w, w, f, f, f);
        FollowsThen(open, "" + "]", w, w, w, f, f, f);
        FollowsThen("[", open + ("" + "]"), w, w, w, f, f, f);
      } else {
        var t := TellLead(w, key, elems.value);
        TopElems(w, key, elems);
        var f1 := TopOf(Run(At(w, f), ElemsText(elems)));
        TopChar(t, f1, ']');
        FollowsThen(ElemsText(elems), "]", w, t, t, f, f1, f1);
        FollowsThen(open, ElemsText(elems) + "]", w, w, t, f, f, f1);
        FollowsThen("[", open + (ElemsText(elems) + "]"), w, w, t, f, f, f1);
      }
  }

  lemma {:induction false} TopElems(w: Voice, key: string, es: Elems)
    requires es.Elem? && WellFormedElems(es)
    ensures var e := Run(At(w, Frame(false, Some(key))), ElemsText(es));
      Follows(e, w, TellLead(w, key, es.value), TopOf(e))
    decreases es
  {
    hide Step, Run;
    var f := Frame(false, Some(key));
    var t := TellLead(w, key, es.value);
    TopGap(w, f, es.g0);
    TopValue(w, key, es.value);
    var f1 := TopOf(Run(At(w, f), Text(es.value)));
    var tail := ElemsTail(es);
    TopElemsTail(t, f1, es);
    var f2 := TopOf(Run(At(t, f1), tail));
    FollowsThen(Text(es.value), tail, w, t, t, f, f1, f2);
    FollowsThen(es.g0, Text(es.value) + tail, w, w, t, f, f, f2);
  }

  lemma {:induction false} TopDeafElems(t: Voice, es: Elems)
    requires WellFormedElems(es)
    ensures var e := Run(At(t, Frame(true, None)), ElemsText(es));
      Follows(e, t, t, TopOf(e))
  {
    hide Step, Run;
    SilentElems([Frame(true, None)], t.action, t.pending, es);
    SilentFollows(t, Frame(true, None), Run(At(t, Frame(true, None)), ElemsText(es)));
  }

  lemma {:induction false} SilentFollows(t: Voice, f: Frame, e: Effect)
    requires Silent(e, [f], t.action, t.pending)
    ensures Follows(e, t, t, TopOf(e))
  {
    assert e.next.stack == [Top(e.next.stack)];
  }

  /** After its first comma an array at the top level is no longer heard. */
  lemma {:induction false} TopElemsTail(t: Voice, f1: Frame, es: Elems)
    requires es.Elem? && WellFormedElems(es)
    ensures var e := Run(At(t, f1), ElemsTail(es));
      Follows(e, t, t, TopOf(e))
  {
    hide Step, Run;
    TopGap(t, f1, es.g1);
    if es.rest.Elem? {
      var g := Frame(true, None);
      TopChar(t, f1, ',');
      TopDeafElems(t, es.rest);
      var f2 := TopOf(Run(At(t, g), ElemsText(es.rest)));
      FollowsThen(",", ElemsText(es.rest), t, t, t, f1, g, f2);
      FollowsThen(es.g1, "," + ElemsText(es.rest), t, t, t, f1, f1, f2);
    } else {
      TopPlain(t, f1, "");
      FollowsThen(es.g1, "", t, t, t, f1, f1, f1);
    }
  }

  lemma {:induction false} TopMembers(w: Voice, f: Frame, ms: Members)
    requires f.expectingKey && WellFormedMembers(ms)
    ensures var e := Run(At(w, f), MembersText(ms));
      Follows(e, w, TellAll(w, ms), TopOf(e))
    decreases ms, 1
  {
    hide Step, Run;
    if ms.NoMembers? {
      TopPlain(w, f, "");
    } else {
      var k := Keep(ms.key);
      var ready := Frame(false, Some(k));
      var t := TellMember(w, ms.key, ms.value);
      var all := TellAll(w, ms);
      TopHeader(w, f, ms);
      TopValue(w, k, ms.value);
      var f1 := TopOf(Run(At(w, ready), Text(ms.value)));
      TopMembersTail(t, f1, ms);
      var tail := MembersTail(ms);
      var f2 := TopOf(Run(At(t, f1), tail));
      FollowsThen(Text(ms.value), tail, w, t, all, ready, f1, f2);
      FollowsThen(Header(ms), Text(ms.value) + tail, w, w, all, f, ready, f2);
      MembersTextParts(ms);
    }
  }

  lemma {:induction false} TopHeader(w: Voice, f: Frame, ms: Members)
    requires f.expectingKey && ms.Member? && WellFormedMembers(ms)
    ensures Follows(Run(At(w, f), Header(ms)), w, w, Frame(false, Some(Keep(ms.key))))
  {
    hide Step, Run;
    var keyed := Frame(true, Some(Keep(ms.key)));
    var ready := Frame(false, Some(Keep(ms.key)));
    TopGap(w, f, ms.g0);
    TopKey(w, f, ms.key);
    TopGap(w, keyed, ms.g1);
    TopChar(w, keyed, ':');
    TopGap(w, ready, ms.g2);
    FollowsThen(":", ms.g2, w, w, w, keyed, ready, ready);
    FollowsThen(ms.g1, ":" + ms.g2, w, w, w, keyed, keyed, ready);
    FollowsThen(Quoted(ms.key), ms.g1 + (":" + ms.g2), w, w, w, f, keyed, ready);
    FollowsThen(ms.g0, Quoted(ms.key) + (ms.g1 + (":" + ms.g2)), w, w, w, f, f, ready);
  }

  lemma {:induction false} TopMembersTail(t: Voice, f1: Frame, ms: Members)
    requires ms.Member? && WellFormedMembers(ms)
    ensures var e := Run(At(t, f1), MembersTail(ms));
      Follows(e, t, TellAll(t, ms.rest), TopOf(e))
    decreases ms, 0
  {
    hide Step, Run;
    var all := TellAll(t, ms.rest);
    TopGap(t, f1, ms.g3);
    if ms.rest.Member? {
      var g := Frame(true, None);
      TopChar(t, f1, ',');
      TopMembers(t, g, ms.rest);
      var f2 := TopOf(Run(At(t, g), MembersText(ms.rest)));
      FollowsThen(",", MembersText(ms.rest), t, t, all, f1, g, f2);
      FollowsThen(ms.g3, "," + MembersText(ms.rest), t, t, all, f1, f1, f2);
    } else {
      TopPlain(t, f1, "");
      FollowsThen(ms.g3, "", t, t, t, f1, f1, f1);
    }
  }

  // ---- Whole documents ---------------------------------------------------

  const SILENCE: Voice := Voice(None, "", "")

  /** A document is one object with white space around it. */
  datatype Document = Document(before: Gap, open: Gap, members: Members, after: Gap)

  predicate WellFormedDocument(d: Document) {
    IsGap(d.before) && IsGap(d.open) && WellFormedMembers(d.members) && IsGap(d.after)
  }

  function DocumentText(d: Document): string {
    d.before + (Text(Obj(d.open, d.members)) + d.after)
  }

  /** Reading a document tells its top-level members in order and nothing else. */
  lemma {:induction false} RunDocument(d: Document)
    requires WellFormedDocument(d)
    ensures var e := Run(START, DocumentText(d));
      var t := TellAll(SILENCE, d.members);
      e.out == t.said && e.next == Between([], t.action, t.pending)
  {
    hide Step, Run;
    var t := TellAll(SILENCE, d.members);
    var p := Between([], t.action, t.pending);
    RunObject(d.open, d.members);
    var braced := Run(START, Text(Obj(d.open, d.members)));
    assert PlainText((d.before));
    assert PlainText((d.after));
    RunPlain([], None, "", d.before);
    RunPlain([], t.action, t.pending, d.after);
    Sequel(START, Text(Obj(d.open, d.members)), d.after, braced, Effect(p, "", None));
    Sequel(START, d.before, Text(Obj(d.open, d.members)) + d.after,
           Effect(START, "", None), Then(braced, Effect(p, "", None)));
  }

  lemma {:induction false} RunObject(open: Gap, members: Members)
    requires IsGap(open) && WellFormedMembers(members)
    ensures var e := Run(START, Text(Obj(open, members)));
      var t := TellAll(SILENCE, members);
      e.out == t.said && e.next == Between([], t.action, t.pending)
  {
    hide Step, Run;
    var f := Frame(true, None);
    var t := TellAll(SILENCE, members);
    var body := open + MembersText(members);
    TopBody(open, members);
    var inner := Run(At(SILENCE, f), body);
    var f1 := TopOf(inner);
    OpenBrace([], None, "");
    CloseBrace([], f1, t.action, t.pending);
    assert [] + [f] == [f] && [] + [f1] == [f1];
    var ended := Effect(Between([], t.action, t.pending), "", None);
    Sequel(At(SILENCE, f), body, "}", inner, ended);
    Sequel(START, "{", body + "}", Effect(At(SILENCE, f), "", None), Then(inner, ended));
    assert body + "}" == open + (MembersText(members) + "}");
    assert t.said == "" + inner.out;
  }

  lemma {:induction false} TopBody(open: Gap, members: Members)
    requires IsGap(open) && WellFormedMembers(members)
    ensures var e := Run(At(SILENCE, Frame(true, None)), open + MembersText(members));
      Follows(e, SILENCE, TellAll(SILENCE, members), TopOf(e))
  {
    hide Step, Run;
    var f := Frame(true, None);
    TopGap(SILENCE, f, open);
    TopMembers(SILENCE, f, members);
    var f1 := TopOf(Run(At(SILENCE, f), MembersText(members)));
    FollowsThen(open, MembersText(members), SILENCE, SILENCE, TellAll(SILENCE, members), f, f, f1);
  }
}
