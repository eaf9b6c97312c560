/** The `tool:name key="value"` command line (openjax-core/src/tools/router.rs).
    Text is a sequence of characters, so the cursor counts characters, not bytes. */
module ToolCommand {
  import opened Common

  datatype ToolCall = ToolCall(name: string, args: map<string, string>)

  /** The Unicode White_Space property. */
  predicate IsWhitespace(c: char) {
    || '\U{9}' <= c <= '\U{D}' || c == ' ' || c == '\U{85}' || c == '\U{A0}' || c == '\U{1680}'
    || '\U{2000}' <= c <= '\U{200A}' || c == '\U{2028}' || c == '\U{2029}' || c == '\U{202F}'
    || c == '\U{205F}' || c == '\U{3000}'
  }

  /** The code points of the property. */
  lemma {:induction false} WhitespaceExactly(c: char)
    ensures IsWhitespace(c) <==> c as int in [
      0x9, 0xA, 0xB, 0xC, 0xD, 0x20, 0x85, 0xA0, 0x1680, 0x2000, 0x2001, 0x2002, 0x2003, 0x2004, 0x2005, 0x2006,
      0x2007, 0x2008, 0x2009, 0x200A, 0x2028, 0x2029, 0x202F, 0x205F, 0x3000]
  {
  }

  // ---- The parser, as a function of the text still to be read ------------

  function SkipSpaces(r: string): (t: string)
    ensures |t| <= |r|
    ensures t != "" ==> !IsWhitespace(t[0])
  {
    if r == "" || !IsWhitespace(r[0]) then r else SkipSpaces(r[1..])
  }

  function TrimEnd(s: string): string {
    if s == "" || !IsWhitespace(s[|s| - 1]) then s else TrimEnd(s[..|s| - 1])
  }

  function Trim(s: string): string {
    TrimEnd(SkipSpaces(s))
  }

  /** The word at the front and what follows it; a key also ends at '='. */
  function Word(r: string, key: bool): (p: (string, string))
    ensures p.0 + p.1 == r
  {
    if r == "" || IsWhitespace(r[0]) || (key && r[0] == '=') then ("", r)
    else var p := Word(r[1..], key); ([r[0]] + p.0, p.1)
  }

  /** The value after its opening quote and what follows its closing one. */
  function Quoted(r: string, quote: char): (p: Option<(string, string)>)
    ensures p.Some? ==> |p.value.1| < |r|
    decreases |r|
  {
    if r == "" then None
    else if r[0] == '\\' then
      if |r| == 1 then None
      else if r[1] == quote || r[1] == '\\' then Prepend(r[1], Quoted(r[2..], quote))
      else Prepend('\\', Quoted(r[1..], quote))
    else if r[0] == quote then Some(("", r[1..]))
    else Prepend(r[0], Quoted(r[1..], quote))
  }

  function Prepend(c: char, p: Option<(string, string)>): Option<(string, string)> {
    match p case None => None case Some(q) => Some(([c] + q.0, q.1))
  }

  datatype Pass = Stop(args: map<string, string>) | Fail | Next(rest: string, args: map<string, string>)

  /** One pass of the outer loop, on a nonempty rest. */
  function OnePass(r: string, args: map<string, string>): Pass {
    var r1 := SkipSpaces(r);
    if r1 == "" then Stop(args)
    else
      var (key, r2) := Word(r1, true);
      if key == "" then Fail
      else
        var r3 := SkipSpaces(r2);
        if r3 == "" || r3[0] != '=' then Next(Word(r3, false).1, args)
        else
          var r4 := SkipSpaces(r3[1..]);
          if r4 == "" then Stop(args[key := ""])
          else if r4[0] == '\'' || r4[0] == '"' then
            (match Quoted(r4[1..], r4[0]) case None => Fail case Some(q) => Next(q.1, args[key := q.0]))
          else
            var (value, r5) := Word(r4, false);
            Next(r5, args[key := value])
  }

  /** Whatever the text, a pass that goes on has moved the cursor forward. */
  lemma {:induction false} PassAdvances(r: string, args: map<string, string>)
    ensures OnePass(r, args).Next? ==> |OnePass(r, args).rest| < |r|
  {
    var r1 := SkipSpaces(r);
    if r1 != "" && Word(r1, true).0 != "" {
      var (key, r2) := Word(r1, true);
      assert |key| + |r2| == |r1|;
      var r3 := SkipSpaces(r2);
      assert |Word(r3, false).1| <= |r3|;
    }
  }

  function ParseArgs(r: string, args: map<string, string>): Option<map<string, string>>
    decreases |r|
  {
    if r == "" then Some(args)
    else
      match OnePass(r, args)
      case Stop(done) => Some(done)
      case Fail => None
      case Next(rest, more) => PassAdvances(r, args); ParseArgs(rest, more)
  }

  const PREFIX: string := "tool:"

  function Parse(input: string): Option<ToolCall> {
    var s := Trim(input);
    if !(PREFIX <= s) then None
    else
      var rest := Trim(s[5..]);
      if rest == "" then None
      else
        var (name, tail) := Word(SkipSpaces(rest), false);
        if name == "" then None
        else match ParseArgs(tail, map[]) case None => None case Some(args) => Some(ToolCall(name, args))
  }

  // ---- The parser as the program runs it: one text, one cursor -----------

  method SkipSpacesFrom(s: string, start: nat) returns (i: nat)
    requires start <= |s|
    ensures start <= i <= |s| && s[i..] == SkipSpaces(s[start..])
  {
    i := start;
    while i < |s|
      invariant start <= i <= |s| && SkipSpaces(s[i..]) == SkipSpaces(s[start..])
    {
      if !IsWhitespace(s[i]) {
        break;
      }
      assert s[i..][1..] == s[i + 1..];
      i := i + 1;
    }
  }

  method ScanWord(s: string, start: nat, key: bool) returns (i: nat)
    requires start <= |s|
    ensures start <= i <= |s| && (s[start..i], s[i..]) == Word(s[start..], key)
  {
    hide Word, Ahead;
    i := start;
    assert s[start..i] == "";
    AheadNothing(Word(s[start..], key));
    while i < |s|
      invariant start <= i <= |s|
      invariant Word(s[start..], key) == Ahead(s[start..i], Word(s[i..], key))
    {
      if IsWhitespace(s[i]) || (key && s[i] == '=') {
        break;
      }
      WordGoesOn(s, start, i, key);
      i := i + 1;
    }
    WordEnds(s[start..i], s[i..], key);
  }

  lemma {:induction false} WordGoesOn(s: string, start: nat, i: nat, key: bool)
    requires start <= i < |s| && !IsWhitespace(s[i]) && !(key && s[i] == '=')
    ensures Ahead(s[start..i], Word(s[i..], key)) == Ahead(s[start..i + 1], Word(s[i + 1..], key))
  {
    assert s[i..][1..] == s[i + 1..];
    assert s[start..i + 1] == s[start..i] + [s[i]];
    AheadOne(s[start..i], s[i], Word(s[i + 1..], key));
  }

  lemma {:induction false} WordEnds(w: string, r: string, key: bool)
    requires r == "" || IsWhitespace(r[0]) || (key && r[0] == '=')
    ensures Ahead(w, Word(r, key)) == (w, r)
  {
    assert w + "" == w;
  }

  /** A word of which `w` has been read already. */
  function Ahead(w: string, p: (string, string)): (string, string) {
    (w + p.0, p.1)
  }

  lemma {:induction false} AheadNothing(p: (string, string))
    ensures Ahead("", p) == p
  {
    assert "" + p.0 == p.0;
  }

  lemma {:induction false} AheadOne(w: string, c: char, p: (string, string))
    ensures Ahead(w + [c], p) == Ahead(w, ([c] + p.0, p.1))
  {
    assert (w + [c]) + p.0 == w + ([c] + p.0);
  }

  function Onto(out: string, p: Option<(string, string)>): Option<(string, string)> {
    match p case None => None case Some(q) => Some((out + q.0, q.1))
  }

  lemma {:induction false} OntoPrepend(out: string, c: char, p: Option<(string, string)>)
    ensures Onto(out + [c], p) == Onto(out, Prepend(c, p))
  {
    if p.Some? { assert (out + [c]) + p.value.0 == out + ([c] + p.value.0); }
  }

  lemma {:induction false} OntoNothing(p: Option<(string, string)>)
    ensures Onto("", p) == p
  {
    if p.Some? { assert "" + p.value.0 == p.value.0; }
  }

  method ParseQuotedValue(s: string, open: nat, quote: char) returns (out: Option<string>, i: nat)
    requires open < |s| && s[open] == quote && quote != '\\'
    ensures open < i <= |s|
    ensures match Quoted(s[open + 1..], quote)
            case None => out == None
            case Some(p) => out == Some(p.0) && s[i..] == p.1
  {
    i := open + 1;
    var text := "";
    OntoNothing(Quoted(s[i..], quote));
    while i < |s|
      invariant open < i <= |s|
      invariant Quoted(s[open + 1..], quote) == Onto(text, Quoted(s[i..], quote))
    {
      var ch, r := s[i], s[i..];
      assert r[1..] == s[i + 1..];
      if ch == '\\' {
        if i + 1 >= |s| {
          text := text + ['\\'];
          i := i + 1;
          continue;
        }
        var next := s[i + 1];
        if next == quote || next == '\\' {
          assert r[2..] == s[i + 2..];
          OntoPrepend(text, next, Quoted(s[i + 2..], quote));
          text := text + [next];
          i := i + 2;
        } else {
          OntoPrepend(text, '\\', Quoted(s[i + 1..], quote));
          text := text + ['\\'];
          i := i + 1;
        }
        continue;
      }
      i := i + 1;
      if ch == quote {
        assert text + "" == text;
        return Some(text), i;
      }
      OntoPrepend(text, ch, Quoted(s[i..], quote));
      text := text + [ch];
    }
    out := None;
  }

  method ParseToolCall(input: string) returns (call: Option<ToolCall>)
    ensures call == Parse(input)
  {
    hide SkipSpaces, TrimEnd, Word;
    var s := Trim(input);
    if !(PREFIX <= s) {
      return None;
    }
    var rest := Trim(s[5..]);
    if rest == "" {
      return None;
    }
    var start := SkipSpacesFrom(rest, 0);
    assert rest[0..] == rest;
    var i := ScanWord(rest, start, false);
    var name := rest[start..i];
    if start == i {
      return None;
    }
    hide OnePass;
    ghost var tail := rest[i..];
    var args: map<string, string> := map[];
    while i < |rest|
      invariant i <= |rest| && ParseArgs(rest[i..], args) == ParseArgs(tail, map[])
      decreases |rest| - i
    {
      PassAdvances(rest[i..], args);
      var flow;
      flow, i, args := ParseOneArg(rest, i, args);
      match flow
      case Break => break;
      case Reject => return None;
      case Continue =>
    }
    call := Some(ToolCall(name, args));
  }

  datatype Flow = Break | Reject | Continue

  /** The body of the outer loop. */
  method ParseOneArg(rest: string, start: nat, given: map<string, string>)
    returns (flow: Flow, i: nat, args: map<string, string>)
    requires start < |rest|
    ensures i <= |rest|
    ensures match OnePass(rest[start..], given)
            case Stop(done) => flow == Break && args == done
            case Fail => flow == Reject
            case Next(r, more) => flow == Continue && rest[i..] == r && args == more
  {
    hide SkipSpaces, Word, Quoted;
    args := given;
    i := SkipSpacesFrom(rest, start);
    if i >= |rest| {
      return Break, i, args;
    }
    var keyStart := i;
    i := ScanWord(rest, i, true);
    if keyStart == i {
      return Reject, i, args;
    }
    var key := rest[keyStart..i];
    i := SkipSpacesFrom(rest, i);
    if i >= |rest| || rest[i] != '=' {
      i := ScanWord(rest, i, false);
      return Continue, i, args;
    }
    assert rest[i..][1..] == rest[i + 1..];
    i := SkipSpacesFrom(rest, i + 1);
    if i >= |rest| {
      return Break, i, args[key := ""];
    }
    var first := rest[i];
    if first == '\'' || first == '"' {
      assert rest[i..][1..] == rest[i + 1..];
      var value;
      value, i := ParseQuotedValue(rest, i, first);
      if value.None? {
        return Reject, i, args;
      }
      args := args[key := value.value];
    } else {
      var valueStart := i;
      i := ScanWord(rest, i, false);
      args := args[key := rest[valueStart..i]];
    }
    flow := Continue;
  }

  // ---- How a command may be written --------------------------------------

  datatype Quoting = Unquoted | SingleQuotes | DoubleQuotes

  /** An argument with the white space in front of it and on both sides of its equals sign. */
  datatype Arg = Arg(gap: string, key: string, left: string, right: string, value: string, quoting: Quoting)

  predicate Blank(s: string) {
    forall i :: 0 <= i < |s| ==> IsWhitespace(s[i])
  }

  /** A name, key or bare value as the grammar can carry it. */
  predicate Token(s: string, key: bool) {
    s != "" && forall i :: 0 <= i < |s| ==> !IsWhitespace(s[i]) && (key ==> s[i] != '=')
  }

  /** Any value can be quoted; without quotes it is a word that does not look quoted. */
  predicate Written(a: Arg) {
    && a.gap != "" && Blank(a.gap) && Token(a.key, true) && Blank(a.left) && Blank(a.right)
    && (a.quoting.Unquoted? ==> Token(a.value, false) && a.value[0] != '\'' && a.value[0] != '"')
  }

  function Escape(v: string, quote: char): string {
    if v == "" then ""
    else (if v[0] == quote || v[0] == '\\' then ['\\', v[0]] else [v[0]]) + Escape(v[1..], quote)
  }

  function InQuotes(v: string, quote: char): string {
    [quote] + (Escape(v, quote) + [quote])
  }

  function ValueText(a: Arg): string {
    match a.quoting
    case Unquoted => a.value
    case SingleQuotes => InQuotes(a.value, '\'')
    case DoubleQuotes => InQuotes(a.value, '"')
  }

  function ArgText(a: Arg): string {
    a.gap + (a.key + (a.left + ("=" + (a.right + ValueText(a)))))
  }

  function ArgsText(args: seq<Arg>): string {
    if args == [] then "" else ArgText(args[0]) + ArgsText(args[1..])
  }

  function LastWins(m: map<string, string>, args: seq<Arg>): map<string, string>
    decreases |args|
  {
    if args == [] then m else LastWins(m[args[0].key := args[0].value], args[1..])
  }

  // ---- Reading it back ---------------------------------------------------

  lemma {:induction false} SkipGap(gap: string, r: string)
    requires Blank(gap) && (r == "" || !IsWhitespace(r[0]))
    ensures SkipSpaces(gap + r) == r
  {
    if gap == "" {
      assert gap + r == r;
    } else {
      assert (gap + r)[1..] == gap[1..] + r;
      SkipGap(gap[1..], r);
    }
  }

  lemma {:induction false} TrimTail(s: string, gap: string)
    requires Blank(gap) && s != "" && !IsWhitespace(s[|s| - 1])
    ensures TrimEnd(s + gap) == s
  {
    if gap == "" {
      assert s + gap == s;
    } else {
      assert (s + gap)[..|s + gap| - 1] == s + gap[..|gap| - 1];
      TrimTail(s, gap[..|gap| - 1]);
    }
  }

  lemma {:induction false} TrimGaps(before: string, s: string, after: string)
    requires Blank(before) && Blank(after)
    requires s != "" && !IsWhitespace(s[0]) && !IsWhitespace(s[|s| - 1])
    ensures Trim(before + (s + after)) == s
  {
    SkipGap(before, s + after);
    TrimTail(s, after);
  }

  lemma {:induction false} TrimNothing(s: string)
    requires s != "" && !IsWhitespace(s[0]) && !IsWhitespace(s[|s| - 1])
    ensures Trim(s) == s
  {
  }

  lemma {:induction false} QuotedEscape(v: string, quote: char, post: string)
    requires quote != '\\'
    ensures Quoted(Escape(v, quote) + ([quote] + post), quote) == Some((v, post))
  {
    var r := Escape(v, quote) + ([quote] + post);
    if v == "" {
      assert r == [quote] + post && r[1..] == post;
    } else {
      QuotedEscape(v[1..], quote, post);
      var more := Escape(v[1..], quote) + ([quote] + post);
      if v[0] == quote || v[0] == '\\' {
        assert r == ['\\', v[0]] + more && r[2..] == more;
      } else {
        assert r == [v[0]] + more && r[1..] == more;
      }
      assert [v[0]] + v[1..] == v;
    }
  }

  lemma {:induction false} WordToken(w: string, key: bool, post: string)
    requires w == "" || Token(w, key)
    requires post == "" || IsWhitespace(post[0]) || (key && post[0] == '=')
    ensures Word(w + post, key) == (w, post)
  {
    if w == "" {
      assert w + post == post;
    } else {
      WordToken(w[1..], key, post);
      assert (w + post)[1..] == w[1..] + post;
      assert [w[0]] + w[1..] == w;
    }
  }

  /** What follows the equals sign and its white space. */
  lemma {:induction false} ValueRead(a: Arg, post: string)
    requires Written(a) && (post == "" || IsWhitespace(post[0]))
    ensures var r := ValueText(a) + post;
      && r != "" && !IsWhitespace(r[0])
      && (r[0] == '\'' || r[0] == '"' <==> !a.quoting.Unquoted?)
      && (a.quoting.Unquoted? ==> Word(r, false) == (a.value, post))
      && (!a.quoting.Unquoted? ==> Quoted(r[1..], r[0]) == Some((a.value, post)))
  {
    hide Word, Quoted, Escape, InQuotes;
    match a.quoting
    case Unquoted => WordToken(a.value, false, post);
    case SingleQuotes => QuotedRead(a.value, '\'', post);
    case DoubleQuotes => QuotedRead(a.value, '"', post);
  }

  lemma {:induction false} QuotedRead(v: string, quote: char, post: string)
    requires quote != '\\'
    ensures var r := InQuotes(v, quote) + post;
      r != "" && r[0] == quote && Quoted(r[1..], quote) == Some((v, post))
  {
    hide Escape, Quoted;
    var r := InQuotes(v, quote) + post;
    assert r[1..] == Escape(v, quote) + ([quote] + post);
    QuotedEscape(v, quote, post);
  }

  lemma {:induction false} PassPrinted(a: Arg, post: string, m: map<string, string>)
    requires Written(a) && (post == "" || IsWhitespace(post[0]))
    ensures OnePass(ArgText(a) + post, m) == Next(post, m[a.key := a.value])
  {
    hide SkipSpaces, Word, Quoted, ValueText;
    var r4 := ValueText(a) + post;
    var r3 := "=" + (a.right + r4);
    var r1 := a.key + (a.left + r3);
    assert ArgText(a) + post == a.gap + r1;
    SkipGap(a.gap, r1);
    KeyRead(a, r3);
    assert r3[1..] == a.right + r4;
    ValueRead(a, post);
    SkipGap(a.right, r4);
  }

  lemma {:induction false} KeyRead(a: Arg, r3: string)
    requires Written(a) && r3 != "" && r3[0] == '='
    ensures Word(a.key + (a.left + r3), true) == (a.key, a.left + r3) && SkipSpaces(a.left + r3) == r3
  {
    WordToken(a.key, true, a.left + r3);
    SkipGap(a.left, r3);
  }

  lemma {:induction false} ArgsRoundTrip(args: seq<Arg>, m: map<string, string>)
    requires forall i :: 0 <= i < |args| ==> Written(args[i])
    ensures ParseArgs(ArgsText(args), m) == Some(LastWins(m, args))
    decreases |args|
  {
    hide OnePass, ArgText, Written;
    if args != [] {
      ArgsStart(args);
      ArgsStart(args[1..]);
      PassPrinted(args[0], ArgsText(args[1..]), m);
      ArgsRoundTrip(args[1..], m[args[0].key := args[0].value]);
    }
  }

  lemma {:induction false} ArgsStart(args: seq<Arg>)
    requires forall i :: 0 <= i < |args| ==> Written(args[i])
    ensures args == [] ==> ArgsText(args) == ""
    ensures args != [] ==> ArgsText(args) != "" && IsWhitespace(ArgsText(args)[0])
  {
  }

  lemma {:induction false} ArgEnd(a: Arg)
    requires Written(a)
    ensures ArgText(a) != "" && !IsWhitespace(ArgText(a)[|ArgText(a)| - 1])
  {
    var value := ValueText(a);
    assert value != "" && !IsWhitespace(value[|value| - 1]);
    assert ArgText(a)[|ArgText(a)| - 1] == value[|value| - 1];
  }

  lemma {:induction false} ArgsEnd(args: seq<Arg>)
    requires forall i :: 0 <= i < |args| ==> Written(args[i])
    ensures args != [] ==> ArgsText(args) != "" && !IsWhitespace(ArgsText(args)[|ArgsText(args)| - 1])
  {
    hide ArgText, Written;
    if args != [] {
      ArgEnd(args[0]);
      ArgsEnd(args[1..]);
      if args[1..] == [] { assert ArgsText(args) == ArgText(args[0]) + ""; }
    }
  }

  /** However a command is written, with any white space around it, after the prefix, between
      the arguments and around their equals signs, and with any of the three ways to give a
      value, it reads back; of equal keys the last one wins. */
  lemma {:induction false} RoundTrip(before: string, gap: string, name: string, args: seq<Arg>, after: string)
    requires Blank(before) && Blank(gap) && Blank(after) && Token(name, false)
    requires forall i :: 0 <= i < |args| ==> Written(args[i])
    ensures Parse(before + (("tool:" + (gap + (name + ArgsText(args)))) + after)) ==
      Some(ToolCall(name, LastWins(map[], args)))
  {
    hide SkipSpaces, Trim, Word, ParseArgs, ArgsText, LastWins, Written;
    var rest := name + ArgsText(args);
    ArgsStart(args);
    ArgsEnd(args);
    if args == [] { assert rest == name; }
    var s := PREFIX + (gap + rest);
    assert s[0] == 't' && s[|s| - 1] == rest[|rest| - 1];
    TrimGaps(before, s, after);
    assert s[5..] == gap + (rest + "");
    TrimGaps(gap, rest, "");
    SkipGap("", rest);
    assert "" + rest == rest;
    WordToken(name, false, ArgsText(args));
    ArgsRoundTrip(args, map[]);
  }

  // ---- Where the grammar is odd ------------------------------------------

  /** A word without an equals sign is dropped, and so is the word after it, whatever it is. */
  lemma {:induction false} BareWordSwallows(word: string, next: string, m: map<string, string>, post: string)
    requires Token(word, true) && Token(next, false) && next[0] != '=' && (post == "" || IsWhitespace(post[0]))
    ensures OnePass(" " + (word + (" " + (next + post))), m) == Next(post, m)
  {
    hide SkipSpaces, Word;
    var r1 := word + (" " + (next + post));
    SkipGap(" ", r1);
    WordToken(word, true, " " + (next + post));
    SkipGap(" ", next + post);
    WordToken(next, false, post);
  }

  /** A key with nothing after its equals sign has the empty value, at the end only. */
  lemma {:induction false} EmptyAtEnd(key: string, m: map<string, string>)
    requires Token(key, true)
    ensures OnePass(" " + (key + "="), m) == Stop(m[key := ""])
  {
    hide SkipSpaces, Word;
    SkipGap(" ", key + "=");
    WordToken(key, true, "=");
    SkipGap("", "=");
    assert "" + "=" == "=" && "="[1..] == "";
    SkipGap("", "");
    assert "" + "" == "";
  }

  /** What cannot be read: no prefix, no name, no key in front of an equals sign, or a quoted
      value that is not closed. */
  lemma {:induction false} Unreadable(s: string, key: string, v: string, quote: char, m: map<string, string>)
    requires Token(key, true) && (quote == '\'' || quote == '"') && '\\' !in v && quote !in v
    ensures !(PREFIX <= Trim(s)) ==> Parse(s) == None
    ensures Parse("tool:") == None
    ensures OnePass("=" + s, m) == Fail
    ensures OnePass(" " + (key + ("=" + ([quote] + v))), m) == Fail
  {
    TrimNothing("tool:");
    assert "tool:"[5..] == "";
    SkipGap("", "=" + s);
    assert "" + ("=" + s) == "=" + s;
    OpenQuote(v, quote);
    OpenValue(key, v, quote, m);
  }

  lemma {:induction false} OpenQuote(v: string, quote: char)
    requires '\\' !in v && quote !in v
    ensures Quoted(v, quote) == None
  {
    if v != "" { OpenQuote(v[1..], quote); }
  }

  lemma {:induction false} OpenValue(key: string, v: string, quote: char, m: map<string, string>)
    requires Token(key, true) && (quote == '\'' || quote == '"') && Quoted(v, quote) == None
    ensures OnePass(" " + (key + ("=" + ([quote] + v))), m) == Fail
  {
    hide SkipSpaces, Word, Quoted;
    var r3 := "=" + ([quote] + v);
    SkipGap(" ", key + r3);
    WordToken(key, true, r3);
    SkipGap("", r3);
    assert "" + r3 == r3 && r3[1..] == [quote] + v && ([quote] + v)[1..] == v;
    SkipGap("", [quote] + v);
    assert "" + ([quote] + v) == [quote] + v;
  }

  /** Inside quotes a backslash escapes the quote and itself; before anything else it stays. */
  lemma {:induction false} LoneBackslash(c: char, quote: char, r: string)
    requires c != quote && c != '\\'
    ensures Quoted("\\" + ([c] + r), quote) == Prepend('\\', Quoted([c] + r, quote))
  {
    var s := "\\" + ([c] + r);
    assert s[1] == c && s[1..] == [c] + r;
  }
}
