/** What the stream parser is for: the `message` of a final decision. */
module DecisionPromise {
  // The released text in closed form, and exactly when it is the message RFC 8259
  // assigns to the document.

  import opened Common
  import opened DecisionStream
  import opened DecisionDocument

  // ---- The released text in closed form ----------------------------------

  /** The action a member settles, in lower case, if the parser takes it for the action. */
  function ActionOf(key: seq<Piece>, v: Json): Option<string>
    requires WellFormedLit(key) && WellFormed(v)
  {
    if Keep(key) == "action" && Lead(v).Some? then LeadWellFormed(v); Some(Lower(Keep(Lead(v).value))) else None
  }

  /** What the parser hears of a member as message text. */
  function MessageOf(key: seq<Piece>, v: Json): (r: seq<Piece>)
    requires WellFormedLit(key) && WellFormed(v)
    ensures WellFormedLit(r)
  {
    if Keep(key) == "message" && Lead(v).Some? then LeadWellFormed(v); Lead(v).value else []
  }

  /** Some member settles the action as final. */
  predicate FinalLater(ms: Members)
    requires WellFormedMembers(ms)
    decreases ms
  {
    ms.Member? && (ActionOf(ms.key, ms.value) == Some(FINAL) || FinalLater(ms.rest))
  }

  /** What is heard and released, in order: message text that comes while the action is
      final, or before a member that makes it final. */
  function Voiced(final: bool, ms: Members): (r: seq<Piece>)
    requires WellFormedMembers(ms)
    ensures WellFormedLit(r)
    decreases ms
  {
    if ms.NoMembers? then []
    else
      var action := ActionOf(ms.key, ms.value);
      (if final || FinalLater(ms.rest) then MessageOf(ms.key, ms.value) else [])
      + Voiced(if action.Some? then action.value == FINAL else final, ms.rest)
  }

  function LastAction(before: Option<string>, ms: Members): Option<string>
    requires WellFormedMembers(ms)
    decreases ms
  {
    if ms.NoMembers? then before
    else
      var action := ActionOf(ms.key, ms.value);
      LastAction(if action.Some? then action else before, ms.rest)
  }

  lemma {:induction false} KeepConcat(a: seq<Piece>, b: seq<Piece>)
    requires WellFormedLit(a) && WellFormedLit(b)
    ensures WellFormedLit(a + b) && Keep(a + b) == Keep(a) + Keep(b)
  {
    if a == [] {
      assert a + b == b;
    } else {
      assert (a + b)[1..] == a[1..] + b;
      KeepConcat(a[1..], b);
    }
  }

  /** What a member tells: an action, or message text, or nothing. */
  function Told(w: Voice, action: Option<string>, text: string): Voice {
    match action
    case Some(a) => if a == FINAL then Voice(Some(a), "", w.said + w.pending) else w.(action := Some(a))
    case None => if w.action == Some(FINAL) then w.(said := w.said + text) else w.(pending := w.pending + text)
  }

  lemma {:induction false} TellIsTold(w: Voice, key: seq<Piece>, v: Json)
    requires WellFormedLit(key) && WellFormed(v)
    ensures TellMember(w, key, v) == Told(w, ActionOf(key, v), Keep(MessageOf(key, v)))
    ensures ActionOf(key, v).Some? ==> MessageOf(key, v) == []
  {
    assert "action" != "message" by { assert |"action"| != |"message"|; }
    assert w.said + "" == w.said && w.pending + "" == w.pending;
  }

  /** What is held back counts as released when a final action is still to come. */
  function Due(w: Voice, later: bool): string {
    w.said + (if later then w.pending else "")
  }

  predicate Settled(w: Voice) {
    w.action == Some(FINAL) ==> w.pending == ""
  }

  lemma {:induction false} ToldDue(w: Voice, action: Option<string>, text: string, later: bool)
    requires Settled(w) && (action.Some? ==> text == "")
    ensures var w1 := Told(w, action, text);
      && Settled(w1)
      && w1.action == (if action.Some? then action else w.action)
      && Due(w1, later) == Due(w, action == Some(FINAL) || later) +
          (if w.action == Some(FINAL) || later then text else "")
  {
    var w1 := Told(w, action, text);
    var before := Due(w, action == Some(FINAL) || later);
    assert before + "" == before;
    assert w.said + "" == w.said;
    assert w1.said + "" == w1.said;
    if later && action.None? && w.action != Some(FINAL) {
      assert w.said + (w.pending + text) == (w.said + w.pending) + text;
    }
  }

  /** Telling the members one by one comes to what is voiced. */
  lemma {:induction false} TellVoiced(w: Voice, ms: Members)
    requires WellFormedMembers(ms) && Settled(w)
    ensures var t := TellAll(w, ms);
      && t.said == Due(w, FinalLater(ms)) + Keep(Voiced(w.action == Some(FINAL), ms))
      && t.action == LastAction(w.action, ms)
    decreases ms
  {
    hide Told, Due, TellMember, ActionOf, MessageOf, Keep, Settled;
    if ms.NoMembers? {
      NothingDue(w);
    } else {
      var action, text := ActionOf(ms.key, ms.value), MessageOf(ms.key, ms.value);
      var w1 := TellMember(w, ms.key, ms.value);
      TellIsTold(w, ms.key, ms.value);
      KeepNothing();
      ToldDue(w, action, Keep(text), FinalLater(ms.rest));
      TellVoiced(w1, ms.rest);
      var heard := if w.action == Some(FINAL) || FinalLater(ms.rest) then text else [];
      var more := Voiced(w1.action == Some(FINAL), ms.rest);
      KeepConcat(heard, more);
      assert Due(w, FinalLater(ms)) + Keep(heard) + Keep(more) == Due(w, FinalLater(ms)) + (Keep(heard) + Keep(more));
    }
  }

  lemma {:induction false} KeepNothing()
    ensures Keep([]) == ""
  {
  }

  lemma {:induction false} NothingDue(w: Voice)
    ensures Due(w, false) + Keep([]) == w.said
  {
  }

  /** For every document, whatever its keys, and every way of cutting its text into chunks. */
  lemma {:induction false} ReleasedMessage(d: Document, chunks: seq<string>)
    requires WellFormedDocument(d)
    requires Flatten(chunks) == DocumentText(d)
    ensures Flatten(Deltas(START, chunks)) == Keep(Voiced(false, d.members))
    ensures Run(START, DocumentText(d)).next.action == LastAction(None, d.members)
  {
    hide Step, Run;
    ChunkingIrrelevant(START, chunks);
    RunDocument(d);
    TellVoiced(SILENCE, d.members);
    assert Due(SILENCE, FinalLater(d.members)) + Keep(Voiced(false, d.members)) == Keep(Voiced(false, d.members));
  }

  // ---- Two readings of the keys ------------------------------------------

  /** The members from the first one whose key the parser reads as `name`. */
  function Find(ms: Members, name: string): (r: Members)
    requires WellFormedMembers(ms)
    ensures WellFormedMembers(r)
    ensures r.Member? ==> Keep(r.key) == name && (r.value.Str? ==> WellFormedLit(r.value.lit))
    decreases ms
  {
    if ms.NoMembers? then ms
    else if Keep(ms.key) == name then assert WellFormed(ms.value); ms
    else Find(ms.rest, name)
  }

  /** The members from the first one whose key is `name`. */
  function FindNamed(ms: Members, name: string): (r: Members)
    requires WellFormedMembers(ms)
    ensures WellFormedMembers(r)
    ensures r.Member? ==> Decode(r.key) == name && (r.value.Str? ==> WellFormedLit(r.value.lit))
    decreases ms
  {
    if ms.NoMembers? then ms
    else if Decode(ms.key) == name then assert WellFormed(ms.value); ms
    else FindNamed(ms.rest, name)
  }

  /** No two keys are the same, as RFC 8259 reads them. */
  predicate DistinctKeys(ms: Members)
    requires WellFormedMembers(ms)
    decreases ms
  {
    ms.Member? ==> FindNamed(ms.rest, Decode(ms.key)).NoMembers? && DistinctKeys(ms.rest)
  }

  predicate Ascii(s: string) {
    forall i :: 0 <= i < |s| ==> s[i] < '\U{0080}'
  }

  lemma {:induction false} DecodeAt(lit: seq<Piece>, i: nat)
    requires WellFormedLit(lit) && i < |lit|
    ensures Decode(lit)[i] == lit[i].c
  {
    if i > 0 {
      DecodeAt(lit[1..], i - 1);
    }
  }

  lemma {:induction false} PairIsWide(x: Piece)
    requires WellFormedPiece(x)
    ensures x.Pair? ==> x.c >= '\U{10000}'
  {
  }

  /** A literal read as ASCII text holds no surrogate pair. */
  lemma {:induction false} AsciiNoPairs(lit: seq<Piece>)
    requires WellFormedLit(lit) && Ascii(Decode(lit))
    ensures NoPairs(lit) && Keep(lit) == Decode(lit)
  {
    forall i | 0 <= i < |lit| ensures !lit[i].Pair? {
      DecodeAt(lit, i);
      PairIsWide(lit[i]);
    }
    KeepExact(lit);
  }

  /** For a plain name the parser finds the member that has it exactly when the first
      member it takes for it is spelled without surrogate pairs. */
  lemma {:induction false} LookupsAgree(ms: Members, name: string)
    requires WellFormedMembers(ms) && Ascii(name)
    ensures Find(ms, name) == FindNamed(ms, name) <==> (Find(ms, name).Member? ==> NoPairs(Find(ms, name).key))
    decreases ms
  {
    if ms.Member? {
      KeepExact(ms.key);
      if Decode(ms.key) == name { AsciiNoPairs(ms.key); }
      LookupsAgree(ms.rest, name);
    }
  }

  // ---- The promise -------------------------------------------------------

  /** The literal of the top-level member `name` when it holds a string. */
  function StringMember(ms: Members, name: string): Option<seq<Piece>>
    requires WellFormedMembers(ms)
  {
    var m := FindNamed(ms, name);
    if m.Member? && m.value.Str? then Some(m.value.lit) else None
  }

  /** The word `final`, in any letter case. */
  predicate IsFinal(s: string) {
    |s| == 5 && s[0] in "fF" && s[1] in "iI" && s[2] in "nN" && s[3] in "aA" && s[4] in "lL"
  }

  /** The literal of the `message` a final decision carries; nothing for other decisions. */
  function PromisedLit(ms: Members): (r: seq<Piece>)
    requires WellFormedMembers(ms)
    ensures WellFormedLit(r)
  {
    match (StringMember(ms, "action"), StringMember(ms, "message"))
    case (Some(a), Some(m)) => if IsFinal(Decode(a)) then m else []
    case _ => []
  }

  function Promised(ms: Members): string
    requires WellFormedMembers(ms)
  {
    Decode(PromisedLit(ms))
  }

  predicate AllPairs(lit: seq<Piece>) {
    forall i :: 0 <= i < |lit| ==> lit[i].Pair?
  }

  function WithoutPairs(lit: seq<Piece>): (r: seq<Piece>)
    ensures WellFormedLit(lit) ==> WellFormedLit(r)
    ensures NoPairs(r)
  {
    if lit == [] then [] else (if lit[0].Pair? then [] else [lit[0]]) + WithoutPairs(lit[1..])
  }

  /** Two literals that spell the same text, character by character. */
  predicate SpellAlike(a: seq<Piece>, b: seq<Piece>)
    requires WellFormedLit(a) && WellFormedLit(b)
  {
    |a| == |b| && forall i :: 0 <= i < |a| ==> a[i].c == b[i].c
  }

  /** What the parser must find in the spelling of a document.  If just the promised literal
      is heard, it has no surrogate pairs; if nothing is promised, only pairs are heard; and
      if other literals are heard, as values of keys the parser confuses or at the head of
      arrays, their pieces other than pairs happen to spell the promised text. */
  predicate Faithful(ms: Members)
    requires WellFormedMembers(ms)
  {
    var heard, promised := Voiced(false, ms), PromisedLit(ms);
    if heard == promised then NoPairs(promised)
    else if promised == [] then AllPairs(heard)
    else SpellAlike(WithoutPairs(heard), promised)
  }

  lemma {:induction false} KeepIsWithoutPairs(lit: seq<Piece>)
    requires WellFormedLit(lit)
    ensures Keep(lit) == Decode(WithoutPairs(lit))
    ensures WithoutPairs(lit) == [] <==> AllPairs(lit)
  {
    if lit != [] {
      KeepIsWithoutPairs(lit[1..]);
      var w := WithoutPairs(lit[1..]);
      assert AllPairs(lit) <==> lit[0].Pair? && AllPairs(lit[1..]) by {
        assert lit == [lit[0]] + lit[1..];
      }
      if !lit[0].Pair? { assert ([lit[0]] + w)[1..] == w; } else { assert [] + w == w; }
    }
  }

  lemma {:induction false} SameText(a: seq<Piece>, b: seq<Piece>)
    requires WellFormedLit(a) && WellFormedLit(b)
    ensures Decode(a) == Decode(b) <==> SpellAlike(a, b)
  {
    forall i | 0 <= i < |a| ensures Decode(a)[i] == a[i].c { DecodeAt(a, i); }
    forall i | 0 <= i < |b| ensures Decode(b)[i] == b[i].c { DecodeAt(b, i); }
  }

  /** The parser keeps its promise on exactly the faithful documents. */
  lemma {:induction false} PromiseKeptExactly(d: Document, chunks: seq<string>)
    requires WellFormedDocument(d)
    requires Flatten(chunks) == DocumentText(d)
    ensures Flatten(Deltas(START, chunks)) == Promised(d.members) <==> Faithful(d.members)
  {
    ReleasedMessage(d, chunks);
    var heard, promised := Voiced(false, d.members), PromisedLit(d.members);
    KeepIsWithoutPairs(heard);
    SameText(WithoutPairs(heard), promised);
    if heard == promised { KeepExact(heard); }
  }

  // ---- Keys that are not confused ----------------------------------------

  /** Whatever the parser takes for `name` is spelled without surrogate pairs. */
  predicate Unconfused(ms: Members, name: string)
    requires WellFormedMembers(ms)
    decreases ms
  {
    ms.Member? ==> (Keep(ms.key) == name ==> NoPairs(ms.key)) && Unconfused(ms.rest, name)
  }

  /** The parser takes at most one member for `name`. */
  predicate HeardOnce(ms: Members, name: string)
    requires WellFormedMembers(ms)
  {
    var m := Find(ms, name);
    m.Member? ==> Find(m.rest, name).NoMembers?
  }

  lemma {:induction false} UnconfusedLookup(ms: Members, name: string)
    requires WellFormedMembers(ms) && Ascii(name) && Unconfused(ms, name)
    ensures Find(ms, name) == FindNamed(ms, name)
    ensures Unconfused(Find(ms, name), name)
    decreases ms
  {
    LookupsAgree(ms, name);
    if ms.Member? {
      UnconfusedLookup(ms.rest, name);
    }
  }

  lemma {:induction false} UnconfusedHeardOnce(ms: Members, name: string)
    requires WellFormedMembers(ms) && Ascii(name) && Unconfused(ms, name) && DistinctKeys(ms)
    ensures HeardOnce(ms, name)
    decreases ms
  {
    UnconfusedLookup(ms, name);
    if ms.Member? {
      if Keep(ms.key) == name {
        KeepExact(ms.key);
        UnconfusedLookup(ms.rest, name);
      } else {
        UnconfusedHeardOnce(ms.rest, name);
      }
    }
  }

  /** The pieces heard of the first member the parser takes for `message`. */
  function FirstMessage(ms: Members): (r: seq<Piece>)
    requires WellFormedMembers(ms)
    ensures WellFormedLit(r)
  {
    var m := Find(ms, "message");
    if m.Member? then MessageOf(m.key, m.value) else []
  }

  function FirstAction(ms: Members): Option<string>
    requires WellFormedMembers(ms)
  {
    var m := Find(ms, "action");
    if m.Member? then ActionOf(m.key, m.value) else None
  }

  lemma {:induction false} NoActionLater(ms: Members)
    requires WellFormedMembers(ms) && Find(ms, "action").NoMembers?
    ensures !FinalLater(ms)
    decreases ms
  {
    if ms.Member? { NoActionLater(ms.rest); }
  }

  lemma {:induction false} NothingVoiced(final: bool, ms: Members)
    requires WellFormedMembers(ms) && Find(ms, "message").NoMembers?
    ensures Voiced(final, ms) == []
    decreases ms
  {
    if ms.Member? {
      var action := ActionOf(ms.key, ms.value);
      NothingVoiced(if action.Some? then action.value == FINAL else final, ms.rest);
    }
  }

  /** With one action and one message heard, in either order, the message is released when
      the action is final. */
  lemma {:induction false} HeardOnceVoiced(final: bool, ms: Members)
    requires WellFormedMembers(ms) && HeardOnce(ms, "action") && HeardOnce(ms, "message")
    requires final ==> Find(ms, "action").NoMembers?
    ensures FinalLater(ms) <==> FirstAction(ms) == Some(FINAL)
    ensures Voiced(final, ms) == if final || FirstAction(ms) == Some(FINAL) then FirstMessage(ms) else []
    decreases ms
  {
    if ms.Member? {
      assert "action" != "message" by { assert |"action"| != |"message"|; }
      var action := ActionOf(ms.key, ms.value);
      if Keep(ms.key) == "action" {
        NoActionLater(ms.rest);
        HeardOnceVoiced(action == Some(FINAL), ms.rest);
      } else if Keep(ms.key) == "message" {
        NothingVoiced(final, ms.rest);
        HeardOnceVoiced(final, ms.rest);
      } else {
        HeardOnceVoiced(final, ms.rest);
      }
    }
  }

  /** Member `name` is there and holds a string. */
  predicate NamedString(ms: Members, name: string)
    requires WellFormedMembers(ms)
  {
    var m := Find(ms, name);
    m.Member? && m.value.Str?
  }

  predicate PlainString(ms: Members, name: string)
    requires WellFormedMembers(ms)
  {
    NamedString(ms, name) && NoPairs(Find(ms, name).value.lit)
  }

  lemma {:induction false} FinalInAnyCase(s: string)
    ensures IsFinal(s) <==> Lower(s) == FINAL
    ensures IsFinal(s) ==> Ascii(s)
  {
    if Lower(s) == FINAL {
      assert |s| == 5;
      forall i | 0 <= i < 5 ensures LowerChar(s[i]) == FINAL[i] { assert Lower(s)[i] == LowerChar(s[i]); }
    }
    if IsFinal(s) {
      forall i | 0 <= i < 5 ensures Lower(s)[i] == FINAL[i] { assert Lower(s)[i] == LowerChar(s[i]); }
    }
  }

  /** The same condition when no key is confused: if the action heard is final, then it and
      `message` are strings without surrogate pairs, or there is no piece but pairs at the
      head of `message`. */
  lemma {:induction false} FaithfulBySpelling(ms: Members)
    requires WellFormedMembers(ms) && DistinctKeys(ms) && Unconfused(ms, "action") && Unconfused(ms, "message")
    ensures Faithful(ms) <==>
      (FirstAction(ms) == Some(FINAL) ==>
        (if PlainString(ms, "action") && NamedString(ms, "message") then PlainString(ms, "message")
         else AllPairs(FirstMessage(ms))))
  {
    UnconfusedLookup(ms, "action");
    UnconfusedLookup(ms, "message");
    UnconfusedHeardOnce(ms, "action");
    UnconfusedHeardOnce(ms, "message");
    HeardOnceVoiced(false, ms);
    PromisedWhenPlain(ms);
  }

  lemma {:induction false} WithoutPairsConcat(a: seq<Piece>, b: seq<Piece>)
    ensures WithoutPairs(a + b) == WithoutPairs(a) + WithoutPairs(b)
  {
    if a == [] {
      assert a + b == b;
    } else {
      assert (a + b)[1..] == a[1..] + b;
      WithoutPairsConcat(a[1..], b);
    }
  }

  lemma {:induction false} NothingLeft(lit: seq<Piece>)
    ensures WithoutPairs(lit) == [] <==> AllPairs(lit)
    ensures WithoutPairs(lit) == lit <==> NoPairs(lit)
    ensures |WithoutPairs(lit)| <= |lit|
  {
    if lit != [] {
      NothingLeft(lit[1..]);
      assert lit == [lit[0]] + lit[1..];
      assert AllPairs(lit) <==> lit[0].Pair? && AllPairs(lit[1..]);
      assert NoPairs(lit) ==> NoPairs(lit[1..]);
    }
  }

  /** And when the promised literal, without surrogate pairs, is among what is heard: then
      there is nothing but pairs around it. */
  lemma {:induction false} FaithfulAround(ms: Members, before: seq<Piece>, after: seq<Piece>)
    requires WellFormedMembers(ms)
    requires Voiced(false, ms) == before + PromisedLit(ms) + after && NoPairs(PromisedLit(ms))
    ensures Faithful(ms) <==> AllPairs(before + after)
  {
    hide Voiced, PromisedLit, WithoutPairs, AllPairs, NoPairs;
    var heard, promised := Voiced(false, ms), PromisedLit(ms);
    LeftAround(before, promised, after);
    if promised == [] {
      assert heard == before + after;
    } else if heard == promised {
      assert |before + after| == 0;
    }
  }

  lemma {:induction false} LeftAround(before: seq<Piece>, lit: seq<Piece>, after: seq<Piece>)
    requires NoPairs(lit)
    ensures AllPairs(before + after) ==> WithoutPairs(before + lit + after) == lit
    ensures |WithoutPairs(before + lit + after)| == |lit| ==> AllPairs(before + after)
    ensures before + after == [] ==> AllPairs(before + after)
  {
    hide WithoutPairs;
    WithoutPairsConcat(before + lit, after);
    WithoutPairsConcat(before, lit);
    WithoutPairsConcat(before, after);
    NothingLeft(lit);
    NothingLeft(before + after);
  }

  lemma {:induction false} PromisedWhenPlain(ms: Members)
    requires WellFormedMembers(ms)
    requires Find(ms, "action") == FindNamed(ms, "action") && Find(ms, "message") == FindNamed(ms, "message")
    ensures PromisedLit(ms) ==
      if FirstAction(ms) == Some(FINAL) && PlainString(ms, "action") && NamedString(ms, "message")
      then FirstMessage(ms) else []
  {
    if NamedString(ms, "action") {
      var lit := Find(ms, "action").value.lit;
      KeepExact(lit);
      FinalInAnyCase(Decode(lit));
      if IsFinal(Decode(lit)) { AsciiNoPairs(lit); }
    }
  }

  /** No pair and no array among the top-level values and keys. */
  predicate Ordinary(ms: Members) {
    ms.Member? ==>
      && NoPairs(ms.key) && !ms.value.Arr? && (ms.value.Str? ==> NoPairs(ms.value.lit))
      && Ordinary(ms.rest)
  }

  lemma {:induction false} OrdinaryIsUnconfused(ms: Members, name: string)
    requires WellFormedMembers(ms) && Ordinary(ms)
    ensures Unconfused(ms, name) && Ordinary(Find(ms, name))
    decreases ms
  {
    if ms.Member? { OrdinaryIsUnconfused(ms.rest, name); }
  }

  /** Hence the law on all ordinary documents, nested values of any shape included. */
  lemma {:induction false} PromiseKept(d: Document, chunks: seq<string>)
    requires WellFormedDocument(d) && DistinctKeys(d.members) && Ordinary(d.members)
    requires Flatten(chunks) == DocumentText(d)
    ensures Flatten(Deltas(START, chunks)) == Promised(d.members)
  {
    OrdinaryIsUnconfused(d.members, "action");
    OrdinaryIsUnconfused(d.members, "message");
    PromiseKeptExactly(d, chunks);
    FaithfulBySpelling(d.members);
  }

  // ---- Where it breaks ---------------------------------------------------

  /** A literal spelled character by character. */
  ghost predicate Spells(lit: seq<Piece>, s: string) {
    WellFormedLit(lit) && NoPairs(lit) && Keep(lit) == s && Decode(lit) == s
  }

  lemma {:induction false} Spelling(s: string) returns (lit: seq<Piece>)
    requires forall i :: 0 <= i < |s| ==> s[i] != '"' && s[i] != '\\'
    ensures Spells(lit, s)
  {
    if s == "" {
      lit := [];
    } else {
      var rest := Spelling(s[1..]);
      lit := [Raw(s[0])] + rest;
      assert lit[1..] == rest;
    }
  }

  lemma {:induction false} FinalIsLower()
    ensures Lower("final") == FINAL
  {
    assert LowerChar('f') == 'f' && LowerChar('i') == 'i' && LowerChar('n') == 'n'
      && LowerChar('a') == 'a' && LowerChar('l') == 'l';
    assert Lower("final") == FINAL;
  }

  /** A member without white space around its parts. */
  function Tight(key: seq<Piece>, v: Json, rest: Members): Members {
    Member("", key, "", "", v, "", rest)
  }

  lemma {:induction false} TightWellFormed(key: seq<Piece>, v: Json, rest: Members)
    requires WellFormedLit(key) && WellFormed(v) && WellFormedMembers(rest)
    ensures WellFormedMembers(Tight(key, v, rest))
  {
  }

  /** A final action in front: all message text after it is heard. */
  lemma {:induction false} FinalInFront(k: seq<Piece>, final: seq<Piece>, rest: Members)
    requires Spells(k, "action") && Spells(final, "final") && WellFormedMembers(rest)
    ensures var ms := Tight(k, Str(final), rest);
      && WellFormedMembers(ms) && Voiced(false, ms) == Voiced(true, rest)
      && StringMember(ms, "action") == Some(final) && IsFinal(Decode(final))
      && StringMember(ms, "message") == StringMember(rest, "message")
  {
    hide Keep, IsFinal, Lower;
    FinalIsLower();
    FinalInAnyCase("final");
    assert "action" != "message" by { assert |"action"| != |"message"|; }
    assert WellFormed(Str(final));
    var ms := Tight(k, Str(final), rest);
    assert MessageOf(k, Str(final)) == [] && ActionOf(k, Str(final)) == Some(FINAL);
    assert [] + Voiced(true, rest) == Voiced(true, rest);
  }

  lemma {:induction false} DeltasOf(d: Document)
    requires WellFormedDocument(d)
    ensures Flatten(Deltas(START, [DocumentText(d)])) == Keep(Voiced(false, d.members))
  {
    hide Step, Run;
    var text := DocumentText(d);
    FlattenSnoc([], text);
    assert [] + [text] == [text];
    ReleasedMessage(d, [text]);
  }

  /** A final action and then members that put `heard` into the parser's ear. */
  lemma {:induction false} FinalAnd(rest: Members, heard: seq<Piece>) returns (d: Document)
    requires WellFormedMembers(rest) && DistinctKeys(rest) && FindNamed(rest, "action").NoMembers?
    requires Voiced(true, rest) == heard
    ensures WellFormedDocument(d) && DistinctKeys(d.members)
    ensures Flatten(Deltas(START, [DocumentText(d)])) == Keep(heard)
    ensures Promised(d.members) == (match StringMember(rest, "message") case Some(m) => Decode(m) case None => "")
  {
    hide Step, Run, Voiced, StringMember, FindNamed;
    var k := Spelling("action");
    var final := Spelling("final");
    FinalInFront(k, final, rest);
    d := Document("", "", Tight(k, Str(final), rest), "");
    DeltasOf(d);
  }

  /** {"action":"final","message":["a"]} releases "a" though `message` is no string. */
  lemma {:induction false} ArrayMessageIsReleased() returns (d: Document)
    ensures WellFormedDocument(d) && DistinctKeys(d.members)
    ensures Flatten(Deltas(START, [DocumentText(d)])) == "a"
    ensures Promised(d.members) == ""
  {
    var k := Spelling("message");
    var a := Spelling("a");
    var list := Arr("", Elem("", Str(a), "", NoElems));
    assert WellFormed(Str(a)) && WellFormedElems(Elem("", Str(a), "", NoElems));
    var rest := Tight(k, list, NoMembers);
    assert WellFormed(list) && WellFormedMembers(rest);
    assert Lead(list) == Lead(Str(a)) == Some(a);
    VoicedOne(k, list, NoMembers);
    assert a + Voiced(true, NoMembers) == a;
    assert |"action"| != |"message"|;
    d := FinalAnd(rest, a);
  }

  /** After a final action a member read as `message` is heard. */
  lemma {:induction false} VoicedOne(key: seq<Piece>, v: Json, rest: Members)
    requires WellFormedMembers(Tight(key, v, rest)) && WellFormedLit(key) && WellFormed(v) && WellFormedMembers(rest)
    requires Keep(key) == "message" && Lead(v).Some?
    ensures Voiced(true, Tight(key, v, rest)) == Lead(v).value + Voiced(true, rest)
  {
    assert "action" != "message" by { assert |"action"| != |"message"|; }
  }

  /** {"action":"final","message":"a","message\ud83d\ude00":"b"} releases "ab": the parser takes
      both keys for `message`, though they differ. */
  lemma {:induction false} ConfusedKeysAreReleased() returns (d: Document)
    ensures WellFormedDocument(d) && DistinctKeys(d.members)
    ensures Flatten(Deltas(START, [DocumentText(d)])) == "ab"
    ensures Promised(d.members) == "a"
  {
    hide Keep, Decode, Promised, DistinctKeys, Step, Run, Deltas, DocumentText;
    var k := Spelling("message");
    var longer := FaceAfter(k);
    var a := Spelling("a");
    var b := Spelling("b");
    assert WellFormed(Str(a)) && WellFormed(Str(b));
    d := ConfusedDocument(k, longer, a, b);
    assert "a" + "b" == "ab";
  }

  lemma {:induction false} ConfusedDocument(k: seq<Piece>, longer: seq<Piece>, a: seq<Piece>, b: seq<Piece>)
    returns (d: Document)
    requires Spells(k, "message") && WellFormedLit(longer) && Keep(longer) == "message" && |Decode(longer)| == 8
    requires WellFormedLit(a) && WellFormedLit(b)
    ensures WellFormedDocument(d) && DistinctKeys(d.members)
    ensures Flatten(Deltas(START, [DocumentText(d)])) == Keep(a) + Keep(b)
    ensures Promised(d.members) == Decode(a)
  {
    hide FindNamed, DistinctKeys;
    var last := Tight(longer, Str(b), NoMembers);
    var rest := Tight(k, Str(a), last);
    TightWellFormed(longer, Str(b), NoMembers);
    TightWellFormed(k, Str(a), last);
    VoicedOne(longer, Str(b), NoMembers);
    VoicedOne(k, Str(a), last);
    assert b + Voiced(true, NoMembers) == b;
    KeepConcat(a, b);
    LongerKeyDiffers(k, longer, Str(a), Str(b));
    d := FinalAnd(rest, a + b);
  }

  lemma {:induction false} LongerKeyDiffers(k: seq<Piece>, longer: seq<Piece>, v: Json, w: Json)
    requires WellFormedLit(k) && WellFormedLit(longer) && Decode(k) == "message" && |Decode(longer)| == 8
    requires WellFormed(v) && WellFormed(w)
    ensures var last := Tight(longer, w, NoMembers);
      var rest := Tight(k, v, last);
      && WellFormedMembers(last) && WellFormedMembers(rest)
      && DistinctKeys(rest) && FindNamed(rest, "action").NoMembers? && FindNamed(rest, "message") == rest
  {
    hide Decode;
    var last := Tight(longer, w, NoMembers);
    assert |"action"| == 6 && |"message"| == 7;
    FindTight(longer, w, NoMembers, "message");
    FindTight(longer, w, NoMembers, "action");
    FindTight(k, v, last, "message");
    FindTight(k, v, last, "action");
    assert FindNamed(NoMembers, Decode(longer)) == NoMembers;
    assert DistinctKeys(last);
  }

  lemma {:induction false} FindTight(key: seq<Piece>, v: Json, rest: Members, name: string)
    requires WellFormedLit(key) && WellFormed(v) && WellFormedMembers(rest)
    ensures WellFormedMembers(Tight(key, v, rest))
    ensures FindNamed(Tight(key, v, rest), name) ==
      if Decode(key) == name then Tight(key, v, rest) else FindNamed(rest, name)
  {
    hide Decode;
    TightWellFormed(key, v, rest);
  }

  lemma {:induction false} FaceAfter(key: seq<Piece>) returns (longer: seq<Piece>)
    requires WellFormedLit(key)
    ensures WellFormedLit(longer) && Keep(longer) == Keep(key) && |Decode(longer)| == |Decode(key)| + 1
  {
    var face := Pair('\U{1F600}', [false, false, false, false, false, false, false, false]);
    assert WellFormedPiece(face);
    longer := key + [face];
    KeepConcat(key, [face]);
    assert Keep([face]) == Kept(face) + Keep([face][1..]) == "";
  }
}
