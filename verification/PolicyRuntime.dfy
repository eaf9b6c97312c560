/** Versioned policy snapshots with session overlays (openjax-policy/src/runtime.rs,
    store.rs, overlay.rs). */
module PolicyRuntime {
  import opened Common
  import opened Policy

  datatype Store = Store(default: Kind, rules: seq<Rule>)

  const DESTRUCTIVE: string := "destructive"

  const SYSTEM_RULE: Rule := Rule(
    "system:destructive_escalate", Escalate, 1000, None, None, None, None, None, [], [DESTRUCTIVE],
    "destructive commands always require escalation approval")

  /** `PolicyStore::new` appends the built-in rule. */
  function NewStore(default: Kind, rules: seq<Rule>): Store {
    Store(default, rules + [SYSTEM_RULE])
  }

  datatype Snapshot = Snapshot(version: nat, store: Store, overlays: map<string, seq<Rule>>)

  /** `PolicyHandle::decide` on a fixed snapshot. */
  function HandleDecide(s: Snapshot, asked: Input): Decision {
    var input := asked.(version := s.version);
    if input.sessionId.Some? && input.sessionId.value in s.overlays then
      var d := Decide(input, s.overlays[input.sessionId.value], s.store.default);
      if d.ruleId.Some? then d else Decide(input, s.store.rules, s.store.default)
    else Decide(input, s.store.rules, s.store.default)
  }

  datatype Change =
    | Publish(store: Store)
    | SetOverlay(session: string, rules: seq<Rule>)
    | ClearOverlay(session: string)

  function Apply(s: Snapshot, c: Change): Snapshot {
    match c
    case Publish(store) => Snapshot(s.version + 1, store, s.overlays)
    case SetOverlay(session, rules) => Snapshot(s.version + 1, s.store, s.overlays[session := rules])
    case ClearOverlay(session) => Snapshot(s.version + 1, s.store, s.overlays - {session})
  }

  class Runtime {
    var current: Snapshot

    constructor (initial: Store)
      ensures current == Snapshot(1, initial, map[])
    {
      current := Snapshot(1, initial, map[]);
    }

    method PublishStore(store: Store) returns (version: nat)
      modifies this
      ensures current == Apply(old(current), Publish(store)) && version == current.version
    {
      version := Swap(Snapshot(current.version + 1, store, current.overlays));
    }

    method SetSessionOverlay(session: string, rules: seq<Rule>) returns (version: nat)
      modifies this
      ensures current == Apply(old(current), SetOverlay(session, rules)) && version == current.version
    {
      var overlays := current.overlays[session := rules];
      version := Swap(Snapshot(current.version + 1, current.store, overlays));
    }

    method ClearSessionOverlay(session: string) returns (version: nat)
      modifies this
      ensures current == Apply(old(current), ClearOverlay(session)) && version == current.version
    {
      var overlays := current.overlays - {session};
      version := Swap(Snapshot(current.version + 1, current.store, overlays));
    }

    method Swap(next: Snapshot) returns (version: nat)
      modifies this
      ensures current == next && version == next.version
    {
      current := next;
      version := next.version;
    }
  }

  // ---- What a run of changes amounts to ----------------------------------

  function After(s: Snapshot, changes: seq<Change>): Snapshot {
    if changes == [] then s else Apply(After(s, changes[..|changes| - 1]), changes[|changes| - 1])
  }

  /** The store last published. */
  function LastStore(s: Snapshot, changes: seq<Change>): Store {
    if changes == [] then s.store
    else if changes[|changes| - 1].Publish? then changes[|changes| - 1].store
    else LastStore(s, changes[..|changes| - 1])
  }

  /** The overlay a session was last given, unless it was cleared since. */
  function LastOverlay(s: Snapshot, changes: seq<Change>, session: string): Option<seq<Rule>> {
    if changes == [] then (if session in s.overlays then Some(s.overlays[session]) else None)
    else
      match changes[|changes| - 1]
      case SetOverlay(x, rules) =>
        if x == session then Some(rules) else LastOverlay(s, changes[..|changes| - 1], session)
      case ClearOverlay(x) => if x == session then None else LastOverlay(s, changes[..|changes| - 1], session)
      case Publish(_) => LastOverlay(s, changes[..|changes| - 1], session)
  }

  lemma {:induction false} RunMeaning(s: Snapshot, changes: seq<Change>, session: string)
    ensures var t := After(s, changes);
      && t.version == s.version + |changes|
      && t.store == LastStore(s, changes)
      && (session in t.overlays <==> LastOverlay(s, changes, session).Some?)
      && (session in t.overlays ==> t.overlays[session] == LastOverlay(s, changes, session).value)
  {
    if changes != [] { RunMeaning(s, changes[..|changes| - 1], session); }
  }

  /** The overlay rules that apply to an input; none without a session or an overlay. */
  function OwnOverlay(s: Snapshot, changes: seq<Change>, input: Input): seq<Rule> {
    if input.sessionId.None? then []
    else match LastOverlay(s, changes, input.sessionId.value) case Some(rules) => rules case None => []
  }

  /** What a handle answers, now and ever after: it was taken after the changes so far, and
      decides by the session's last overlay if a rule of it matches, otherwise by the store
      last published, with the version of that moment. */
  lemma {:induction false} HandleMeaning(s: Snapshot, changes: seq<Change>, input: Input)
    ensures var asked := input.(version := s.version + |changes|);
      var overlay, store := OwnOverlay(s, changes, input), LastStore(s, changes);
      HandleDecide(After(s, changes), input) ==
        if SomeMatch(input, overlay) then Decide(asked, overlay, store.default)
        else Decide(asked, store.rules, store.default)
  {
    hide Decide, After, LastStore, LastOverlay, Matches;
    RunMeaning(s, changes, if input.sessionId.Some? then input.sessionId.value else "");
    var asked := input.(version := s.version + |changes|);
    var overlay, store := OwnOverlay(s, changes, input), LastStore(s, changes);
    SameMatches(input, asked, overlay);
    DecidedByWinner(asked, overlay, store.default);
  }

  lemma {:induction false} SameMatches(input: Input, asked: Input, rules: seq<Rule>)
    requires asked == input.(version := asked.version)
    ensures SomeMatch(asked, rules) <==> SomeMatch(input, rules)
  {
    assert forall r :: Matches(r, asked) <==> Matches(r, input);
  }

  predicate SameButVersion(d: Decision, e: Decision) {
    d.(version := e.version) == e
  }

  lemma {:induction false} FilterVersion(input: Input, rules: seq<Rule>, v: nat)
    ensures Filter(input.(version := v), rules) == Filter(input, rules)
  {
    if rules != [] { FilterVersion(input, rules[..|rules| - 1], v); }
  }

  lemma {:induction false} DecideVersion(input: Input, rules: seq<Rule>, default: Kind, v: nat)
    ensures Decide(input.(version := v), rules, default) == Decide(input, rules, default).(version := v)
  {
    FilterVersion(input, rules, v);
  }

  /** The last publish and the session's own last overlay change settle its
      decisions; what other sessions did, and when, only shows in the version. */
  lemma {:induction false} OwnChangesOnly(s: Snapshot, t: Snapshot, mine: seq<Change>, theirs: seq<Change>,
      input: Input)
    requires LastStore(s, mine) == LastStore(t, theirs)
    requires input.sessionId.Some? ==>
      LastOverlay(s, mine, input.sessionId.value) == LastOverlay(t, theirs, input.sessionId.value)
    ensures var d, e := HandleDecide(After(s, mine), input), HandleDecide(After(t, theirs), input);
      && SameButVersion(d, e)
      && d.version == s.version + |mine| && e.version == t.version + |theirs|
  {
    hide After, LastStore, LastOverlay, HandleDecide;
    var session := if input.sessionId.Some? then input.sessionId.value else "";
    RunMeaning(s, mine, session);
    RunMeaning(t, theirs, session);
    AgreeingSnapshots(After(s, mine), After(t, theirs), input);
  }

  function OverlayOf(s: Snapshot, session: Option<string>): Option<seq<Rule>> {
    if session.Some? && session.value in s.overlays then Some(s.overlays[session.value]) else None
  }

  lemma {:induction false} AgreeingSnapshots(a: Snapshot, b: Snapshot, input: Input)
    requires a.store == b.store && OverlayOf(a, input.sessionId) == OverlayOf(b, input.sessionId)
    ensures var d, e := HandleDecide(a, input), HandleDecide(b, input);
      SameButVersion(d, e) && d.version == a.version && e.version == b.version
  {
    hide Decide;
    SameRules(input, a.store.rules, a.store.default, a.version, b.version);
    var overlay := OverlayOf(a, input.sessionId);
    if overlay.Some? {
      SameRules(input, overlay.value, a.store.default, a.version, b.version);
    }
  }

  lemma {:induction false} SameRules(input: Input, rules: seq<Rule>, default: Kind, v: nat, w: nat)
    ensures var d, e := Decide(input.(version := v), rules, default), Decide(input.(version := w), rules, default);
      SameButVersion(d, e) && d.version == v && e.version == w
  {
    hide Decide;
    DecideVersion(input, rules, default, v);
    DecideVersion(input, rules, default, w);
  }

  lemma {:induction false} OthersChange(s: Snapshot, changes: seq<Change>, others: seq<Change>, session: string)
    requires forall i :: 0 <= i < |others| ==> !others[i].Publish? && others[i].session != session
    ensures LastStore(s, changes + others) == LastStore(s, changes)
    ensures LastOverlay(s, changes + others, session) == LastOverlay(s, changes, session)
    decreases |others|
  {
    if others == [] {
      assert changes + others == changes;
    } else {
      var n := |others| - 1;
      assert (changes + others)[..|changes + others| - 1] == changes + others[..n];
      assert (changes + others)[|changes + others| - 1] == others[n];
      OthersChange(s, changes, others[..n], session);
    }
  }

  /** Any overlay changes of other sessions leave a session's decisions as they were. */
  lemma {:induction false} OverlaysIsolated(s: Snapshot, changes: seq<Change>, others: seq<Change>, input: Input)
    requires forall i :: 0 <= i < |others| ==>
      !others[i].Publish? && (input.sessionId.Some? ==> others[i].session != input.sessionId.value)
    ensures SameButVersion(HandleDecide(After(s, changes + others), input), HandleDecide(After(s, changes), input))
  {
    hide HandleDecide, After;
    if input.sessionId.Some? {
      OthersChange(s, changes, others, input.sessionId.value);
    } else {
      NoPublish(s, changes, others);
    }
    OwnChangesOnly(s, s, changes + others, changes, input);
  }

  lemma {:induction false} NoPublish(s: Snapshot, changes: seq<Change>, others: seq<Change>)
    requires forall i :: 0 <= i < |others| ==> !others[i].Publish?
    ensures LastStore(s, changes + others) == LastStore(s, changes)
    decreases |others|
  {
    if others == [] {
      assert changes + others == changes;
    } else {
      var n := |others| - 1;
      assert (changes + others)[..|changes + others| - 1] == changes + others[..n];
      NoPublish(s, changes, others[..n]);
    }
  }

  // ---- The built-in rule -------------------------------------------------

  predicate OverlaySilent(s: Snapshot, input: Input) {
    input.sessionId.Some? && input.sessionId.value in s.overlays ==>
      forall r :: r in s.overlays[input.sessionId.value] ==> !Matches(r, input)
  }

  /** A destructive input escalates exactly when every matching user rule of another kind
      is outranked by the built-in rule or by a user rule that escalates. */
  lemma {:induction false} EscalatesExactly(default: Kind, user: seq<Rule>, input: Input)
    requires DESTRUCTIVE in input.riskTags
    ensures Decide(input, NewStore(default, user).rules, default).kind == Escalate <==> EscalationPrevails(user, input)
  {
    hide ComparePrecedence, Decide;
    var rules := user + [SYSTEM_RULE];
    DecidesKindExactly(input, rules, default, Escalate);
    assert SYSTEM_RULE in rules && Matches(SYSTEM_RULE, input);
    forall r ensures Outranked(input, rules, r, Escalate) <==>
      ComparePrecedence(r, SYSTEM_RULE) == Less || Outranked(input, user, r, Escalate)
    {
      assert forall e :: e in rules <==> e in user || e == SYSTEM_RULE;
    }
  }

  ghost predicate EscalationPrevails(user: seq<Rule>, input: Input) {
    forall r :: r in user && Matches(r, input) && r.decision != Escalate ==>
      ComparePrecedence(r, SYSTEM_RULE) == Less || Outranked(input, user, r, Escalate)
  }

  /** The same after any run of changes.  An overlay with a matching rule decides alone, and
      then nothing is left of the built-in rule. */
  lemma {:induction false} RunEscalatesExactly(s: Snapshot, changes: seq<Change>, default: Kind, user: seq<Rule>,
      input: Input)
    requires LastStore(s, changes) == NewStore(default, user)
    requires DESTRUCTIVE in input.riskTags
    ensures var overlay := OwnOverlay(s, changes, input);
      HandleDecide(After(s, changes), input).kind == Escalate <==>
      if SomeMatch(input, overlay)
      then forall r :: r in overlay && Matches(r, input) && r.decision != Escalate ==>
          Outranked(input, overlay, r, Escalate)
      else EscalationPrevails(user, input)
  {
    hide Decide, Outranked, EscalationPrevails, SomeMatch, HandleDecide, After, LastStore, OwnOverlay;
    HandleMeaning(s, changes, input);
    var asked, overlay := input.(version := s.version + |changes|), OwnOverlay(s, changes, input);
    DecideVersion(input, overlay, default, asked.version);
    DecideVersion(input, user + [SYSTEM_RULE], default, asked.version);
    DecidesKindExactly(input, overlay, default, Escalate);
    EscalatesExactly(default, user, input);
  }

  lemma {:induction false} LastWins(input: Input, user: seq<Rule>, default: Kind)
    requires Matches(SYSTEM_RULE, input) && Wins(input, user + [SYSTEM_RULE], SYSTEM_RULE)
    ensures Decide(input, user + [SYSTEM_RULE], default) ==
            Decision(Escalate, Some(SYSTEM_RULE.id), input.version, SYSTEM_RULE.reason)
  {
    hide ComparePrecedence, Matches;
    var rules := user + [SYSTEM_RULE];
    LastWinnerDecides(input, user, SYSTEM_RULE, default);
    DecidedByWinner(input, rules, default);
    assert SYSTEM_RULE in rules;
    var w :| Wins(input, rules, w)
        && Decide(input, rules, default) == Decision(w.decision, Some(w.id), input.version, w.reason);
    WinnersTie(input, rules, SYSTEM_RULE, w);
  }

  lemma {:induction false} SystemMatches(input: Input)
    requires DESTRUCTIVE in input.riskTags
    ensures Matches(SYSTEM_RULE, input)
  {
  }

  lemma {:induction false} LowPriorityYields(r: Rule)
    requires r.priority < SYSTEM_RULE.priority
    ensures ComparePrecedence(r, SYSTEM_RULE) == Less
  {
  }

  lemma {:induction false} SilentOverlayPasses(s: Snapshot, asked: Input)
    requires OverlaySilent(s, asked)
    ensures HandleDecide(s, asked) == Decide(asked.(version := s.version), s.store.rules, s.store.default)
  {
    var input := asked.(version := s.version);
    if input.sessionId.Some? && input.sessionId.value in s.overlays {
      var rules := s.overlays[input.sessionId.value];
      forall r | r in rules ensures !Matches(r, input) {
        assert Matches(r, input) <==> Matches(r, asked);
      }
      DecidedByWinner(input, rules, s.store.default);
    }
  }

  /** After any run of changes: a destructive input escalates as long as the store was
      built with user rules below the built-in priority and no overlay rule of the
      session matches. */
  lemma {:induction false} DestructiveEscalates(s: Snapshot, changes: seq<Change>, default: Kind, user: seq<Rule>,
      input: Input)
    requires LastStore(s, changes) == NewStore(default, user)
    requires forall r :: r in user ==> r.priority < 1000
    requires "destructive" in input.riskTags && OverlaySilent(After(s, changes), input)
    ensures HandleDecide(After(s, changes), input) ==
            Decision(Escalate, Some("system:destructive_escalate"), s.version + |changes|,
                     "destructive commands always require escalation approval")
  {
    hide After, LastStore, HandleDecide, ComparePrecedence, Matches, Decide;
    RunMeaning(s, changes, "");
    SilentOverlayPasses(After(s, changes), input);
    forall r | r in user ensures ComparePrecedence(r, SYSTEM_RULE) != Greater {
      LowPriorityYields(r);
    }
    var asked := input.(version := s.version + |changes|);
    assert Matches(SYSTEM_RULE, asked) by { SystemMatches(asked); }
    PrecedenceLaws(SYSTEM_RULE, SYSTEM_RULE);
    LastWins(asked, user, default);
  }

  /** The bound on priorities matters: one rule above it allows a destructive input. */
  lemma {:induction false} HigherPriorityAllows(input: Input)
    requires DESTRUCTIVE in input.riskTags
    ensures var r := Rule("user", Allow, 1001, None, None, None, None, None, [], [], "");
      Decide(input, NewStore(Ask, [r]).rules, Ask).kind == Allow
  {
    hide Specificity;
    var r := Rule("user", Allow, 1001, None, None, None, None, None, [], [], "");
    var rules := [r] + [SYSTEM_RULE];
    assert Matches(r, input) && Matches(SYSTEM_RULE, input);
    assert Filter(input, ([r]) + [SYSTEM_RULE]) == Filter(input, ([r])) + [SYSTEM_RULE];
    assert Filter(input, ([]) + [r]) == Filter(input, ([])) + [r];
    assert [] + [r] == [r];
    assert Filter(input, rules) == [r, SYSTEM_RULE];
    assert [r, SYSTEM_RULE][..1] == [r];
    assert MaxBy([r, SYSTEM_RULE]) == r;
  }
}
