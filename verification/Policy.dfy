/** The rule engine (openjax-policy/src/engine.rs, schema.rs): one decision out of
    many rules, independent of the order in which they are listed. */
module Policy {
  import opened Common

  datatype Kind = Allow | Ask | Escalate | Deny

  datatype Input = Input(
    toolName: string, action: string, sessionId: Option<string>, actor: Option<string>, resource: Option<string>,
    capabilities: seq<string>, riskTags: seq<string>, version: nat)

  datatype Rule = Rule(
    id: string, decision: Kind, priority: int,
    toolName: Option<string>, action: Option<string>, sessionId: Option<string>,
    actor: Option<string>, resource: Option<string>,
    capabilitiesAll: seq<string>, riskTagsAll: seq<string>, reason: string)

  datatype Decision = Decision(kind: Kind, ruleId: Option<string>, version: nat, reason: string)

  function ConservativeRank(k: Kind): nat {
    match k case Allow => 0 case Ask => 1 case Escalate => 2 case Deny => 3
  }

  predicate MatchesRequired(required: Option<string>, actual: Option<string>) {
    required.None? || required == actual
  }

  predicate ContainsAll(source: seq<string>, required: seq<string>) {
    forall x :: x in required ==> x in source
  }

  predicate Matches(r: Rule, input: Input) {
    && MatchesRequired(r.toolName, Some(input.toolName))
    && MatchesRequired(r.action, Some(input.action))
    && MatchesRequired(r.sessionId, input.sessionId)
    && MatchesRequired(r.actor, input.actor)
    && MatchesRequired(r.resource, input.resource)
    && ContainsAll(input.capabilities, r.capabilitiesAll)
    && ContainsAll(input.riskTags, r.riskTagsAll)
  }

  function One(o: Option<string>): nat {
    if o.Some? then 1 else 0
  }

  function UniqueCount(values: seq<string>): nat {
    |set x | x in values|
  }

  function Specificity(r: Rule): nat {
    One(r.toolName) + One(r.action) + One(r.sessionId) + One(r.actor) + One(r.resource)
    + UniqueCount(r.capabilitiesAll) + UniqueCount(r.riskTagsAll)
  }

  // ---- The order ---------------------------------------------------------

  function Or(first: Ordering, next: Ordering): Ordering {
    if first == Equal then next else first
  }

  function ComparePrecedence(l: Rule, r: Rule): Ordering {
    Or(CompareInt(l.priority, r.priority),
    Or(CompareInt(Specificity(l), Specificity(r)),
    Or(CompareInt(ConservativeRank(l.decision), ConservativeRank(r.decision)),
       CompareString(r.id, l.id))))
  }

  /** `max_by`: of equal maxima the last one. */
  function MaxBy(rules: seq<Rule>): Rule
    requires rules != []
  {
    var last := rules[|rules| - 1];
    if |rules| == 1 then last
    else var best := MaxBy(rules[..|rules| - 1]); if ComparePrecedence(best, last) == Greater then best else last
  }

  function Filter(input: Input, rules: seq<Rule>): seq<Rule> {
    if rules == [] then []
    else
      var last := rules[|rules| - 1];
      Filter(input, rules[..|rules| - 1]) + (if Matches(last, input) then [last] else [])
  }

  const NO_MATCH: string := "no matching rule; default decision applied"

  function Decide(input: Input, rules: seq<Rule>, default: Kind): Decision {
    var candidates := Filter(input, rules);
    if candidates == [] then Decision(default, None, input.version, NO_MATCH)
    else
      var rule := MaxBy(candidates);
      Decision(rule.decision, Some(rule.id), input.version, rule.reason)
  }

  // ---- A total preorder --------------------------------------------------

  /** The rules that tie: same priority, specificity, decision and id. */
  predicate SamePrecedence(l: Rule, r: Rule) {
    l.priority == r.priority && Specificity(l) == Specificity(r) && l.decision == r.decision && l.id == r.id
  }

  lemma {:induction false} PrecedenceLaws(l: Rule, r: Rule)
    ensures ComparePrecedence(r, l) == Reverse(ComparePrecedence(l, r))
    ensures ComparePrecedence(l, r) == Equal <==> SamePrecedence(l, r)
  {
    hide Specificity, CompareString;
    CompareStringLaws(r.id, l.id);
  }

  lemma {:induction false} PrecedenceTransitive(a: Rule, b: Rule, c: Rule)
    requires ComparePrecedence(a, b) != Greater && ComparePrecedence(b, c) != Greater
    ensures ComparePrecedence(a, c) != Greater
  {
    hide Specificity, CompareString;
    CompareStringLaws(b.id, a.id);
    CompareStringLaws(c.id, b.id);
    if CompareString(c.id, b.id) != Greater && CompareString(b.id, a.id) != Greater {
      CompareStringTransitive(c.id, b.id, a.id);
    }
  }

  // ---- The decision, said without an order of listing --------------------

  /** `w` matches and nothing that matches takes precedence over it. */
  ghost predicate Wins(input: Input, rules: seq<Rule>, w: Rule) {
    && w in rules && Matches(w, input)
    && forall r :: r in rules && Matches(r, input) ==> ComparePrecedence(r, w) != Greater
  }

  lemma {:induction false} FilterHas(input: Input, rules: seq<Rule>, r: Rule)
    ensures r in Filter(input, rules) <==> r in rules && Matches(r, input)
  {
    hide Matches;
    if rules != [] {
      var most, last := rules[..|rules| - 1], rules[|rules| - 1];
      FilterHas(input, most, r);
      assert rules == most + [last];
    }
  }

  lemma {:induction false} MaxByIsMax(rules: seq<Rule>)
    requires rules != []
    ensures MaxBy(rules) in rules
    ensures forall r :: r in rules ==> ComparePrecedence(r, MaxBy(rules)) != Greater
  {
    hide ComparePrecedence;
    var most, last := rules[..|rules| - 1], rules[|rules| - 1];
    PrecedenceLaws(last, last);
    assert forall r :: r in rules <==> r in most || r == last by { assert rules == most + [last]; }
    if |rules| > 1 {
      MaxByIsMax(most);
      var best, top := MaxBy(most), MaxBy(rules);
      PrecedenceLaws(best, last);
      forall r | r in rules ensures ComparePrecedence(r, top) != Greater {
        if r in most && top == last && top != best { PrecedenceTransitive(r, best, last); }
      }
    }
  }

  /** A decision is that of a winning rule, or the default when nothing matches. */
  lemma {:induction false} DecidedByWinner(input: Input, rules: seq<Rule>, default: Kind)
    ensures (forall r :: r in rules ==> !Matches(r, input)) ==>
      Decide(input, rules, default) == Decision(default, None, input.version, NO_MATCH)
    ensures (exists r :: r in rules && Matches(r, input)) ==>
      exists w :: Wins(input, rules, w)
          && Decide(input, rules, default) == Decision(w.decision, Some(w.id), input.version, w.reason)
  {
    hide Matches, ComparePrecedence;
    var candidates := Filter(input, rules);
    forall r ensures r in candidates <==> r in rules && Matches(r, input) {
      FilterHas(input, rules, r);
    }
    if candidates != [] {
      MaxByIsMax(candidates);
      assert Wins(input, rules, MaxBy(candidates));
      assert candidates[0] in candidates;
    }
  }

  lemma {:induction false} WinnersTie(input: Input, rules: seq<Rule>, v: Rule, w: Rule)
    requires Wins(input, rules, v) && Wins(input, rules, w)
    ensures SamePrecedence(v, w)
  {
    hide Matches, ComparePrecedence;
    PrecedenceLaws(v, w);
  }

  /** A matching rule of kind `k` takes precedence over `r`. */
  ghost predicate Outranked(input: Input, rules: seq<Rule>, r: Rule, k: Kind) {
    exists e :: e in rules && Matches(e, input) && e.decision == k && ComparePrecedence(r, e) == Less
  }

  ghost predicate SomeMatch(input: Input, rules: seq<Rule>) {
    exists r :: r in rules && Matches(r, input)
  }

  /** The decision is of kind `k` exactly when every matching rule of another kind is
      outranked by a matching one of kind `k`; with no matching rule the default counts. */
  lemma {:induction false} DecidesKindExactly(input: Input, rules: seq<Rule>, default: Kind, k: Kind)
    ensures Decide(input, rules, default).kind == k <==>
      if SomeMatch(input, rules)
      then forall r :: r in rules && Matches(r, input) && r.decision != k ==> Outranked(input, rules, r, k)
      else default == k
  {
    hide Matches, ComparePrecedence, Decide;
    DecidedByWinner(input, rules, default);
    if SomeMatch(input, rules) {
      var w :| Wins(input, rules, w)
          && Decide(input, rules, default) == Decision(w.decision, Some(w.id), input.version, w.reason);
      forall r | r in rules && Matches(r, input) && r.decision != w.decision
        ensures Outranked(input, rules, r, w.decision) {
        PrecedenceLaws(r, w);
      }
      forall e | e in rules && Matches(e, input) ensures ComparePrecedence(w, e) != Less {
        PrecedenceLaws(e, w);
      }
    }
  }

  /** Listing the same rules in any other order, even with repetitions and with equal
      ids, gives the same kind, rule id and version. */
  lemma {:induction false} OrderIrrelevant(input: Input, rules: seq<Rule>, other: seq<Rule>, default: Kind)
    requires forall r :: r in rules <==> r in other
    ensures var d, e := Decide(input, rules, default), Decide(input, other, default);
      d.kind == e.kind && d.ruleId == e.ruleId && d.version == e.version
  {
    hide Matches, ComparePrecedence, Decide;
    DecidedByWinner(input, rules, default);
    DecidedByWinner(input, other, default);
    if exists r :: r in rules && Matches(r, input) {
      var v :| Wins(input, rules, v)
          && Decide(input, rules, default) == Decision(v.decision, Some(v.id), input.version, v.reason);
      var w :| Wins(input, other, w)
          && Decide(input, other, default) == Decision(w.decision, Some(w.id), input.version, w.reason);
      WinnersTie(input, rules, v, w);
    }
  }

  // ---- Which rule decides, said of the rules themselves -------------------

  datatype Field = ToolName | Action | SessionId | Actor | Resource | Capability | RiskTag

  /** What a rule can ask of an input, and what an input can offer. */
  datatype Demand = Demand(field: Field, value: string)

  function Named(field: Field, value: Option<string>): set<Demand> {
    if value.Some? then {Demand(field, value.value)} else {}
  }

  ghost function Each(field: Field, values: seq<string>): set<Demand> {
    set v | v in values :: Demand(field, v)
  }

  ghost function Facts(input: Input): set<Demand> {
    Named(ToolName, Some(input.toolName)) + Named(Action, Some(input.action)) + Named(SessionId, input.sessionId)
    + Named(Actor, input.actor) + Named(Resource, input.resource)
    + Each(Capability, input.capabilities) + Each(RiskTag, input.riskTags)
  }

  ghost function FieldDemands(r: Rule): set<Demand> {
    Named(ToolName, r.toolName) + Named(Action, r.action) + Named(SessionId, r.sessionId)
    + Named(Actor, r.actor) + Named(Resource, r.resource)
  }

  ghost function Demands(r: Rule): set<Demand> {
    FieldDemands(r) + Each(Capability, r.capabilitiesAll) + Each(RiskTag, r.riskTagsAll)
  }

  /** A rule applies when the input offers all that the rule demands. */
  ghost predicate Applies(r: Rule, input: Input) {
    Demands(r) <= Facts(input)
  }

  /** Who asks for a demand, field by field. */
  lemma {:induction false} AsksFor(r: Rule, d: Demand)
    ensures d in Demands(r) <==>
      match d.field
      case ToolName => r.toolName == Some(d.value)
      case Action => r.action == Some(d.value)
      case SessionId => r.sessionId == Some(d.value)
      case Actor => r.actor == Some(d.value)
      case Resource => r.resource == Some(d.value)
      case Capability => d.value in r.capabilitiesAll
      case RiskTag => d.value in r.riskTagsAll
  {
  }

  lemma {:induction false} Offers(input: Input, d: Demand)
    ensures d in Facts(input) <==>
      match d.field
      case ToolName => input.toolName == d.value
      case Action => input.action == d.value
      case SessionId => input.sessionId == Some(d.value)
      case Actor => input.actor == Some(d.value)
      case Resource => input.resource == Some(d.value)
      case Capability => d.value in input.capabilities
      case RiskTag => d.value in input.riskTags
  {
  }

  lemma {:induction false} MatchesExactly(r: Rule, input: Input)
    ensures Matches(r, input) <==> Applies(r, input)
  {
    hide Demands, Facts;
    forall d ensures d in Demands(r) && Matches(r, input) ==> d in Facts(input) {
      AsksFor(r, d);
      Offers(input, d);
    }
    if Applies(r, input) {
      forall f, v ensures Demand(f, v) in Demands(r) ==> Demand(f, v) in Facts(input) { }
      NamedIsOffered(r, input, ToolName, r.toolName);
      NamedIsOffered(r, input, Action, r.action);
      NamedIsOffered(r, input, SessionId, r.sessionId);
      NamedIsOffered(r, input, Actor, r.actor);
      NamedIsOffered(r, input, Resource, r.resource);
      forall x | x in r.capabilitiesAll ensures x in input.capabilities {
        AsksFor(r, Demand(Capability, x));
        Offers(input, Demand(Capability, x));
      }
      forall x | x in r.riskTagsAll ensures x in input.riskTags {
        AsksFor(r, Demand(RiskTag, x));
        Offers(input, Demand(RiskTag, x));
      }
    }
  }

  lemma {:induction false} NamedIsOffered(r: Rule, input: Input, field: Field, value: Option<string>)
    requires Applies(r, input)
    ensures value.Some? && field == ToolName && value == r.toolName ==> input.toolName == value.value
    ensures value.Some? && field == Action && value == r.action ==> input.action == value.value
    ensures value.Some? && field == SessionId && value == r.sessionId ==> input.sessionId == value
    ensures value.Some? && field == Actor && value == r.actor ==> input.actor == value
    ensures value.Some? && field == Resource && value == r.resource ==> input.resource == value
  {
    hide Demands, Facts;
    if value.Some? {
      AsksFor(r, Demand(field, value.value));
      Offers(input, Demand(field, value.value));
    }
  }

  lemma {:induction false} EachCounts(field: Field, values: seq<string>)
    ensures |Each(field, values)| == UniqueCount(values)
    decreases |values|
  {
    if values != [] {
      hide UniqueCount, Each;
      EachCounts(field, values[1..]);
      EachStep(field, values);
      UniqueStep(values);
    } else {
      assert Each(field, values) == {};
    }
  }

  lemma {:induction false} UniqueStep(values: seq<string>)
    requires values != []
    ensures UniqueCount(values) == UniqueCount(values[1..]) + if values[0] in values[1..] then 0 else 1
  {
    var v, rest := values[0], values[1..];
    var before, after := set x | x in rest, set x | x in values;
    assert values == [v] + rest;
    assert after == before + {v};
  }

  lemma {:induction false} EachStep(field: Field, values: seq<string>)
    requires values != []
    ensures |Each(field, values)| == |Each(field, values[1..])| + if values[0] in values[1..] then 0 else 1
  {
    var v, rest := values[0], values[1..];
    assert values == [v] + rest;
    assert Each(field, values) == Each(field, rest) + {Demand(field, v)};
  }

  ghost predicate OnlyFields(demands: set<Demand>, fields: set<Field>) {
    forall d :: d in demands ==> d.field in fields
  }

  lemma {:induction false} UnionCounts(a: set<Demand>, b: set<Demand>, fields: set<Field>, field: Field)
    requires OnlyFields(a, fields) && OnlyFields(b, {field}) && field !in fields
    ensures |a + b| == |a| + |b| && OnlyFields(a + b, fields + {field})
  {
    assert a !! b;
  }

  lemma {:induction false} NamedCounts(field: Field, value: Option<string>)
    ensures |Named(field, value)| == One(value) && OnlyFields(Named(field, value), {field})
  {
  }

  const NAMED: set<Field> := {ToolName, Action, SessionId, Actor, Resource}

  lemma {:induction false} FieldsCount(r: Rule)
    ensures |FieldDemands(r)| == One(r.toolName) + One(r.action) + One(r.sessionId) + One(r.actor) + One(r.resource)
    ensures OnlyFields(FieldDemands(r), NAMED)
  {
    hide Named, One, OnlyFields;
    var n1, n2, n3 := Named(ToolName, r.toolName), Named(Action, r.action), Named(SessionId, r.sessionId);
    var n4, n5 := Named(Actor, r.actor), Named(Resource, r.resource);
    NamedCounts(ToolName, r.toolName);
    NamedCounts(Action, r.action);
    NamedCounts(SessionId, r.sessionId);
    NamedCounts(Actor, r.actor);
    NamedCounts(Resource, r.resource);
    UnionCounts(n1, n2, {ToolName}, Action);
    UnionCounts(n1 + n2, n3, {ToolName} + {Action}, SessionId);
    UnionCounts(n1 + n2 + n3, n4, {ToolName} + {Action} + {SessionId}, Actor);
    UnionCounts(n1 + n2 + n3 + n4, n5, {ToolName} + {Action} + {SessionId} + {Actor}, Resource);
    assert {ToolName} + {Action} + {SessionId} + {Actor} + {Resource} == NAMED;
  }

  /** The more a rule demands, the more specific it is. */
  lemma {:induction false} SpecificityCounts(r: Rule)
    ensures Specificity(r) == |Demands(r)|
  {
    hide FieldDemands, Each, One, UniqueCount, OnlyFields;
    FieldsCount(r);
    EachCounts(Capability, r.capabilitiesAll);
    EachCounts(RiskTag, r.riskTagsAll);
    EachHasField(Capability, r.capabilitiesAll);
    EachHasField(RiskTag, r.riskTagsAll);
    UnionCounts(FieldDemands(r), Each(Capability, r.capabilitiesAll), NAMED, Capability);
    UnionCounts(FieldDemands(r) + Each(Capability, r.capabilitiesAll), Each(RiskTag, r.riskTagsAll),
                NAMED + {Capability}, RiskTag);
  }

  lemma {:induction false} EachHasField(field: Field, values: seq<string>)
    ensures OnlyFields(Each(field, values), {field})
  {
  }

  /** Of two kinds, the one that lets less happen. */
  predicate Prevails(k: Kind, over: Kind) {
    (k == Deny && over != Deny) || (k == Escalate && (over == Ask || over == Allow)) || (k == Ask && over == Allow)
  }

  /** `r` gives way to `w`, or ties with it in everything but the reason. */
  ghost predicate GivesWay(r: Rule, w: Rule) {
    || r.priority < w.priority
    || (r.priority == w.priority &&
        (|| |Demands(r)| < |Demands(w)|
         || (|Demands(r)| == |Demands(w)| &&
             (|| Prevails(w.decision, r.decision)
              || (w.decision == r.decision && (w.id == r.id || Before(w.id, r.id)))))))
  }

  lemma {:induction false} GivesWayExactly(r: Rule, w: Rule)
    ensures ComparePrecedence(r, w) != Greater <==> GivesWay(r, w)
  {
    hide Specificity, Demands, CompareString, Before;
    SpecificityCounts(r);
    SpecificityCounts(w);
    CompareStringExactly(w.id, r.id);
    CompareStringLaws(w.id, r.id);
  }

  /** Of the rules that apply, the highest priority decides; among those the rule that demands
      most; among those the strictest kind; among those the smallest id. */
  ghost predicate Prevailing(input: Input, rules: seq<Rule>, w: Rule) {
    && w in rules && Applies(w, input)
    && forall r :: r in rules && Applies(r, input) ==> GivesWay(r, w)
  }

  lemma {:induction false} PrevailingWins(input: Input, rules: seq<Rule>, w: Rule)
    ensures Prevailing(input, rules, w) <==> Wins(input, rules, w)
  {
    hide Matches, Applies, ComparePrecedence, GivesWay;
    forall r ensures Matches(r, input) <==> Applies(r, input) { MatchesExactly(r, input); }
    forall r ensures ComparePrecedence(r, w) != Greater <==> GivesWay(r, w) { GivesWayExactly(r, w); }
  }

  /** The decision is exactly that of a prevailing rule, whichever; the default and its own
      reason exactly when no rule applies. */
  lemma {:induction false} DecidesExactly(input: Input, rules: seq<Rule>, default: Kind)
    ensures var d := Decide(input, rules, default);
      if forall r :: r in rules ==> !Applies(r, input)
      then d == Decision(default, None, input.version, "no matching rule; default decision applied")
      else
        && (exists w :: Prevailing(input, rules, w) && d == Decision(w.decision, Some(w.id), input.version, w.reason))
        && (forall w :: Prevailing(input, rules, w) ==> d.kind == w.decision && d.ruleId == Some(w.id))
  {
    hide Matches, Applies, ComparePrecedence, GivesWay, Decide;
    forall r ensures Matches(r, input) <==> Applies(r, input) { MatchesExactly(r, input); }
    DecidedByWinner(input, rules, default);
    if exists r :: r in rules && Applies(r, input) {
      var v :| Wins(input, rules, v)
          && Decide(input, rules, default) == Decision(v.decision, Some(v.id), input.version, v.reason);
      PrevailingWins(input, rules, v);
      forall w | Prevailing(input, rules, w) ensures v.decision == w.decision && v.id == w.id {
        PrevailingWins(input, rules, w);
        WinnersTie(input, rules, v, w);
      }
    }
  }

  /** Of two rules with the same priority that apply and demand equally much, the stricter
      decides, in either order. */
  lemma {:induction false} StricterDecides(input: Input, r: Rule, w: Rule, default: Kind)
    requires Applies(r, input) && Applies(w, input) && r.priority == w.priority && |Demands(r)| == |Demands(w)|
    requires Prevails(w.decision, r.decision)
    ensures Decide(input, [r, w], default).kind == Decide(input, [w, r], default).kind == w.decision
  {
    hide Decide, Applies, Demands;
    DecidesExactly(input, [r, w], default);
    DecidesExactly(input, [w, r], default);
    assert w in [r, w] && w in [w, r];
    assert Prevailing(input, [r, w], w) && Prevailing(input, [w, r], w);
  }

  // ---- The reason --------------------------------------------------------

  ghost predicate OneReason(input: Input, rules: seq<Rule>) {
    forall v, w :: Wins(input, rules, v) && Wins(input, rules, w) ==> v.reason == w.reason
  }

  /** Every reordering gives the very same decision, reason included. */
  ghost predicate OrderFree(input: Input, rules: seq<Rule>, default: Kind) {
    forall other :: multiset(other) == multiset(rules) ==>
        Decide(input, other, default) == Decide(input, rules, default)
  }

  lemma {:induction false} SameMembers(rules: seq<Rule>, other: seq<Rule>)
    requires multiset(other) == multiset(rules)
    ensures forall r :: r in rules <==> r in other
  {
    forall r ensures r in rules <==> r in other {
      assert r in rules <==> r in multiset(rules);
      assert r in other <==> r in multiset(other);
    }
  }

  /** A winner listed last is the one that decides. */
  lemma {:induction false} LastWinnerDecides(input: Input, rules: seq<Rule>, w: Rule, default: Kind)
    requires Wins(input, rules + [w], w)
    ensures Decide(input, rules + [w], default).reason == w.reason
  {
    hide Matches, ComparePrecedence;
    assert Filter(input, rules + [w]) == Filter(input, rules) + [w];
    var candidates := Filter(input, rules);
    if candidates != [] {
      MaxByIsMax(candidates);
      var best := MaxBy(candidates);
      FilterHas(input, rules, best);
      assert best in rules + [w];
      assert (candidates + [w])[..|candidates|] == candidates;
    }
  }

  lemma {:induction false} MovedLast(input: Input, rules: seq<Rule>, w: Rule, default: Kind) returns (other: seq<Rule>)
    requires Wins(input, rules, w)
    ensures multiset(other) == multiset(rules) && Decide(input, other, default).reason == w.reason
  {
    hide Matches, ComparePrecedence, Decide;
    var i :| 0 <= i < |rules| && rules[i] == w;
    var rest := rules[..i] + rules[i + 1..];
    other := rest + [w];
    assert rules == rules[..i] + [rules[i]] + rules[i + 1..];
    assert multiset(other) == multiset(rules);
    SameMembers(rules, other);
    assert Wins(input, other, w);
    LastWinnerDecides(input, rest, w, default);
  }

  /** The whole decision is independent of the order exactly when all winning rules
      give the same reason. */
  lemma {:induction false} ReasonExact(input: Input, rules: seq<Rule>, default: Kind)
    ensures OrderFree(input, rules, default) <==> OneReason(input, rules)
  {
    hide Matches, ComparePrecedence, Decide;
    if OrderFree(input, rules, default) {
      forall v, w | Wins(input, rules, v) && Wins(input, rules, w) ensures v.reason == w.reason {
        var first := MovedLast(input, rules, v, default);
        var second := MovedLast(input, rules, w, default);
        assert Decide(input, first, default) == Decide(input, second, default);
      }
    }
    if OneReason(input, rules) {
      forall other | multiset(other) == multiset(rules)
        ensures Decide(input, other, default) == Decide(input, rules, default) {
        SameReason(input, rules, other, default);
      }
    }
  }

  lemma {:induction false} SameReason(input: Input, rules: seq<Rule>, other: seq<Rule>, default: Kind)
    requires OneReason(input, rules) && multiset(other) == multiset(rules)
    ensures Decide(input, other, default) == Decide(input, rules, default)
  {
    hide Matches, ComparePrecedence, Decide;
    SameMembers(rules, other);
    OrderIrrelevant(input, rules, other, default);
    DecidedByWinner(input, rules, default);
    DecidedByWinner(input, other, default);
    if exists r :: r in rules && Matches(r, input) {
      var v :| Wins(input, rules, v)
          && Decide(input, rules, default) == Decision(v.decision, Some(v.id), input.version, v.reason);
      var w :| Wins(input, other, w)
          && Decide(input, other, default) == Decision(w.decision, Some(w.id), input.version, w.reason);
      assert Wins(input, rules, w);
    }
  }

  /** In particular when no two listed rules share an id. */
  lemma {:induction false} UniqueIdsOrderFree(input: Input, rules: seq<Rule>, default: Kind)
    requires forall i, j :: 0 <= i < j < |rules| ==> rules[i].id != rules[j].id
    ensures OrderFree(input, rules, default)
  {
    hide Matches, ComparePrecedence, Decide;
    forall v, w | Wins(input, rules, v) && Wins(input, rules, w) ensures v.reason == w.reason {
      WinnersTie(input, rules, v, w);
    }
    ReasonExact(input, rules, default);
  }

  /** Two tying rules with different reasons: the one listed last gives the reason. */
  lemma {:induction false} ReasonFollowsOrder(input: Input, default: Kind)
    ensures var v := Rule("r", Ask, 0, None, None, None, None, None, [], [], "first");
      var w := v.(reason := "second");
      && Decide(input, [v, w], default).reason == "second"
      && Decide(input, [w, v], default).reason == "first"
      && !OrderFree(input, [v, w], default)
  {
    hide Decide, OrderFree, Specificity;
    var v := Rule("r", Ask, 0, None, None, None, None, None, [], [], "first");
    var w := v.(reason := "second");
    assert Specificity(v) == Specificity(w) by { SpecificityIgnoresReason(v, w); }
    assert "first" != "second" by { assert |"first"| != |"second"|; }
    TyingLast(input, v, w, default);
    TyingLast(input, w, v, default);
    DifferentReasons(input, v, w, default);
  }

  lemma {:induction false} SpecificityIgnoresReason(v: Rule, w: Rule)
    requires w == v.(reason := w.reason)
    ensures Specificity(v) == Specificity(w)
  {
  }

  lemma {:induction false} DifferentReasons(input: Input, v: Rule, w: Rule, default: Kind)
    requires Decide(input, [v, w], default).reason != Decide(input, [w, v], default).reason
    ensures !OrderFree(input, [v, w], default)
  {
    hide Decide;
    assert multiset([w, v]) == multiset([v, w]);
  }

  lemma {:induction false} TyingLast(input: Input, v: Rule, w: Rule, default: Kind)
    requires Matches(v, input) && Matches(w, input) && SamePrecedence(v, w)
    ensures Decide(input, [v, w], default).reason == w.reason
  {
    hide Matches, ComparePrecedence;
    PrecedenceLaws(v, w);
    PrecedenceLaws(w, w);
    assert [v] + [w] == [v, w];
    LastWinnerDecides(input, [v], w, default);
  }
}
