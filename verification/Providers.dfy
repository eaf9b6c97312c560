/** Turning stored providers into a routing table (openjax-core/src/provider_store.rs):
    the active provider first, distinct model ids, and a fallback list for each route. */
module Providers {
  import opened Common
  import opened Decimal

  datatype Record = Record(
    providerId: string, providerName: string, baseUrl: string, modelName: string, apiKey: string, protocol: string,
    contextWindow: nat)

  datatype Entry = Entry(
    vendor: string, protocol: string, model: string, baseUrl: string, apiKey: string, requestProfile: Option<string>,
    contextWindow: nat)

  datatype Table = Table(
    models: map<string, Entry>, planner: string, finalWriter: string, toolReasoning: string,
    fallbacks: map<string, seq<string>>)

  // ---- Names -------------------------------------------------------------

  predicate IsAlnum(c: char) {
    '0' <= c <= '9' || 'a' <= c <= 'z' || 'A' <= c <= 'Z'
  }

  function NormalChar(c: char): char {
    if IsAlnum(c) then LowerChar(c) else '_'
  }

  function NormalChars(s: string): (r: string)
    ensures |r| == |s|
    ensures forall i :: 0 <= i < |s| ==> r[i] == NormalChar(s[i])
  {
    if s == "" then "" else [NormalChar(s[0])] + NormalChars(s[1..])
  }

  function TrimLeft(s: string): string {
    if s != "" && s[0] == '_' then TrimLeft(s[1..]) else s
  }

  function TrimRight(s: string): string {
    if s != "" && s[|s| - 1] == '_' then TrimRight(s[..|s| - 1]) else s
  }

  function NormalizeModelId(raw: string): string {
    TrimRight(TrimLeft(NormalChars(raw)))
  }

  /** Letters, digits and inner underscores only. */
  predicate IsModelName(s: string) {
    && (forall i :: 0 <= i < |s| ==> s[i] == '_' || '0' <= s[i] <= '9' || 'a' <= s[i] <= 'z')
    && (s != "" ==> s[0] != '_' && s[|s| - 1] != '_')
  }

  ghost predicate Underscores(s: string) {
    forall i :: 0 <= i < |s| ==> s[i] == '_'
  }

  lemma {:induction false} TrimLeftIs(s: string) returns (k: nat)
    ensures k <= |s| && TrimLeft(s) == s[k..] && Underscores(s[..k])
    ensures TrimLeft(s) != "" ==> TrimLeft(s)[0] != '_'
  {
    if s != "" && s[0] == '_' {
      var rest := TrimLeftIs(s[1..]);
      k := rest + 1;
      assert s[..k] == [s[0]] + s[1..][..rest];
    } else {
      k := 0;
    }
  }

  lemma {:induction false} TrimRightIs(s: string) returns (k: nat)
    ensures k <= |s| && TrimRight(s) == s[..k] && Underscores(s[k..])
    ensures TrimRight(s) != "" ==> TrimRight(s)[|TrimRight(s)| - 1] != '_'
  {
    if s != "" && s[|s| - 1] == '_' {
      var t := s[..|s| - 1];
      k := TrimRightIs(t);
      assert t[..k] == s[..k];
      assert s[k..] == t[k..] + [s[|s| - 1]];
    } else {
      k := |s|;
    }
  }

  /** A normalised name is a model name, and normalising it again changes nothing. */
  lemma {:induction false} NormalizeIsStable(raw: string)
    ensures IsModelName(NormalizeModelId(raw))
    ensures NormalizeModelId(NormalizeModelId(raw)) == NormalizeModelId(raw)
  {
    var s := NormalChars(raw);
    var a := TrimLeftIs(s);
    var k := TrimRightIs(TrimLeft(s));
    var n := NormalizeModelId(raw);
    assert n != "" ==> n[0] == TrimLeft(s)[0];
    assert IsModelName(n);
    ModelNameIsFixed(n);
  }

  /** `n` is the part of `raw` from `a` on, character by character, and only characters that
      are no letter or digit lie outside it. */
  ghost predicate CoreAt(raw: string, n: string, a: nat) {
    && a + |n| <= |raw|
    && n == NormalChars(raw)[a..a + |n|]
    && (forall i :: 0 <= i < a ==> !IsAlnum(raw[i]))
    && (forall i :: a + |n| <= i < |raw| ==> !IsAlnum(raw[i]))
  }

  lemma {:induction false} NormalizeKeepsTheCore(raw: string)
    ensures exists a: nat :: CoreAt(raw, NormalizeModelId(raw), a)
  {
    hide TrimLeft, TrimRight;
    var s := NormalChars(raw);
    var a := TrimLeftIs(s);
    var t := s[a..];
    var k := TrimRightIs(t);
    assert t[..k] == s[a..a + k];
    forall i | 0 <= i < a ensures !IsAlnum(raw[i]) {
      assert s[..a][i] == s[i] == NormalChar(raw[i]);
    }
    forall i | a + k <= i < |raw| ensures !IsAlnum(raw[i]) {
      assert t[k..][i - a - k] == s[i] == NormalChar(raw[i]);
    }
    assert CoreAt(raw, NormalizeModelId(raw), a);
  }

  lemma {:induction false} ModelNameIsFixed(n: string)
    requires IsModelName(n)
    ensures NormalizeModelId(n) == n
  {
    assert NormalChars(n) == n;
  }

  // ---- Ids ---------------------------------------------------------------

  /** The id tried in round `k` of the search for a free one. */
  function Candidate(p: Record, k: nat): string
    requires k >= 1
  {
    var name := NormalizeModelId(p.providerName);
    if k > 1 then name + "_" + PrintNat(k)
    else if name == "" then "provider_" + p.providerId
    else name
  }

  lemma {:induction false} CandidatesDiffer(p: Record, j: nat, k: nat)
    requires 1 <= j < k
    ensures Candidate(p, j) != Candidate(p, k)
  {
    var name := NormalizeModelId(p.providerName);
    if j > 1 && Candidate(p, j) == Candidate(p, k) {
      assert Candidate(p, j)[|name| + 1..] == PrintNat(j);
      assert Candidate(p, k)[|name| + 1..] == PrintNat(k);
      PrintedNatsDiffer(j, k);
    }
    assert Candidate(p, k)[|name|] == '_';
  }

  /** The first `k - 1` candidates are taken. */
  ghost predicate AllTaken(p: Record, used: set<string>, k: nat) {
    forall j :: 1 <= j < k ==> Candidate(p, j) in used
  }

  /** Pigeonhole: `k - 1` distinct candidates need as many used ids. */
  lemma {:induction false} TakenAreFew(p: Record, used: set<string>, k: nat)
    requires k >= 1 && AllTaken(p, used, k)
    ensures k - 1 <= |used|
    decreases k
  {
    hide Candidate;
    if k > 1 {
      var last := Candidate(p, k - 1);
      forall j | 1 <= j < k - 1 ensures Candidate(p, j) in used - {last} {
        CandidatesDiffer(p, j, k - 1);
      }
      TakenAreFew(p, used - {last}, k - 1);
      assert |used - {last}| == |used| - 1;
    }
  }

  /** The first free round from `k` on. */
  ghost function FirstFree(p: Record, used: set<string>, k: nat): (r: nat)
    requires k >= 1 && AllTaken(p, used, k)
    ensures r >= k && AllTaken(p, used, r) && Candidate(p, r) !in used
    decreases |used| + 1 - k
  {
    TakenAreFew(p, used, k);
    if Candidate(p, k) !in used then k
    else
      TakenAreFew(p, used, k + 1);
      FirstFree(p, used, k + 1)
  }

  ghost function PickId(p: Record, used: set<string>): (id: string)
    ensures id !in used
  {
    Candidate(p, FirstFree(p, used, 1))
  }

  ghost function Ids(s: seq<string>): set<string> {
    set id | id in s
  }

  /** The ids of the ordered providers, each chosen against the ids before it. */
  ghost function Routes(ordered: seq<Record>): (r: seq<string>)
    ensures |r| == |ordered|
  {
    if ordered == [] then []
    else
      var before := Routes(ordered[..|ordered| - 1]);
      before + [PickId(ordered[|ordered| - 1], Ids(before))]
  }

  /** What the search means: the ids are distinct, and provider `i` has its first
      candidate that no earlier provider has. */
  lemma {:induction false} RoutesAreFirstFree(ordered: seq<Record>, i: nat)
    requires i < |ordered|
    ensures var r := Routes(ordered);
      && r[i] !in r[..i]
      && exists k :: k >= 1 && r[i] == Candidate(ordered[i], k) && AllTaken(ordered[i], Ids(r[..i]), k)
  {
    hide Candidate;
    var n := |ordered| - 1;
    var before := Routes(ordered[..n]);
    var r := Routes(ordered);
    assert r[..i] == before[..i];
    if i == n {
      assert before[..i] == before;
      var k := FirstFree(ordered[n], Ids(before), 1);
      assert r[i] == Candidate(ordered[i], k) && r[i] !in Ids(before);
      assert AllTaken(ordered[i], Ids(r[..i]), k);
    } else {
      RoutesAreFirstFree(ordered[..n], i);
      assert ordered[..n][i] == ordered[i] && r[i] == before[i];
    }
  }

  ghost predicate AllDistinct(s: seq<string>) {
    forall i, j :: 0 <= i < j < |s| ==> s[i] != s[j]
  }

  lemma {:induction false} AllRoutesDistinct(ordered: seq<Record>)
    ensures AllDistinct(Routes(ordered))
  {
    hide Routes;
    var r := Routes(ordered);
    forall i, j | 0 <= i < j < |r| ensures r[i] != r[j] {
      RoutesAreFirstFree(ordered, j);
      assert r[..j][i] == r[i];
    }
  }

  /** The first provider is never renamed. */
  lemma {:induction false} FirstKeepsItsName(ordered: seq<Record>)
    requires ordered != []
    ensures Routes(ordered)[0] == Candidate(ordered[0], 1)
  {
    hide Routes, Candidate;
    RoutesAreFirstFree(ordered, 0);
    var k :| k >= 1 && Routes(ordered)[0] == Candidate(ordered[0], k)
        && AllTaken(ordered[0], Ids(Routes(ordered)[..0]), k);
    TakenAreFew(ordered[0], Ids(Routes(ordered)[..0]), k);
    assert Ids(Routes(ordered)[..0]) == {};
  }

  // ---- Order -------------------------------------------------------------

  function Position(ps: seq<Record>, id: string): (r: Option<nat>)
    ensures r.Some? ==> r.value < |ps| && ps[r.value].providerId == id
    ensures r.Some? ==> forall j :: 0 <= j < r.value ==> ps[j].providerId != id
    ensures r.None? ==> forall j :: 0 <= j < |ps| ==> ps[j].providerId != id
  {
    if ps == [] then None
    else if ps[0].providerId == id then Some(0)
    else match Position(ps[1..], id)
      case None => None
      case Some(i) => Some(i + 1)
  }

  function ActiveFirst(ps: seq<Record>, active: Option<string>): seq<Record> {
    if active.None? then ps
    else match Position(ps, active.value)
      case None => ps
      case Some(i) => [ps[i]] + (ps[..i] + ps[i + 1..])
  }

  /** Reordering loses and invents nothing; an active provider that is stored comes first. */
  lemma {:induction false} ActiveComesFirst(ps: seq<Record>, active: Option<string>)
    ensures multiset(ActiveFirst(ps, active)) == multiset(ps)
    ensures |ActiveFirst(ps, active)| == |ps|
    ensures active.Some? && (exists p :: p in ps && p.providerId == active.value)
      ==> ActiveFirst(ps, active)[0].providerId == active.value
  {
    if active.Some? && Position(ps, active.value).Some? {
      var i := Position(ps, active.value).value;
      assert ps == ps[..i] + [ps[i]] + ps[i + 1..];
    }
  }

  /** The providers with (or without) a given id, in order. */
  function Having(ps: seq<Record>, id: string, same: bool): seq<Record> {
    if ps == [] then []
    else if (ps[0].providerId == id) == same then [ps[0]] + Having(ps[1..], id, same)
    else Having(ps[1..], id, same)
  }

  lemma {:induction false} HavingConcat(a: seq<Record>, b: seq<Record>, id: string, same: bool)
    ensures Having(a + b, id, same) == Having(a, id, same) + Having(b, id, same)
  {
    if a == [] {
      assert a + b == b;
    } else {
      assert (a + b)[1..] == a[1..] + b;
      HavingConcat(a[1..], b, id, same);
    }
  }

  lemma {:induction false} HavingNone(ps: seq<Record>, id: string)
    requires forall j :: 0 <= j < |ps| ==> ps[j].providerId != id
    ensures Having(ps, id, true) == []
  {
    if ps != [] { HavingNone(ps[1..], id); }
  }

  lemma {:induction false} HavingSwap(x: seq<Record>, a: seq<Record>, b: seq<Record>, id: string, same: bool)
    requires Having(x, id, same) == [] || Having(a, id, same) == []
    ensures Having(x + (a + b), id, same) == Having(a + (x + b), id, same)
  {
    hide Having;
    HavingConcat(x, a + b, id, same);
    HavingConcat(a, b, id, same);
    HavingConcat(a, x + b, id, same);
    HavingConcat(x, b, id, same);
  }

  /** The reordering is stable: the active provider's records keep their order, and so do
      all the others. */
  lemma {:induction false} OrderKept(ps: seq<Record>, active: string, same: bool)
    ensures Having(ActiveFirst(ps, Some(active)), active, same) == Having(ps, active, same)
  {
    if Position(ps, active).Some? {
      var i := Position(ps, active).value;
      assert ps == ps[..i] + ([ps[i]] + ps[i + 1..]);
      if same { HavingNone(ps[..i], active); }
      HavingSwap([ps[i]], ps[..i], ps[i + 1..], active, same);
    }
  }

  // ---- The table ---------------------------------------------------------

  function Vendor(baseUrl: string, name: string): string {
    var marker := Lower(baseUrl + " " + name);
    if Contains(marker, "anthropic") || Contains(marker, "claude") then "anthropic"
    else if Contains(marker, "kimi") then "kimi"
    else if Contains(marker, "glm") || Contains(marker, "bigmodel") then "glm"
    else "openai"
  }

  function EntryOf(p: Record): Entry {
    Entry(Vendor(p.baseUrl, p.providerName), p.protocol, p.modelName, p.baseUrl, p.apiKey,
          if p.protocol == "anthropic_messages" then Some("anthropic_default") else None, p.contextWindow)
  }

  /** An entry is the provider's own record, with its vendor guessed from its address and name
      and a profile for the one protocol that needs one. */
  lemma {:induction false} EntryTells(p: Record)
    ensures var e, text := EntryOf(p), Lower(p.baseUrl + " " + p.providerName);
      var claude := Occurs(text, "anthropic") || Occurs(text, "claude");
      && e.protocol == p.protocol && e.model == p.modelName && e.baseUrl == p.baseUrl
      && e.apiKey == p.apiKey && e.contextWindow == p.contextWindow
      && e.requestProfile == (if p.protocol == "anthropic_messages" then Some("anthropic_default") else None)
      && (e.vendor == "anthropic" <==> claude)
      && (e.vendor == "kimi" <==> !claude && Occurs(text, "kimi"))
      && (e.vendor == "glm" <==> !claude && !Occurs(text, "kimi") && (Occurs(text, "glm") || Occurs(text, "bigmodel")))
      && e.vendor in {"anthropic", "kimi", "glm", "openai"}
  {
    hide Contains, Occurs, Lower;
    var text := Lower(p.baseUrl + " " + p.providerName);
    ContainsExactly(text, "anthropic");
    ContainsExactly(text, "claude");
    ContainsExactly(text, "kimi");
    ContainsExactly(text, "glm");
    ContainsExactly(text, "bigmodel");
    assert |"anthropic"| == 9 && |"kimi"| == 4 && |"glm"| == 3 && |"openai"| == 6;
  }

  /** Two providers whose names come to the same: the second is numbered.  One whose name comes
      to nothing goes by its id, and further ones by their number alone. */
  lemma {:induction false} CandidatesAre(p: Record, k: nat)
    requires k >= 2
    ensures var name := NormalizeModelId(p.providerName);
      && (name != "" ==> Candidate(p, 1) == name && Candidate(p, k) == name + "_" + PrintNat(k))
      && (name == "" ==> Candidate(p, 1) == "provider_" + p.providerId && Candidate(p, k) == "_" + PrintNat(k))
  {
    assert "" + "_" == "_";
  }

  /** `models` holds exactly the entries of the ordered providers under their ids. */
  ghost predicate Holds(models: map<string, Entry>, ordered: seq<Record>, routes: seq<string>)
    requires |routes| == |ordered|
  {
    && models.Keys == Ids(routes)
    && forall i :: 0 <= i < |routes| ==> routes[i] in models && models[routes[i]] == EntryOf(ordered[i])
  }

  ghost predicate FallbackAt(fallbacks: map<string, seq<string>>, routes: seq<string>, i: nat)
    requires i < |routes|
  {
    i + 1 < |routes| ==> routes[i] in fallbacks && fallbacks[routes[i]] == routes[i + 1..]
  }

  ghost predicate RouteAt(routes: seq<string>, id: string, i: nat) {
    i < |routes| && routes[i] == id
  }

  /** Every route but the last falls back on exactly the routes after it. */
  ghost predicate FallsBack(fallbacks: map<string, seq<string>>, routes: seq<string>, n: nat)
    requires n <= |routes|
  {
    && (forall i: nat :: i < n ==> FallbackAt(fallbacks, routes, i))
    && (forall id :: id in fallbacks ==> exists i: nat :: RouteAt(routes, id, i) && i < n && i + 1 < |routes|)
  }

  method AssignId(p: Record, models: map<string, Entry>) returns (modelId: string)
    ensures modelId == PickId(p, models.Keys)
  {
    hide FirstFree;
    modelId := NormalizeModelId(p.providerName);
    if modelId == "" { modelId := "provider_" + p.providerId; }
    var dedup := 1;
    while modelId in models
      invariant dedup >= 1 && modelId == Candidate(p, dedup) && AllTaken(p, models.Keys, dedup)
      decreases |models.Keys| + 1 - dedup
    {
      TakenAreFew(p, models.Keys, dedup + 1);
      dedup := dedup + 1;
      modelId := NormalizeModelId(p.providerName) + "_" + PrintNat(dedup);
    }
  }

  method AssignAll(ordered: seq<Record>) returns (models: map<string, Entry>, routeOrder: seq<string>)
    ensures routeOrder == Routes(ordered)
    ensures Holds(models, ordered, routeOrder)
  {
    hide PickId, EntryOf;
    models, routeOrder := map[], [];
    for n := 0 to |ordered|
      invariant routeOrder == Routes(ordered[..n])
      invariant Holds(models, ordered[..n], routeOrder)
    {
      var modelId := AssignId(ordered[n], models);
      assert ordered[..n + 1][..n] == ordered[..n];
      assert Routes(ordered[..n + 1]) == routeOrder + [modelId];
      models := models[modelId := EntryOf(ordered[n])];
      routeOrder := routeOrder + [modelId];
    }
    assert ordered[..|ordered|] == ordered;
  }

  method FallbacksOf(routes: seq<string>) returns (fallbacks: map<string, seq<string>>)
    requires AllDistinct(routes)
    ensures FallsBack(fallbacks, routes, |routes|)
  {
    fallbacks := map[];
    for i := 0 to |routes|
      invariant FallsBack(fallbacks, routes, i)
    {
      var tail := routes[i + 1..];
      ghost var before := fallbacks;
      if tail != [] { fallbacks := fallbacks[routes[i] := tail]; }
      forall j: nat | j < i + 1 ensures FallbackAt(fallbacks, routes, j) {
        if j < i {
          assert FallbackAt(before, routes, j);
          assert routes[j] != routes[i];
        }
      }
      assert RouteAt(routes, routes[i], i);
    }
  }

  method BuildModelTable(providers: seq<Record>, active: Option<string>) returns (r: Option<Table>)
    ensures r.None? <==> providers == []
    ensures r.Some? ==> IsTable(r.value, ActiveFirst(providers, active))
  {
    hide ActiveFirst, Routes, Holds, FallsBack;
    if providers == [] { return None; }
    ActiveComesFirst(providers, active);
    var ordered := ActiveFirst(providers, active);
    var models, routes := AssignAll(ordered);
    AllRoutesDistinct(ordered);
    var fallbacks := FallbacksOf(routes);
    r := Some(Table(models, routes[0], routes[0], routes[0], fallbacks));
  }

  ghost predicate IsTable(t: Table, ordered: seq<Record>) {
    var routes := Routes(ordered);
    && ordered != []
    && Holds(t.models, ordered, routes)
    && FallsBack(t.fallbacks, routes, |routes|)
    && t.planner == t.finalWriter == t.toolReasoning == routes[0]
  }

  /** No provider is lost or overwritten: there are as many models as providers, and
      each provider's own entry is under its own id. */
  lemma {:induction false} NoneLost(t: Table, ordered: seq<Record>)
    requires IsTable(t, ordered)
    ensures |t.models| == |ordered|
    ensures forall p :: p in ordered ==> exists id :: id in t.models && t.models[id] == EntryOf(p)
  {
    hide Routes, EntryOf;
    var routes := Routes(ordered);
    AllRoutesDistinct(ordered);
    DistinctCount(routes);
    assert |t.models| == |t.models.Keys|;
    forall p | p in ordered ensures exists id :: id in t.models && t.models[id] == EntryOf(p) {
      var i :| 0 <= i < |ordered| && ordered[i] == p;
      assert routes[i] in t.models && t.models[routes[i]] == EntryOf(p);
    }
  }

  lemma {:induction false} DistinctCount(s: seq<string>)
    requires AllDistinct(s)
    ensures |Ids(s)| == |s|
  {
    if s == [] {
      assert Ids(s) == {};
    } else {
      var n := |s| - 1;
      DistinctCount(s[..n]);
      assert Ids(s) == Ids(s[..n]) + {s[n]};
      assert s[n] !in Ids(s[..n]);
    }
  }

  ghost predicate PlansWith(t: Table, p: Record)
    requires t.planner in t.models
  {
    t.planner == Candidate(p, 1) && t.models[t.planner] == EntryOf(p)
  }

  /** The active provider, when stored, is the planner, under its plain name. */
  lemma {:induction false} ActiveIsPlanner(t: Table, providers: seq<Record>, active: string)
    requires IsTable(t, ActiveFirst(providers, Some(active)))
    requires exists p :: p in providers && p.providerId == active
    ensures t.planner in t.models
    ensures exists p :: p in providers && p.providerId == active && PlansWith(t, p)
  {
    hide Routes, EntryOf, Candidate, ActiveFirst;
    var ordered := ActiveFirst(providers, Some(active));
    ActiveComesFirst(providers, Some(active));
    FirstKeepsItsName(ordered);
    assert ordered[0] in multiset(providers);
  }

  // ---- Fallback chains ---------------------------------------------------

  /** Each id is among the fallbacks of the id before it. */
  ghost predicate Chain(fallbacks: map<string, seq<string>>, ids: seq<string>) {
    forall i :: 0 <= i && i + 1 < |ids| ==> ids[i] in fallbacks && ids[i + 1] in fallbacks[ids[i]]
  }

  /** Following fallbacks in any way goes strictly down the route list: it never comes
      back to a route, and takes at most as many routes as there are models. */
  lemma {:induction false} ChainsEnd(t: Table, ordered: seq<Record>, ids: seq<string>)
    requires IsTable(t, ordered) && Chain(t.fallbacks, ids) && ids != [] && ids[0] in t.models
    ensures |ids| <= |t.models|
    ensures forall i, j :: 0 <= i < j < |ids| ==> ids[i] != ids[j]
  {
    hide Routes, EntryOf, FallsBack, AllDistinct;
    var routes := Routes(ordered);
    AllRoutesDistinct(ordered);
    assert ids[0] in Ids(routes);
    var at := ChainIndex(t.fallbacks, routes, ids);
    NoneLost(t, ordered);
    Climbs(at, 0, |ids| - 1);
    forall i, j | 0 <= i < j < |ids| ensures ids[i] != ids[j] {
      Climbs(at, i, j);
      if ids[i] == ids[j] { SamePlace(routes, at[i], at[j]); }
    }
  }

  ghost predicate Climbing(at: seq<nat>) {
    forall i :: 0 <= i && i + 1 < |at| ==> at[i] < at[i + 1]
  }

  lemma {:induction false} Climbs(at: seq<nat>, i: nat, j: nat)
    requires Climbing(at) && i <= j < |at|
    ensures at[i] + (j - i) <= at[j]
    decreases j - i
  {
    if i < j {
      Climbs(at, i + 1, j);
      assert at[i] < at[i + 1];
    }
  }

  /** `at` says where the ids are in the route list. */
  ghost predicate Places(at: seq<nat>, ids: seq<string>, routes: seq<string>) {
    && |at| == |ids|
    && forall i :: 0 <= i < |at| ==> at[i] < |routes| && ids[i] == routes[at[i]]
  }

  lemma {:induction false} ChainIndex(fallbacks: map<string, seq<string>>, routes: seq<string>, ids: seq<string>)
      returns (at: seq<nat>)
    requires AllDistinct(routes) && FallsBack(fallbacks, routes, |routes|)
    requires Chain(fallbacks, ids) && ids != [] && ids[0] in routes
    ensures Places(at, ids, routes) && Climbing(at)
  {
    hide FallsBack, AllDistinct;
    var n := |ids| - 1;
    if n == 0 {
      var k :| 0 <= k < |routes| && routes[k] == ids[0];
      at := [k];
    } else {
      var before := ChainIndex(fallbacks, routes, ids[..n]);
      assert ids[n - 1] == ids[..n][n - 1] == routes[before[n - 1]];
      var k := NextIndex(fallbacks, routes, before[n - 1], ids[n]);
      at := before + [k];
    }
  }

  lemma {:induction false} SamePlace(routes: seq<string>, i: nat, j: nat)
    requires AllDistinct(routes) && i < |routes| && j < |routes| && routes[i] == routes[j]
    ensures i == j
  {
  }

  lemma {:induction false} NextIndex(fallbacks: map<string, seq<string>>, routes: seq<string>, i: nat, id: string)
      returns (k: nat)
    requires AllDistinct(routes) && FallsBack(fallbacks, routes, |routes|)
    requires i < |routes| && routes[i] in fallbacks && id in fallbacks[routes[i]]
    ensures i < k < |routes| && id == routes[k]
  {
    hide AllDistinct;
    var j: nat :| RouteAt(routes, routes[i], j) && j + 1 < |routes|;
    SamePlace(routes, i, j);
    assert FallbackAt(fallbacks, routes, i);
    var m :| 0 <= m < |routes[i + 1..]| && routes[i + 1..][m] == id;
    k := i + 1 + m;
  }
}
