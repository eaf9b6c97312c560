/** The gateway's token store (openjax-gateway/src/auth/store.rs). */
module AuthStore {
  // Three tables, each mutex-held transaction one step.  Times are integers; new ids
  // and hashes are parameters, and inserting a value that is already there fails as
  // the tables' uniqueness constraints make it fail.

  import opened Common

  datatype Status = Active | Revoked | LoggedOut

  datatype Session = Session(deviceId: string, status: Status, createdAt: int, lastSeenAt: int, revokedAt: Option<int>)

  datatype RefreshRow = RefreshRow(
    tokenId: string, sessionId: string, rotatedFrom: Option<string>,
    expiresAt: int, createdAt: int, revokedAt: Option<int>)

  datatype AccessRow = AccessRow(sessionId: string, expiresAt: int, createdAt: int, revokedAt: Option<int>)

  /** `refresh` and `access` are keyed by token hash, which is unique in both tables. */
  datatype Tables = Tables(
    sessions: map<string, Session>,
    refresh: map<string, RefreshRow>,
    access: map<string, AccessRow>)

  const EMPTY := Tables(map[], map[], map[])

  datatype NewSession = NewSession(
    sessionId: string, deviceId: string, tokenId: string, accessHash: string, refreshHash: string,
    accessTtl: int, refreshTtl: int)

  datatype Rotation = Rotation(
    presented: string, tokenId: string, nextRefresh: string, nextAccess: string,
    accessTtl: int, refreshTtl: int)

  datatype Selection = Selection(sessionId: Option<string>, deviceId: Option<string>, all: bool)

  datatype Outcome =
    | Created(sessionId: string)
    | Rotated(sessionId: string)
    | Missing
    | ReuseDetected
    | RevokedCount(count: nat)
    | Done
    | ConstraintViolation

  datatype Result = Result(tables: Tables, outcome: Outcome)

  // ---- The operations as functions on the tables -------------------------

  predicate HasTokenId(refresh: map<string, RefreshRow>, id: string) {
    exists h :: h in refresh && refresh[h].tokenId == id
  }

  /** UPDATE auth_refresh_tokens SET revoked_at = now WHERE token_id = id. */
  function RevokeTokenId(refresh: map<string, RefreshRow>, id: string, now: int): map<string, RefreshRow> {
    map h | h in refresh :: if refresh[h].tokenId == id then refresh[h].(revokedAt := Some(now)) else refresh[h]
  }

  function Create(t: Tables, n: NewSession, now: int): Result {
    if n.sessionId in t.sessions || n.accessHash in t.access || n.refreshHash in t.refresh
       || HasTokenId(t.refresh, n.tokenId) then
      Result(t, ConstraintViolation)
    else
      Result(Tables(
        t.sessions[n.sessionId := Session(n.deviceId, Active, now, now, None)],
        t.refresh[n.refreshHash := RefreshRow(n.tokenId, n.sessionId, None, now + n.refreshTtl, now, None)],
        t.access[n.accessHash := AccessRow(n.sessionId, now + n.accessTtl, now, None)]),
        Created(n.sessionId))
  }

  function Rotate(t: Tables, r: Rotation, now: int): Result {
    if r.presented !in t.refresh then Result(t, Missing)
    else
      var row := t.refresh[r.presented];
      if row.revokedAt.Some? then Result(t, ReuseDetected)
      else if row.expiresAt <= now then
        Result(t.(refresh := RevokeTokenId(t.refresh, row.tokenId, now)), Missing)
      else if row.sessionId !in t.sessions || t.sessions[row.sessionId].status != Active then Result(t, Missing)
      else
        var revoked := RevokeTokenId(t.refresh, row.tokenId, now);
        if r.nextRefresh in revoked || HasTokenId(revoked, r.tokenId) || r.nextAccess in t.access then
          Result(t, ConstraintViolation)
        else
          Result(Tables(
            t.sessions[row.sessionId := t.sessions[row.sessionId].(lastSeenAt := now)],
            revoked[r.nextRefresh :=
                RefreshRow(r.tokenId, row.sessionId, Some(row.tokenId), now + r.refreshTtl, now, None)],
            t.access[r.nextAccess := AccessRow(row.sessionId, now + r.accessTtl, now, None)]),
            Rotated(row.sessionId))
  }

  predicate Selected(t: Tables, s: Selection, sid: string) {
    && sid in t.sessions
    && t.sessions[sid].status == Active
    && (s.all
        || ((s.sessionId.Some? || s.deviceId.Some?)
            && (s.sessionId.Some? ==> s.sessionId.value == sid)
            && (s.deviceId.Some? ==> s.deviceId.value == t.sessions[sid].deviceId)))
  }

  function Targets(t: Tables, s: Selection): set<string> {
    set sid | sid in t.sessions && Selected(t, s, sid)
  }

  function Coalesce(a: Option<int>, now: int): Option<int> {
    if a.Some? then a else Some(now)
  }

  function RevokedSessions(m: map<string, Session>, ids: set<string>, status: Status, now: int): map<string, Session> {
    map s | s in m :: if s in ids then m[s].(status := status, revokedAt := Some(now)) else m[s]
  }

  function RevokedRefresh(m: map<string, RefreshRow>, ids: set<string>, now: int): map<string, RefreshRow> {
    map h | h in m :: if m[h].sessionId in ids then m[h].(revokedAt := Coalesce(m[h].revokedAt, now)) else m[h]
  }

  function RevokedAccess(m: map<string, AccessRow>, ids: set<string>, now: int): map<string, AccessRow> {
    map h | h in m :: if m[h].sessionId in ids then m[h].(revokedAt := Coalesce(m[h].revokedAt, now)) else m[h]
  }

  /** The tables once every session of `ids` has been revoked. */
  function RevokeAll(t: Tables, ids: set<string>, status: Status, now: int): Tables {
    Tables(RevokedSessions(t.sessions, ids, status, now),
           RevokedRefresh(t.refresh, ids, now),
           RevokedAccess(t.access, ids, now))
  }

  function Revoke(t: Tables, s: Selection, status: Status, now: int): Result {
    Result(RevokeAll(t, Targets(t, s), status, now), RevokedCount(|Targets(t, s)|))
  }

  function Cleanup(t: Tables, now: int): Result {
    Result(t.(
      access := map h | h in t.access && !(t.access[h].expiresAt <= now) :: t.access[h],
      refresh := map h | h in t.refresh
          && !(t.refresh[h].expiresAt <= now && t.refresh[h].revokedAt.Some?) :: t.refresh[h]),
      Done)
  }

  /** The query of `validate_access_token`: the session's status is not asked. */
  function LookupAccess(t: Tables, hash: string, now: int): Option<string> {
    if hash in t.access && t.access[hash].revokedAt.None? && t.access[hash].expiresAt > now
    then Some(t.access[hash].sessionId) else None
  }

  // ---- The store as the program keeps it ---------------------------------

  class Store {
    var sessions: map<string, Session>
    var refresh: map<string, RefreshRow>
    var access: map<string, AccessRow>

    ghost function View(): Tables
      reads this
    {
      Tables(sessions, refresh, access)
    }

    constructor ()
      ensures View() == EMPTY
    {
      sessions, refresh, access := map[], map[], map[];
    }

    method CreateSessionAndTokens(n: NewSession, now: int) returns (outcome: Outcome)
      modifies this
      ensures Result(View(), outcome) == Create(old(View()), n, now)
    {
      if n.sessionId in sessions || n.accessHash in access || n.refreshHash in refresh
         || HasTokenId(refresh, n.tokenId) {
        return ConstraintViolation;
      }
      sessions := sessions[n.sessionId := Session(n.deviceId, Active, now, now, None)];
      access := access[n.accessHash := AccessRow(n.sessionId, now + n.accessTtl, now, None)];
      refresh := refresh[n.refreshHash := RefreshRow(n.tokenId, n.sessionId, None, now + n.refreshTtl, now, None)];
      outcome := Created(n.sessionId);
    }

    method RotateRefreshToken(r: Rotation, now: int) returns (outcome: Outcome)
      modifies this
      ensures Result(View(), outcome) == Rotate(old(View()), r, now)
    {
      if r.presented !in refresh {
        return Missing;
      }
      var row := refresh[r.presented];
      if row.revokedAt.Some? {
        return ReuseDetected;
      }
      if row.expiresAt <= now {
        refresh := RevokeTokenId(refresh, row.tokenId, now);
        return Missing;
      }
      if row.sessionId !in sessions || sessions[row.sessionId].status != Active {
        return Missing;
      }
      var revoked := RevokeTokenId(refresh, row.tokenId, now);
      if r.nextRefresh in revoked || HasTokenId(revoked, r.tokenId) || r.nextAccess in access {
        return ConstraintViolation;
      }
      refresh := revoked[r.nextRefresh :=
        RefreshRow(r.tokenId, row.sessionId, Some(row.tokenId), now + r.refreshTtl, now, None)];
      access := access[r.nextAccess := AccessRow(row.sessionId, now + r.accessTtl, now, None)];
      sessions := sessions[row.sessionId := sessions[row.sessionId].(lastSeenAt := now)];
      outcome := Rotated(row.sessionId);
    }

    /** Revokes the selected sessions one by one; the order does not matter. */
    method RevokeSessions(s: Selection, status: Status, now: int) returns (outcome: Outcome)
      modifies this
      ensures Result(View(), outcome) == Revoke(old(View()), s, status, now)
    {
      hide RevokeAll, Targets;
      ghost var before := View();
      var ids := Targets(Tables(sessions, refresh, access), s);
      var todo := ids;
      RevokeNone(before, status, now);
      assert ids - todo == {};
      while todo != {}
        invariant todo <= ids
        invariant View() == RevokeAll(before, ids - todo, status, now)
        decreases |todo|
      {
        var sid :| sid in todo;
        RevokeOneMore(before, ids - todo, sid, status, now);
        RevokeOne(sid, status, now);
        assert ids - (todo - {sid}) == (ids - todo) + {sid};
        todo := todo - {sid};
      }
      assert ids - todo == ids;
      outcome := RevokedCount(|ids|);
    }

    /** The three UPDATE statements for one session id. */
    method RevokeOne(sid: string, status: Status, now: int)
      modifies this
      ensures View() == RevokeAll(old(View()), {sid}, status, now)
    {
      sessions := RevokedSessions(sessions, {sid}, status, now);
      refresh := RevokedRefresh(refresh, {sid}, now);
      access := RevokedAccess(access, {sid}, now);
    }

    method CleanupExpired(now: int) returns (outcome: Outcome)
      modifies this
      ensures Result(View(), outcome) == Cleanup(old(View()), now)
    {
      access := map h | h in access && !(access[h].expiresAt <= now) :: access[h];
      refresh := map h | h in refresh && !(refresh[h].expiresAt <= now && refresh[h].revokedAt.Some?) :: refresh[h];
      outcome := Done;
    }

    /** First lock section of `validate_access_token`. */
    method QueryAccessToken(hash: string, now: int) returns (sid: Option<string>)
      ensures sid == LookupAccess(View(), hash, now)
    {
      if hash in access && access[hash].revokedAt.None? && access[hash].expiresAt > now {
        sid := Some(access[hash].sessionId);
      } else {
        sid := None;
      }
    }

    /** Second lock section of `validate_access_token`, and of the other operations. */
    method GetSession(sid: string) returns (s: Option<Session>)
      ensures s.Some? <==> sid in sessions
      ensures s.Some? ==> s.value == sessions[sid]
    {
      s := if sid in sessions then Some(sessions[sid]) else None;
    }
  }

  lemma {:induction false} RevokeNone(t: Tables, status: Status, now: int)
    ensures RevokeAll(t, {}, status, now) == t
  {
    assert RevokedSessions(t.sessions, {}, status, now) == t.sessions;
    assert RevokedRefresh(t.refresh, {}, now) == t.refresh;
    assert RevokedAccess(t.access, {}, now) == t.access;
  }

  lemma {:induction false} RevokeOneMore(t: Tables, ids: set<string>, sid: string, status: Status, now: int)
    requires sid !in ids
    ensures RevokeAll(RevokeAll(t, ids, status, now), {sid}, status, now) == RevokeAll(t, ids + {sid}, status, now)
  {
  }

  // ---- The invariant -----------------------------------------------------

  ghost predicate Referential(t: Tables) {
    && (forall h :: h in t.refresh ==> t.refresh[h].sessionId in t.sessions)
    && (forall h :: h in t.access ==> t.access[h].sessionId in t.sessions)
  }

  /** A session that is not active has revoked tokens only. */
  ghost predicate DeadTokens(t: Tables) {
    && (forall h :: h in t.refresh && Dead(t, t.refresh[h].sessionId) ==> t.refresh[h].revokedAt.Some?)
    && (forall h :: h in t.access && Dead(t, t.access[h].sessionId) ==> t.access[h].revokedAt.Some?)
  }

  predicate Dead(t: Tables, sid: string) {
    sid in t.sessions && t.sessions[sid].status != Active
  }

  predicate Live(t: Tables, h: string, sid: string) {
    h in t.refresh && t.refresh[h].sessionId == sid && t.refresh[h].revokedAt.None?
  }

  /** Each session has at most one refresh token that is not revoked. */
  ghost predicate OneLive(t: Tables) {
    forall h1, h2, sid :: Live(t, h1, sid) && Live(t, h2, sid) ==> h1 == h2
  }

  ghost predicate UniqueTokenIds(t: Tables) {
    forall h1, h2 :: h1 in t.refresh && h2 in t.refresh && t.refresh[h1].tokenId == t.refresh[h2].tokenId ==> h1 == h2
  }

  ghost predicate Inv(t: Tables) {
    Referential(t) && DeadTokens(t) && OneLive(t) && UniqueTokenIds(t)
  }

  lemma {:induction false} CreateKeeps(t: Tables, n: NewSession, now: int)
    requires Inv(t)
    ensures Inv(Create(t, n, now).tables)
  {
    var v := Create(t, n, now).tables;
    if v != t {
      forall h, s | Live(v, h, s)
        ensures (h == n.refreshHash && s == n.sessionId) || (Live(t, h, s) && s in t.sessions) { }
      forall s | Dead(v, s) ensures Dead(t, s) && s != n.sessionId { }
      assert forall h :: h in t.refresh ==> t.refresh[h].tokenId != n.tokenId;
    }
  }

  lemma {:induction false} RotateKeeps(t: Tables, r: Rotation, now: int)
    requires Inv(t)
    ensures Inv(Rotate(t, r, now).tables)
  {
    hide Inv, RevokeTokenId, HasTokenId;
    if r.presented in t.refresh {
      var id := t.refresh[r.presented].tokenId;
      RevokeTokenIdRows(t, r.presented, now);
      var u := t.(refresh := RevokeTokenId(t.refresh, id, now));
      assert Inv(u);
      if Rotate(t, r, now).outcome.Rotated? {
        RotateInsertKeeps(u, t.refresh[r.presented].sessionId, r, id, now);
      }
    }
  }

  /** Revoking one row leaves its session without a live refresh token. */
  lemma {:induction false} RevokeTokenIdRows(t: Tables, h: string, now: int)
    requires Inv(t) && h in t.refresh
    ensures var u := t.(refresh := RevokeTokenId(t.refresh, t.refresh[h].tokenId, now));
      && Inv(u)
      && (t.refresh[h].revokedAt.None? ==> forall h1 :: !Live(u, h1, t.refresh[h].sessionId))
  {
    var u := t.(refresh := RevokeTokenId(t.refresh, t.refresh[h].tokenId, now));
    forall h1, sid | Live(u, h1, sid) ensures Live(t, h1, sid) && h1 != h { }
    if t.refresh[h].revokedAt.None? {
      assert Live(t, h, t.refresh[h].sessionId);
    }
  }

  lemma {:induction false} RotateInsertKeeps(u: Tables, sid: string, r: Rotation, from: string, now: int)
    requires Inv(u) && sid in u.sessions && u.sessions[sid].status == Active
    requires forall h :: !Live(u, h, sid)
    requires r.nextRefresh !in u.refresh && !HasTokenId(u.refresh, r.tokenId) && r.nextAccess !in u.access
    ensures Inv(Tables(
      u.sessions[sid := u.sessions[sid].(lastSeenAt := now)],
      u.refresh[r.nextRefresh := RefreshRow(r.tokenId, sid, Some(from), now + r.refreshTtl, now, None)],
      u.access[r.nextAccess := AccessRow(sid, now + r.accessTtl, now, None)]))
  {
    var v := Tables(
      u.sessions[sid := u.sessions[sid].(lastSeenAt := now)],
      u.refresh[r.nextRefresh := RefreshRow(r.tokenId, sid, Some(from), now + r.refreshTtl, now, None)],
      u.access[r.nextAccess := AccessRow(sid, now + r.accessTtl, now, None)]);
    forall h, s | Live(v, h, s) ensures (h == r.nextRefresh && s == sid) || Live(u, h, s) { }
    forall s | Dead(v, s) ensures Dead(u, s) && s != sid { }
    assert forall h :: h in u.refresh ==> u.refresh[h].tokenId != r.tokenId;
  }

  lemma {:induction false} RevokeKeeps(t: Tables, s: Selection, status: Status, now: int)
    requires Inv(t)
    ensures Inv(Revoke(t, s, status, now).tables)
  {
    var v := Revoke(t, s, status, now).tables;
    forall h, x | Live(v, h, x) ensures Live(t, h, x) { }
    forall x | Dead(v, x) ensures Dead(t, x) || x in Targets(t, s) { }
  }

  lemma {:induction false} CleanupKeeps(t: Tables, now: int)
    requires Inv(t)
    ensures Inv(Cleanup(t, now).tables)
  {
    var v := Cleanup(t, now).tables;
    forall h, x | Live(v, h, x) ensures Live(t, h, x) { }
    forall x | Dead(v, x) ensures Dead(t, x) { }
  }

  // ---- Each operation, seen through the two queries ----------------------

  /** A new session's access token works until it expires; nothing else changes. */
  lemma {:induction false} CreateExact(t: Tables, n: NewSession, now: int, hash: string, at: int)
    ensures LookupAccess(Create(t, n, now).tables, hash, at) ==
      if Create(t, n, now).outcome.Created? && hash == n.accessHash
      then (if at < now + n.accessTtl then Some(n.sessionId) else None)
      else LookupAccess(t, hash, at)
  {
  }

  /** Rotation succeeds exactly for a live, unexpired refresh token whose
      replacements are new: the status of its session need not be asked. */
  lemma {:induction false} RotateSucceedsExactly(t: Tables, r: Rotation, now: int)
    requires Inv(t)
    ensures Rotate(t, r, now).outcome.Rotated? <==>
      && r.presented in t.refresh && t.refresh[r.presented].revokedAt.None?
      && t.refresh[r.presented].expiresAt > now
      && r.nextRefresh !in t.refresh && !HasTokenId(t.refresh, r.tokenId) && r.nextAccess !in t.access
  {
    if r.presented in t.refresh {
      SameTokenIds(t.refresh, t.refresh[r.presented].tokenId, now, r.tokenId);
    }
  }

  lemma {:induction false} SameTokenIds(m: map<string, RefreshRow>, id: string, now: int, asked: string)
    ensures HasTokenId(RevokeTokenId(m, id, now), asked) <==> HasTokenId(m, asked)
  {
    var revoked := RevokeTokenId(m, id, now);
    if HasTokenId(m, asked) {
      var h :| h in m && m[h].tokenId == asked;
      assert revoked[h].tokenId == asked;
    }
  }

  /** It replaces the session's live refresh token, adds one access token, and
      disturbs nothing else. */
  lemma {:induction false} RotateEffect(t: Tables, r: Rotation, now: int)
    requires Inv(t) && Rotate(t, r, now).outcome.Rotated?
    ensures r.presented in t.refresh
    ensures var u, sid := Rotate(t, r, now).tables, t.refresh[r.presented].sessionId;
      && Rotate(t, r, now).outcome == Rotated(sid)
      && (forall h :: Live(u, h, sid) <==> h == r.nextRefresh)
      && (forall h, s :: s != sid ==> (Live(u, h, s) <==> Live(t, h, s)))
  {
    RevokeTokenIdRows(t, r.presented, now);
    var u, sid := Rotate(t, r, now).tables, t.refresh[r.presented].sessionId;
    var mid := t.(refresh := RevokeTokenId(t.refresh, t.refresh[r.presented].tokenId, now));
    forall h, s | s != sid ensures Live(u, h, s) <==> Live(t, h, s) {
      assert Live(u, h, s) <==> Live(mid, h, s);
    }
    forall h ensures Live(u, h, sid) <==> h == r.nextRefresh {
      if h != r.nextRefresh { assert Live(u, h, sid) <==> Live(mid, h, sid); }
    }
  }

  lemma {:induction false} RotateLookups(t: Tables, r: Rotation, now: int, hash: string, at: int)
    ensures LookupAccess(Rotate(t, r, now).tables, hash, at) ==
      if Rotate(t, r, now).outcome.Rotated? && hash == r.nextAccess
      then (if at < now + r.accessTtl then Some(t.refresh[r.presented].sessionId) else None)
      else LookupAccess(t, hash, at)
  {
  }

  /** Revocation silences the selected sessions and no others. */
  lemma {:induction false} RevokeExact(t: Tables, s: Selection, status: Status, now: int, hash: string, at: int)
    requires Inv(t)
    ensures var was := LookupAccess(t, hash, at);
      LookupAccess(Revoke(t, s, status, now).tables, hash, at) ==
      if was.Some? && Selected(t, s, was.value) then None else was
  {
  }

  /** Cleanup is invisible to every later validation. */
  lemma {:induction false} CleanupInvisible(t: Tables, now: int, hash: string, at: int)
    requires now <= at
    ensures LookupAccess(Cleanup(t, now).tables, hash, at) == LookupAccess(t, hash, at)
  {
  }

  // ---- Runs --------------------------------------------------------------

  datatype Step =
    | DoCreate(n: NewSession, now: int)
    | DoRotate(r: Rotation, now: int)
    | DoRevoke(s: Selection, status: Status, now: int)
    | DoCleanup(now: int)

  function Apply(t: Tables, step: Step): Result {
    match step
    case DoCreate(n, now) => Create(t, n, now)
    case DoRotate(r, now) => Rotate(t, r, now)
    case DoRevoke(s, status, now) => Revoke(t, s, status, now)
    case DoCleanup(now) => Cleanup(t, now)
  }

  /** The tables after all the steps; clocks need not even move forward. */
  function After(t: Tables, steps: seq<Step>): Tables
    decreases |steps|
  {
    if steps == [] then t else After(Apply(t, steps[0]).tables, steps[1..])
  }

  lemma {:induction false} AfterSplit(t: Tables, a: seq<Step>, b: seq<Step>)
    ensures After(t, a + b) == After(After(t, a), b)
    decreases |a|
  {
    hide Apply;
    if a == [] {
      assert a + b == b;
    } else {
      assert (a + b)[1..] == a[1..] + b;
      AfterSplit(Apply(t, a[0]).tables, a[1..], b);
    }
  }

  lemma {:induction false} StepKeeps(t: Tables, step: Step)
    requires Inv(t)
    ensures Inv(Apply(t, step).tables)
  {
    hide Inv, Create, Rotate, Revoke, Cleanup;
    match step
    case DoCreate(n, now) => CreateKeeps(t, n, now);
    case DoRotate(r, now) => RotateKeeps(t, r, now);
    case DoRevoke(s, status, now) => RevokeKeeps(t, s, status, now);
    case DoCleanup(now) => CleanupKeeps(t, now);
  }

  lemma {:induction false} InvAlways(t: Tables, steps: seq<Step>)
    requires Inv(t)
    ensures Inv(After(t, steps))
    decreases |steps|
  {
    hide Inv, Apply;
    if steps != [] {
      StepKeeps(t, steps[0]);
      InvAlways(Apply(t, steps[0]).tables, steps[1..]);
    }
  }

  // ---- What the invariant buys -------------------------------------------

  /** The query as it would read with the session's status asked as well. */
  function LookupActive(t: Tables, hash: string, now: int): Option<string> {
    var sid := LookupAccess(t, hash, now);
    if sid.Some? && sid.value in t.sessions && t.sessions[sid.value].status == Active then sid else None
  }

  /** In every reachable state the query that never looks at the status answers
      as the one that does. */
  lemma {:induction false} StatusCheckRedundant(steps: seq<Step>, hash: string, now: int)
    ensures var t := After(EMPTY, steps); LookupAccess(t, hash, now) == LookupActive(t, hash, now)
  {
    InvAlways(EMPTY, steps);
  }

  lemma {:induction false} DeadStep(t: Tables, step: Step, sid: string)
    requires Dead(t, sid)
    ensures Dead(Apply(t, step).tables, sid)
  {
  }

  lemma {:induction false} DeadForever(t: Tables, steps: seq<Step>, sid: string)
    requires Dead(t, sid)
    ensures Dead(After(t, steps), sid)
    decreases |steps|
  {
    hide Apply, Dead;
    if steps != [] {
      DeadStep(t, steps[0], sid);
      DeadForever(Apply(t, steps[0]).tables, steps[1..], sid);
    }
  }

  /** Once a session is no longer active, no token of its is ever accepted again:
      whatever happens next, at whatever time, under whatever hash. */
  lemma {:induction false} RevocationIsFinal(before: seq<Step>, after: seq<Step>, sid: string, hash: string, now: int)
    requires Dead(After(EMPTY, before), sid)
    ensures LookupAccess(After(EMPTY, before + after), hash, now) != Some(sid)
    ensures forall r: Rotation, at: int :: Rotate(After(EMPTY, before + after), r, at).outcome != Rotated(sid)
  {
    AfterSplit(EMPTY, before, after);
    DeadForever(After(EMPTY, before), after, sid);
    InvAlways(EMPTY, before + after);
  }

  lemma {:induction false} SessionsStay(t: Tables, steps: seq<Step>, sid: string)
    requires sid in t.sessions
    ensures sid in After(t, steps).sessions
    decreases |steps|
  {
    if steps != [] {
      SessionsStay(Apply(t, steps[0]).tables, steps[1..], sid);
    }
  }

  /** Validation takes the lock twice.  Between the two sections the session cannot
      vanish, and it was active when the token was found ... */
  lemma {:induction false} ValidateFindsSession(before: seq<Step>, between: seq<Step>, hash: string, now: int)
    requires LookupAccess(After(EMPTY, before), hash, now).Some?
    ensures var sid := LookupAccess(After(EMPTY, before), hash, now).value;
      && sid in After(EMPTY, before).sessions
      && After(EMPTY, before).sessions[sid].status == Active
      && sid in After(EMPTY, before + between).sessions
  {
    StatusCheckRedundant(before, hash, now);
    AfterSplit(EMPTY, before, between);
    SessionsStay(After(EMPTY, before), between, LookupAccess(After(EMPTY, before), hash, now).value);
  }

  /** This step ends a session: a revocation that selects it, to another status than active. */
  predicate Ends(t: Tables, step: Step, sid: string) {
    step.DoRevoke? && step.status != Active && Selected(t, step.s, sid)
  }

  /** No step of the run ends the session, at the moment it is taken. */
  predicate NeverEnded(t: Tables, steps: seq<Step>, sid: string)
    decreases |steps|
  {
    steps != [] ==> !Ends(t, steps[0], sid) && NeverEnded(Apply(t, steps[0]).tables, steps[1..], sid)
  }

  lemma {:induction false} EndStep(t: Tables, step: Step, sid: string)
    requires sid in t.sessions && t.sessions[sid].status == Active
    ensures sid in Apply(t, step).tables.sessions
    ensures Apply(t, step).tables.sessions[sid].status == if Ends(t, step, sid) then step.status else Active
    ensures Ends(t, step, sid) <==> Dead(Apply(t, step).tables, sid)
  {
  }

  lemma {:induction false} ActiveExactly(t: Tables, steps: seq<Step>, sid: string)
    requires sid in t.sessions && t.sessions[sid].status == Active
    ensures sid in After(t, steps).sessions
    ensures After(t, steps).sessions[sid].status == Active <==> NeverEnded(t, steps, sid)
    decreases |steps|
  {
    hide Apply, Ends;
    if steps != [] {
      var next := Apply(t, steps[0]).tables;
      EndStep(t, steps[0], sid);
      if Ends(t, steps[0], sid) {
        SessionsStay(next, steps[1..], sid);
        DeadForever(next, steps[1..], sid);
      } else {
        ActiveExactly(next, steps[1..], sid);
      }
    }
  }

  /** ... so the record that is returned is an active one exactly when no revocation that
      selects the session has come in between. */
  lemma {:induction false} ValidatedActiveExactly(before: seq<Step>, between: seq<Step>, hash: string, now: int)
    requires LookupAccess(After(EMPTY, before), hash, now).Some?
    ensures var sid := LookupAccess(After(EMPTY, before), hash, now).value;
      && sid in After(EMPTY, before + between).sessions
      && (After(EMPTY, before + between).sessions[sid].status == Active <==>
          NeverEnded(After(EMPTY, before), between, sid))
  {
    hide LookupAccess, NeverEnded, After;
    ValidateFindsSession(before, between, hash, now);
    AfterSplit(EMPTY, before, between);
    ActiveExactly(After(EMPTY, before), between, LookupAccess(After(EMPTY, before), hash, now).value);
  }

  /** In particular revoking that very session makes it a revoked one. */
  lemma {:induction false} ValidateMayReturnRevoked(before: seq<Step>, hash: string, now: int)
    requires LookupAccess(After(EMPTY, before), hash, now).Some?
    ensures var sid := LookupAccess(After(EMPTY, before), hash, now).value;
      var after := After(EMPTY, before + [DoRevoke(Selection(Some(sid), None, false), Revoked, now)]);
      sid in after.sessions && after.sessions[sid].status == Revoked
  {
    hide LookupAccess;
    var t, sid := After(EMPTY, before), LookupAccess(After(EMPTY, before), hash, now).value;
    var step := DoRevoke(Selection(Some(sid), None, false), Revoked, now);
    ValidateFindsSession(before, [step], hash, now);
    AfterSplit(EMPTY, before, [step]);
    EndStep(t, step, sid);
    assert After(t, [step]) == Apply(t, step).tables by { assert [step][1..] == []; }
  }

  // ---- How long a token works --------------------------------------------

  /** Everything an insertion needs to be new. */
  ghost predicate NewLogin(t: Tables, n: NewSession) {
    && n.sessionId !in t.sessions && n.accessHash !in t.access && n.refreshHash !in t.refresh
    && forall h :: h in t.refresh ==> t.refresh[h].tokenId != n.tokenId
  }

  ghost predicate NewTokens(t: Tables, r: Rotation) {
    && r.nextAccess !in t.access && r.nextRefresh !in t.refresh
    && forall h :: h in t.refresh ==> t.refresh[h].tokenId != r.tokenId
  }

  /** A login succeeds exactly when all it brings is new, and otherwise changes nothing. */
  lemma {:induction false} CreateSucceedsExactly(t: Tables, n: NewSession, now: int)
    ensures var r := Create(t, n, now);
      if NewLogin(t, n) then r.outcome == Created(n.sessionId)
      else r.outcome == ConstraintViolation && r.tables == t
  {
  }

  /** What presenting a refresh token answers: which refusal, and when none. */
  lemma {:induction false} PresentExactly(t: Tables, r: Rotation, at: int)
    requires Inv(t)
    ensures var outcome := Rotate(t, r, at).outcome;
      && (outcome == ReuseDetected <==> r.presented in t.refresh && t.refresh[r.presented].revokedAt.Some?)
      && (outcome == Missing <==>
            || r.presented !in t.refresh
            || (t.refresh[r.presented].revokedAt.None? && t.refresh[r.presented].expiresAt <= at))
      && (outcome.Rotated? <==> outcome != ReuseDetected && outcome != Missing && NewTokens(t, r))
      && (outcome.Rotated? ==> outcome == Rotated(t.refresh[r.presented].sessionId))
      && (outcome == ConstraintViolation <==> outcome != ReuseDetected && outcome != Missing && !NewTokens(t, r))
  {
    RotateSucceedsExactly(t, r, at);
  }

  /** The sessions a revocation asks for: all, or by id, by device, or by both. */
  predicate Picks(s: Selection, sid: string, deviceId: string) {
    if s.all then true
    else match (s.sessionId, s.deviceId)
      case (Some(x), Some(d)) => x == sid && d == deviceId
      case (Some(x), None) => x == sid
      case (None, Some(d)) => d == deviceId
      case (None, None) => false
  }

  lemma {:induction false} SelectedExactly(t: Tables, s: Selection, sid: string)
    ensures Selected(t, s, sid) <==>
      sid in t.sessions && t.sessions[sid].status == Active && Picks(s, sid, t.sessions[sid].deviceId)
  {
  }

  /** A revocation gives the active sessions it picks the new status and time, and leaves
      every other record as it was; to any status but active, it returns how many it ended. */
  lemma {:induction false} RevokeTells(t: Tables, s: Selection, status: Status, now: int, sid: string)
    requires sid in t.sessions
    ensures var r, was := Revoke(t, s, status, now), t.sessions[sid];
      && sid in r.tables.sessions
      && r.tables.sessions[sid] ==
           (if was.status == Active && Picks(s, sid, was.deviceId) then was.(status := status, revokedAt := Some(now))
            else was)
      && (status != Active ==>
            r.outcome == RevokedCount(|set x | x in t.sessions && t.sessions[x].status == Active
                                              && x in r.tables.sessions && r.tables.sessions[x].status != Active|))
  {
    SelectedExactly(t, s, sid);
    var r := Revoke(t, s, status, now);
    if status != Active {
      var ended := set x | x in t.sessions && t.sessions[x].status == Active
                           && x in r.tables.sessions && r.tables.sessions[x].status != Active;
      assert ended == Targets(t, s);
    }
  }

  /** This step presents the token or revokes its session. */
  predicate Touches(t: Tables, step: Step, hash: string, sid: string) {
    match step
    case DoRotate(r, _) => r.presented == hash
    case DoRevoke(s, _, _) => sid in t.sessions && Picks(s, sid, t.sessions[sid].deviceId)
    case _ => false
  }

  predicate Untouched(t: Tables, steps: seq<Step>, hash: string, sid: string)
    decreases |steps|
  {
    steps != [] ==>
      !Touches(t, steps[0], hash, sid) && Untouched(Apply(t, steps[0]).tables, steps[1..], hash, sid)
  }

  /** A live token's row, of an active session. */
  ghost predicate Holds(t: Tables, hash: string, sid: string, expiresAt: int) {
    && Live(t, hash, sid) && t.refresh[hash].expiresAt == expiresAt
    && sid in t.sessions && t.sessions[sid].status == Active
  }

  lemma {:induction false} HoldsStep(t: Tables, step: Step, hash: string, sid: string, expiresAt: int)
    requires Inv(t) && Holds(t, hash, sid, expiresAt) && !Touches(t, step, hash, sid)
    ensures Holds(Apply(t, step).tables, hash, sid, expiresAt)
  {
    match step
    case DoCreate(n, now) =>
    case DoRotate(r, now) =>
    case DoRevoke(s, status, now) => SelectedExactly(t, s, sid);
    case DoCleanup(now) =>
  }

  lemma {:induction false} HoldsOn(t: Tables, steps: seq<Step>, hash: string, sid: string, expiresAt: int)
    requires Inv(t) && Holds(t, hash, sid, expiresAt) && Untouched(t, steps, hash, sid)
    ensures Inv(After(t, steps)) && Holds(After(t, steps), hash, sid, expiresAt)
    decreases |steps|
  {
    hide Inv, Apply, Holds, Touches;
    if steps != [] {
      StepKeeps(t, steps[0]);
      HoldsStep(t, steps[0], hash, sid, expiresAt);
      HoldsOn(Apply(t, steps[0]).tables, steps[1..], hash, sid, expiresAt);
    }
  }

  /** The answer to a token that works until `expiresAt`. */
  ghost function WorksUntil(t: Tables, r: Rotation, at: int, sid: string, expiresAt: int): Outcome {
    if at >= expiresAt then Missing else if NewTokens(t, r) then Rotated(sid) else ConstraintViolation
  }

  lemma {:induction false} HeldAnswer(t: Tables, r: Rotation, at: int, sid: string, expiresAt: int)
    requires Inv(t) && Holds(t, r.presented, sid, expiresAt)
    ensures Rotate(t, r, at).outcome == WorksUntil(t, r, at, sid, expiresAt)
  {
    PresentExactly(t, r, at);
  }

  /** A login's refresh token works for its whole time to live, whatever is done in between
      short of presenting it or revoking its session, and not a moment longer. */
  lemma {:induction false} LoginLasts(t: Tables, n: NewSession, now: int, between: seq<Step>, r: Rotation, at: int)
    requires Inv(t) && NewLogin(t, n) && r.presented == n.refreshHash
    requires Untouched(Create(t, n, now).tables, between, n.refreshHash, n.sessionId)
    ensures var later := After(Create(t, n, now).tables, between);
      Rotate(later, r, at).outcome == WorksUntil(later, r, at, n.sessionId, now + n.refreshTtl)
  {
    hide Rotate, WorksUntil, Untouched, After;
    CreateKeeps(t, n, now);
    CreateSucceedsExactly(t, n, now);
    var t1 := Create(t, n, now).tables;
    assert Holds(t1, n.refreshHash, n.sessionId, now + n.refreshTtl);
    HoldsOn(t1, between, n.refreshHash, n.sessionId, now + n.refreshTtl);
    HeldAnswer(After(t1, between), r, at, n.sessionId, now + n.refreshTtl);
  }

  /** And so does the one that a rotation issues. */
  lemma {:induction false} RotationLasts(t: Tables, first: Rotation, now: int, between: seq<Step>, r: Rotation, at: int)
    requires Inv(t) && Rotate(t, first, now).outcome.Rotated? && r.presented == first.nextRefresh
    requires var issued := Rotate(t, first, now);
      Untouched(issued.tables, between, r.presented, issued.outcome.sessionId)
    ensures var sid := Rotate(t, first, now).outcome.sessionId;
      var later := After(Rotate(t, first, now).tables, between);
      Rotate(later, r, at).outcome == WorksUntil(later, r, at, sid, now + first.refreshTtl)
  {
    RotateKeeps(t, first, now);
    var t1, sid := Rotate(t, first, now).tables, Rotate(t, first, now).outcome.sessionId;
    assert Holds(t1, first.nextRefresh, sid, now + first.refreshTtl);
    hide Rotate, WorksUntil, Untouched, After, Holds;
    HoldsOn(t1, between, first.nextRefresh, sid, now + first.refreshTtl);
    HeldAnswer(After(t1, between), r, at, sid, now + first.refreshTtl);
  }

  // ---- A spent token is known as such ------------------------------------

  /** No cleanup of the run happens once the token has expired. */
  predicate KeptUntil(steps: seq<Step>, expiresAt: int) {
    forall i :: 0 <= i < |steps| && steps[i].DoCleanup? ==> steps[i].now < expiresAt
  }

  lemma {:induction false} SpentOn(t: Tables, steps: seq<Step>, hash: string)
    requires hash in t.refresh && t.refresh[hash].revokedAt.Some? && KeptUntil(steps, t.refresh[hash].expiresAt)
    ensures hash in After(t, steps).refresh && After(t, steps).refresh[hash].revokedAt.Some?
    decreases |steps|
  {
    if steps != [] {
      SpentOnce(t, steps[0], hash);
      var next := Apply(t, steps[0]).tables;
      assert forall i :: 0 <= i < |steps[1..]| ==> steps[1..][i] == steps[i + 1];
      SpentOn(next, steps[1..], hash);
    }
  }

  lemma {:induction false} SpentOnce(t: Tables, step: Step, hash: string)
    requires hash in t.refresh && t.refresh[hash].revokedAt.Some?
    requires step.DoCleanup? ==> step.now < t.refresh[hash].expiresAt
    ensures var next := Apply(t, step).tables;
      && hash in next.refresh && next.refresh[hash].revokedAt.Some?
      && next.refresh[hash].expiresAt == t.refresh[hash].expiresAt
  {
  }

  /** Presenting a token that has been rotated or presented too late, or whose session has been
      revoked, is recognised as reuse until a cleanup has forgotten it. */
  lemma {:induction false} ReuseIsDetected(t: Tables, step: Step, between: seq<Step>, r: Rotation, at: int, sid: string)
    requires Inv(t) && Live(t, r.presented, sid) && KeptUntil(between, t.refresh[r.presented].expiresAt)
    requires Touches(t, step, r.presented, sid)
    requires step.DoRotate? ==> Apply(t, step).outcome == Rotated(sid) || t.refresh[r.presented].expiresAt <= step.now
    ensures Rotate(After(Apply(t, step).tables, between), r, at).outcome == ReuseDetected
  {
    SelectedExactly(t, if step.DoRevoke? then step.s else Selection(None, None, false), sid);
    SpentNow(t, step, r.presented, sid);
    SpentOn(Apply(t, step).tables, between, r.presented);
  }

  lemma {:induction false} SpentNow(t: Tables, step: Step, hash: string, sid: string)
    requires Inv(t) && Live(t, hash, sid) && Touches(t, step, hash, sid)
    requires step.DoRotate? ==> Apply(t, step).outcome == Rotated(sid) || t.refresh[hash].expiresAt <= step.now
    ensures var next := Apply(t, step).tables;
      && hash in next.refresh && next.refresh[hash].revokedAt.Some?
      && next.refresh[hash].expiresAt == t.refresh[hash].expiresAt
  {
    if step.DoRevoke? { SelectedExactly(t, step.s, sid); }
  }

  /** And what a cleanup forgets: whatever has expired, except unspent refresh tokens. */
  lemma {:induction false} CleanupForgets(t: Tables, now: int, hash: string)
    ensures var u := Cleanup(t, now).tables;
      && u.sessions == t.sessions
      && (hash in u.access <==> hash in t.access && t.access[hash].expiresAt > now)
      && (hash in u.refresh <==>
            hash in t.refresh && (t.refresh[hash].expiresAt > now || t.refresh[hash].revokedAt.None?))
      && (hash in u.access ==> u.access[hash] == t.access[hash])
      && (hash in u.refresh ==> u.refresh[hash] == t.refresh[hash])
  {
  }

  // ---- How long an access token works ------------------------------------

  /** An access token's row, not revoked. */
  ghost predicate Grants(t: Tables, hash: string, sid: string, expiresAt: int) {
    && hash in t.access && t.access[hash].revokedAt.None?
    && t.access[hash].sessionId == sid && t.access[hash].expiresAt == expiresAt
    && sid in t.sessions && t.sessions[sid].status == Active
  }

  lemma {:induction false} GrantsStep(t: Tables, step: Step, hash: string, sid: string, expiresAt: int)
    requires Grants(t, hash, sid, expiresAt) && (step.DoCleanup? ==> step.now < expiresAt)
    requires !(step.DoRevoke? && Picks(step.s, sid, t.sessions[sid].deviceId))
    ensures Grants(Apply(t, step).tables, hash, sid, expiresAt)
  {
    if step.DoRevoke? { SelectedExactly(t, step.s, sid); }
  }

  lemma {:induction false} GrantsOn(t: Tables, steps: seq<Step>, hash: string, sid: string, expiresAt: int)
    requires Grants(t, hash, sid, expiresAt) && Unrevoked(t, steps, sid) && KeptUntil(steps, expiresAt)
    ensures Grants(After(t, steps), hash, sid, expiresAt)
    decreases |steps|
  {
    hide Apply, Picks;
    if steps != [] {
      assert steps[0].DoCleanup? ==> steps[0].now < expiresAt;
      GrantsStep(t, steps[0], hash, sid, expiresAt);
      assert forall i :: 0 <= i < |steps[1..]| ==> steps[1..][i] == steps[i + 1];
      GrantsOn(Apply(t, steps[0]).tables, steps[1..], hash, sid, expiresAt);
    }
  }

  /** The access token of a login works for its whole time to live unless its session is revoked. */
  lemma {:induction false} LoginAccessLasts(t: Tables, n: NewSession, now: int, between: seq<Step>, at: int)
    requires NewLogin(t, n) && KeptUntil(between, now + n.accessTtl)
    requires Unrevoked(Create(t, n, now).tables, between, n.sessionId)
    ensures LookupAccess(After(Create(t, n, now).tables, between), n.accessHash, at) ==
      if at < now + n.accessTtl then Some(n.sessionId) else None
  {
    CreateSucceedsExactly(t, n, now);
    GrantsOn(Create(t, n, now).tables, between, n.accessHash, n.sessionId, now + n.accessTtl);
  }

  /** And so does the one that a rotation issues, for the session it answers. */
  lemma {:induction false} RotationAccessLasts(t: Tables, r: Rotation, now: int, between: seq<Step>, at: int)
    requires Rotate(t, r, now).outcome.Rotated? && KeptUntil(between, now + r.accessTtl)
    requires Unrevoked(Rotate(t, r, now).tables, between, Rotate(t, r, now).outcome.sessionId)
    ensures LookupAccess(After(Rotate(t, r, now).tables, between), r.nextAccess, at) ==
      if at < now + r.accessTtl then Some(Rotate(t, r, now).outcome.sessionId) else None
  {
    GrantsOn(Rotate(t, r, now).tables, between, r.nextAccess, Rotate(t, r, now).outcome.sessionId, now + r.accessTtl);
  }

  // ---- The record of a session -------------------------------------------

  /** When the session was last seen: at its last successful rotation, `seen` before any. */
  function LastSeen(t: Tables, steps: seq<Step>, sid: string, seen: int): int
    decreases |steps|
  {
    if steps == [] then seen
    else LastSeen(Apply(t, steps[0]).tables, steps[1..], sid,
                  if Apply(t, steps[0]).outcome == Rotated(sid) then steps[0].now else seen)
  }

  lemma {:induction false} RecordStep(t: Tables, step: Step, sid: string)
    requires sid in t.sessions
    ensures sid in Apply(t, step).tables.sessions
    ensures !(step.DoRevoke? && Picks(step.s, sid, t.sessions[sid].deviceId)) ==>
      Apply(t, step).tables.sessions[sid] ==
      if Apply(t, step).outcome == Rotated(sid) then t.sessions[sid].(lastSeenAt := step.now) else t.sessions[sid]
    ensures Dead(t, sid) ==> Apply(t, step).tables.sessions[sid] == t.sessions[sid]
  {
    if step.DoRevoke? { SelectedExactly(t, step.s, sid); }
  }

  /** No step of the run revokes the session. */
  predicate Unrevoked(t: Tables, steps: seq<Step>, sid: string)
    decreases |steps|
  {
    steps != [] ==>
      && !(steps[0].DoRevoke? && sid in t.sessions && Picks(steps[0].s, sid, t.sessions[sid].deviceId))
      && Unrevoked(Apply(t, steps[0]).tables, steps[1..], sid)
  }

  /** Until it is revoked, a session's record changes only in when it was last seen ... */
  lemma {:induction false} RecordKept(t: Tables, steps: seq<Step>, sid: string)
    requires sid in t.sessions && Unrevoked(t, steps, sid)
    ensures sid in After(t, steps).sessions
    ensures After(t, steps).sessions[sid] ==
      t.sessions[sid].(lastSeenAt := LastSeen(t, steps, sid, t.sessions[sid].lastSeenAt))
    decreases |steps|
  {
    hide Apply, Picks;
    if steps != [] {
      RecordStep(t, steps[0], sid);
      RecordKept(Apply(t, steps[0]).tables, steps[1..], sid);
    }
  }

  /** ... and once it is dead, its record never changes again. */
  lemma {:induction false} DeadRecordKept(t: Tables, steps: seq<Step>, sid: string)
    requires Dead(t, sid)
    ensures sid in After(t, steps).sessions && After(t, steps).sessions[sid] == t.sessions[sid]
    decreases |steps|
  {
    hide Apply, Picks;
    if steps != [] {
      RecordStep(t, steps[0], sid);
      DeadRecordKept(Apply(t, steps[0]).tables, steps[1..], sid);
    }
  }

  /** A login's record over its active life. */
  lemma {:induction false} LoginRecord(t: Tables, n: NewSession, now: int, between: seq<Step>)
    requires NewLogin(t, n) && Unrevoked(Create(t, n, now).tables, between, n.sessionId)
    ensures var t1 := Create(t, n, now).tables;
      && n.sessionId in After(t1, between).sessions
      && After(t1, between).sessions[n.sessionId] ==
           Session(n.deviceId, Active, now, LastSeen(t1, between, n.sessionId, now), None)
  {
    hide After, LastSeen, Unrevoked;
    CreateSucceedsExactly(t, n, now);
    RecordKept(Create(t, n, now).tables, between, n.sessionId);
  }

  // ---- A refresh token is good once --------------------------------------

  /** The refresh hashes a run brings into play, in order. */
  function Issued(steps: seq<Step>): seq<string> {
    if steps == [] then []
    else
      (match steps[0]
       case DoCreate(n, _) => [n.refreshHash]
       case DoRotate(r, _) => [r.nextRefresh]
       case _ => []) + Issued(steps[1..])
  }

  ghost predicate Distinct(s: seq<string>) {
    forall i, j :: 0 <= i < j < |s| ==> s[i] != s[j]
  }

  function Outcomes(t: Tables, steps: seq<Step>): (r: seq<Outcome>)
    ensures |r| == |steps|
    decreases |steps|
  {
    if steps == [] then []
    else [Apply(t, steps[0]).outcome] + Outcomes(Apply(t, steps[0]).tables, steps[1..])
  }

  /** No live refresh token has this hash. */
  predicate Spent(t: Tables, hash: string) {
    hash in t.refresh ==> t.refresh[hash].revokedAt.Some?
  }

  lemma {:induction false} SpentStep(t: Tables, step: Step, hash: string)
    requires Spent(t, hash) && hash !in Issued([step])
    ensures Spent(Apply(t, step).tables, hash)
    ensures step.DoRotate? && step.r.presented == hash ==> !Apply(t, step).outcome.Rotated?
  {
    assert [step][1..] == [];
    if step.DoCreate? {
      assert [step.n.refreshHash][0] in Issued([step]);
    } else if step.DoRotate? {
      assert [step.r.nextRefresh][0] in Issued([step]);
    }
  }

  lemma {:induction false} IssuedAppend(a: seq<Step>, b: seq<Step>)
    ensures Issued(a + b) == Issued(a) + Issued(b)
  {
    if a == [] {
      assert a + b == b;
    } else {
      assert (a + b)[1..] == a[1..] + b;
      IssuedAppend(a[1..], b);
    }
  }

  lemma {:induction false} SpentStays(t: Tables, steps: seq<Step>, hash: string)
    requires Spent(t, hash) && hash !in Issued(steps)
    ensures Spent(After(t, steps), hash)
    decreases |steps|
  {
    hide Apply, Spent;
    if steps != [] {
      assert steps == [steps[0]] + steps[1..];
      IssuedAppend([steps[0]], steps[1..]);
      SpentStep(t, steps[0], hash);
      SpentStays(Apply(t, steps[0]).tables, steps[1..], hash);
    }
  }

  lemma {:induction false} OutcomeAt(t: Tables, steps: seq<Step>, i: nat)
    requires i < |steps|
    ensures Outcomes(t, steps)[i] == Apply(After(t, steps[..i]), steps[i]).outcome
    ensures After(t, steps[..i + 1]) == Apply(After(t, steps[..i]), steps[i]).tables
    decreases |steps|
  {
    hide Apply;
    if i == 0 {
      assert steps[..1][1..] == [];
    } else {
      assert steps[..i][1..] == steps[1..][..i - 1] && steps[..i + 1][1..] == steps[1..][..i];
      OutcomeAt(Apply(t, steps[0]).tables, steps[1..], i - 1);
    }
  }

  lemma {:induction false} RotatedIsSpent(t: Tables, step: Step)
    requires step.DoRotate? && Apply(t, step).outcome.Rotated?
    ensures step.r.presented in t.refresh
    ensures !Spent(t, step.r.presented) && Spent(Apply(t, step).tables, step.r.presented)
  {
  }

  /** From any state: a refresh hash that has been rotated can be rotated again only if it
      was issued anew in between. */
  lemma {:induction false} RotatedAgainOnlyIfReissued(t: Tables, steps: seq<Step>, i: nat, j: nat)
    requires i < j < |steps| && steps[i].DoRotate? && steps[j].DoRotate?
    requires steps[i].r.presented == steps[j].r.presented
    requires Outcomes(t, steps)[i].Rotated? && Outcomes(t, steps)[j].Rotated?
    ensures steps[i].r.presented in Issued(steps[i + 1..j])
  {
    hide Apply, Spent, Issued;
    var hash, between := steps[i].r.presented, steps[i + 1..j];
    OutcomeAt(t, steps, i);
    OutcomeAt(t, steps, j);
    RotatedIsSpent(After(t, steps[..i]), steps[i]);
    RotatedIsSpent(After(t, steps[..j]), steps[j]);
    assert steps[..j] == steps[..i + 1] + between;
    AfterSplit(t, steps[..i + 1], between);
    if hash !in Issued(between) { SpentStays(After(t, steps[..i + 1]), between, hash); }
  }

  /** Every refresh hash in the table was issued. */
  ghost predicate Known(t: Tables, issued: seq<string>) {
    forall h :: h in t.refresh ==> h in issued
  }

  lemma {:induction false} KnownStep(t: Tables, step: Step, issued: seq<string>)
    requires Known(t, issued)
    ensures Known(Apply(t, step).tables, issued + Issued([step]))
  {
    var all := issued + Issued([step]);
    assert [step][1..] == [];
    if step.DoCreate? {
      assert Issued([step]) == [step.n.refreshHash];
      assert all[|issued|] == step.n.refreshHash;
    } else if step.DoRotate? {
      assert Issued([step]) == [step.r.nextRefresh];
      assert all[|issued|] == step.r.nextRefresh;
    }
    assert forall h :: h in issued ==> h in all;
  }

  lemma {:induction false} KnownAlways(steps: seq<Step>, i: nat)
    requires i <= |steps|
    ensures Known(After(EMPTY, steps[..i]), Issued(steps[..i]))
  {
    hide Apply, Known, Issued;
    if i == 0 {
      NothingKnown();
    } else {
      KnownAlways(steps, i - 1);
      OutcomeAt(EMPTY, steps, i - 1);
      KnownStep(After(EMPTY, steps[..i - 1]), steps[i - 1], Issued(steps[..i - 1]));
      assert steps[..i] == steps[..i - 1] + [steps[i - 1]];
      IssuedAppend(steps[..i - 1], [steps[i - 1]]);
    }
  }

  lemma {:induction false} NothingKnown()
    ensures Known(EMPTY, Issued([]))
  {
  }

  lemma {:induction false} DistinctApart(a: seq<string>, b: seq<string>, x: string)
    requires Distinct(a + b) && x in a
    ensures x !in b
  {
    var i :| 0 <= i < |a| && a[i] == x;
    assert (a + b)[i] == x;
    forall k | 0 <= k < |b| ensures b[k] != x {
      assert (a + b)[|a| + k] == b[k];
    }
  }

  /** So from the empty store, with every issued hash new, each refresh hash yields
      `Rotated` at most once. */
  lemma {:induction false} RotatedOnce(steps: seq<Step>, i: nat, j: nat)
    requires Distinct(Issued(steps))
    requires i < j < |steps| && steps[i].DoRotate? && steps[j].DoRotate?
    requires steps[i].r.presented == steps[j].r.presented
    requires Outcomes(EMPTY, steps)[i].Rotated?
    ensures !Outcomes(EMPTY, steps)[j].Rotated?
  {
    hide Apply, Issued, Outcomes, Distinct;
    var hash := steps[i].r.presented;
    OutcomeAt(EMPTY, steps, i);
    RotatedIsSpent(After(EMPTY, steps[..i]), steps[i]);
    KnownAlways(steps, i);
    assert steps == steps[..i] + ([steps[i]] + (steps[i + 1..j] + steps[j..]));
    IssuedAppend(steps[..i], [steps[i]] + (steps[i + 1..j] + steps[j..]));
    IssuedAppend([steps[i]], steps[i + 1..j] + steps[j..]);
    IssuedAppend(steps[i + 1..j], steps[j..]);
    DistinctApart(Issued(steps[..i]), Issued([steps[i]]) + (Issued(steps[i + 1..j]) + Issued(steps[j..])), hash);
    if Outcomes(EMPTY, steps)[j].Rotated? { RotatedAgainOnlyIfReissued(EMPTY, steps, i, j); }
  }
}
