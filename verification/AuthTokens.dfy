/** Refresh-token rotation, bulk revocation and access-token validation: the tables of
    auth/repository.py, the flows of auth/service.py, and the checks of auth/dependencies.py. */
module AuthTokens {
  import opened Basics
  import opened Wrappers
  import Redis

  // Times are microseconds since the epoch; periods are seconds.
  function Micros(seconds: int): int { seconds * 1_000_000 }

  /** The whole seconds, rounded down. */
  function WholeSeconds(micros: int): int { micros / 1_000_000 }

  const ACCESS_TTL: int := 900
  const STANDARD_TTL: int := 86_400
  const REMEMBER_TTL: int := 2_592_000
  const GRACE: int := 120

  type UserId = nat
  type TokenId = nat
  type SessionId = nat

  // --- Rows ----------------------------------------------------------------------------

  datatype RefreshToken = RefreshToken(userId: UserId, issuedAt: int, expiresAt: int,
                                       revokedAt: Option<int>, replacedBy: Option<TokenId>)
  {
    predicate IsActive(now: int) { revokedAt.None? && expiresAt > now }
  }

  datatype UserSession = UserSession(userId: UserId, refreshTokenId: TokenId, isActive: bool)

  type Tokens = map<TokenId, RefreshToken>
  type Sessions = map<SessionId, UserSession>

  // --- UPDATE statements ---------------------------------------------------------------

  function Revoked(rows: Tokens, id: TokenId, at: int): Tokens {
    if id in rows then rows[id := rows[id].(revokedAt := Some(at))] else rows
  }

  function RevokedAndLinked(rows: Tokens, id: TokenId, at: int, next: TokenId): Tokens {
    if id in rows then rows[id := rows[id].(revokedAt := Some(at), replacedBy := Some(next))] else rows
  }

  function Unrevoked(rows: Tokens, user: UserId): set<TokenId> {
    set id | id in rows && rows[id].userId == user && rows[id].revokedAt.None?
  }

  function RevokedAll(rows: Tokens, user: UserId, at: int): Tokens {
    map id | id in rows :: if id in Unrevoked(rows, user) then rows[id].(revokedAt := Some(at)) else rows[id]
  }

  /** The same UPDATE, committed later: of the rows inserted before it, those still unrevoked. */
  function RevokedSeen(rows: Tokens, user: UserId, seen: nat, at: int): Tokens {
    map id | id in rows :: if id < seen && id in Unrevoked(rows, user) then rows[id].(revokedAt := Some(at)) else rows[id]
  }

  function Open(rows: Sessions, user: UserId): set<SessionId> {
    set id | id in rows && rows[id].userId == user && rows[id].isActive
  }

  function Deactivated(rows: Sessions, id: SessionId): Sessions {
    if id in rows then rows[id := rows[id].(isActive := false)] else rows
  }

  function DeactivatedAll(rows: Sessions, user: UserId): Sessions {
    map id | id in rows :: if id in Open(rows, user) then rows[id].(isActive := false) else rows[id]
  }

  function DeactivatedSeen(rows: Sessions, user: UserId, seen: nat): Sessions {
    map id | id in rows :: if id < seen && id in Open(rows, user) then rows[id].(isActive := false) else rows[id]
  }

  // --- Repositories --------------------------------------------------------------------

  class RefreshTokenRepository {
    var rows: Tokens

    constructor ()
      ensures rows == map[]
    {
      rows := map[];
    }

    method Create(id: TokenId, user: UserId, issuedAt: int, expiresAt: int)
      requires id !in rows
      modifies this
      ensures rows == old(rows)[id := RefreshToken(user, issuedAt, expiresAt, None, None)]
    {
      rows := rows[id := RefreshToken(user, issuedAt, expiresAt, None, None)];
    }

    method GetByHash(id: TokenId) returns (row: Option<RefreshToken>)
      ensures row == if id in rows then Some(rows[id]) else None
    {
      row := if id in rows then Some(rows[id]) else None;
    }

    method Revoke(id: TokenId, at: int)
      modifies this
      ensures rows == Revoked(old(rows), id, at)
    {
      if id in rows {
        rows := rows[id := rows[id].(revokedAt := Some(at))];
      }
    }

    method RevokeAndLink(id: TokenId, at: int, replacedBy: TokenId)
      modifies this
      ensures rows == RevokedAndLinked(old(rows), id, at, replacedBy)
    {
      if id in rows {
        rows := rows[id := rows[id].(revokedAt := Some(at), replacedBy := Some(replacedBy))];
      }
    }

    method RevokeAllForUser(user: UserId, at: int) returns (count: nat)
      modifies this
      ensures rows == RevokedAll(old(rows), user, at)
      ensures count == |Unrevoked(old(rows), user)| && Unrevoked(rows, user) == {}
    {
      var hit := Unrevoked(rows, user);
      rows := map id | id in rows :: if id in hit then rows[id].(revokedAt := Some(at)) else rows[id];
      count := |hit|;
    }

    method GetActiveForUser(user: UserId, now: int) returns (active: set<TokenId>)
      ensures forall id :: id in active <==> id in rows && rows[id].userId == user && rows[id].IsActive(now)
    {
      active := set id | id in rows && rows[id].userId == user && rows[id].revokedAt.None? && rows[id].expiresAt > now;
    }
  }

  class UserSessionRepository {
    var rows: Sessions

    constructor ()
      ensures rows == map[]
    {
      rows := map[];
    }

    method Create(id: SessionId, user: UserId, token: TokenId)
      requires id !in rows
      modifies this
      ensures rows == old(rows)[id := UserSession(user, token, true)]
    {
      rows := rows[id := UserSession(user, token, true)];
    }

    method Deactivate(id: SessionId)
      modifies this
      ensures rows == Deactivated(old(rows), id)
    {
      if id in rows {
        rows := rows[id := rows[id].(isActive := false)];
      }
    }

    method DeactivateAllForUser(user: UserId) returns (count: nat)
      modifies this
      ensures rows == DeactivatedAll(old(rows), user)
      ensures count == |Open(old(rows), user)| && Open(rows, user) == {}
    {
      var hit := Open(rows, user);
      rows := map id | id in rows :: if id in hit then rows[id].(isActive := false) else rows[id];
      count := |hit|;
    }
  }

  // --- Access tokens -------------------------------------------------------------------

  /** The claims that matter here; iat and exp are whole seconds. */
  datatype AccessToken = AccessToken(sub: UserId, jti: nat, iat: int, exp: int)

  /** `create_access_token`: the issue time is floored to a second. */
  function Mint(user: UserId, jti: nat, now: int, ttl: int): AccessToken {
    AccessToken(user, jti, WholeSeconds(now), WholeSeconds(now) + ttl)
  }

  /** `get_token_remaining_seconds`. */
  function RemainingSeconds(t: AccessToken, now: int): int {
    Max(0, t.exp - WholeSeconds(now))
  }

  datatype Refusal = TokenExpired | TokenRevoked | AccountClosed

  // --- State ---------------------------------------------------------------------------

  /** A refresh that has passed its checks, in a transaction begun at `begunAt`. */
  datatype InFlight = InFlight(token: TokenId, begunAt: int)

  /** A bulk revocation under way, begun at the clock reading `at`. Logout-all sets its Redis key
      before it updates the tables; password reset and change set it after. `seen` bounds the ids
      of the rows its UPDATEs have seen, once they have run; they take effect with its commit. */
  datatype Revocation = Revocation(user: UserId, at: int, keyFirst: bool, keySet: bool, seen: Option<nat>)

  /** The tables, the two Redis key families, the refreshes and revocations in flight, and as
      history: the login each token descends from, the access tokens issued, and, per login, the
      commits that found their token already revoked. */
  datatype Auth = Auth(tokens: Tokens, sessions: Sessions, activeUsers: set<UserId>,
                       revokedBefore: Redis.Store<UserId, int>, blacklist: Redis.Store<nat, int>,
                       inFlight: map<nat, InFlight>, revoking: map<nat, Revocation>, nextId: nat, clock: int,
                       origin: map<TokenId, TokenId>, issued: set<AccessToken>, races: multiset<TokenId>)

  const EMPTY := Auth(map[], map[], {}, map[], map[], map[], map[], 0, 0, map[], {}, multiset{})

  /** `get_current_user`, for a token whose signature and claims are genuine: expiry (section
      4.1.4 of RFC 7519), the blacklist, the bulk revocation time, the account. */
  predicate Accepts(s: Auth, t: AccessToken, now: int) {
    && now < Micros(t.exp)
    && !Redis.Exists(s.blacklist, t.jti, now)
    && PassesBulkCheck(s, t, now)
    && t.sub in s.activeUsers
  }

  predicate PassesBulkCheck(s: Auth, t: AccessToken, now: int) {
    match Redis.Get(s.revokedBefore, t.sub, now)
    case Some(revokedBefore) => Micros(t.iat) > revokedBefore
    case None => true
  }

  // --- Refresh -------------------------------------------------------------------------

  datatype Decision = Rotate | Grace | InvalidRefreshToken | AccountSuspended

  function Abs(n: int): int { if n < 0 then -n else n }

  /** The checks of `refresh`, in their order. */
  function Decide(s: Auth, id: TokenId, now: int): Decision {
    if id !in s.tokens then InvalidRefreshToken
    else
      var row := s.tokens[id];
      if row.revokedAt.Some? then
        if Abs(now - row.revokedAt.value) < Micros(GRACE) && row.userId in s.activeUsers then Grace
        else InvalidRefreshToken
      else if !row.IsActive(now) then InvalidRefreshToken
      else if row.userId !in s.activeUsers then AccountSuspended
      else match Redis.Get(s.revokedBefore, row.userId, now)
        case Some(revokedBefore) => if row.issuedAt <= revokedBefore then InvalidRefreshToken else Rotate
        case None => Rotate
  }

  function Issue(s: Auth, user: UserId, now: int): Auth {
    s.(issued := s.issued + {Mint(user, s.nextId, now, ACCESS_TTL)}, nextId := s.nextId + 1)
  }

  function BeginRefresh(s: Auth, id: TokenId, now: int): Auth {
    match Decide(s, id, now)
    case Rotate => s.(inFlight := s.inFlight[s.nextId := InFlight(id, now)], nextId := s.nextId + 1)
    case Grace => Issue(s, s.tokens[id].userId, now)
    case InvalidRefreshToken => s
    case AccountSuspended => s
  }

  /** The row a refresh begun at `begunAt` inserts in place of `row`. */
  function Successor(row: RefreshToken, begunAt: int): RefreshToken {
    RefreshToken(row.userId, begunAt, row.expiresAt, None, None)
  }

  function LoginOf(s: Auth, id: TokenId): TokenId { if id in s.origin then s.origin[id] else id }

  predicate Committable(s: Auth, request: nat) {
    request in s.inFlight && s.inFlight[request].token in s.tokens
  }

  /** Insert the successor, with the expiry of the token it replaces and the time its
      transaction began; link and revoke the old row whatever has happened to it meanwhile. */
  function Replaced(s: Auth, request: nat, now: int): Auth
    requires Committable(s, request)
  {
    var id, next := s.inFlight[request].token, s.nextId;
    var login := LoginOf(s, id);
    s.(tokens := RevokedAndLinked(s.tokens[next := Successor(s.tokens[id], s.inFlight[request].begunAt)], id, now, next),
       inFlight := s.inFlight - {request},
       nextId := next + 1,
       origin := s.origin[next := login],
       races := if s.tokens[id].revokedAt.Some? then s.races + multiset{login} else s.races)
  }

  function CommitRefresh(s: Auth, request: nat, now: int): Auth {
    if !Committable(s, request) then s
    else Issue(Replaced(s, request, now), s.tokens[s.inFlight[request].token].userId, now)
  }

  // --- Login and logout ----------------------------------------------------------------

  /** With a password, by a teacher or a student whose email is verified or not; or by Google. */
  datatype LoginWay = Password(emailOk: bool, rememberMe: bool) | Google

  /** The Google callback does not look at the account's status. */
  predicate Admits(s: Auth, user: UserId, way: LoginWay) {
    way.Google? || (user in s.activeUsers && way.emailOk)
  }

  function RefreshTtl(way: LoginWay): int {
    if way.Google? || way.rememberMe then REMEMBER_TTL else STANDARD_TTL
  }

  function Login(s: Auth, user: UserId, way: LoginWay, now: int): Auth {
    if !Admits(s, user, way) then s
    else
      var t := s.nextId;
      var expiresAt := now + Micros(RefreshTtl(way));
      Issue(s.(tokens := s.tokens[t := RefreshToken(user, now, expiresAt, None, None)],
               sessions := s.sessions[t + 1 := UserSession(user, t, true)],
               nextId := t + 2, origin := s.origin[t := t]),
            user, now)
  }

  function Blacklisted(s: Auth, t: AccessToken, now: int): Auth {
    var ttl := RemainingSeconds(t, now);
    if ttl > 0 then s.(blacklist := Redis.SetEx(s.blacklist, t.jti, 1, Micros(ttl), now)) else s
  }

  function Logout(s: Auth, t: AccessToken, refresh: Option<TokenId>, session: SessionId, now: int): Auth {
    var s1 := Blacklisted(s, t, now);
    var s2 := if refresh.Some? && refresh.value in s.tokens && s.tokens[refresh.value].revokedAt.None?
              then s1.(tokens := Revoked(s1.tokens, refresh.value, now)) else s1;
    s2.(sessions := Deactivated(s2.sessions, session))
  }

  // --- Revoking everything -----------------------------------------------------------------

  /** Logout-all, password reset and password change read the clock first. */
  function RevokeBegin(s: Auth, user: UserId, keyFirst: bool, now: int): Auth {
    s.(revoking := s.revoking[s.nextId := Revocation(user, now, keyFirst, false, None)], nextId := s.nextId + 1)
  }

  predicate KeyDue(s: Auth, r: nat) {
    r in s.revoking && !s.revoking[r].keySet && (s.revoking[r].keyFirst || s.revoking[r].seen.Some?)
  }

  predicate RowsDue(s: Auth, r: nat) {
    r in s.revoking && s.revoking[r].seen.None? && (s.revoking[r].keyFirst ==> s.revoking[r].keySet)
  }

  predicate CommitDue(s: Auth, r: nat) {
    r in s.revoking && s.revoking[r].keySet && s.revoking[r].seen.Some?
  }

  /** The key is set to the clock reading the revocation began with, its TTL counts from now. */
  function RevokeKey(s: Auth, r: nat, now: int): Auth {
    if !KeyDue(s, r) then s
    else s.(revokedBefore := Redis.SetEx(s.revokedBefore, s.revoking[r].user, s.revoking[r].at, Micros(REMEMBER_TTL), now),
            revoking := s.revoking[r := s.revoking[r].(keySet := true)])
  }

  /** The UPDATEs run; nobody else sees what they do yet. */
  function RevokeRows(s: Auth, r: nat): Auth {
    if !RowsDue(s, r) then s else s.(revoking := s.revoking[r := s.revoking[r].(seen := Some(s.nextId))])
  }

  function RevokeCommit(s: Auth, r: nat): Auth {
    if !CommitDue(s, r) then s
    else
      var x := s.revoking[r];
      s.(tokens := RevokedSeen(s.tokens, x.user, x.seen.value, x.at),
         sessions := DeactivatedSeen(s.sessions, x.user, x.seen.value),
         revoking := s.revoking - {r})
  }

  datatype RevocationStep =
    | ReadClock(user: UserId, keyFirst: bool)
    | SetKey(revocation: nat)
    | UpdateRows(revocation: nat)
    | Commit(revocation: nat)

  function Revoke(s: Auth, step: RevocationStep, now: int): Auth {
    match step
    case ReadClock(user, keyFirst) => RevokeBegin(s, user, keyFirst, now)
    case SetKey(r) => RevokeKey(s, r, now)
    case UpdateRows(r) => RevokeRows(s, r)
    case Commit(r) => RevokeCommit(s, r)
  }

  /** All of it with nothing in between, the Redis commands at `later`. The reset, made without
      an access token, blacklists none. */
  function RevokeEverything(s: Auth, user: UserId, t: Option<AccessToken>, now: int, later: int): Auth {
    s.(tokens := RevokedAll(s.tokens, user, now), sessions := DeactivatedAll(s.sessions, user),
       revokedBefore := Redis.SetEx(s.revokedBefore, user, now, Micros(REMEMBER_TTL), later),
       blacklist := if t.Some? then Blacklisted(s, t.value, later).blacklist else s.blacklist,
       nextId := s.nextId + 1)
  }

  // --- Revoking one session ----------------------------------------------------------------

  /** Revoking one session takes an accepted access token of its owner, and nothing more. */
  predicate MayRevoke(s: Auth, t: AccessToken, session: SessionId, now: int) {
    t in s.issued && Accepts(s, t, now) && session in s.sessions && s.sessions[session].userId == t.sub
  }

  /** The session's refresh token is stamped whether or not it was revoked before. */
  function RevokeSession(s: Auth, t: AccessToken, session: SessionId, now: int): Auth {
    if !MayRevoke(s, t, session, now) then s
    else s.(tokens := Revoked(s.tokens, s.sessions[session].refreshTokenId, now),
            sessions := Deactivated(s.sessions, session))
  }

  // --- Runs ----------------------------------------------------------------------------

  datatype Action =
    | DoLogin(user: UserId, way: LoginWay)
    | DoBegin(token: TokenId)
    | DoCommit(request: nat)
    | DoLogout(access: AccessToken, refresh: Option<TokenId>, session: SessionId)
    | DoBlacklist(access: AccessToken)
    | DoRevoke(step: RevocationStep)
    | DoRevokeSession(access: AccessToken, session: SessionId)
    | DoSetActive(user: UserId, active: bool)

  datatype Event = Event(at: int, action: Action)

  function Act(s: Auth, a: Action, now: int): Auth {
    match a
    case DoLogin(user, way) => Login(s, user, way, now)
    case DoBegin(token) => BeginRefresh(s, token, now)
    case DoCommit(request) => CommitRefresh(s, request, now)
    case DoLogout(access, refresh, session) => Logout(s, access, refresh, session, now)
    case DoBlacklist(access) => Blacklisted(s, access, now)
    case DoRevoke(step) => Revoke(s, step, now)
    case DoRevokeSession(access, session) => RevokeSession(s, access, session, now)
    case DoSetActive(user, active) => s.(activeUsers := if active then s.activeUsers + {user} else s.activeUsers - {user})
  }

  function Step(s: Auth, e: Event): Auth { Act(s.(clock := e.at), e.action, e.at) }

  function Exec(s: Auth, run: seq<Event>): Auth
    decreases |run|
  {
    if run == [] then s else Exec(Step(s, run[0]), run[1..])
  }

  /** The clock does not go back. */
  ghost predicate Timed(clock: int, run: seq<Event>)
    decreases |run|
  {
    run == [] || (clock <= run[0].at && Timed(run[0].at, run[1..]))
  }

  // --- The service ---------------------------------------------------------------------

  class AuthService {
    const rtRepo: RefreshTokenRepository
    const sessionRepo: UserSessionRepository
    var activeUsers: set<UserId>
    var revokedBefore: Redis.Store<UserId, int>
    var blacklist: Redis.Store<nat, int>
    var inFlight: map<nat, InFlight>
    ghost var revoking: map<nat, Revocation>
    var nextId: nat
    ghost var clock: int
    ghost var origin: map<TokenId, TokenId>
    ghost var issued: set<AccessToken>
    ghost var races: multiset<TokenId>

    ghost function Now(): Auth
      reads this, rtRepo, sessionRepo
    {
      Auth(rtRepo.rows, sessionRepo.rows, activeUsers, revokedBefore, blacklist, inFlight, revoking, nextId, clock, origin, issued, races)
    }

    ghost predicate FreshIds()
      reads this, rtRepo, sessionRepo
    {
      forall id :: id in rtRepo.rows || id in sessionRepo.rows ==> id < nextId
    }

    constructor ()
      ensures Now() == EMPTY && FreshIds() && fresh(rtRepo) && fresh(sessionRepo)
    {
      rtRepo := new RefreshTokenRepository();
      sessionRepo := new UserSessionRepository();
      activeUsers, revokedBefore, blacklist, inFlight, nextId := {}, map[], map[], map[], 0;
      revoking, clock, origin, issued, races := map[], 0, map[], {}, multiset{};
    }

    method IssueAccess(user: UserId, now: int) returns (t: AccessToken)
      modifies this
      ensures Now() == Issue(old(Now()), user, now) && t in issued && t.sub == user
    {
      t := Mint(user, nextId, now, ACCESS_TTL);
      issued := issued + {t};
      nextId := nextId + 1;
    }

    method LogIn(user: UserId, way: LoginWay, now: int) returns (t: Option<AccessToken>)
      requires FreshIds()
      modifies this, rtRepo, sessionRepo
      ensures Now() == Login(old(Now()), user, way, now) && FreshIds()
      ensures t.Some? <==> Admits(old(Now()), user, way)
      ensures t.Some? ==> t.value.sub == user && t.value in issued
    {
      if way.Password? {
        if user !in activeUsers {
          return None;
        }
        if !way.emailOk {
          return None;
        }
      }
      var id := nextId;
      var ttl := if way.Google? || way.rememberMe then REMEMBER_TTL else STANDARD_TTL;
      rtRepo.Create(id, user, now, now + Micros(ttl));
      sessionRepo.Create(id + 1, user, id);
      nextId := id + 2;
      origin := origin[id := id];
      var access := IssueAccess(user, now);
      t := Some(access);
    }

    /** `get_current_user`, in the order of its checks. */
    method GetCurrentUser(t: AccessToken, now: int) returns (error: Option<Refusal>)
      ensures error.None? <==> Accepts(Now(), t, now)
      ensures error == Some(TokenExpired) <==> now >= 1_000_000 * t.exp
      ensures error == Some(AccountClosed) <==>
                now < 1_000_000 * t.exp && !Redis.Exists(blacklist, t.jti, now) && PassesBulkCheck(Now(), t, now) && t.sub !in activeUsers
    {
      if now >= Micros(t.exp) {
        return Some(TokenExpired);
      }
      if Redis.Exists(blacklist, t.jti, now) {
        return Some(TokenRevoked);
      }
      var bulk := Redis.Get(revokedBefore, t.sub, now);
      if bulk.Some? && Micros(t.iat) <= bulk.value {
        return Some(TokenRevoked);
      }
      error := if t.sub in activeUsers then None else Some(AccountClosed);
    }

    /** The lookups and checks of `refresh`, up to the first write. */
    method RefreshBegin(id: TokenId, now: int) returns (d: Decision)
      requires FreshIds()
      modifies this
      ensures d == Decide(old(Now()), id, now)
      ensures Now() == BeginRefresh(old(Now()), id, now) && FreshIds()
    {
      var found := rtRepo.GetByHash(id);
      if found.None? {
        return InvalidRefreshToken;
      }
      var row := found.value;
      if row.revokedAt.Some? {
        if Abs(now - row.revokedAt.value) < Micros(GRACE) && row.userId in activeUsers {
          var _ := IssueAccess(row.userId, now);
          return Grace;
        }
        return InvalidRefreshToken;
      }
      if !row.IsActive(now) {
        return InvalidRefreshToken;
      }
      if row.userId !in activeUsers {
        return AccountSuspended;
      }
      var bulk := Redis.Get(revokedBefore, row.userId, now);
      if bulk.Some? && row.issuedAt <= bulk.value {
        return InvalidRefreshToken;
      }
      inFlight := inFlight[nextId := InFlight(id, now)];
      nextId := nextId + 1;
      return Rotate;
    }

    /** The writes of `refresh` to the token table. */
    method ReplaceToken(request: nat, now: int)
      requires FreshIds() && Committable(Now(), request)
      modifies this, rtRepo
      ensures Now() == Replaced(old(Now()), request, now) && FreshIds()
    {
      var id, next := inFlight[request].token, nextId;
      var row := rtRepo.rows[id];
      ghost var login, expected := LoginOf(Now(), id), Replaced(Now(), request, now);
      rtRepo.Create(next, row.userId, inFlight[request].begunAt, row.expiresAt);
      rtRepo.RevokeAndLink(id, now, next);
      assert rtRepo.rows == expected.tokens;
      inFlight := inFlight - {request};
      nextId := next + 1;
      origin := origin[next := login];
      if row.revokedAt.Some? {
        races := races + multiset{login};
      }
    }

    method RefreshCommit(request: nat, now: int)
      requires FreshIds() && Committable(Now(), request)
      modifies this, rtRepo
      ensures Now() == CommitRefresh(old(Now()), request, now) && FreshIds()
    {
      var user := rtRepo.rows[inFlight[request].token].userId;
      ReplaceToken(request, now);
      var _ := IssueAccess(user, now);
    }

    method BlacklistAccess(t: AccessToken, now: int)
      modifies this
      ensures Now() == Blacklisted(old(Now()), t, now)
    {
      var ttl := RemainingSeconds(t, now);
      if ttl > 0 {
        blacklist := Redis.SetEx(blacklist, t.jti, 1, Micros(ttl), now);
      }
    }

    method LogOut(t: AccessToken, refresh: Option<TokenId>, session: SessionId, now: int)
      requires FreshIds()
      modifies this, rtRepo, sessionRepo
      ensures Now() == Logout(old(Now()), t, refresh, session, now) && FreshIds()
    {
      BlacklistAccess(t, now);
      if refresh.Some? {
        var found := rtRepo.GetByHash(refresh.value);
        if found.Some? && found.value.revokedAt.None? {
          rtRepo.Revoke(refresh.value, now);
        }
      }
      sessionRepo.Deactivate(session);
    }

    /** `revoke_session`, for a caller whose access token is genuine. */
    method RevokeOneSession(t: AccessToken, session: SessionId, now: int) returns (done: bool)
      requires FreshIds() && t in issued
      modifies this, rtRepo, sessionRepo
      ensures Now() == RevokeSession(old(Now()), t, session, now) && FreshIds()
      ensures done <==> MayRevoke(old(Now()), t, session, now)
    {
      var error := GetCurrentUser(t, now);
      if error.Some? || session !in sessionRepo.rows || sessionRepo.rows[session].userId != t.sub {
        return false;
      }
      var token := sessionRepo.rows[session].refreshTokenId;
      sessionRepo.Deactivate(session);
      rtRepo.Revoke(token, now);
      done := true;
    }

    /** `logout_all`, with nothing in between. */
    method LogOutAll(user: UserId, t: AccessToken, now: int, later: int) returns (sessionsRevoked: nat)
      requires FreshIds()
      modifies this, rtRepo, sessionRepo
      ensures Now() == RevokeEverything(old(Now()), user, Some(t), now, later) && FreshIds()
      ensures sessionsRevoked == |Open(old(sessionRepo.rows), user)|
    {
      nextId := nextId + 1;
      BlacklistAccess(t, later);
      revokedBefore := Redis.SetEx(revokedBefore, user, now, Micros(REMEMBER_TTL), later);
      var _ := rtRepo.RevokeAllForUser(user, now);
      sessionsRevoked := sessionRepo.DeactivateAllForUser(user);
    }

    /** What `reset_password` and `change_password` do after the new password is stored. */
    method RevokeAfterPassword(user: UserId, current: Option<AccessToken>, now: int, later: int)
      requires FreshIds()
      modifies this, rtRepo, sessionRepo
      ensures Now() == RevokeEverything(old(Now()), user, current, now, later) && FreshIds()
    {
      nextId := nextId + 1;
      var _ := rtRepo.RevokeAllForUser(user, now);
      var _ := sessionRepo.DeactivateAllForUser(user);
      revokedBefore := Redis.SetEx(revokedBefore, user, now, Micros(REMEMBER_TTL), later);
      if current.Some? {
        BlacklistAccess(current.value, later);
      }
    }
  }
}
