/** What the token flows keep over every run, refreshes of the same token overlapping freely:
    rotation chains, revoked rows, and the sessions of each login. */
module AuthRuns {
  import opened Basics
  import opened Wrappers
  import opened AuthTokens
  import Redis

  type Origins = map<TokenId, TokenId>

  // --- The invariant -------------------------------------------------------------------

  /** Two rows of one rotation chain. */
  predicate Kin(a: RefreshToken, b: RefreshToken) {
    a.userId == b.userId && a.expiresAt == b.expiresAt
  }

  ghost predicate RowOk(row: RefreshToken, clock: int) {
    && row.issuedAt <= clock
    && row.expiresAt <= row.issuedAt + Micros(REMEMBER_TTL)
    && (row.revokedAt.Some? ==> row.revokedAt.value <= clock)
    && (row.replacedBy.Some? ==> row.revokedAt.Some?)
  }

  /** A link leads to a later token of the same login. */
  ghost predicate LinkOk(tokens: Tokens, origin: Origins, t: TokenId)
    requires t in tokens
  {
    tokens[t].replacedBy.Some? ==>
      var n := tokens[t].replacedBy.value;
      && t < n && n in tokens && Kin(tokens[t], tokens[n])
      && t in origin && n in origin && origin[t] == origin[n]
  }

  /** Every token inherits user and expiry from the login it descends from. */
  ghost predicate OriginOk(tokens: Tokens, origin: Origins, t: TokenId)
    requires t in tokens
  {
    t in origin && origin[t] in tokens && Kin(tokens[t], tokens[origin[t]])
  }

  ghost predicate RowsOk(tokens: Tokens, origin: Origins, nextId: nat, clock: int) {
    && origin.Keys == tokens.Keys
    && (forall t :: t in tokens ==> t < nextId && RowOk(tokens[t], clock))
    && (forall t {:trigger LinkOk(tokens, origin, t)} :: t in tokens ==> LinkOk(tokens, origin, t))
    && (forall t {:trigger OriginOk(tokens, origin, t)} :: t in tokens ==> OriginOk(tokens, origin, t))
  }

  function LiveIn(tokens: Tokens, origin: Origins, login: TokenId): set<TokenId> {
    set t | t in tokens && t in origin && origin[t] == login && tokens[t].revokedAt.None?
  }

  /** At most one unrevoked token per login, and one more for each race that login has seen. */
  ghost predicate LiveOk(tokens: Tokens, origin: Origins, races: multiset<TokenId>) {
    forall o: TokenId :: |LiveIn(tokens, origin, o)| <= 1 + races[o]
  }

  ghost predicate FlightsOk(s: Auth) {
    forall r :: r in s.inFlight ==>
      var f := s.inFlight[r];
      f.token in s.tokens && s.tokens[f.token].issuedAt <= f.begunAt <= s.clock
  }

  ghost predicate RevokingOk(revoking: map<nat, Revocation>, nextId: nat, clock: int) {
    forall r :: r in revoking ==>
      r < nextId && revoking[r].at <= clock && (revoking[r].seen.Some? ==> revoking[r].seen.value <= nextId)
  }

  ghost predicate IssuedOk(issued: set<AccessToken>, clock: int) {
    forall a :: a in issued ==> a.exp == a.iat + ACCESS_TTL && Micros(a.iat) <= clock
  }

  ghost predicate Sound(s: Auth) {
    && RowsOk(s.tokens, s.origin, s.nextId, s.clock)
    && LiveOk(s.tokens, s.origin, s.races)
    && FlightsOk(s)
    && RevokingOk(s.revoking, s.nextId, s.clock)
    && IssuedOk(s.issued, s.clock)
  }

  // --- Each action keeps it ------------------------------------------------------------

  lemma FloorBelow(now: int)
    ensures Micros(WholeSeconds(now)) <= now < Micros(WholeSeconds(now) + 1)
  {
  }

  lemma ClockForward(s: Auth, now: int)
    requires Sound(s) && s.clock <= now
    ensures Sound(s.(clock := now))
  {
  }

  lemma BeginFrame(s: Auth, id: TokenId, now: int)
    ensures var s' := BeginRefresh(s, id, now);
            && s' == s.(issued := s'.issued, inFlight := s'.inFlight, nextId := s'.nextId)
            && s.nextId <= s'.nextId
            && (s'.inFlight == s.inFlight || (id in s.tokens && s'.inFlight == s.inFlight[s.nextId := InFlight(id, now)]))
            && (s'.issued == s.issued || (id in s.tokens && s'.issued == Issue(s, s.tokens[id].userId, now).issued))
  {
    match Decide(s, id, now) {
      case Rotate => assert id in s.tokens;
      case Grace => assert id in s.tokens;
      case _ =>
    }
  }

  lemma BeginKeeps(s: Auth, id: TokenId, now: int)
    requires Sound(s) && s.clock == now
    ensures Sound(BeginRefresh(s, id, now))
  {
    BeginFrame(s, id, now);
    var s' := BeginRefresh(s, id, now);
    assert RowsOk(s'.tokens, s'.origin, s'.nextId, now);
    assert FlightsOk(s');
  }

  /** Adding the row `t` to the tables, a login of its own or the successor of `parent`. */
  lemma AddRow(tokens: Tokens, origin: Origins, nextId: nat, clock: int, t: TokenId, row: RefreshToken, login: TokenId)
    requires RowsOk(tokens, origin, nextId, clock) && t == nextId
    requires RowOk(row, clock) && row.replacedBy.None?
    requires login == t || (login in tokens && Kin(row, tokens[login]))
    ensures RowsOk(tokens[t := row], origin[t := login], nextId + 1, clock)
  {
    var tokens', origin' := tokens[t := row], origin[t := login];
    assert t !in tokens;
    forall u | u in tokens'
      ensures u < nextId + 1 && RowOk(tokens'[u], clock) && LinkOk(tokens', origin', u) && OriginOk(tokens', origin', u)
    {
      if u != t {
        assert LinkOk(tokens, origin, u) && OriginOk(tokens, origin, u);
      }
    }
  }

  /** The same rows, up to revocation and link. */
  ghost predicate SameKin(tokens: Tokens, tokens': Tokens) {
    && tokens'.Keys == tokens.Keys
    && forall t :: t in tokens ==> Kin(tokens[t], tokens'[t]) && tokens'[t].issuedAt == tokens[t].issuedAt
  }

  lemma KinRows(tokens: Tokens, tokens': Tokens, origin: Origins, nextId: nat, clock: int)
    requires RowsOk(tokens, origin, nextId, clock) && SameKin(tokens, tokens')
    requires forall t :: t in tokens' ==> RowOk(tokens'[t], clock)
    requires forall t {:trigger LinkOk(tokens', origin, t)} ::
               t in tokens' ==> tokens'[t].replacedBy == tokens[t].replacedBy || LinkOk(tokens', origin, t)
    ensures RowsOk(tokens', origin, nextId, clock)
  {
    forall t {:trigger OriginOk(tokens', origin, t)} | t in tokens' ensures OriginOk(tokens', origin, t) {
      assert OriginOk(tokens, origin, t);
    }
    forall t {:trigger LinkOk(tokens', origin, t)} | t in tokens' ensures LinkOk(tokens', origin, t) {
      assert LinkOk(tokens, origin, t);
    }
  }

  /** Revoking one row, linked as before or to a later token of its login. */
  lemma ReviseRow(tokens: Tokens, origin: Origins, nextId: nat, clock: int, t: TokenId, row: RefreshToken)
    requires RowsOk(tokens, origin, nextId, clock) && t in tokens
    requires row == tokens[t].(revokedAt := Some(clock), replacedBy := row.replacedBy)
    requires row.replacedBy == tokens[t].replacedBy || LinkOk(tokens[t := row], origin, t)
    ensures RowsOk(tokens[t := row], origin, nextId, clock)
  {
    KinRows(tokens, tokens[t := row], origin, nextId, clock);
  }

  lemma ReviseSeen(tokens: Tokens, origin: Origins, nextId: nat, clock: int, user: UserId, seen: nat, at: int)
    requires RowsOk(tokens, origin, nextId, clock) && at <= clock
    ensures RowsOk(RevokedSeen(tokens, user, seen, at), origin, nextId, clock)
  {
    KinRows(tokens, RevokedSeen(tokens, user, seen, at), origin, nextId, clock);
  }

  lemma LiveRevoke(tokens: Tokens, origin: Origins, t: TokenId, row: RefreshToken, o: TokenId)
    requires t in tokens && row.revokedAt.Some?
    ensures LiveIn(tokens[t := row], origin, o) == LiveIn(tokens, origin, o) - {t}
  {
  }

  /** Nothing descends from a login that has not happened yet. */
  lemma NoOrphans(s: Auth, t: TokenId)
    requires RowsOk(s.tokens, s.origin, s.nextId, s.clock) && t !in s.tokens
    ensures LiveIn(s.tokens, s.origin, t) == {}
  {
    forall u | u in s.tokens ensures s.origin[u] != t {
      assert OriginOk(s.tokens, s.origin, u);
    }
  }

  /** A login starts a chain of its own. */
  lemma LoginLive(s: Auth, user: UserId, way: LoginWay, now: int, o: TokenId)
    requires RowsOk(s.tokens, s.origin, s.nextId, s.clock)
    ensures var s' := Login(s, user, way, now);
            LiveIn(s'.tokens, s'.origin, o) ==
            if Admits(s, user, way) && o == s.nextId then {o} else LiveIn(s.tokens, s.origin, o)
  {
    if Admits(s, user, way) {
      NoOrphans(s, s.nextId);
    }
  }

  lemma LoginKeeps(s: Auth, user: UserId, way: LoginWay, now: int)
    requires Sound(s) && s.clock == now
    ensures Sound(Login(s, user, way, now))
  {
    if Admits(s, user, way) {
      var t, s' := s.nextId, Login(s, user, way, now);
      AddRow(s.tokens, s.origin, t, now, t, s'.tokens[t], t);
      forall o: TokenId ensures |LiveIn(s'.tokens, s'.origin, o)| <= 1 + s'.races[o] {
        LoginLive(s, user, way, now, o);
      }
    }
  }

  lemma CommitFrame(s: Auth, request: nat, now: int)
    requires Committable(s, request)
    ensures var s', r := CommitRefresh(s, request, now), Replaced(s, request, now);
            && s' == r.(issued := s'.issued, nextId := r.nextId + 1)
            && s'.issued == Issue(r, s.tokens[s.inFlight[request].token].userId, now).issued
            && r == s.(tokens := r.tokens, inFlight := s.inFlight - {request}, nextId := s.nextId + 1,
                       origin := r.origin, races := r.races)
  {
  }

  /** The rows after token `id` has been replaced by `next`. */
  lemma SuccessionRows(tokens: Tokens, origin: Origins, next: TokenId, clock: int, id: TokenId, begunAt: int)
    requires RowsOk(tokens, origin, next, clock) && id in tokens && tokens[id].issuedAt <= begunAt <= clock
    ensures RowsOk(RevokedAndLinked(tokens[next := Successor(tokens[id], begunAt)], id, clock, next),
                   origin[next := origin[id]], next + 1, clock)
  {
    var successor := Successor(tokens[id], begunAt);
    var added, origin' := tokens[next := successor], origin[next := origin[id]];
    assert OriginOk(tokens, origin, id);
    AddRow(tokens, origin, next, clock, next, successor, origin[id]);
    ReviseRow(added, origin', next + 1, clock, id, tokens[id].(revokedAt := Some(clock), replacedBy := Some(next)));
  }

  lemma CommitRows(s: Auth, request: nat, now: int)
    requires RowsOk(s.tokens, s.origin, s.nextId, now) && FlightsOk(s) && s.clock == now && Committable(s, request)
    ensures var s' := CommitRefresh(s, request, now);
            RowsOk(s'.tokens, s'.origin, s'.nextId, now)
  {
    var s', id := CommitRefresh(s, request, now), s.inFlight[request].token;
    SuccessionRows(s.tokens, s.origin, s.nextId, now, id, s.inFlight[request].begunAt);
  }

  lemma SuccessionLive(tokens: Tokens, origin: Origins, next: TokenId, clock: int, id: TokenId, begunAt: int, o: TokenId)
    requires origin.Keys == tokens.Keys && id in tokens && next !in tokens
    ensures var live := LiveIn(tokens, origin, o);
            LiveIn(RevokedAndLinked(tokens[next := Successor(tokens[id], begunAt)], id, clock, next), origin[next := origin[id]], o) ==
            (if o == origin[id] then live + {next} else live) - {id}
  {
    var successor := Successor(tokens[id], begunAt);
    LiveRevoke(tokens[next := successor], origin[next := origin[id]], id,
               tokens[id].(revokedAt := Some(clock), replacedBy := Some(next)), o);
  }

  /** A commit adds one unrevoked token to the chain and takes its predecessor out of it, if
      that was still unrevoked; if it was not, the commit has raced another write. */
  lemma CommitCounts(s: Auth, request: nat, now: int, o: TokenId)
    requires s.origin.Keys == s.tokens.Keys && s.nextId !in s.tokens && Committable(s, request)
    ensures var s', id := CommitRefresh(s, request, now), s.inFlight[request].token;
            var raced := if o == s.origin[id] && s.tokens[id].revokedAt.Some? then 1 else 0;
            && |LiveIn(s'.tokens, s'.origin, o)| == |LiveIn(s.tokens, s.origin, o)| + raced
            && s'.races[o] == s.races[o] + raced
  {
    var id, n := s.inFlight[request].token, s.nextId;
    var live := LiveIn(s.tokens, s.origin, o);
    SuccessionLive(s.tokens, s.origin, n, now, id, s.inFlight[request].begunAt, o);
    assert n !in live && id != n;
    assert id in live <==> o == s.origin[id] && s.tokens[id].revokedAt.None?;
  }

  lemma CommitLive(s: Auth, request: nat, now: int)
    requires LiveOk(s.tokens, s.origin, s.races)
    requires s.origin.Keys == s.tokens.Keys && s.nextId !in s.tokens && Committable(s, request)
    ensures var s' := CommitRefresh(s, request, now);
            LiveOk(s'.tokens, s'.origin, s'.races)
  {
    var s' := CommitRefresh(s, request, now);
    forall o: TokenId ensures |LiveIn(s'.tokens, s'.origin, o)| <= 1 + s'.races[o] {
      CommitCounts(s, request, now, o);
    }
  }

  lemma CommitKeeps(s: Auth, request: nat, now: int)
    requires Sound(s) && s.clock == now
    ensures Sound(CommitRefresh(s, request, now))
  {
    if Committable(s, request) {
      CommitFrame(s, request, now);
      CommitLive(s, request, now);
      CommitRows(s, request, now);
    }
  }

  lemma RevokeOneLive(s: Auth, id: TokenId, now: int)
    requires LiveOk(s.tokens, s.origin, s.races)
    ensures LiveOk(Revoked(s.tokens, id, now), s.origin, s.races)
  {
    forall o: TokenId ensures |LiveIn(Revoked(s.tokens, id, now), s.origin, o)| <= 1 + s.races[o] {
      SubsetSize(LiveIn(Revoked(s.tokens, id, now), s.origin, o), LiveIn(s.tokens, s.origin, o));
    }
  }

  lemma RevokeSeenLive(s: Auth, user: UserId, seen: nat, at: int)
    requires LiveOk(s.tokens, s.origin, s.races)
    ensures LiveOk(RevokedSeen(s.tokens, user, seen, at), s.origin, s.races)
  {
    forall o: TokenId ensures |LiveIn(RevokedSeen(s.tokens, user, seen, at), s.origin, o)| <= 1 + s.races[o] {
      SubsetSize(LiveIn(RevokedSeen(s.tokens, user, seen, at), s.origin, o), LiveIn(s.tokens, s.origin, o));
    }
  }

  /** What every action but a login, a refresh and the start of a revocation leaves alone. */
  predicate SameBut(s: Auth, s': Auth) {
    s' == s.(tokens := s'.tokens, sessions := s'.sessions, blacklist := s'.blacklist, revokedBefore := s'.revokedBefore,
             revoking := s'.revoking)
  }

  lemma BlacklistFrame(s: Auth, t: AccessToken, now: int)
    ensures var s' := Blacklisted(s, t, now);
            s' == s.(blacklist := s'.blacklist)
  {
  }

  lemma LogoutFrame(s: Auth, t: AccessToken, refresh: Option<TokenId>, session: SessionId, now: int)
    ensures var s' := Logout(s, t, refresh, session, now);
            && s' == s.(tokens := s'.tokens, sessions := s'.sessions, blacklist := s'.blacklist)
            && s'.blacklist == Blacklisted(s, t, now).blacklist && s'.sessions == Deactivated(s.sessions, session)
            && s'.tokens == if refresh.Some? && refresh.value in s.tokens && s.tokens[refresh.value].revokedAt.None?
                            then Revoked(s.tokens, refresh.value, now) else s.tokens
  {
    BlacklistFrame(s, t, now);
  }

  /** At most one row revoked, by a logout or by revoking its session. */
  lemma RevokeOneKeeps(s: Auth, s': Auth, id: TokenId, now: int)
    requires Sound(s) && s.clock == now
    requires SameBut(s, s') && s'.revoking == s.revoking
    requires s'.tokens == s.tokens || s'.tokens == Revoked(s.tokens, id, now)
    ensures Sound(s')
  {
    if s'.tokens != s.tokens {
      ReviseRow(s.tokens, s.origin, s.nextId, now, id, s.tokens[id].(revokedAt := Some(now)));
      RevokeOneLive(s, id, now);
    }
  }

  lemma RevokeSessionFrame(s: Auth, t: AccessToken, session: SessionId, now: int)
    ensures var s' := RevokeSession(s, t, session, now);
            && s' == s.(tokens := s'.tokens, sessions := s'.sessions)
            && (if MayRevoke(s, t, session, now)
                then s'.tokens == Revoked(s.tokens, s.sessions[session].refreshTokenId, now) && s'.sessions == Deactivated(s.sessions, session)
                else s'.tokens == s.tokens && s'.sessions == s.sessions)
  {
  }

  lemma RevokeSessionKeeps(s: Auth, t: AccessToken, session: SessionId, now: int)
    requires Sound(s) && s.clock == now
    ensures Sound(RevokeSession(s, t, session, now))
  {
    RevokeSessionFrame(s, t, session, now);
    if session in s.sessions {
      RevokeOneKeeps(s, RevokeSession(s, t, session, now), s.sessions[session].refreshTokenId, now);
    }
  }

  lemma RevokeKeyFrame(s: Auth, r: nat, now: int)
    ensures var s' := RevokeKey(s, r, now);
            && s' == s.(revokedBefore := s'.revokedBefore, revoking := s'.revoking)
            && (if KeyDue(s, r)
                then s'.revoking == s.revoking[r := s.revoking[r].(keySet := true)] &&
                     s'.revokedBefore == Redis.SetEx(s.revokedBefore, s.revoking[r].user, s.revoking[r].at, Micros(REMEMBER_TTL), now)
                else s' == s)
  {
  }

  lemma RevokeCommitFrame(s: Auth, r: nat)
    ensures var s' := RevokeCommit(s, r);
            && s' == s.(tokens := s'.tokens, sessions := s'.sessions, revoking := s'.revoking)
            && (if CommitDue(s, r)
                then var x := s.revoking[r];
                     s'.tokens == RevokedSeen(s.tokens, x.user, x.seen.value, x.at) &&
                     s'.sessions == DeactivatedSeen(s.sessions, x.user, x.seen.value) && s'.revoking == s.revoking - {r}
                else s' == s)
  {
  }

  lemma RevokeCommitKeeps(s: Auth, r: nat)
    requires Sound(s)
    ensures Sound(RevokeCommit(s, r))
  {
    RevokeCommitFrame(s, r);
    if CommitDue(s, r) {
      var x := s.revoking[r];
      ReviseSeen(s.tokens, s.origin, s.nextId, s.clock, x.user, x.seen.value, x.at);
      RevokeSeenLive(s, x.user, x.seen.value, x.at);
    }
  }

  /** What a step of a revocation leaves alone, and that it only ever closes what is open. */
  lemma RevokeFrame(s: Auth, step: RevocationStep, now: int)
    ensures var s' := Revoke(s, step, now);
            && s' == s.(tokens := s'.tokens, sessions := s'.sessions, revokedBefore := s'.revokedBefore,
                        revoking := s'.revoking, nextId := s'.nextId)
            && s.nextId <= s'.nextId
            && (!step.Commit? ==> s'.tokens == s.tokens && s'.sessions == s.sessions)
            && (!step.SetKey? ==> s'.revokedBefore == s.revokedBefore)
            && SameKin(s.tokens, s'.tokens) && s'.sessions.Keys == s.sessions.Keys
            && (forall t :: t in s.tokens && s.tokens[t].revokedAt.Some? ==> s'.tokens[t] == s.tokens[t])
            && (forall i :: i in s.sessions ==>
                  s'.sessions[i] == s.sessions[i] || s'.sessions[i] == s.sessions[i].(isActive := false))
  {
    match step {
      case SetKey(r) => RevokeKeyFrame(s, r, now);
      case Commit(r) => RevokeCommitFrame(s, r);
      case _ =>
    }
  }

  lemma RevokeKeeps(s: Auth, step: RevocationStep, now: int)
    requires Sound(s) && s.clock == now
    ensures Sound(Revoke(s, step, now))
  {
    match step {
      case SetKey(r) =>
        RevokeKeyFrame(s, r, now);
      case Commit(r) => RevokeCommitKeeps(s, r);
      case _ =>
    }
  }

  lemma LogoutKeeps(s: Auth, t: AccessToken, refresh: Option<TokenId>, session: SessionId, now: int)
    requires Sound(s) && s.clock == now
    ensures Sound(Logout(s, t, refresh, session, now))
  {
    LogoutFrame(s, t, refresh, session, now);
    RevokeOneKeeps(s, Logout(s, t, refresh, session, now), if refresh.Some? then refresh.value else 0, now);
  }

  lemma BlacklistKeeps(s: Auth, t: AccessToken, now: int)
    requires Sound(s)
    ensures Sound(Blacklisted(s, t, now))
  {
    BlacklistFrame(s, t, now);
  }

  lemma AccountsKeep(s: Auth, active: set<UserId>)
    requires Sound(s)
    ensures Sound(s.(activeUsers := active))
  {
  }

  lemma RefreshActKeeps(s: Auth, a: Action, now: int)
    requires Sound(s) && s.clock == now && (a.DoLogin? || a.DoBegin? || a.DoCommit?)
    ensures Sound(Act(s, a, now))
  {
    match a {
      case DoLogin(user, way) => LoginKeeps(s, user, way, now);
      case DoBegin(token) => BeginKeeps(s, token, now);
      case DoCommit(request) => CommitKeeps(s, request, now);
    }
  }

  lemma ActKeeps(s: Auth, a: Action, now: int)
    requires Sound(s) && s.clock == now
    ensures Sound(Act(s, a, now))
  {
    match a {
      case DoLogout(access, refresh, session) => LogoutKeeps(s, access, refresh, session, now);
      case DoBlacklist(access) => BlacklistKeeps(s, access, now);
      case DoRevoke(step) => RevokeKeeps(s, step, now);
      case DoRevokeSession(access, session) => RevokeSessionKeeps(s, access, session, now);
      case DoSetActive(user, active) => AccountsKeep(s, if active then s.activeUsers + {user} else s.activeUsers - {user});
      case _ => RefreshActKeeps(s, a, now);
    }
  }

  lemma StepKeeps(s: Auth, e: Event)
    requires Sound(s) && s.clock <= e.at
    ensures Sound(Step(s, e))
  {
    ClockForward(s, e.at);
    ActKeeps(s.(clock := e.at), e.action, e.at);
  }

  lemma {:induction false} RunKeeps(s: Auth, run: seq<Event>)
    requires Sound(s) && Timed(s.clock, run)
    ensures Sound(Exec(s, run)) && s.clock <= Exec(s, run).clock
    decreases |run|
  {
    if run != [] {
      StepKeeps(s, run[0]);
      StepClock(s, run[0]);
      RunKeeps(Step(s, run[0]), run[1..]);
    }
  }

  lemma ActClock(s: Auth, a: Action, now: int)
    ensures Act(s, a, now).clock == s.clock
  {
    match a {
      case DoBegin(token) => BeginFrame(s, token, now);
      case DoLogout(access, refresh, session) => LogoutFrame(s, access, refresh, session, now);
      case DoBlacklist(access) => BlacklistFrame(s, access, now);
      case DoRevoke(step) => RevokeFrame(s, step, now);
      case DoRevokeSession(access, session) => RevokeSessionFrame(s, access, session, now);
      case _ =>
    }
  }

  lemma StepClock(s: Auth, e: Event)
    ensures Step(s, e).clock == e.at
  {
    ActClock(s.(clock := e.at), e.action, e.at);
  }

  lemma EmptyOk()
    ensures Sound(EMPTY)
  {
    assert forall o: TokenId :: LiveIn(EMPTY.tokens, EMPTY.origin, o) == {};
  }

  /** As much of the invariant as several lemmas need. */
  ghost predicate Fit(s: Auth) {
    s.nextId !in s.tokens && forall r :: r in s.inFlight ==> s.inFlight[r].token in s.tokens
  }

  // --- Rotation chains -----------------------------------------------------------------

  /** The token reached from `t` after `n` replacements. */
  function Walk(tokens: Tokens, t: TokenId, n: nat): Option<TokenId>
    decreases n
  {
    if n == 0 then Some(t)
    else if t !in tokens || tokens[t].replacedBy.None? then None
    else Walk(tokens, tokens[t].replacedBy.value, n - 1)
  }

  lemma {:induction false} WalkClimbs(s: Auth, t: TokenId, n: nat)
    requires Sound(s) && t in s.tokens && Walk(s.tokens, t, n).Some?
    ensures var u := Walk(s.tokens, t, n).value;
            u in s.tokens && (n > 0 ==> t < u) && Kin(s.tokens[t], s.tokens[u]) && s.origin[t] == s.origin[u]
    decreases n
  {
    if n > 0 {
      assert LinkOk(s.tokens, s.origin, t);
      WalkClimbs(s, s.tokens[t].replacedBy.value, n - 1);
    }
  }

  /** Following `replaced_by` never comes back to a token already seen, stays within one user
      and one login, and never extends the expiry that login was given. */
  lemma ChainsAreAcyclic(run: seq<Event>, t: TokenId, n: nat)
    requires Timed(0, run) && t in Exec(EMPTY, run).tokens && n > 0
    ensures var s := Exec(EMPTY, run);
            var u := Walk(s.tokens, t, n);
            u.Some? ==> u.value != t && u.value in s.tokens
                        && s.tokens[u.value].userId == s.tokens[t].userId
                        && s.tokens[u.value].expiresAt == s.tokens[t].expiresAt
  {
    EmptyOk();
    RunKeeps(EMPTY, run);
    if Walk(Exec(EMPTY, run).tokens, t, n).Some? {
      WalkClimbs(Exec(EMPTY, run), t, n);
    }
  }

  /** A login's chain holds at most one unrevoked token, plus one for each commit that found
      its token already revoked; so at most one when no refreshes of a token overlapped. */
  lemma LiveTokensPerLogin(run: seq<Event>, login: TokenId)
    requires Timed(0, run)
    ensures var s := Exec(EMPTY, run);
            |LiveIn(s.tokens, s.origin, login)| <= 1 + s.races[login]
  {
    EmptyOk();
    RunKeeps(EMPTY, run);
  }

  ghost predicate OneLive(s: Auth) {
    forall o: TokenId :: |LiveIn(s.tokens, s.origin, o)| <= 1
  }

  /** The commit of a refresh whose token has been revoked since its check, while its chain
      still has an unrevoked token. */
  predicate Forks(s: Auth, e: Event) {
    && e.action.DoCommit? && Committable(s, e.action.request)
    && var id := s.inFlight[e.action.request].token;
       s.tokens[id].revokedAt.Some? && LiveIn(s.tokens, s.origin, LoginOf(s, id)) != {}
  }

  /** No row or session added, none given back. */
  ghost predicate Stamps(s: Auth, s': Auth) {
    && s'.origin == s.origin && SameKin(s.tokens, s'.tokens) && s'.sessions.Keys == s.sessions.Keys
    && (forall t :: t in s.tokens && s.tokens[t].revokedAt.Some? ==> s'.tokens[t].revokedAt.Some?)
    && (forall i :: i in s.sessions ==>
          s'.sessions[i] == s.sessions[i] || s'.sessions[i] == s.sessions[i].(isActive := false))
  }

  lemma LogoutStamps(s: Auth, t: AccessToken, refresh: Option<TokenId>, session: SessionId, now: int)
    ensures Stamps(s, Logout(s, t, refresh, session, now))
  {
    LogoutFrame(s, t, refresh, session, now);
  }

  lemma RevokeSessionStamps(s: Auth, t: AccessToken, session: SessionId, now: int)
    ensures Stamps(s, RevokeSession(s, t, session, now))
  {
    RevokeSessionFrame(s, t, session, now);
  }

  lemma RevokeStamps(s: Auth, step: RevocationStep, now: int)
    ensures Stamps(s, Revoke(s, step, now))
  {
    RevokeFrame(s, step, now);
  }

  /** Only a login or a commit adds rows. */
  lemma ActStamps(s: Auth, a: Action, now: int)
    requires !a.DoCommit? && !a.DoLogin?
    ensures Stamps(s, Act(s, a, now))
  {
    match a {
      case DoBegin(token) =>
        BeginFrame(s, token, now);
      case DoLogout(access, refresh, session) => LogoutStamps(s, access, refresh, session, now);
      case DoBlacklist(access) =>
        BlacklistFrame(s, access, now);
      case DoRevoke(step) => RevokeStamps(s, step, now);
      case DoRevokeSession(access, session) => RevokeSessionStamps(s, access, session, now);
      case DoSetActive(_, _) =>
    }
  }

  lemma StepStamps(s: Auth, e: Event)
    requires !e.action.DoCommit? && !e.action.DoLogin?
    ensures Stamps(s, Step(s, e))
  {
    ActStamps(s.(clock := e.at), e.action, e.at);
  }

  lemma LiveAfter(s: Auth, e: Event, o: TokenId)
    requires Sound(s) && s.clock <= e.at && !e.action.DoCommit?
    ensures |LiveIn(Step(s, e).tokens, Step(s, e).origin, o)| <= |LiveIn(s.tokens, s.origin, o)| ||
            |LiveIn(Step(s, e).tokens, Step(s, e).origin, o)| == 1
  {
    if e.action.DoLogin? {
      ClockForward(s, e.at);
      LoginLive(s.(clock := e.at), e.action.user, e.action.way, e.at, o);
    } else {
      StepStamps(s, e);
      SubsetSize(LiveIn(Step(s, e).tokens, Step(s, e).origin, o), LiveIn(s.tokens, s.origin, o));
    }
  }

  lemma OneLiveStep(s: Auth, e: Event)
    requires Sound(s) && s.clock <= e.at && OneLive(s)
    ensures OneLive(Step(s, e)) <==> !Forks(s, e)
  {
    var s0, s' := s.(clock := e.at), Step(s, e);
    if !e.action.DoCommit? {
      forall o: TokenId ensures |LiveIn(s'.tokens, s'.origin, o)| <= 1 {
        LiveAfter(s, e, o);
      }
    } else if Committable(s0, e.action.request) {
      var id := s.inFlight[e.action.request].token;
      forall o: TokenId
        ensures |LiveIn(s'.tokens, s'.origin, o)| ==
                |LiveIn(s.tokens, s.origin, o)| + if o == LoginOf(s, id) && s.tokens[id].revokedAt.Some? then 1 else 0
      {
        CommitCounts(s0, e.action.request, e.at, o);
      }
    }
  }

  ghost predicate OneLiveThroughout(s: Auth, run: seq<Event>)
    decreases |run|
  {
    OneLive(s) && (run == [] || OneLiveThroughout(Step(s, run[0]), run[1..]))
  }

  ghost predicate NeverForks(s: Auth, run: seq<Event>)
    decreases |run|
  {
    run == [] || (!Forks(s, run[0]) && NeverForks(Step(s, run[0]), run[1..]))
  }

  lemma {:induction false} OneLiveFrom(s: Auth, run: seq<Event>)
    requires Sound(s) && OneLive(s) && Timed(s.clock, run)
    ensures OneLiveThroughout(s, run) <==> NeverForks(s, run)
    decreases |run|
  {
    if run != [] {
      OneLiveStep(s, run[0]);
      StepKeeps(s, run[0]);
      StepClock(s, run[0]);
      if !Forks(s, run[0]) {
        OneLiveFrom(Step(s, run[0]), run[1..]);
      }
    }
  }

  /** Every login has at most one unrevoked token at every point of a run exactly when no
      commit in it forks a chain. */
  lemma OneLiveIff(run: seq<Event>)
    requires Timed(0, run)
    ensures OneLiveThroughout(EMPTY, run) <==> NeverForks(EMPTY, run)
  {
    EmptyOk();
    assert forall o: TokenId :: LiveIn(EMPTY.tokens, EMPTY.origin, o) == {};
    OneLiveFrom(EMPTY, run);
  }

  /** A refresh that nothing overlaps races nothing and leaves the count where it was. */
  lemma SerialRefreshKeepsOne(s: Auth, id: TokenId, now: int)
    requires Sound(s) && s.clock == now && Decide(s, id, now) == Rotate
    ensures var s' := CommitRefresh(BeginRefresh(s, id, now), s.nextId, now);
            && s'.races[s.origin[id]] == s.races[s.origin[id]]
            && |LiveIn(s'.tokens, s'.origin, s.origin[id])| == |LiveIn(s.tokens, s.origin, s.origin[id])|
  {
    BeginKeeps(s, id, now);
    CommitCounts(BeginRefresh(s, id, now), s.nextId, now, s.origin[id]);
  }

  /** When two refreshes of one token have both passed their checks, the commit of either leaves
      the other in flight with its token revoked: by CommitCounts it will fork the chain. */
  lemma OverlapForks(s: Auth, r: nat, r': nat, now: int)
    requires Sound(s) && s.clock == now && r != r' && r in s.inFlight && r' in s.inFlight
    requires s.inFlight[r].token == s.inFlight[r'].token
    ensures var s', id := CommitRefresh(s, r, now), s.inFlight[r].token;
            && Sound(s') && s'.clock == now && r' in s'.inFlight && s'.inFlight[r'].token == id
            && s'.tokens[id].revokedAt.Some? && s'.origin[id] == s.origin[id]
  {
    CommitKeeps(s, r, now);
    assert s.nextId !in s.tokens;
  }

  lemma BothCommitsFork(s: Auth, r: nat, r': nat, now: int, later: int)
    requires Sound(s) && s.clock == now <= later && r != r' && r in s.inFlight && r' in s.inFlight
    requires s.inFlight[r].token == s.inFlight[r'].token && s.tokens[s.inFlight[r].token].revokedAt.None?
    ensures var s1 := CommitRefresh(s, r, now);
            var s2, o := CommitRefresh(s1.(clock := later), r', later), s.origin[s.inFlight[r].token];
            |LiveIn(s2.tokens, s2.origin, o)| == |LiveIn(s.tokens, s.origin, o)| + 1
  {
    var s1, o := CommitRefresh(s, r, now), s.origin[s.inFlight[r].token];
    OverlapForks(s, r, r', now);
    ClockForward(s1, later);
    CommitCounts(s, r, now, o);
    CommitCounts(s1.(clock := later), r', later, o);
  }

  /** One user, one login, two overlapping refreshes of the token it issued. */
  const OVERLAP: seq<Event> :=
    [Event(1, DoSetActive(7, true)), Event(2, DoLogin(7, Password(true, false))), Event(3, DoBegin(0)), Event(4, DoBegin(0))]

  lemma OverlapReached()
    ensures Timed(0, OVERLAP)
    ensures var s := Exec(EMPTY, OVERLAP);
            && s.clock == 4 && s.nextId == 5 && s.inFlight == map[3 := InFlight(0, 3), 4 := InFlight(0, 4)]
            && s.tokens == map[0 := RefreshToken(7, 2, 2 + Micros(STANDARD_TTL), None, None)] && s.origin == map[0 := 0]
            && s.sessions == map[1 := UserSession(7, 0, true)] && Mint(7, 2, 2, ACCESS_TTL) in s.issued
            && s.activeUsers == {7} && s.revokedBefore == map[] && s.blacklist == map[] && s.revoking == map[]
  {
    var s1 := Step(EMPTY, OVERLAP[0]);
    var s2 := Step(s1, OVERLAP[1]);
    assert s2.tokens == map[0 := RefreshToken(7, 2, 2 + Micros(STANDARD_TTL), None, None)] && s2.nextId == 3;
    assert s2.sessions == map[1 := UserSession(7, 0, true)] && Mint(7, 2, 2, ACCESS_TTL) in s2.issued && s2.activeUsers == {7};
    var s3 := Step(s2, OVERLAP[2]);
    assert s3.inFlight == map[3 := InFlight(0, 3)] && s3.tokens == s2.tokens && s3.nextId == 4;
    assert OVERLAP[1..][1..] == [OVERLAP[2], OVERLAP[3]] && [OVERLAP[2], OVERLAP[3]][1..] == [OVERLAP[3]];
    assert Exec(s3, [OVERLAP[3]]) == Step(s3, OVERLAP[3]);
  }

  lemma BothStepsFork(s: Auth, r: nat, r': nat)
    requires Sound(s) && r != r' && r in s.inFlight && r' in s.inFlight && s.inFlight[r].token == s.inFlight[r'].token
    requires var t := s.inFlight[r].token; s.tokens[t].revokedAt.None? && LiveIn(s.tokens, s.origin, s.origin[t]) == {t}
    ensures var s2 := Step(Step(s, Event(s.clock, DoCommit(r))), Event(s.clock, DoCommit(r')));
            |LiveIn(s2.tokens, s2.origin, s.origin[s.inFlight[r].token])| == 2
  {
    assert s == s.(clock := s.clock);
    BothCommitsFork(s, r, r', s.clock, s.clock);
  }

  /** So two tabs refreshing at once leave a login with two unrevoked tokens. */
  lemma ForkReached()
    ensures var s1 := Step(Exec(EMPTY, OVERLAP), Event(4, DoCommit(3)));
            var s2 := Step(s1, Event(4, DoCommit(4)));
            |LiveIn(s2.tokens, s2.origin, 0)| == 2
  {
    var s := Exec(EMPTY, OVERLAP);
    EmptyOk();
    OverlapReached();
    RunKeeps(EMPTY, OVERLAP);
    assert LiveIn(s.tokens, s.origin, 0) == {0};
    BothStepsFork(s, 3, 4);
  }

  // --- Rows are never given back --------------------------------------------------------

  /** Between two tables of a run: a row keeps its user and times, and once revoked stays revoked. */
  ghost predicate Persists(tokens: Tokens, tokens': Tokens) {
    forall t :: t in tokens ==>
      && t in tokens'
      && Kin(tokens[t], tokens'[t])
      && tokens'[t].issuedAt == tokens[t].issuedAt
      && (tokens[t].revokedAt.Some? ==> tokens'[t].revokedAt.Some?)
  }

  lemma CommitPersists(s: Auth, request: nat, now: int)
    requires s.nextId !in s.tokens
    ensures Persists(s.tokens, CommitRefresh(s, request, now).tokens)
  {
  }

  lemma ActPersists(s: Auth, a: Action, now: int)
    requires s.nextId !in s.tokens
    ensures Persists(s.tokens, Act(s, a, now).tokens)
  {
    if a.DoCommit? {
      CommitPersists(s, a.request, now);
    } else if !a.DoLogin? {
      ActStamps(s, a, now);
    }
  }

  lemma StepPersists(s: Auth, e: Event)
    requires s.nextId !in s.tokens
    ensures Persists(s.tokens, Step(s, e).tokens)
  {
    ActPersists(s.(clock := e.at), e.action, e.at);
  }

  lemma {:induction false} RunPersists(s: Auth, run: seq<Event>)
    requires Sound(s) && Timed(s.clock, run)
    ensures Persists(s.tokens, Exec(s, run).tokens)
    decreases |run|
  {
    if run != [] {
      var s1 := Step(s, run[0]);
      StepKeeps(s, run[0]);
      StepClock(s, run[0]);
      StepPersists(s, run[0]);
      RunPersists(s1, run[1..]);
    }
  }

  /** A refresh token that is inactive, by revocation or by expiry, never becomes active again. */
  lemma InactiveForever(before: seq<Event>, after: seq<Event>, t: TokenId, now: int, later: int)
    requires Timed(0, before) && Timed(Exec(EMPTY, before).clock, after)
    requires t in Exec(EMPTY, before).tokens && !Exec(EMPTY, before).tokens[t].IsActive(now) && now <= later
    ensures var s' := Exec(Exec(EMPTY, before), after);
            t in s'.tokens && !s'.tokens[t].IsActive(later)
  {
    EmptyOk();
    RunKeeps(EMPTY, before);
    RunPersists(Exec(EMPTY, before), after);
  }

  /** Presenting a token that has been revoked changes no token row and no session: the
      documented response, revoking everything the user has, is not what happens. Inside the
      grace period of an active account it is answered with an access token, and with an error
      otherwise. */
  lemma ReuseRevokesNothing(s: Auth, id: TokenId, now: int)
    requires id in s.tokens && s.tokens[id].revokedAt.Some?
    ensures var s', row := BeginRefresh(s, id, now), s.tokens[id];
            && s'.tokens == s.tokens && s'.sessions == s.sessions && s'.inFlight == s.inFlight
            && (Decide(s, id, now) == Grace <==>
                  Abs(now - row.revokedAt.value) < Micros(GRACE) && row.userId in s.activeUsers)
            && (s'.issued == s.issued || Decide(s, id, now) == Grace)
  {
    BeginFrame(s, id, now);
  }

  lemma SuccessorUnrevoked(s: Auth, request: nat, now: int)
    requires Committable(s, request) && s.nextId !in s.tokens
    ensures var s', id := CommitRefresh(s, request, now), s.inFlight[request].token;
            s'.tokens[id].revokedAt.Some? && s.nextId in Unrevoked(s'.tokens, s.tokens[id].userId)
  {
    assert s.inFlight[request].token != s.nextId;
  }

  /** It does fail: a token rotated and presented again leaves its successor usable. */
  lemma ReuseSparesSuccessor(later: int)
    ensures var s1 := Step(Exec(EMPTY, OVERLAP), Event(4, DoCommit(3)));
            var s2 := BeginRefresh(s1, 0, later);
            0 in s1.tokens && s1.tokens[0].revokedAt.Some? && s1.tokens[0].userId == 7 && Unrevoked(s2.tokens, 7) != {}
  {
    var s := Exec(EMPTY, OVERLAP);
    OverlapReached();
    var s1 := CommitRefresh(s, 3, 4);
    assert s == s.(clock := 4) && Step(s, Event(4, DoCommit(3))) == s1;
    SuccessorUnrevoked(s, 3, 4);
    CommitPersists(s, 3, 4);
    assert 0 in s1.tokens && s1.tokens[0].revokedAt.Some? && s1.tokens[0].userId == 7;
    ReuseRevokesNothing(s1, 0, later);
  }

  // --- Logins and their sessions ---------------------------------------------------------

  /** The first token of a login descends from itself, and is revoked as soon as it has a successor. */
  ghost predicate RootOk(tokens: Tokens, origin: Origins, u: TokenId) {
    && u in origin && origin[u] in tokens && origin[u] in origin && origin[origin[u]] == origin[u]
    && (origin[u] != u ==> tokens[origin[u]].revokedAt.Some?)
  }

  /** A session names the first token of its login, whatever has been rotated since. */
  ghost predicate SessionOk(tokens: Tokens, origin: Origins, x: UserSession) {
    && x.refreshTokenId in tokens && tokens[x.refreshTokenId].userId == x.userId
    && x.refreshTokenId in origin && origin[x.refreshTokenId] == x.refreshTokenId
  }

  ghost predicate Rooted(s: Auth) {
    && (forall u {:trigger RootOk(s.tokens, s.origin, u)} :: u in s.tokens ==> RootOk(s.tokens, s.origin, u))
    && (forall i {:trigger s.sessions[i]} :: i in s.sessions ==> SessionOk(s.tokens, s.origin, s.sessions[i]))
  }

  /** Old rows keep their user, their login and their being revoked. */
  ghost predicate Extends(s: Auth, s': Auth) {
    forall u :: u in s.tokens ==>
      && u in s'.tokens && s'.tokens[u].userId == s.tokens[u].userId
      && (s.tokens[u].revokedAt.Some? ==> s'.tokens[u].revokedAt.Some?)
      && (u in s.origin ==> u in s'.origin && s'.origin[u] == s.origin[u])
  }

  /** Only the rows `ns` and the sessions `ms` are new. */
  lemma RootedThrough(s: Auth, s': Auth, ns: set<TokenId>, ms: set<SessionId>)
    requires Rooted(s) && Extends(s, s')
    requires forall u :: u in s'.tokens ==> u in s.tokens || u in ns
    requires forall i :: i in s'.sessions ==>
               i in ms || (i in s.sessions && s'.sessions[i] == s.sessions[i].(isActive := s'.sessions[i].isActive))
    requires forall n {:trigger RootOk(s'.tokens, s'.origin, n)} :: n in ns ==> RootOk(s'.tokens, s'.origin, n)
    requires forall m :: m in ms ==> m in s'.sessions && SessionOk(s'.tokens, s'.origin, s'.sessions[m])
    ensures Rooted(s')
  {
    forall u {:trigger RootOk(s'.tokens, s'.origin, u)} | u in s'.tokens ensures RootOk(s'.tokens, s'.origin, u) {
      if u !in ns {
        assert RootOk(s.tokens, s.origin, u);
      }
    }
    forall i | i in s'.sessions ensures SessionOk(s'.tokens, s'.origin, s'.sessions[i]) {
      assert i !in ms ==> SessionOk(s.tokens, s.origin, s.sessions[i]);
    }
  }

  lemma LoginRooted(s: Auth, user: UserId, way: LoginWay, now: int)
    requires Rooted(s) && s.nextId !in s.tokens
    ensures Rooted(Login(s, user, way, now))
  {
    if Admits(s, user, way) {
      RootedThrough(s, Login(s, user, way, now), {s.nextId}, {s.nextId + 1});
    }
  }

  lemma CommitRooted(s: Auth, request: nat, now: int)
    requires Rooted(s) && s.nextId !in s.tokens
    ensures Rooted(CommitRefresh(s, request, now))
  {
    if Committable(s, request) {
      var id, s' := s.inFlight[request].token, CommitRefresh(s, request, now);
      assert RootOk(s.tokens, s.origin, id);
      CommitFrame(s, request, now);
      CommitPersists(s, request, now);
      RootedThrough(s, s', {s.nextId}, {});
    }
  }

  lemma StampsRooted(s: Auth, s': Auth)
    requires Rooted(s) && Stamps(s, s')
    ensures Rooted(s')
  {
    RootedThrough(s, s', {}, {});
  }

  lemma StepRooted(s: Auth, e: Event)
    requires Rooted(s) && s.nextId !in s.tokens
    ensures Rooted(Step(s, e))
  {
    var s0 := s.(clock := e.at);
    assert Rooted(s0);
    if e.action.DoLogin? {
      LoginRooted(s0, e.action.user, e.action.way, e.at);
    } else if e.action.DoCommit? {
      CommitRooted(s0, e.action.request, e.at);
    } else {
      StepStamps(s, e);
      StampsRooted(s, Step(s, e));
    }
  }

  lemma {:induction false} RunRooted(s: Auth, run: seq<Event>)
    requires Sound(s) && Rooted(s) && Timed(s.clock, run)
    ensures Rooted(Exec(s, run))
    decreases |run|
  {
    if run != [] {
      StepKeeps(s, run[0]);
      StepClock(s, run[0]);
      StepRooted(s, run[0]);
      RunRooted(Step(s, run[0]), run[1..]);
    }
  }

  /** What revoking a session achieves: its login is left without an unrevoked token exactly when
      its first token had not been rotated yet, or nothing of the login was unrevoked. */
  lemma SessionRevocationEndsLoginIff(run: seq<Event>, t: AccessToken, session: SessionId, at: int)
    requires Timed(0, run) && MayRevoke(Exec(EMPTY, run), t, session, at)
    ensures var s := Exec(EMPTY, run);
            var s', login := RevokeSession(s, t, session, at), s.sessions[session].refreshTokenId;
            && login in s.tokens && !s'.sessions[session].isActive
            && (LiveIn(s'.tokens, s'.origin, login) == {} <==>
                  s.tokens[login].revokedAt.None? || LiveIn(s.tokens, s.origin, login) == {})
  {
    EmptyOk();
    RunKeeps(EMPTY, run);
    RunRooted(EMPTY, run);
    var s := Exec(EMPTY, run);
    var login := s.sessions[session].refreshTokenId;
    assert SessionOk(s.tokens, s.origin, s.sessions[session]);
    LiveRevoke(s.tokens, s.origin, login, s.tokens[login].(revokedAt := Some(at)), login);
    if s.tokens[login].revokedAt.None? {
      OnlyRootLive(s, login);
    }
  }

  lemma OnlyRootLive(s: Auth, login: TokenId)
    requires Rooted(s) && login in s.tokens && s.tokens[login].revokedAt.None?
    ensures LiveIn(s.tokens, s.origin, login) <= {login}
  {
    forall u | u in LiveIn(s.tokens, s.origin, login) ensures u == login {
      assert RootOk(s.tokens, s.origin, u);
    }
  }

  /** A session revocation stamps one row and leaves the rest of the chain alone. */
  lemma SparesOthers(s: Auth, t: AccessToken, session: SessionId, now: int, u: TokenId, login: TokenId)
    requires u in LiveIn(s.tokens, s.origin, login) && (session in s.sessions ==> s.sessions[session].refreshTokenId != u)
    ensures u in LiveIn(RevokeSession(s, t, session, now).tokens, s.origin, login)
  {
    RevokeSessionFrame(s, t, session, now);
  }

  lemma RotatedOnce()
    ensures var s0 := Exec(EMPTY, OVERLAP);
            var s := CommitRefresh(s0, 3, 4);
            && Step(s0, Event(4, DoCommit(3))) == s
            && 5 in LiveIn(s.tokens, s.origin, 0) && s.sessions == s0.sessions && MayRevoke(s, Mint(7, 2, 2, ACCESS_TTL), 1, 4)
  {
    var s0 := Exec(EMPTY, OVERLAP);
    OverlapReached();
    assert s0 == s0.(clock := 4);
    CommitFrame(s0, 3, 4);
    SuccessionLive(s0.tokens, s0.origin, 5, 4, 0, 3, 0);
  }

  /** After one rotation it does not: the successor stays unrevoked. */
  lemma SessionRevocationSparesSuccessor()
    ensures var s := Step(Exec(EMPTY, OVERLAP), Event(4, DoCommit(3)));
            var t := Mint(7, 2, 2, ACCESS_TTL);
            MayRevoke(s, t, 1, 4) && LiveIn(RevokeSession(s, t, 1, 4).tokens, s.origin, 0) != {}
  {
    OverlapReached();
    RotatedOnce();
    SparesOthers(CommitRefresh(Exec(EMPTY, OVERLAP), 3, 4), Mint(7, 2, 2, ACCESS_TTL), 1, 4, 5, 0);
  }
}
