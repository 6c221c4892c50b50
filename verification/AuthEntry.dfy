/** Who is let in, in which state and over which runs: at a login, with a refresh token, and what a
    suspended account is left with. */
module AuthEntry {
  import opened Basics
  import opened Wrappers
  import opened AuthTokens
  import opened AuthRuns
  import opened AuthRevocation
  import Redis

  // --- Logging in ------------------------------------------------------------------------

  /** With a password an account gets in exactly when it is active and its email verified where
      that is asked for, by Google always; and then has an unrevoked token for 30 days if remembered
      or by Google, for one day otherwise, a session that names it, and an access token for 15
      minutes from the whole second on. Nothing else changes. */
  lemma LoginIs(s: Auth, user: UserId, way: LoginWay, now: int)
    requires Steady(s)
    ensures var s', t := Step(s, Event(now, DoLogin(user, way))), s.nextId;
            var admitted := way.Google? || (user in s.activeUsers && way.emailOk);
            && (!admitted ==> s' == s.(clock := now))
            && (admitted ==>
                  && t !in s.tokens && t in s'.tokens && s'.tokens == s.tokens[t := s'.tokens[t]]
                  && s'.tokens[t].userId == user && s'.tokens[t].issuedAt == now
                  && s'.tokens[t].expiresAt == now + 1_000_000 * (if way.Google? || way.rememberMe then 30 * 86_400 else 86_400)
                  && s'.tokens[t].revokedAt == None && s'.tokens[t].replacedBy == None
                  && s'.sessions == s.sessions[t + 1 := UserSession(user, t, true)] && t + 1 !in s.sessions
                  && s'.issued == s.issued + {AccessToken(user, t + 2, now / 1_000_000, now / 1_000_000 + 900)}
                  && s'.origin == s.origin[t := t] && s'.nextId == t + 3
                  && s' == s.(tokens := s'.tokens, sessions := s'.sessions, issued := s'.issued, origin := s'.origin,
                              nextId := s'.nextId, clock := now))
  {
    assert s.nextId !in s.tokens && s.nextId + 1 !in s.sessions;
  }

  // --- Presenting a refresh token ------------------------------------------------------------

  /** The user's revocation key stands at `now`, at or after the time of issue. */
  predicate KeyStops(s: Auth, user: UserId, issuedAt: int, now: int) {
    && user in s.revokedBefore && issuedAt <= s.revokedBefore[user].value
    && (s.revokedBefore[user].deadline.Some? ==> now < s.revokedBefore[user].deadline.value)
  }

  /** What presenting a refresh token does, in any state: it is put in flight exactly when its row is
      unrevoked and unexpired, its account active, and no key that stands is at or after its issue;
      it is answered with an access token exactly when it was revoked less than 120 seconds before
      (or after) and its account is active; and otherwise nothing happens. */
  lemma PresentingIs(s: Auth, id: TokenId, now: int)
    ensures var s' := Step(s, Event(now, DoBegin(id)));
            var starts := && id in s.tokens && s.tokens[id].revokedAt.None? && s.tokens[id].expiresAt > now
                          && s.tokens[id].userId in s.activeUsers
                          && !KeyStops(s, s.tokens[id].userId, s.tokens[id].issuedAt, now);
            var answered := && id in s.tokens && s.tokens[id].revokedAt.Some? && s.tokens[id].userId in s.activeUsers
                            && -120_000_000 < now - s.tokens[id].revokedAt.value < 120_000_000;
            && (starts ==> s' == s.(clock := now, inFlight := s.inFlight[s.nextId := InFlight(id, now)], nextId := s.nextId + 1))
            && (answered ==>
                  s' == s.(clock := now, nextId := s.nextId + 1,
                           issued := s.issued + {AccessToken(s.tokens[id].userId, s.nextId, now / 1_000_000, now / 1_000_000 + 900)}))
            && (!starts && !answered ==> s' == s.(clock := now))
  {
    var s0 := s.(clock := now);
    assert Decide(s0, id, now) == Decide(s, id, now);
  }

  /** Which refusal is given: suspended exactly for a live token of an inactive account. */
  lemma RefusalIs(s: Auth, id: TokenId, now: int)
    ensures Decide(s, id, now) == AccountSuspended <==>
              && id in s.tokens && s.tokens[id].revokedAt.None? && s.tokens[id].expiresAt > now
              && s.tokens[id].userId !in s.activeUsers
    ensures Decide(s, id, now) in {Decision.Rotate, Decision.Grace} <==>
              Step(s, Event(now, DoBegin(id))).nextId > s.nextId
  {
    assert Decide(s.(clock := now), id, now) == Decide(s, id, now);
  }

  // --- A suspended account --------------------------------------------------------------------

  predicate Reactivates(e: Event, user: UserId) { e.action == DoSetActive(user, true) }

  /** Accounts become active and inactive only so. */
  lemma ActiveFrame(s: Auth, a: Action, now: int)
    ensures Act(s, a, now).activeUsers ==
            if a.DoSetActive? then (if a.active then s.activeUsers + {a.user} else s.activeUsers - {a.user}) else s.activeUsers
  {
    match a {
      case DoBegin(token) => BeginFrame(s, token, now);
      case DoCommit(request) =>
        if Committable(s, request) {
          CommitFrame(s, request, now);
        }
      case DoLogout(access, refresh, session) => LogoutFrame(s, access, refresh, session, now);
      case DoBlacklist(access) => BlacklistFrame(s, access, now);
      case DoRevoke(step) => RevokeFrame(s, step, now);
      case DoRevokeSession(access, session) => RevokeSessionFrame(s, access, session, now);
      case _ =>
    }
  }

  lemma {:induction false} StaysSuspended(s: Auth, run: seq<Event>, user: UserId)
    requires user !in s.activeUsers && forall e :: e in run ==> !Reactivates(e, user)
    ensures user !in Exec(s, run).activeUsers
    decreases |run|
  {
    if run != [] {
      assert run[0] in run && forall e :: e in run[1..] ==> e in run;
      ActiveFrame(s.(clock := run[0].at), run[0].action, run[0].at);
      StaysSuspended(Step(s, run[0]), run[1..], user);
    }
  }

  /** From the suspension of an account until it is reactivated, whatever else happens: presenting any
      refresh token of the user starts no refresh and gives no access token, a password does not log
      them in, and none of their access tokens is accepted. */
  lemma SuspendedGetsNothing(s: Auth, user: UserId, at: int, run: seq<Event>, id: TokenId, t: AccessToken, remember: bool, emailOk: bool, now: int)
    requires forall e :: e in run ==> !Reactivates(e, user)
    ensures var s' := Exec(Step(s, Event(at, DoSetActive(user, false))), run);
            && (id in s'.tokens && s'.tokens[id].userId == user ==> Step(s', Event(now, DoBegin(id))) == s'.(clock := now))
            && Step(s', Event(now, DoLogin(user, Password(emailOk, remember)))) == s'.(clock := now)
            && (t.sub == user ==> !Accepts(s', t, now))
  {
    var s1 := Step(s, Event(at, DoSetActive(user, false)));
    StaysSuspended(s1, run, user);
    PresentingIs(Exec(s1, run), id, now);
  }

  // --- Signing out -----------------------------------------------------------------------------

  /** What a logout does: its access token is blacklisted for the rest of its life, its refresh token
      is stamped if it was unrevoked, its session closed, and nothing else is touched. */
  lemma LogoutIs(s: Auth, t: AccessToken, refresh: Option<TokenId>, session: SessionId, now: int)
    ensures var s' := Step(s, Event(now, DoLogout(t, refresh, session)));
            && s'.tokens.Keys == s.tokens.Keys && s'.sessions.Keys == s.sessions.Keys
            && (forall id :: id in s.tokens ==>
                  s'.tokens[id] == if refresh == Some(id) && s.tokens[id].revokedAt.None?
                                   then s.tokens[id].(revokedAt := Some(now)) else s.tokens[id])
            && (forall i :: i in s.sessions ==> s'.sessions[i] == if i == session then s.sessions[i].(isActive := false) else s.sessions[i])
            && (now < 1_000_000 * t.exp ==>
                  && t.jti in s'.blacklist && s'.blacklist[t.jti].deadline.Some?
                  && 1_000_000 * t.exp <= s'.blacklist[t.jti].deadline.value < 1_000_000 * (t.exp + 1))
            && (now >= 1_000_000 * t.exp ==> s'.blacklist == s.blacklist)
            && (forall jti :: jti in s.blacklist && jti != t.jti ==> jti in s'.blacklist && s'.blacklist[jti] == s.blacklist[jti])
            && s' == s.(clock := now, tokens := s'.tokens, sessions := s'.sessions, blacklist := s'.blacklist)
  {
    var s0 := s.(clock := now);
    LogoutFrame(s0, t, refresh, session, now);
    FloorBelow(now);
  }

  /** What the revocation of one session does: with a token accepted, of the session's owner, the
      session is closed and the row it names stamped, whatever was there; otherwise nothing. */
  lemma SessionRevocationIs(s: Auth, t: AccessToken, session: SessionId, now: int)
    ensures var s' := Step(s, Event(now, DoRevokeSession(t, session)));
            if t in s.issued && Accepts(s, t, now) && session in s.sessions && s.sessions[session].userId == t.sub then
              var named := s.sessions[session].refreshTokenId;
              && s'.tokens.Keys == s.tokens.Keys
              && (forall id :: id in s.tokens ==> s'.tokens[id] == if id == named then s.tokens[id].(revokedAt := Some(now)) else s.tokens[id])
              && s'.sessions == s.sessions[session := s.sessions[session].(isActive := false)]
              && s' == s.(clock := now, tokens := s'.tokens, sessions := s'.sessions)
            else s' == s.(clock := now)
  {
    var s0 := s.(clock := now);
    assert Accepts(s0, t, now) <==> Accepts(s, t, now);
    RevokeSessionFrame(s0, t, session, now);
  }

  /** What the commit of a refresh does: a successor with the user and expiry of the token presented,
      issued when its transaction began; that token stamped and linked to it, whatever it was; an
      access token for 15 minutes; and nothing else. */
  lemma RotationIs(s: Auth, request: nat, now: int)
    requires Steady(s) && request in s.inFlight
    ensures var s', id, n := Step(s, Event(now, DoCommit(request))), s.inFlight[request].token, s.nextId;
            && id in s.tokens && n !in s.tokens && s'.tokens.Keys == s.tokens.Keys + {n}
            && s'.tokens[n] == RefreshToken(s.tokens[id].userId, s.inFlight[request].begunAt, s.tokens[id].expiresAt, None, None)
            && s'.tokens[id] == s.tokens[id].(revokedAt := Some(now), replacedBy := Some(n))
            && (forall u :: u in s.tokens && u != id ==> s'.tokens[u] == s.tokens[u])
            && s'.inFlight == s.inFlight - {request}
            && s'.issued == s.issued + {AccessToken(s.tokens[id].userId, n + 1, now / 1_000_000, now / 1_000_000 + 900)}
            && s'.sessions == s.sessions && s'.activeUsers == s.activeUsers && s'.nextId == n + 2
            && s'.revokedBefore == s.revokedBefore && s'.blacklist == s.blacklist && s'.revoking == s.revoking
  {
    CommitFrame(s.(clock := now), request, now);
    assert s.nextId !in s.tokens;
  }

  /** The steps of a bulk revocation: what each needs, and what it does. */
  lemma RevocationIs(s: Auth, r: nat, now: int)
    requires r in s.revoking
    ensures var x := s.revoking[r];
            var keyed, updated, over := Step(s, Event(now, DoRevoke(SetKey(r)))), Step(s, Event(now, DoRevoke(UpdateRows(r)))),
                                        Step(s, Event(now, DoRevoke(Commit(r))));
            && (if !x.keySet && (x.keyFirst || x.seen.Some?) then
                  && keyed.revoking == s.revoking[r := x.(keySet := true)]
                  && keyed.revokedBefore == s.revokedBefore[x.user := Redis.Entry(x.at, Some(now + 30 * 86_400 * 1_000_000))]
                  && keyed == s.(clock := now, revoking := keyed.revoking, revokedBefore := keyed.revokedBefore)
                else keyed == s.(clock := now))
            && (if x.seen.None? && (x.keyFirst ==> x.keySet) then
                  updated == s.(clock := now, revoking := s.revoking[r := x.(seen := Some(s.nextId))])
                else updated == s.(clock := now))
            && (over != s.(clock := now) <==> x.keySet && x.seen.Some?)
  {
    var s0 := s.(clock := now);
    RevokeKeyFrame(s0, r, now);
    RevokeCommitFrame(s0, r);
    if CommitDue(s0, r) {
      assert r !in RevokeCommit(s0, r).revoking;
    }
  }

  /** Its commit stamps the user's rows that its UPDATE saw and that are still unrevoked with the
      time it began, closes the user's sessions that it saw, and changes no other row. */
  lemma RevocationCommits(s: Auth, r: nat, now: int)
    requires r in s.revoking && s.revoking[r].keySet && s.revoking[r].seen.Some?
    ensures var s', x := Step(s, Event(now, DoRevoke(Commit(r)))), s.revoking[r];
            && s'.tokens.Keys == s.tokens.Keys && s'.sessions.Keys == s.sessions.Keys
            && (forall t :: t in s.tokens ==>
                  s'.tokens[t] == if t < x.seen.value && s.tokens[t].userId == x.user && s.tokens[t].revokedAt == None
                                  then s.tokens[t].(revokedAt := Some(x.at)) else s.tokens[t])
            && (forall i :: i in s.sessions ==>
                  s'.sessions[i] == if i < x.seen.value && s.sessions[i].userId == x.user
                                    then s.sessions[i].(isActive := false) else s.sessions[i])
            && s' == s.(clock := now, tokens := s'.tokens, sessions := s'.sessions, revoking := s.revoking - {r})
  {
    RevokeCommitFrame(s.(clock := now), r);
  }
}
