/** What revoking a user's tokens and sessions ends, and what it leaves: refresh tokens, access
    tokens, the blacklist, and how long access can go on. */
module AuthAccess {
  import opened Basics
  import opened Wrappers
  import opened AuthTokens
  import opened AuthRuns
  import opened AuthRevocation
  import opened AuthEscapes
  import Redis

  // --- Access tokens after a revocation --------------------------------------------------

  lemma {:induction false} RunBars(s: Auth, run: seq<Event>, user: UserId, time: int)
    requires Bars(s, user, time) && time <= s.clock && Timed(s.clock, run)
    ensures Bars(Exec(s, run), user, time)
    decreases |run|
  {
    if run != [] {
      var e := run[0];
      assert Bars(s.(clock := e.at), user, time);
      BarsNow(s.(clock := e.at), e.action, user, e.at, time);
      StepClock(s, e);
      RunBars(Step(s, e), run[1..], user, time);
    }
  }

  ghost predicate Accepted(s: Auth, t: AccessToken, after: seq<Event>, later: int) {
    Timed(s.clock, after) && Exec(s, after).clock <= later && Accepts(Exec(s, after), t, later)
  }

  /** At some time from now on. */
  ghost predicate CanBeAccepted(s: Auth, t: AccessToken) {
    exists after, later :: Accepted(s, t, after, later)
  }

  lemma AcceptedThen(s: Auth, e: Event, t: AccessToken)
    requires s.clock <= e.at && CanBeAccepted(Step(s, e), t)
    ensures CanBeAccepted(s, t)
  {
    var after, later :| Accepted(Step(s, e), t, after, later);
    StepClock(s, e);
    assert ([e] + after)[1..] == after;
    assert Accepted(s, t, [e] + after, later);
  }

  lemma AcceptedOnceActive(s: Auth, t: AccessToken)
    requires s.clock < Micros(t.exp) && t.jti !in s.blacklist
    requires t.sub in s.revokedBefore ==> s.revokedBefore[t.sub].value < Micros(t.iat)
    ensures CanBeAccepted(s, t)
  {
    var e := Event(s.clock, DoSetActive(t.sub, true));
    assert [e][1..] == [];
    var s' := s.(activeUsers := s.activeUsers + {t.sub});
    assert Exec(s, [e]) == s';
    assert PassesBulkCheck(s', t, s.clock) && Accepts(s', t, s.clock);
    assert Accepted(s, t, [e], s.clock);
  }

  lemma AcceptedOnceKeySet(s: Auth, t: AccessToken, q: nat)
    requires s.clock < Micros(t.exp) && t.jti !in s.blacklist
    requires q in s.revoking && s.revoking[q].user == t.sub && !s.revoking[q].keySet && s.revoking[q].at < Micros(t.iat)
    ensures CanBeAccepted(s, t)
  {
    var e1, e2 := Event(s.clock, DoRevoke(UpdateRows(q))), Event(s.clock, DoRevoke(SetKey(q)));
    var s1 := Step(s, e1);
    StepClock(s, e1);
    KeyMayFollow(s, q);
    AcceptedOnceActive(Step(s1, e2), t);
    AcceptedThen(s1, e2, t);
    AcceptedThen(s, e1, t);
  }

  /** A revocation refuses for good, whatever happens from then on, exactly the tokens that its
      key bars and that no revocation under way can let in again: one that read its clock earlier
      and sets the key later sets it back. */
  lemma RefusedForGoodIff(s: Auth, t: AccessToken)
    requires Steady(s) && Micros(t.iat) <= s.clock < Micros(t.exp) && t.exp <= t.iat + REMEMBER_TTL && t.jti !in s.blacklist
    ensures !CanBeAccepted(s, t) <==> Bars(s, t.sub, Micros(t.iat))
  {
    if CanBeAccepted(s, t) && Bars(s, t.sub, Micros(t.iat)) {
      var after, later :| Accepted(s, t, after, later);
      BarredForGood(s, after, t, later);
      assert false;
    } else if !Bars(s, t.sub, Micros(t.iat)) {
      if t.sub in s.revokedBefore && Micros(t.iat) <= s.revokedBefore[t.sub].value {
        var q :| q in s.revoking && s.revoking[q].user == t.sub && !s.revoking[q].keySet && Micros(t.iat) > s.revoking[q].at;
        AcceptedOnceKeySet(s, t, q);
      } else {
        AcceptedOnceActive(s, t);
      }
    }
  }

  lemma BarredForGood(s: Auth, after: seq<Event>, t: AccessToken, later: int)
    requires Steady(s) && Timed(s.clock, after) && t.exp <= t.iat + REMEMBER_TTL
    requires Bars(s, t.sub, Micros(t.iat)) && Micros(t.iat) <= s.clock
    ensures !Accepts(Exec(s, after), t, later)
  {
    RunBars(s, after, t.sub, Micros(t.iat));
    RunSteady(s, after);
    BarredNow(Exec(s, after), t, later);
  }

  lemma BarredNow(s: Auth, t: AccessToken, later: int)
    requires KeysOk(s) && Bars(s, t.sub, Micros(t.iat)) && t.exp <= t.iat + REMEMBER_TTL
    ensures !Accepts(s, t, later)
  {
  }

  /** So once a revocation has set its key, and if none of the user's that began before the token
      was minted is still to set its own, an access token minted at or before its clock reading is
      refused at every later time, whatever happens meanwhile. */
  lemma RevokedForGood(s: Auth, r: nat, k: int, after: seq<Event>, minted: int, jti: nat, ttl: int, later: int)
    requires Steady(s) && s.clock <= k && Timed(k, after) && KeyDue(s, r) && minted <= s.revoking[r].at && ttl <= REMEMBER_TTL
    requires forall q :: q in s.revoking && q != r && s.revoking[q].user == s.revoking[r].user && !s.revoking[q].keySet ==> minted <= s.revoking[q].at
    ensures !Accepts(Exec(Step(s, Event(k, DoRevoke(SetKey(r)))), after), Mint(s.revoking[r].user, jti, minted, ttl), later)
  {
    var e := Event(k, DoRevoke(SetKey(r)));
    FloorBelow(minted);
    StepSteady(s, e);
    BarredForGood(Step(s, e), after, Mint(s.revoking[r].user, jti, minted, ttl), later);
  }

  /** While a revocation's key stands, the check lets through exactly the tokens minted from the
      whole second after its clock reading on: one minted at least a second later always passes. */
  lemma BulkCheckIff(s: Auth, r: nat, k: int, minted: int, jti: nat, ttl: int, later: int)
    requires KeyDue(s, r) && k <= later < k + Micros(REMEMBER_TTL)
    ensures var s1, x := Step(s, Event(k, DoRevoke(SetKey(r)))), s.revoking[r];
            && (PassesBulkCheck(s1, Mint(x.user, jti, minted, ttl), later) <==> minted >= Micros(WholeSeconds(x.at) + 1))
            && (minted >= x.at + Micros(1) ==> PassesBulkCheck(s1, Mint(x.user, jti, minted, ttl), later))
  {
    RevokeKeyFrame(s.(clock := k), r, k);
    FloorBelow(minted);
    FloorBelow(s.revoking[r].at);
  }

  // --- The blacklist ---------------------------------------------------------------------

  /** Token ids are unique: whoever blacklists `t`'s id holds `t`. */
  ghost predicate OwnId(a: Action, t: AccessToken) {
    (a.DoLogout? || a.DoBlacklist?) && a.access.jti == t.jti ==> a.access == t
  }

  ghost predicate Blocked(s: Auth, t: AccessToken, now: int) {
    Micros(t.exp) <= now || Covers(s.blacklist, t)
  }

  ghost predicate Covers(blacklist: Redis.Store<nat, int>, t: AccessToken) {
    t.jti in blacklist && blacklist[t.jti].deadline.Some? && blacklist[t.jti].deadline.value >= Micros(t.exp)
  }

  /** The TTL is floored with the clock it is measured from, so it never falls short. */
  lemma BlacklistReaches(s: Auth, t: AccessToken, now: int)
    ensures Blocked(Blacklisted(s, t, now), t, now)
  {
    FloorBelow(now);
  }

  lemma StepBlocked(s: Auth, e: Event, t: AccessToken)
    requires Blocked(s, t, s.clock) && s.clock <= e.at && OwnId(e.action, t)
    ensures Blocked(Step(s, e), t, e.at)
  {
    BlacklistOnly(s.(clock := e.at), e.action, e.at);
  }

  lemma {:induction false} RunBlocked(s: Auth, run: seq<Event>, t: AccessToken)
    requires Blocked(s, t, s.clock) && Timed(s.clock, run) && forall e :: e in run ==> OwnId(e.action, t)
    ensures Blocked(Exec(s, run), t, Exec(s, run).clock)
    decreases |run|
  {
    if run != [] {
      StepBlocked(s, run[0], t);
      StepClock(s, run[0]);
      RunBlocked(Step(s, run[0]), run[1..], t);
    }
  }

  /** A token logged out once is refused from then on: the blacklist entry outlives the token. */
  lemma LoggedOutForGood(s: Auth, t: AccessToken, refresh: Option<TokenId>, session: SessionId, at: int,
                         after: seq<Event>, later: int)
    requires Timed(at, after) && forall e :: e in after ==> OwnId(e.action, t)
    requires var s1 := Exec(Step(s, Event(at, DoLogout(t, refresh, session))), after); s1.clock <= later
    ensures !Accepts(Exec(Step(s, Event(at, DoLogout(t, refresh, session))), after), t, later)
  {
    var e := Event(at, DoLogout(t, refresh, session));
    var s0 := s.(clock := at);
    BlacklistReaches(s0, t, at);
    LogoutFrame(s0, t, refresh, session, at);
    StepClock(s, e);
    RunBlocked(Step(s, e), after, t);
  }

  // --- When exactly an access token is accepted ----------------------------------------------

  /** Logging out with `t`, or revoking everything with it. */
  predicate Blacklists(e: Event, t: AccessToken) {
    (e.action.DoLogout? || e.action.DoBlacklist?) && e.action.access == t
  }

  lemma StepCovers(s: Auth, e: Event, t: AccessToken)
    requires e.at < Micros(t.exp) && OwnId(e.action, t) && (t.jti in s.blacklist ==> Covers(s.blacklist, t))
    ensures var s' := Step(s, e);
            && (t.jti in s'.blacklist ==> Covers(s'.blacklist, t))
            && (t.jti in s'.blacklist <==> t.jti in s.blacklist || Blacklists(e, t))
  {
    var s0 := s.(clock := e.at);
    BlacklistOnly(s0, e.action, e.at);
    if Blacklists(e, t) {
      BlacklistReaches(s0, t, e.at);
    }
  }

  lemma {:induction false} RunCovers(s: Auth, run: seq<Event>, t: AccessToken)
    requires Timed(s.clock, run) && Exec(s, run).clock < Micros(t.exp)
    requires (forall e :: e in run ==> OwnId(e.action, t)) && (t.jti in s.blacklist ==> Covers(s.blacklist, t))
    ensures var s' := Exec(s, run);
            && (t.jti in s'.blacklist ==> Covers(s'.blacklist, t))
            && (t.jti in s'.blacklist <==> t.jti in s.blacklist || exists e :: e in run && Blacklists(e, t))
    decreases |run|
  {
    if run != [] {
      var e, s1 := run[0], Step(s, run[0]);
      StepClock(s, e);
      TimedEnds(s1, run[1..]);
      StepCovers(s, e, t);
      RunCovers(s1, run[1..], t);
      assert forall x :: x in run <==> x == e || x in run[1..];
    }
  }

  lemma {:induction false} TimedEnds(s: Auth, run: seq<Event>)
    requires Timed(s.clock, run)
    ensures s.clock <= Exec(s, run).clock
    decreases |run|
  {
    if run != [] {
      StepClock(s, run[0]);
      TimedEnds(Step(s, run[0]), run[1..]);
    }
  }

  /** The clock reading of the last revocation of `user` to set its key in `run`, or else `key`. */
  function LastKey(s: Auth, run: seq<Event>, user: UserId, key: Option<int>): Option<int>
    decreases |run|
  {
    if run == [] then key
    else LastKey(Step(s, run[0]), run[1..], user,
                 if SetsKey(s, run[0].action, user) then Some(s.revoking[run[0].action.step.revocation].at) else key)
  }

  function Key(s: Auth, user: UserId): Option<int> {
    if user in s.revokedBefore then Some(s.revokedBefore[user].value) else None
  }

  lemma {:induction false} RunKey(s: Auth, run: seq<Event>, user: UserId)
    ensures Key(Exec(s, run), user) == LastKey(s, run, user, Key(s, user))
    decreases |run|
  {
    if run != [] {
      KeyFrame(s.(clock := run[0].at), run[0].action, run[0].at);
      assert SetsKey(s, run[0].action, user) <==> SetsKey(s.(clock := run[0].at), run[0].action, user);
      RunKey(Step(s, run[0]), run[1..], user);
    }
  }

  /** Whatever happens, a token is accepted exactly when it has not expired, its account is active,
      nobody has logged out with it, and the last of its user's revocations to set its key, if any
      has, read its clock before the second the token was issued in. */
  lemma AcceptedIff(s: Auth, run: seq<Event>, t: AccessToken, later: int)
    requires Steady(s) && Timed(s.clock, run) && Exec(s, run).clock <= later && t.exp <= t.iat + REMEMBER_TTL
    requires (forall e :: e in run ==> OwnId(e.action, t)) && (t.jti in s.blacklist ==> Covers(s.blacklist, t))
    ensures Accepts(Exec(s, run), t, later) <==>
              && later < Micros(t.exp)
              && t.sub in Exec(s, run).activeUsers
              && t.jti !in s.blacklist && (!exists e :: e in run && Blacklists(e, t))
              && var key := LastKey(s, run, t.sub, Key(s, t.sub)); key.Some? ==> key.value < Micros(t.iat)
  {
    RunSteady(s, run);
    RunKey(s, run, t.sub);
    if later < Micros(t.exp) {
      RunCovers(s, run, t);
      AcceptedNow(Exec(s, run), t, later);
    }
  }

  lemma AcceptedNow(s: Auth, t: AccessToken, later: int)
    requires KeysOk(s) && later < Micros(t.exp) && t.exp <= t.iat + REMEMBER_TTL && (t.jti in s.blacklist ==> Covers(s.blacklist, t))
    ensures Accepts(s, t, later) <==>
              t.sub in s.activeUsers && t.jti !in s.blacklist && (Key(s, t.sub).Some? ==> Key(s, t.sub).value < Micros(t.iat))
  {
  }

  // --- How long access can outlast a revocation --------------------------------------------

  /** Every token of the user is revoked, none is being refreshed, and no access token of theirs
      is younger than the grace period that began at `since`. */
  ghost predicate Sealed(s: Auth, user: UserId, since: int) {
    && (forall t :: t in s.tokens && s.tokens[t].userId == user ==>
          s.tokens[t].revokedAt.Some? && s.tokens[t].revokedAt.value <= since)
    && (forall r :: r in s.inFlight && s.inFlight[r].token in s.tokens ==> s.tokens[s.inFlight[r].token].userId != user)
    && (forall a :: a in s.issued && a.sub == user ==>
          a.exp == a.iat + ACCESS_TTL && Micros(a.iat) < since + Micros(GRACE))
  }

  ghost predicate NoRefreshInFlight(s: Auth, user: UserId) {
    forall r :: r in s.inFlight && s.inFlight[r].token in s.tokens ==> s.tokens[s.inFlight[r].token].userId != user
  }

  predicate ByUser(e: Event, user: UserId) {
    e.action.DoRevokeSession? && e.action.access.sub == user
  }

  lemma BeginSealed(s: Auth, id: TokenId, now: int, user: UserId, since: int)
    requires Sealed(s, user, since)
    ensures Sealed(BeginRefresh(s, id, now), user, since)
  {
    BeginFrame(s, id, now);
    FloorBelow(now);
    if id in s.tokens && s.tokens[id].userId == user {
      assert Decide(s, id, now) != Decision.Rotate;
      assert Decide(s, id, now) == Decision.Grace ==> now < since + Micros(GRACE);
    }
  }

  lemma LoginSealed(s: Auth, v: UserId, way: LoginWay, now: int, user: UserId, since: int)
    requires Sealed(s, user, since) && Fit(s) && v != user
    ensures Sealed(Login(s, v, way, now), user, since)
  {
  }

  lemma LogoutSealed(s: Auth, t: AccessToken, refresh: Option<TokenId>, session: SessionId, now: int, user: UserId, since: int)
    requires Sealed(s, user, since)
    ensures Sealed(Logout(s, t, refresh, session, now), user, since)
  {
    LogoutFrame(s, t, refresh, session, now);
  }

  lemma RevokeSealed(s: Auth, step: RevocationStep, now: int, user: UserId, since: int)
    requires Sealed(s, user, since)
    ensures Sealed(Revoke(s, step, now), user, since)
  {
    RevokeFrame(s, step, now);
  }

  /** Past the last grace period and the last access token it can give. */
  function EndOf(since: int): int { since + Micros(GRACE + ACCESS_TTL) }

  /** By then the user has no access token left to revoke a session with. */
  lemma RevokeSessionSealed(s: Auth, t: AccessToken, session: SessionId, now: int, user: UserId, since: int)
    requires Sealed(s, user, since) && Rooted(s)
    requires t.sub == user ==> now <= since || now >= EndOf(since)
    ensures Sealed(RevokeSession(s, t, session, now), user, since)
  {
    RevokeSessionFrame(s, t, session, now);
    if MayRevoke(s, t, session, now) {
      assert SessionOk(s.tokens, s.origin, s.sessions[session]);
      if t.sub == user && now >= EndOf(since) {
        SealedRejects(s, user, since, now);
        assert false;
      }
    }
  }

  lemma ActSealed(s: Auth, a: Action, now: int, user: UserId, since: int)
    requires Fit(s) && Rooted(s) && Sealed(s, user, since)
    requires !(a.DoLogin? && a.user == user)
    requires ByUser(Event(now, a), user) ==> now <= since || now >= EndOf(since)
    ensures Sealed(Act(s, a, now), user, since)
  {
    match a {
      case DoLogin(v, way) => LoginSealed(s, v, way, now, user, since);
      case DoBegin(token) => BeginSealed(s, token, now, user, since);
      case DoCommit(_) =>
      case DoLogout(access, refresh, session) => LogoutSealed(s, access, refresh, session, now, user, since);
      case DoBlacklist(access) => BlacklistFrame(s, access, now);
      case DoRevoke(step) => RevokeSealed(s, step, now, user, since);
      case DoRevokeSession(access, session) => RevokeSessionSealed(s, access, session, now, user, since);
      case DoSetActive(_, _) =>
    }
  }

  lemma {:induction false} RunSealed(s: Auth, run: seq<Event>, user: UserId, since: int)
    requires Steady(s) && Sealed(s, user, since) && Timed(s.clock, run) && NoLogin(run, user)
    requires forall e :: e in run && ByUser(e, user) ==> e.at <= since || e.at >= EndOf(since)
    ensures Sealed(Exec(s, run), user, since)
    decreases |run|
  {
    if run != [] {
      var e := run[0];
      SteadyClock(s, e.at);
      assert Sealed(s.(clock := e.at), user, since);
      ActSealed(s.(clock := e.at), e.action, e.at, user, since);
      StepSteady(s, e);
      RunSealed(Step(s, e), run[1..], user, since);
    }
  }

  lemma SealedRejects(s: Auth, user: UserId, since: int, later: int)
    requires Sealed(s, user, since) && later >= EndOf(since)
    ensures forall a :: a in s.issued && a.sub == user ==> !Accepts(s, a, later)
    ensures forall id :: id in s.tokens && s.tokens[id].userId == user ==> Decide(s, id, later) == InvalidRefreshToken
  {
  }

  /** Every token of the user is revoked and none is being refreshed. */
  ghost predicate Closed(s: Auth, user: UserId) { Unrevoked(s.tokens, user) == {} && NoRefreshInFlight(s, user) }

  /** A revocation leaves things so exactly when no refresh of the user's, whenever begun, was in
      flight at its UPDATE or passed its checks between that and its commit. */
  lemma ClosedIff(s: Auth, user: UserId, keyFirst: bool, at: int, d1: seq<Event>, t1: int, d2: seq<Event>, t2: int)
    requires Course(s, user, keyFirst, at, d1, t1, d2, t2)
    ensures var s1 := Begun(s, user, keyFirst, at);
            var s3 := AtUpdate(s1, d1, t1, s.nextId);
            Closed(AtCommit(s3, d2, t2, s.nextId), user) <==> NoRefreshInFlight(Exec(s1, d1), user) && !SomePass(s3, d2, user, None, None)
  {
    var s1 := Begun(s, user, keyFirst, at);
    var s2 := Exec(s1, d1);
    var v := AtCommit(AtUpdate(s1, d1, t1, s.nextId), d2, t2, s.nextId);
    CourseLate(s, user, keyFirst, at, d1, t1, d2, t2, None, None);
    NoneFlying(s2, user);
    NoneFlying(v, user);
    assert forall t :: t in Unrevoked(v.tokens, user) <==> LateRow(v, user, t, s2.nextId, None, None);
  }

  lemma NoneFlying(s: Auth, user: UserId)
    ensures NoRefreshInFlight(s, user) <==> !Flying(s, user, None, None)
  {
    if !NoRefreshInFlight(s, user) {
      var q :| q in s.inFlight && s.inFlight[q].token in s.tokens && s.tokens[s.inFlight[q].token].userId == user;
      assert LateFlight(s, user, q, None, None);
    }
  }

  lemma ClosedSeals(s: Auth, user: UserId, since: int)
    requires Steady(s) && Closed(s, user) && s.clock <= since
    ensures Sealed(s, user, since)
  {
    forall t | t in s.tokens && s.tokens[t].userId == user ensures s.tokens[t].revokedAt.Some? && s.tokens[t].revokedAt.value <= since {
      assert RowOk(s.tokens[t], s.clock) && t !in Unrevoked(s.tokens, user);
    }
  }

  /** With none of the user's refreshes in flight at its UPDATE or begun before its commit, and
      up to `last` the only time the user goes on to revoke sessions (or not until access has
      ended), revoking everything ends all access within the grace period plus the life of an
      access token after `last`, until the next login: from then on no access token ever issued to
      the user is accepted and none of their refresh tokens is of use. */
  lemma AccessEnds(s: Auth, user: UserId, keyFirst: bool, at: int, d1: seq<Event>, t1: int, d2: seq<Event>, t2: int,
                   after: seq<Event>, last: int, later: int)
    requires Course(s, user, keyFirst, at, d1, t1, d2, t2) && Timed(t2, after) && t2 <= last && NoLogin(after, user)
    requires var s1 := Begun(s, user, keyFirst, at);
             NoRefreshInFlight(Exec(s1, d1), user) && !SomePass(AtUpdate(s1, d1, t1, s.nextId), d2, user, None, None)
    requires forall e :: e in after && ByUser(e, user) ==> e.at <= last || e.at >= EndOf(last)
    requires later >= EndOf(last)
    ensures var s' := Exec(AtCommit(AtUpdate(Begun(s, user, keyFirst, at), d1, t1, s.nextId), d2, t2, s.nextId), after);
            && (forall a :: a in s'.issued && a.sub == user ==> !Accepts(s', a, later))
            && (forall id :: id in s'.tokens && s'.tokens[id].userId == user ==> Decide(s', id, later) == InvalidRefreshToken)
  {
    var v := AtCommit(AtUpdate(Begun(s, user, keyFirst, at), d1, t1, s.nextId), d2, t2, s.nextId);
    ClosedIff(s, user, keyFirst, at, d1, t1, d2, t2);
    CourseLate(s, user, keyFirst, at, d1, t1, d2, t2, None, None);
    ClosedSeals(v, user, last);
    RunSealed(v, after, user, last);
    SealedRejects(Exec(v, after), user, last, later);
  }

  // --- Which refresh tokens are still answered -------------------------------------------------

  predicate StampedAfter(s: Auth, user: UserId, t: TokenId, from: int) {
    t in s.tokens && s.tokens[t].userId == user && s.tokens[t].revokedAt.Some? && s.tokens[t].revokedAt.value > from
  }

  /** The user revokes a session of theirs. */
  predicate Reopens(s: Auth, e: Event, user: UserId) {
    ByUser(e, user) && MayRevoke(s, e.action.access, e.action.session, e.at)
  }

  ghost predicate SomeReopen(s: Auth, run: seq<Event>, user: UserId, from: int)
    decreases |run|
  {
    run != [] && ((Reopens(s, run[0], user) && run[0].at > from) || SomeReopen(Step(s, run[0]), run[1..], user, from))
  }

  ghost predicate SomeStamp(s: Auth, user: UserId, from: int) {
    exists t :: StampedAfter(s, user, t, from)
  }

  /** Revoked rows as they were, and no others of the user's: all that a session revocation aside
      leaves of a user for whom everything is closed. */
  ghost predicate SameRevoked(s: Auth, s': Auth, user: UserId) {
    && (forall t :: t in s.tokens && s.tokens[t].userId == user ==> t in s'.tokens && s'.tokens[t] == s.tokens[t])
    && (forall t :: t in s'.tokens && s'.tokens[t].userId == user ==> t in s.tokens && s.tokens[t].userId == user)
    && NoRefreshInFlight(s', user)
  }

  lemma SameRevokedCloses(s: Auth, s': Auth, user: UserId, from: int)
    requires Closed(s, user) && SameRevoked(s, s', user)
    ensures Closed(s', user) && (SomeStamp(s', user, from) <==> SomeStamp(s, user, from))
  {
    forall t | t in s'.tokens && s'.tokens[t].userId == user ensures t !in Unrevoked(s'.tokens, user) {
      assert t !in Unrevoked(s.tokens, user);
    }
    assert forall t :: StampedAfter(s', user, t, from) <==> StampedAfter(s, user, t, from);
  }

  lemma ClosedRevoked(s: Auth, user: UserId, t: TokenId)
    requires Closed(s, user) && t in s.tokens && s.tokens[t].userId == user
    ensures s.tokens[t].revokedAt.Some?
  {
    assert t !in Unrevoked(s.tokens, user);
  }

  lemma BeginClosed(s: Auth, id: TokenId, now: int, user: UserId)
    requires Closed(s, user)
    ensures SameRevoked(s, BeginRefresh(s, id, now), user)
  {
    BeginFrame(s, id, now);
    if id in s.tokens && s.tokens[id].userId == user {
      ClosedRevoked(s, user, id);
      ReuseRevokesNothing(s, id, now);
    }
  }

  lemma CommitClosed(s: Auth, request: nat, now: int, user: UserId)
    requires Closed(s, user) && Fit(s)
    ensures SameRevoked(s, CommitRefresh(s, request, now), user)
  {
    if Committable(s, request) {
      CommitFrame(s, request, now);
    }
  }

  lemma LoginClosed(s: Auth, v: UserId, way: LoginWay, now: int, user: UserId)
    requires Closed(s, user) && Fit(s) && v != user
    ensures SameRevoked(s, Login(s, v, way, now), user)
  {
  }

  lemma LogoutClosed(s: Auth, t: AccessToken, refresh: Option<TokenId>, session: SessionId, now: int, user: UserId)
    requires Closed(s, user)
    ensures SameRevoked(s, Logout(s, t, refresh, session, now), user)
  {
    LogoutFrame(s, t, refresh, session, now);
    if refresh.Some? && refresh.value in s.tokens && s.tokens[refresh.value].userId == user {
      ClosedRevoked(s, user, refresh.value);
    }
  }

  lemma RevokeClosed(s: Auth, step: RevocationStep, now: int, user: UserId)
    requires Closed(s, user)
    ensures SameRevoked(s, Revoke(s, step, now), user)
  {
    RevokeFrame(s, step, now);
    forall t | t in s.tokens && s.tokens[t].userId == user ensures s.tokens[t].revokedAt.Some? {
      ClosedRevoked(s, user, t);
    }
  }

  lemma RevokeSessionClosed(s: Auth, t: AccessToken, session: SessionId, now: int, user: UserId, from: int)
    requires Rooted(s) && Closed(s, user) && forall u :: u in s.tokens ==> RowOk(s.tokens[u], now)
    ensures var s' := RevokeSession(s, t, session, now);
            && Closed(s', user)
            && (SomeStamp(s', user, from) <==> SomeStamp(s, user, from) || (t.sub == user && MayRevoke(s, t, session, now) && now > from))
  {
    RevokeSessionFrame(s, t, session, now);
    var s' := RevokeSession(s, t, session, now);
    if t.sub == user && MayRevoke(s, t, session, now) {
      var id := s.sessions[session].refreshTokenId;
      assert SessionOk(s.tokens, s.origin, s.sessions[session]);
      ClosedRevoked(s, user, id);
      assert s'.tokens == s.tokens[id := s.tokens[id].(revokedAt := Some(now))];
      assert Unrevoked(s'.tokens, user) <= Unrevoked(s.tokens, user);
      assert forall u :: u != id ==> (StampedAfter(s', user, u, from) <==> StampedAfter(s, user, u, from));
      assert StampedAfter(s', user, id, from) <==> now > from;
      assert StampedAfter(s, user, id, from) ==> now > from;
    } else {
      if MayRevoke(s, t, session, now) {
        assert SessionOk(s.tokens, s.origin, s.sessions[session]);
      }
      SameRevokedCloses(s, s', user, from);
    }
  }

  lemma ActClosed(s: Auth, a: Action, now: int, user: UserId, from: int)
    requires Steady(s) && s.clock == now && Closed(s, user) && !(a.DoLogin? && a.user == user)
    ensures var s' := Act(s, a, now);
            && Closed(s', user)
            && (SomeStamp(s', user, from) <==> SomeStamp(s, user, from) || (Reopens(s, Event(now, a), user) && now > from))
  {
    var s' := Act(s, a, now);
    match a {
      case DoLogin(v, way) => LoginClosed(s, v, way, now, user);
      case DoBegin(token) => BeginClosed(s, token, now, user);
      case DoCommit(request) => CommitClosed(s, request, now, user);
      case DoLogout(access, refresh, session) => LogoutClosed(s, access, refresh, session, now, user);
      case DoBlacklist(access) => BlacklistFrame(s, access, now);
      case DoRevoke(step) => RevokeClosed(s, step, now, user);
      case DoRevokeSession(access, session) => RevokeSessionClosed(s, access, session, now, user, from);
      case DoSetActive(_, _) =>
    }
    if !a.DoRevokeSession? {
      SameRevokedCloses(s, s', user, from);
    }
  }

  lemma {:induction false} RunClosed(s: Auth, run: seq<Event>, user: UserId, from: int)
    requires Steady(s) && Timed(s.clock, run) && Closed(s, user) && NoLogin(run, user)
    ensures Closed(Exec(s, run), user)
    ensures SomeStamp(Exec(s, run), user, from) <==> SomeStamp(s, user, from) || SomeReopen(s, run, user, from)
    decreases |run|
  {
    if run != [] {
      var e := run[0];
      SteadyClock(s, e.at);
      ClosedIgnoresClock(s, e, user, from);
      ActClosed(s.(clock := e.at), e.action, e.at, user, from);
      StepSteady(s, e);
      RunClosed(Step(s, e), run[1..], user, from);
    }
  }

  lemma ClosedIgnoresClock(s: Auth, e: Event, user: UserId, from: int)
    ensures var s0 := s.(clock := e.at);
            && (Closed(s0, user) <==> Closed(s, user)) && (Reopens(s0, e, user) <==> Reopens(s, e, user))
            && (SomeStamp(s0, user, from) <==> SomeStamp(s, user, from))
  {
    assert forall t :: StampedAfter(s.(clock := e.at), user, t, from) <==> StampedAfter(s, user, t, from);
    if ByUser(e, user) {
      assert MayRevoke(s.(clock := e.at), e.action.access, e.action.session, e.at) <==> MayRevoke(s, e.action.access, e.action.session, e.at);
    }
  }

  /** From then on, until the next login, some refresh token of the user is answered at `now`
      exactly when the account is active and some token of theirs was revoked, or they have since
      revoked a session of theirs, less than 120 seconds before. */
  lemma AnsweredIff(s: Auth, user: UserId, after: seq<Event>, now: int)
    requires Steady(s) && Closed(s, user) && Timed(s.clock, after) && NoLogin(after, user) && Exec(s, after).clock <= now
    ensures var s' := Exec(s, after);
            (exists id :: id in s'.tokens && s'.tokens[id].userId == user && Decide(s', id, now) in {Decision.Grace, Decision.Rotate}) <==>
            user in s'.activeUsers && (SomeStamp(s, user, now - Micros(GRACE)) || SomeReopen(s, after, user, now - Micros(GRACE)))
  {
    RunClosed(s, after, user, now - Micros(GRACE));
    RunSteady(s, after);
    AnsweredNow(Exec(s, after), user, now);
  }

  lemma AnsweredNow(s: Auth, user: UserId, now: int)
    requires Steady(s) && Closed(s, user) && s.clock <= now
    ensures (exists id :: id in s.tokens && s.tokens[id].userId == user && Decide(s, id, now) in {Decision.Grace, Decision.Rotate}) <==>
            user in s.activeUsers && SomeStamp(s, user, now - Micros(GRACE))
  {
    forall id | id in s.tokens && s.tokens[id].userId == user
      ensures Decide(s, id, now) in {Decision.Grace, Decision.Rotate} <==>
              user in s.activeUsers && StampedAfter(s, user, id, now - Micros(GRACE))
    {
      ClosedRevoked(s, user, id);
      assert RowOk(s.tokens[id], s.clock);
    }
    var from := now - Micros(GRACE);
    if SomeStamp(s, user, from) {
      var t :| StampedAfter(s, user, t, from);
      assert t in s.tokens && s.tokens[t].userId == user;
    }
  }

  /** A session revocation reopens the grace period exactly when it takes effect on the user's own
      session: though every token of the user has been revoked for 120 seconds or more, one of
      them is again answered with an access token, for another 120 seconds. */
  lemma ReopensIff(s: Auth, t: AccessToken, session: SessionId, at: int, user: UserId, since: int, now: int)
    requires Rooted(s) && Sealed(s, user, since) && since + Micros(GRACE) <= now && at <= now < at + Micros(GRACE)
    ensures var s' := RevokeSession(s, t, session, at);
            (exists id :: id in s'.tokens && s'.tokens[id].userId == user && Decide(s', id, now) == Decision.Grace) <==>
            MayRevoke(s, t, session, at) && t.sub == user
  {
    RevokeSessionFrame(s, t, session, at);
    if MayRevoke(s, t, session, at) {
      var s', id := RevokeSession(s, t, session, at), s.sessions[session].refreshTokenId;
      assert SessionOk(s.tokens, s.origin, s.sessions[session]);
      if t.sub == user {
        assert Decide(s', id, now) == Decision.Grace;
      }
    }
  }

  /** What the grace period gives: an access token accepted until it expires, once the second of
      the revocation is over. */
  lemma GraceIsAccepted(s: Auth, id: TokenId, now: int, later: int)
    requires Decide(s, id, now) == Decision.Grace && s.nextId !in s.blacklist
    requires s.tokens[id].userId in s.revokedBefore ==> s.revokedBefore[s.tokens[id].userId].value < Micros(WholeSeconds(now))
    requires now <= later < Micros(WholeSeconds(now) + ACCESS_TTL)
    ensures var s', t := BeginRefresh(s, id, now), Mint(s.tokens[id].userId, s.nextId, now, ACCESS_TTL);
            t in s'.issued && Accepts(s', t, later)
  {
  }

  /** So the bound of AccessEnds is reached, to within the second that minting rounds away: a session
      revocation at `at`, and its refresh token presented as late as the grace period allows. */
  lemma EndIsReached(s: Auth, t: AccessToken, session: SessionId, at: int)
    requires Rooted(s) && MayRevoke(s, t, session, at) && s.nextId !in s.blacklist
    requires t.sub in s.revokedBefore ==> s.revokedBefore[t.sub].value < at
    ensures var s1, id, now := RevokeSession(s, t, session, at), s.sessions[session].refreshTokenId, at + Micros(GRACE) - 1;
            var a := Mint(t.sub, s.nextId, now, ACCESS_TTL);
            a in BeginRefresh(s1, id, now).issued && Accepts(BeginRefresh(s1, id, now), a, EndOf(at) - Micros(1) - 1)
  {
    var s1, id, now := RevokeSession(s, t, session, at), s.sessions[session].refreshTokenId, at + Micros(GRACE) - 1;
    assert SessionOk(s.tokens, s.origin, s.sessions[session]);
    RevokeSessionFrame(s, t, session, at);
    assert Decide(s1, id, now) == Decision.Grace;
    FloorBelow(now);
    GraceIsAccepted(s1, id, now, EndOf(at) - Micros(1) - 1);
  }

  // --- Access kept up by session revocations -----------------------------------------------

  function Seconds(k: nat): int { Micros(1000 + 100 * k) }

  /** The access token of the k-th round. */
  function Held(k: nat): AccessToken { Mint(7, 4 + k, Seconds(k), ACCESS_TTL) }

  /** A login, everything revoked 100 seconds before the first round, then `n` rounds: revoke the
      session with the access token held, and present the revoked refresh token again. */
  function Rounds(n: nat): seq<Event> {
    if n == 0 then LOGGED_IN + AtOnce(3, 7, Micros(900)) + [Event(Seconds(0), DoBegin(0))]
    else Rounds(n - 1) + Round(n - 1)
  }

  const LOGGED_IN: seq<Event> := [Event(1, DoSetActive(7, true)), Event(2, DoLogin(7, Password(true, false)))]

  function Round(k: nat): seq<Event> {
    [Event(Seconds(k) + Micros(50), DoRevokeSession(Held(k), 1)), Event(Seconds(k + 1), DoBegin(0))]
  }

  /** Where the rounds lead: the refresh token revoked, nothing in flight, and access. */
  ghost predicate Holding(s: Auth, k: nat) {
    && s.clock == Seconds(k) && s.nextId == 5 + k && s.inFlight == map[] && 7 in s.activeUsers
    && 0 in s.tokens && s.tokens[0].userId == 7 && s.tokens[0].revokedAt.Some?
    && 1 in s.sessions && s.sessions[1].userId == 7 && s.sessions[1].refreshTokenId == 0
    && s.blacklist == map[] && 7 in s.revokedBefore && s.revokedBefore[7].value == Micros(900)
    && Held(k) in s.issued
  }

  lemma HeldAccepted(s: Auth, k: nat, now: int)
    requires Holding(s, k) && Seconds(k) <= now < Seconds(k) + Micros(ACCESS_TTL)
    ensures Accepts(s, Held(k), now)
  {
    WholeRounds(k);
  }

  lemma WholeRounds(k: nat)
    ensures WholeSeconds(Seconds(k)) == 1000 + 100 * k
    ensures Held(k) == AccessToken(7, 4 + k, 1000 + 100 * k, 1900 + 100 * k)
  {
  }

  /** After the first event of a round: the session's token stamped again. */
  ghost predicate Restamped(s: Auth, k: nat) {
    && s.nextId == 5 + k && s.inFlight == map[] && 7 in s.activeUsers
    && 0 in s.tokens && s.tokens[0].userId == 7 && s.tokens[0].revokedAt == Some(Seconds(k) + Micros(50))
    && 1 in s.sessions && s.sessions[1].userId == 7 && s.sessions[1].refreshTokenId == 0
    && s.blacklist == map[] && 7 in s.revokedBefore && s.revokedBefore[7].value == Micros(900)
  }

  lemma RoundRestamps(s: Auth, k: nat)
    requires Holding(s, k)
    ensures Restamped(Step(s, Event(Seconds(k) + Micros(50), DoRevokeSession(Held(k), 1))), k)
  {
    var mid := Seconds(k) + Micros(50);
    var s0 := s.(clock := mid);
    HeldAccepted(s, k, mid);
    assert MayRevoke(s0, Held(k), 1, mid);
    RevokeSessionFrame(s0, Held(k), 1, mid);
  }

  lemma RoundAnswers(s: Auth, k: nat)
    requires Restamped(s, k)
    ensures Holding(Step(s, Event(Seconds(k + 1), DoBegin(0))), k + 1)
  {
    var s1 := s.(clock := Seconds(k + 1));
    assert Decide(s1, 0, Seconds(k + 1)) == Decision.Grace;
    assert BeginRefresh(s1, 0, Seconds(k + 1)) == Issue(s1, 7, Seconds(k + 1));
  }

  lemma RoundRuns(s: Auth, k: nat)
    requires Holding(s, k)
    ensures Timed(s.clock, Round(k)) && Holding(Exec(s, Round(k)), k + 1)
  {
    var first, second := Round(k)[0], Round(k)[1];
    RoundTimed(k);
    RoundRestamps(s, k);
    RoundAnswers(Step(s, first), k);
    TwoSteps(s, Round(k));
    assert Exec(s, Round(k)) == Step(Step(s, first), second);
  }

  lemma RoundTimed(k: nat)
    ensures Timed(Seconds(k), Round(k))
  {
    var rest := [Event(Seconds(k + 1), DoBegin(0))];
    assert Round(k)[1..] == rest && rest[1..] == [];
  }

  lemma AfterRevocation(s: Auth)
    requires s.clock == 2 && s.nextId == 3 && s.inFlight == map[] && s.activeUsers == {7} && s.blacklist == map[]
    requires s.tokens == map[0 := RefreshToken(7, 2, 2 + Micros(STANDARD_TTL), None, None)]
    requires s.sessions == map[1 := UserSession(7, 0, true)] && s.revoking == map[]
    ensures var s1 := Exec(s, AtOnce(3, 7, Micros(900)));
            Timed(2, AtOnce(3, 7, Micros(900))) && s1.clock == Micros(900) && Holding(Step(s1, Event(Seconds(0), DoBegin(0))), 0)
  {
    AtOnceRuns(s, 7, Micros(900));
    assert 0 in Unrevoked(s.tokens, 7);
    var s1 := Exec(s, AtOnce(3, 7, Micros(900))).(clock := Seconds(0));
    assert s1.tokens[0].revokedAt == Some(Micros(900));
    assert Decide(s1, 0, Seconds(0)) == Decision.Grace;
  }

  lemma FirstRound()
    ensures Timed(0, Rounds(0)) && Holding(Exec(EMPTY, Rounds(0)), 0)
  {
    var s1, revoked, begin := Exec(EMPTY, LOGGED_IN), AtOnce(3, 7, Micros(900)), [Event(Seconds(0), DoBegin(0))];
    AfterRevocation(s1);
    ExecThen(EMPTY, LOGGED_IN, revoked);
    var s2 := Exec(s1, revoked);
    assert begin[1..] == [] && Exec(s2, begin) == Step(s2, begin[0]);
    ExecThen(EMPTY, LOGGED_IN + revoked, begin);
  }

  lemma {:induction false} RoundsHold(n: nat)
    ensures Timed(0, Rounds(n)) && Holding(Exec(EMPTY, Rounds(n)), n)
  {
    if n == 0 {
      FirstRound();
    } else {
      RoundsHold(n - 1);
      RoundRuns(Exec(EMPTY, Rounds(n - 1)), n - 1);
      ExecThen(EMPTY, Rounds(n - 1), Round(n - 1));
    }
  }

  lemma {:induction false} RoundsShape(n: nat)
    ensures |Rounds(n)| == 7 + 2 * n
    ensures Rounds(n)[2..6] == AtOnce(3, 7, Micros(900))
    ensures forall i :: 2 < i < |Rounds(n)| ==> !Rounds(n)[i].action.DoLogin?
  {
    if n > 0 {
      RoundsShape(n - 1);
      assert Rounds(n) == Rounds(n - 1) + Round(n - 1);
      assert Rounds(n)[2..6] == Rounds(n - 1)[2..6];
    }
  }

  /** So AccessEnds needs its condition on session revocations. However long after everything was
      revoked, without a login since and without a refresh in flight, a user who goes on
      revoking their session can still be let in. */
  lemma AccessWithoutBound(n: nat)
    ensures var s := Exec(EMPTY, Rounds(n));
            && Timed(0, Rounds(n)) && |Rounds(n)| > 6 && Rounds(n)[2..6] == AtOnce(3, 7, Micros(900))
            && (forall i :: 2 < i < |Rounds(n)| ==> !Rounds(n)[i].action.DoLogin?)
            && s.inFlight == map[] && Held(n) in s.issued && Held(n).sub == 7
            && s.clock == Seconds(n) == Micros(900) + Micros(100 * (n + 1)) && Accepts(s, Held(n), Seconds(n))
  {
    RoundsHold(n);
    RoundsShape(n);
    HeldAccepted(Exec(EMPTY, Rounds(n)), n, Seconds(n));
  }

  /** With one in flight there is no such bound, and the revocation leaves it in flight
      (CommitIsExact): whenever it commits, however much later, an access token is issued
      that is good for its 900 seconds. */
  lemma InFlightOutlastsRevocation(s: Auth, request: nat, user: UserId, at: int, commitAt: int)
    requires request in s.inFlight && s.inFlight[request].token in s.tokens
    requires s.tokens[s.inFlight[request].token].userId == user && user in s.activeUsers
    requires KeyIs(s, user, at) && at + Micros(1) <= commitAt
    requires s.nextId + 1 !in s.blacklist
    ensures var s' := CommitRefresh(s, request, commitAt);
            var t := Mint(user, s.nextId + 1, commitAt, ACCESS_TTL);
            t in s'.issued && Accepts(s', t, commitAt)
  {
  }
}
