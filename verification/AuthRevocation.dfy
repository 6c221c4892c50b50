/** Revoking everything a user has, step by step: the clock is read, the Redis key set, the tables
    updated and the transaction committed, while refreshes go on in between. */
module AuthRevocation {
  import opened Basics
  import opened Wrappers
  import opened AuthTokens
  import opened AuthRuns
  import Redis

  // --- Redis -------------------------------------------------------------------------------

  predicate SetsKey(s: Auth, a: Action, user: UserId) {
    a.DoRevoke? && a.step.SetKey? && KeyDue(s, a.step.revocation) && s.revoking[a.step.revocation].user == user
  }

  /** Only setting it changes a user's revocation key. */
  lemma KeyFrame(s: Auth, a: Action, now: int)
    ensures var s' := Act(s, a, now);
            if a.DoRevoke? && a.step.SetKey? && KeyDue(s, a.step.revocation) then
              var x := s.revoking[a.step.revocation];
              s'.revokedBefore == Redis.SetEx(s.revokedBefore, x.user, x.at, Micros(REMEMBER_TTL), now)
            else s'.revokedBefore == s.revokedBefore
  {
    match a {
      case DoBegin(token) => BeginFrame(s, token, now);
      case DoLogout(access, refresh, session) => LogoutFrame(s, access, refresh, session, now);
      case DoBlacklist(access) => BlacklistFrame(s, access, now);
      case DoRevoke(step) => RevokeFrame(s, step, now);
      case DoRevokeSession(access, session) => RevokeSessionFrame(s, access, session, now);
      case _ =>
    }
  }

  /** Only a logout or a revocation's own blacklisting changes the blacklist. */
  lemma BlacklistOnly(s: Auth, a: Action, now: int)
    ensures var s' := Act(s, a, now);
            if a.DoLogout? || a.DoBlacklist? then s'.blacklist == Blacklisted(s, a.access, now).blacklist
            else s'.blacklist == s.blacklist
  {
    match a {
      case DoBegin(token) => BeginFrame(s, token, now);
      case DoLogout(access, refresh, session) => LogoutFrame(s, access, refresh, session, now);
      case DoBlacklist(access) => BlacklistFrame(s, access, now);
      case DoRevoke(step) => RevokeFrame(s, step, now);
      case DoRevokeSession(access, session) => RevokeSessionFrame(s, access, session, now);
      case _ =>
    }
  }

  /** What every step leaves of the revocations under way. */
  lemma RevokingFrame(s: Auth, a: Action, now: int)
    requires !a.DoRevoke?
    ensures Act(s, a, now).revoking == s.revoking
  {
    match a {
      case DoBegin(token) => BeginFrame(s, token, now);
      case DoLogout(access, refresh, session) => LogoutFrame(s, access, refresh, session, now);
      case DoBlacklist(access) => BlacklistFrame(s, access, now);
      case DoRevokeSession(access, session) => RevokeSessionFrame(s, access, session, now);
      case _ =>
    }
  }

  lemma FlightFrame(s: Auth, a: Action, now: int)
    requires !a.DoBegin? && !a.DoCommit?
    ensures Act(s, a, now).inFlight == s.inFlight
  {
    match a {
      case DoLogout(access, refresh, session) => LogoutFrame(s, access, refresh, session, now);
      case DoBlacklist(access) => BlacklistFrame(s, access, now);
      case DoRevoke(step) => RevokeFrame(s, step, now);
      case DoRevokeSession(access, session) => RevokeSessionFrame(s, access, session, now);
      case _ =>
    }
  }

  lemma IdsGrow(s: Auth, a: Action, now: int)
    ensures s.nextId <= Act(s, a, now).nextId
  {
    match a {
      case DoBegin(token) => BeginFrame(s, token, now);
      case DoLogout(access, refresh, session) => LogoutFrame(s, access, refresh, session, now);
      case DoBlacklist(access) => BlacklistFrame(s, access, now);
      case DoRevoke(step) => RevokeFrame(s, step, now);
      case DoRevokeSession(access, session) => RevokeSessionFrame(s, access, session, now);
      case _ =>
    }
  }

  /** A revocation key is no newer than the clock and outlives every refresh token it is newer than. */
  ghost predicate KeysOk(s: Auth) {
    forall u :: u in s.revokedBefore ==>
      var key := s.revokedBefore[u];
      key.value <= s.clock && key.deadline.Some? && key.deadline.value >= key.value + Micros(REMEMBER_TTL)
  }

  ghost predicate Numbered(s: Auth) {
    && (forall r :: r in s.inFlight ==> r < s.nextId)
    && (forall i :: i in s.sessions ==> i < s.nextId)
  }

  /** What holds in every state of a run. */
  ghost predicate Steady(s: Auth) { Sound(s) && Rooted(s) && KeysOk(s) && Numbered(s) }

  lemma KeysStep(s: Auth, a: Action, now: int)
    requires KeysOk(s) && s.clock == now && RevokingOk(s.revoking, s.nextId, now)
    ensures KeysOk(Act(s, a, now))
  {
    KeyFrame(s, a, now);
    ActClock(s, a, now);
  }

  lemma NumberedStep(s: Auth, a: Action, now: int)
    requires Numbered(s)
    ensures Numbered(Act(s, a, now))
  {
    IdsGrow(s, a, now);
    if a.DoBegin? {
      BeginFrame(s, a.token, now);
    } else if a.DoCommit? {
      if Committable(s, a.request) {
        CommitFrame(s, a.request, now);
      }
    } else if !a.DoLogin? {
      FlightFrame(s, a, now);
      ActStamps(s, a, now);
    }
  }

  lemma StepSteady(s: Auth, e: Event)
    requires Steady(s) && s.clock <= e.at
    ensures Steady(Step(s, e)) && Step(s, e).clock == e.at
  {
    StepKeeps(s, e);
    StepRooted(s, e);
    ClockForward(s, e.at);
    KeysStep(s.(clock := e.at), e.action, e.at);
    NumberedStep(s.(clock := e.at), e.action, e.at);
    StepClock(s, e);
  }

  lemma {:induction false} RunSteady(s: Auth, run: seq<Event>)
    requires Steady(s) && Timed(s.clock, run)
    ensures Steady(Exec(s, run)) && s.clock <= Exec(s, run).clock
    decreases |run|
  {
    if run != [] {
      StepSteady(s, run[0]);
      RunSteady(Step(s, run[0]), run[1..]);
    }
  }

  /** Every state that a run leads to is one. */
  lemma ReachedSteady(run: seq<Event>)
    requires Timed(0, run)
    ensures Steady(Exec(EMPTY, run))
  {
    EmptyOk();
    RunSteady(EMPTY, run);
  }

  lemma {:induction false} ExecJoins(s: Auth, run: seq<Event>, more: seq<Event>)
    ensures Exec(s, run + more) == Exec(Exec(s, run), more)
    decreases |run|
  {
    if run == [] {
      assert run + more == more;
    } else {
      var all, s1 := run + more, Step(s, run[0]);
      assert all[0] == run[0] && all[1..] == run[1..] + more;
      ExecJoins(s1, run[1..], more);
      assert Exec(s, all) == Exec(s1, all[1..]);
    }
  }

  function EndOfRun(clock: int, run: seq<Event>): int { if run == [] then clock else run[|run| - 1].at }

  lemma {:induction false} ExecClock(s: Auth, run: seq<Event>)
    ensures Exec(s, run).clock == EndOfRun(s.clock, run)
    decreases |run|
  {
    if run != [] {
      StepClock(s, run[0]);
      ExecClock(Step(s, run[0]), run[1..]);
    }
  }

  lemma {:induction false} TimedJoins(clock: int, run: seq<Event>, more: seq<Event>)
    requires Timed(clock, run) && Timed(EndOfRun(clock, run), more)
    ensures Timed(clock, run + more)
    decreases |run|
  {
    if run == [] {
      assert run + more == more;
    } else {
      TimedJoins(run[0].at, run[1..], more);
      assert (run + more)[1..] == run[1..] + more;
    }
  }

  lemma ExecThen(s: Auth, run: seq<Event>, more: seq<Event>)
    requires Timed(s.clock, run) && Timed(Exec(s, run).clock, more)
    ensures Exec(s, run + more) == Exec(Exec(s, run), more) && Timed(s.clock, run + more)
  {
    ExecJoins(s, run, more);
    ExecClock(s, run);
    TimedJoins(s.clock, run, more);
  }

  lemma TwoSteps(s: Auth, more: seq<Event>)
    requires |more| == 2
    ensures Exec(s, more) == Step(Step(s, more[0]), more[1])
  {
    var s1 := Step(s, more[0]);
    assert more[1..] == [more[1]] && more[1..][1..] == [];
    assert Exec(s1, more[1..]) == Exec(Step(s1, more[1]), []);
  }

  // --- The steps of one revocation -----------------------------------------------------------

  /** A revocation up to its commit, with nothing in between. */
  function UpToCommit(s: Auth, user: UserId, keyFirst: bool, now: int, later: int): Auth {
    var r, s1 := s.nextId, RevokeBegin(s, user, keyFirst, now);
    if keyFirst then RevokeRows(RevokeKey(s1, r, later), r) else RevokeKey(RevokeRows(s1, r), r, later)
  }

  lemma KeyThenRows(s: Auth, user: UserId, now: int, later: int)
    ensures UpToCommit(s, user, true, now, later) ==
            s.(revokedBefore := Redis.SetEx(s.revokedBefore, user, now, Micros(REMEMBER_TTL), later),
               revoking := s.revoking[s.nextId := Revocation(user, now, true, true, Some(s.nextId + 1))], nextId := s.nextId + 1)
  {
    var r, s1 := s.nextId, RevokeBegin(s, user, true, now);
    var s2 := RevokeKey(s1, r, later);
    assert s2.revoking == s.revoking[r := Revocation(user, now, true, true, None)];
    assert RevokeRows(s2, r).revoking == s.revoking[r := Revocation(user, now, true, true, Some(r + 1))];
  }

  lemma RowsThenKey(s: Auth, user: UserId, now: int, later: int)
    ensures UpToCommit(s, user, false, now, later) ==
            s.(revokedBefore := Redis.SetEx(s.revokedBefore, user, now, Micros(REMEMBER_TTL), later),
               revoking := s.revoking[s.nextId := Revocation(user, now, false, true, Some(s.nextId + 1))], nextId := s.nextId + 1)
  {
    var r, s1 := s.nextId, RevokeBegin(s, user, false, now);
    var s2 := RevokeRows(s1, r);
    assert s2.revoking == s.revoking[r := Revocation(user, now, false, false, Some(r + 1))];
    assert RevokeKey(s2, r, later).revoking == s.revoking[r := Revocation(user, now, false, true, Some(r + 1))];
  }

  lemma CommitAtOnce(s: Auth, s2: Auth, user: UserId, keyFirst: bool, now: int, later: int)
    requires s.nextId !in s.revoking && forall id :: id in s.tokens || id in s.sessions ==> id < s.nextId
    requires s2 == s.(revokedBefore := Redis.SetEx(s.revokedBefore, user, now, Micros(REMEMBER_TTL), later),
                      revoking := s.revoking[s.nextId := Revocation(user, now, keyFirst, true, Some(s.nextId + 1))],
                      nextId := s.nextId + 1)
    ensures RevokeCommit(s2, s.nextId) == RevokeEverything(s, user, None, now, later)
  {
    RevokeCommitFrame(s2, s.nextId);
    assert s2.revoking - {s.nextId} == s.revoking;
  }

  /** A revocation with nothing in between comes to the same in both orders, and to what the
      service methods do. */
  lemma Uninterrupted(s: Auth, user: UserId, keyFirst: bool, now: int, later: int)
    requires s.nextId !in s.revoking && forall id :: id in s.tokens || id in s.sessions ==> id < s.nextId
    ensures RevokeCommit(UpToCommit(s, user, keyFirst, now, later), s.nextId) == RevokeEverything(s, user, None, now, later)
  {
    if keyFirst {
      KeyThenRows(s, user, now, later);
    } else {
      RowsThenKey(s, user, now, later);
    }
    CommitAtOnce(s, UpToCommit(s, user, keyFirst, now, later), user, keyFirst, now, later);
  }

  /** Such a revocation as events. */
  function AtOnce(r: nat, user: UserId, at: int): seq<Event> {
    [Event(at, DoRevoke(ReadClock(user, true))), Event(at, DoRevoke(SetKey(r))),
     Event(at, DoRevoke(UpdateRows(r))), Event(at, DoRevoke(Commit(r)))]
  }

  lemma FourSteps(s: Auth, run: seq<Event>)
    requires |run| == 4
    ensures Exec(s, run) == Step(Step(Step(Step(s, run[0]), run[1]), run[2]), run[3])
  {
    TwoSteps(Step(Step(s, run[0]), run[1]), run[2..]);
    assert run[1..][1..] == run[2..];
    assert Exec(Step(s, run[0]), run[1..]) == Exec(Step(Step(s, run[0]), run[1]), run[2..]);
  }

  lemma AtOnceSteps(s: Auth, user: UserId, at: int)
    requires s.clock == at
    ensures var run := AtOnce(s.nextId, user, at);
            Step(Step(Step(s, run[0]), run[1]), run[2]) == UpToCommit(s, user, true, at, at)
    ensures UpToCommit(s, user, true, at, at).clock == at
  {
    var r := s.nextId;
    var s1 := RevokeBegin(s, user, true, at);
    var s2 := RevokeKey(s1, r, at);
    RevokeKeyFrame(s1, r, at);
    assert s.(clock := at) == s && s1.(clock := at) == s1 && s2.(clock := at) == s2;
  }

  lemma CommitStep(s: Auth, r: nat)
    ensures Step(s, Event(s.clock, DoRevoke(Commit(r)))) == RevokeCommit(s, r)
  {
    assert s.(clock := s.clock) == s;
  }

  lemma AtOnceFrom(s: Auth, user: UserId, at: int)
    requires s.nextId !in s.revoking && forall id :: id in s.tokens || id in s.sessions ==> id < s.nextId
    requires s.clock == at
    ensures var run := AtOnce(s.nextId, user, at);
            Step(Step(Step(Step(s, run[0]), run[1]), run[2]), run[3]) == RevokeEverything(s, user, None, at, at)
  {
    AtOnceSteps(s, user, at);
    CommitStep(UpToCommit(s, user, true, at, at), s.nextId);
    Uninterrupted(s, user, true, at, at);
  }

  lemma ExecForgetsClock(s: Auth, run: seq<Event>)
    requires run != []
    ensures Exec(s, run) == Exec(s.(clock := run[0].at), run)
  {
    assert s.(clock := run[0].at) == s.(clock := run[0].at).(clock := run[0].at);
    assert Step(s, run[0]) == Step(s.(clock := run[0].at), run[0]);
  }

  lemma AtOnceRuns(s: Auth, user: UserId, at: int)
    requires s.nextId !in s.revoking && forall id :: id in s.tokens || id in s.sessions ==> id < s.nextId
    requires s.clock <= at
    ensures var run := AtOnce(s.nextId, user, at);
            Timed(s.clock, run) && Exec(s, run) == RevokeEverything(s.(clock := at), user, None, at, at)
  {
    var s0, run := s.(clock := at), AtOnce(s.nextId, user, at);
    FourSteps(s0, run);
    AtOnceFrom(s0, user, at);
    ExecForgetsClock(s, run);
    AllAt(s.clock, run, at);
  }

  lemma {:induction false} AllAt(clock: int, run: seq<Event>, at: int)
    requires clock <= at && forall i :: 0 <= i < |run| ==> run[i].at == at
    ensures Timed(clock, run)
    decreases |run|
  {
    if run != [] {
      AllAt(at, run[1..], at);
    }
  }

  /** What a revocation's commit does: it stamps with the revocation's clock reading exactly the
      user's rows that its UPDATE saw and that are still unrevoked, closes exactly the sessions it
      saw, and touches nothing else. */
  lemma CommitIsExact(s: Auth, r: nat)
    requires CommitDue(s, r)
    ensures var s', x := RevokeCommit(s, r), s.revoking[r];
            && Unrevoked(s'.tokens, x.user) == (set t | t in Unrevoked(s.tokens, x.user) && t >= x.seen.value)
            && Open(s'.sessions, x.user) == (set i | i in Open(s.sessions, x.user) && i >= x.seen.value)
            && s'.tokens.Keys == s.tokens.Keys && s'.sessions.Keys == s.sessions.Keys
            && (forall t :: t in Unrevoked(s.tokens, x.user) && t < x.seen.value ==> s'.tokens[t] == s.tokens[t].(revokedAt := Some(x.at)))
            && (forall t :: t in s.tokens && (t !in Unrevoked(s.tokens, x.user) || t >= x.seen.value) ==> s'.tokens[t] == s.tokens[t])
            && (forall i :: i in s.sessions && (i !in Open(s.sessions, x.user) || i >= x.seen.value) ==> s'.sessions[i] == s.sessions[i])
            && s'.inFlight == s.inFlight && s'.revokedBefore == s.revokedBefore && s'.revoking == s.revoking - {r}
  {
    RevokeCommitFrame(s, r);
  }

  // --- Whether anything rotates again ----------------------------------------------------------

  ghost predicate NoLogin(run: seq<Event>, user: UserId) {
    forall e :: e in run ==> !(e.action.DoLogin? && e.action.user == user)
  }

  /** The user's key is set, and neither it nor any value that a revocation under way has yet to
      give it is older than `time`. A revocation that began earlier may set its key later. */
  ghost predicate Bars(s: Auth, user: UserId, time: int) {
    && user in s.revokedBefore && time <= s.revokedBefore[user].value
    && forall r :: r in s.revoking && s.revoking[r].user == user && !s.revoking[r].keySet ==> time <= s.revoking[r].at
  }

  ghost predicate RowFree(s: Auth, user: UserId, t: TokenId, until: int) {
    t in Unrevoked(s.tokens, user) && s.tokens[t].expiresAt > until && !Bars(s, user, s.tokens[t].issuedAt)
  }

  ghost predicate FlightFree(s: Auth, user: UserId, r: nat, until: int) {
    && r in s.inFlight && s.inFlight[r].token in s.tokens && s.tokens[s.inFlight[r].token].userId == user
    && s.tokens[s.inFlight[r].token].expiresAt > until && !Bars(s, user, s.inFlight[r].begunAt)
  }

  ghost predicate Free(s: Auth, user: UserId, until: int) {
    (exists t :: RowFree(s, user, t, until)) || (exists r :: FlightFree(s, user, r, until))
  }

  /** After `after`, in which the user does not log in, the refresh token `id` passes its checks. */
  ghost predicate Rotates(s: Auth, user: UserId, after: seq<Event>, id: TokenId, later: int) {
    && Timed(s.clock, after) && NoLogin(after, user) && Exec(s, after).clock <= later
    && id in Exec(s, after).tokens && Exec(s, after).tokens[id].userId == user
    && Decide(Exec(s, after), id, later) == Decision.Rotate
  }

  ghost predicate CanRotate(s: Auth, user: UserId) {
    exists after, id, later :: Rotates(s, user, after, id, later)
  }

  /** A row that is not free does not pass: its key stands for as long as it lives. */
  lemma NotFreeRejected(s: Auth, user: UserId, id: TokenId, now: int, until: int)
    requires Sound(s) && KeysOk(s) && until <= now && id in s.tokens && s.tokens[id].userId == user && !RowFree(s, user, id, until)
    ensures Decide(s, id, now) != Decision.Rotate
  {
    assert RowOk(s.tokens[id], s.clock);
  }

  lemma BarsNow(s: Auth, a: Action, user: UserId, now: int, time: int)
    requires Bars(s, user, time) && time <= now
    ensures Bars(Act(s, a, now), user, time)
  {
    KeyFrame(s, a, now);
    if a.DoRevoke? {
      match a.step {
        case SetKey(r) => RevokeKeyFrame(s, r, now);
        case Commit(r) => RevokeCommitFrame(s, r);
        case _ =>
      }
    } else {
      RevokingFrame(s, a, now);
    }
  }

  lemma BeginNotFree(s: Auth, id: TokenId, now: int, user: UserId, until: int)
    requires Sound(s) && KeysOk(s) && s.clock == now && until <= now && !Free(s, user, until)
    ensures !Free(BeginRefresh(s, id, now), user, until)
  {
    BeginFrame(s, id, now);
    var s' := BeginRefresh(s, id, now);
    if id in s.tokens && s.tokens[id].userId == user {
      assert !RowFree(s, user, id, until);
      NotFreeRejected(s, user, id, now, until);
    }
    forall t ensures !RowFree(s', user, t, until) {
      assert !RowFree(s, user, t, until);
    }
    forall r ensures !FlightFree(s', user, r, until) {
      assert !FlightFree(s, user, r, until);
    }
  }

  lemma CommitNotFree(s: Auth, request: nat, now: int, user: UserId, until: int)
    requires Sound(s) && !Free(s, user, until)
    ensures !Free(CommitRefresh(s, request, now), user, until)
  {
    var s' := CommitRefresh(s, request, now);
    if Committable(s, request) {
      CommitFrame(s, request, now);
      assert s.nextId !in s.tokens && s.inFlight[request].token != s.nextId;
      assert !FlightFree(s, user, request, until);
      forall t ensures !RowFree(s', user, t, until) {
        assert !RowFree(s, user, t, until);
      }
      forall r ensures !FlightFree(s', user, r, until) {
        assert !FlightFree(s, user, r, until);
      }
    }
  }

  lemma LoginNotFree(s: Auth, v: UserId, way: LoginWay, now: int, user: UserId, until: int)
    requires Sound(s) && v != user && !Free(s, user, until)
    ensures !Free(Login(s, v, way, now), user, until)
  {
    var s' := Login(s, v, way, now);
    assert s.nextId !in s.tokens;
    forall t ensures !RowFree(s', user, t, until) {
      assert !RowFree(s, user, t, until);
    }
    forall r ensures !FlightFree(s', user, r, until) {
      assert !FlightFree(s, user, r, until);
    }
  }

  /** Stamping rows and moving the key forward frees nothing. */
  lemma StampsNotFree(s: Auth, s': Auth, user: UserId, until: int)
    requires Sound(s) && !Free(s, user, until) && Stamps(s, s') && s'.inFlight == s.inFlight
    requires forall time :: time <= s.clock && Bars(s, user, time) ==> Bars(s', user, time)
    ensures !Free(s', user, until)
  {
    forall t ensures !RowFree(s', user, t, until) {
      assert !RowFree(s, user, t, until);
      if t in s.tokens {
        assert RowOk(s.tokens[t], s.clock);
      }
    }
    forall r ensures !FlightFree(s', user, r, until) {
      assert !FlightFree(s, user, r, until);
    }
  }

  lemma ActNotFree(s: Auth, a: Action, now: int, user: UserId, until: int)
    requires Sound(s) && KeysOk(s) && s.clock == now && until <= now && !Free(s, user, until)
    requires !(a.DoLogin? && a.user == user)
    ensures !Free(Act(s, a, now), user, until)
  {
    if a.DoBegin? {
      BeginNotFree(s, a.token, now, user, until);
    } else if a.DoCommit? {
      CommitNotFree(s, a.request, now, user, until);
    } else if a.DoLogin? {
      LoginNotFree(s, a.user, a.way, now, user, until);
    } else {
      ActStamps(s, a, now);
      FlightFrame(s, a, now);
      forall time | time <= s.clock && Bars(s, user, time) ensures Bars(Act(s, a, now), user, time) {
        BarsNow(s, a, user, now, time);
      }
      StampsNotFree(s, Act(s, a, now), user, until);
    }
  }

  lemma FreeIgnoresClock(s: Auth, now: int, user: UserId, until: int)
    ensures Free(s.(clock := now), user, until) <==> Free(s, user, until)
  {
    var s' := s.(clock := now);
    assert forall time :: Bars(s', user, time) <==> Bars(s, user, time);
    assert forall t :: RowFree(s', user, t, until) <==> RowFree(s, user, t, until);
    assert forall r :: FlightFree(s', user, r, until) <==> FlightFree(s, user, r, until);
  }

  lemma {:induction false} RunNotFree(s: Auth, run: seq<Event>, user: UserId, until: int)
    requires Steady(s) && Timed(s.clock, run) && until <= s.clock && NoLogin(run, user) && !Free(s, user, until)
    ensures !Free(Exec(s, run), user, until)
    decreases |run|
  {
    if run != [] {
      var e := run[0];
      ClockForward(s, e.at);
      FreeIgnoresClock(s, e.at, user, until);
      ActNotFree(s.(clock := e.at), e.action, e.at, user, until);
      StepSteady(s, e);
      RunNotFree(Step(s, e), run[1..], user, until);
    }
  }

  // A free row or flight does rotate.

  lemma RowRotates(s: Auth, user: UserId, t: TokenId)
    requires t in Unrevoked(s.tokens, user) && s.tokens[t].expiresAt > s.clock
    requires user in s.revokedBefore ==> s.tokens[t].issuedAt > s.revokedBefore[user].value
    ensures Rotates(s, user, [Event(s.clock, DoSetActive(user, true))], t, s.clock)
  {
    var e := Event(s.clock, DoSetActive(user, true));
    assert [e][1..] == [];
    assert Exec(s, [e]) == s.(activeUsers := s.activeUsers + {user});
  }

  lemma FlightRotates(s: Auth, user: UserId, r: nat)
    requires r in s.inFlight && s.inFlight[r].token in s.tokens && s.nextId !in s.tokens
    requires s.tokens[s.inFlight[r].token].userId == user && s.tokens[s.inFlight[r].token].expiresAt > s.clock
    requires user in s.revokedBefore ==> s.inFlight[r].begunAt > s.revokedBefore[user].value
    ensures CanRotate(s, user)
  {
    var e, s' := Event(s.clock, DoCommit(r)), CommitRefresh(s, r, s.clock);
    assert s.(clock := s.clock) == s;
    CommitFrame(s, r, s.clock);
    SuccessorUnrevoked(s, r, s.clock);
    assert Step(s, e) == s';
    RowRotates(s', user, s.nextId);
    RotatesThen(s, e, user);
  }

  lemma RotatesThen(s: Auth, e: Event, user: UserId)
    requires s.clock <= e.at && !(e.action.DoLogin? && e.action.user == user) && CanRotate(Step(s, e), user)
    ensures CanRotate(s, user)
  {
    var after, id, later :| Rotates(Step(s, e), user, after, id, later);
    StepClock(s, e);
    assert ([e] + after)[1..] == after;
    assert Rotates(s, user, [e] + after, id, later);
  }

  /** A revocation under way can go on to set its key. */
  lemma KeyMayFollow(s: Auth, r: nat)
    requires r in s.revoking && !s.revoking[r].keySet
    ensures var s1 := Step(s, Event(s.clock, DoRevoke(UpdateRows(r))));
            var s2, x := Step(s1, Event(s.clock, DoRevoke(SetKey(r)))), s.revoking[r];
            s2 == s.(revokedBefore := Redis.SetEx(s.revokedBefore, x.user, x.at, Micros(REMEMBER_TTL), s.clock), revoking := s2.revoking)
  {
    assert s.(clock := s.clock) == s;
    var s1 := RevokeRows(s, r);
    assert s1 == s.(revoking := s1.revoking) && KeyDue(s1, r) && s1.revoking[r].at == s.revoking[r].at && s1.revoking[r].user == s.revoking[r].user;
    assert Step(s, Event(s.clock, DoRevoke(UpdateRows(r)))) == s1;
    RevokeKeyFrame(s1, r, s.clock);
  }

  lemma FreeByKey(s: Auth, user: UserId)
    requires Sound(s)
    requires (exists t :: RowNewer(s, user, t)) || (exists r :: FlightNewer(s, user, r))
    ensures CanRotate(s, user)
  {
    if t :| RowNewer(s, user, t) {
      RowRotates(s, user, t);
    } else {
      var r :| FlightNewer(s, user, r);
      FlightRotates(s, user, r);
    }
  }

  ghost predicate NewerThanKey(s: Auth, user: UserId, time: int) {
    user in s.revokedBefore ==> time > s.revokedBefore[user].value
  }

  ghost predicate RowNewer(s: Auth, user: UserId, t: TokenId) {
    t in Unrevoked(s.tokens, user) && s.tokens[t].expiresAt > s.clock && NewerThanKey(s, user, s.tokens[t].issuedAt)
  }

  ghost predicate FlightNewer(s: Auth, user: UserId, r: nat) {
    && r in s.inFlight && s.inFlight[r].token in s.tokens && s.tokens[s.inFlight[r].token].userId == user
    && s.tokens[s.inFlight[r].token].expiresAt > s.clock && NewerThanKey(s, user, s.inFlight[r].begunAt)
  }

  lemma FreeRotates(s: Auth, user: UserId)
    requires Sound(s) && Free(s, user, s.clock)
    ensures CanRotate(s, user)
  {
    var time: int;
    if t :| RowFree(s, user, t, s.clock) {
      time := s.tokens[t].issuedAt;
      if NewerThanKey(s, user, time) {
        assert RowNewer(s, user, t);
        FreeByKey(s, user);
      } else {
        FreeOnceKeySet(s, user, time);
      }
    } else {
      var r :| FlightFree(s, user, r, s.clock);
      time := s.inFlight[r].begunAt;
      if NewerThanKey(s, user, time) {
        assert FlightNewer(s, user, r);
        FreeByKey(s, user);
      } else {
        FreeOnceKeySet(s, user, time);
      }
    }
  }

  lemma FreeOnceKeySet(s: Auth, user: UserId, time: int)
    requires Sound(s) && !NewerThanKey(s, user, time) && !Bars(s, user, time)
    requires (exists t :: t in Unrevoked(s.tokens, user) && s.tokens[t].expiresAt > s.clock && s.tokens[t].issuedAt == time) ||
             (exists r :: r in s.inFlight && s.tokens[s.inFlight[r].token].userId == user &&
                          s.tokens[s.inFlight[r].token].expiresAt > s.clock && s.inFlight[r].begunAt == time)
    ensures CanRotate(s, user)
  {
    var q :| q in s.revoking && s.revoking[q].user == user && !s.revoking[q].keySet && time > s.revoking[q].at;
    var e1, e2 := Event(s.clock, DoRevoke(UpdateRows(q))), Event(s.clock, DoRevoke(SetKey(q)));
    var s1 := Step(s, e1);
    var s2 := Step(s1, e2);
    StepKeeps(s, e1);
    StepClock(s, e1);
    StepKeeps(s1, e2);
    KeyMayFollow(s, q);
    if t :| t in Unrevoked(s.tokens, user) && s.tokens[t].expiresAt > s.clock && s.tokens[t].issuedAt == time {
      assert RowNewer(s2, user, t);
    } else {
      var r :| r in s.inFlight && s.tokens[s.inFlight[r].token].userId == user &&
               s.tokens[s.inFlight[r].token].expiresAt > s.clock && s.inFlight[r].begunAt == time;
      assert FlightNewer(s2, user, r);
    }
    FreeByKey(s2, user);
    RotatesThen(s1, e2, user);
    RotatesThen(s, e1, user);
  }

  /** After any run, and with no login of theirs from then on, some refresh token of the user can
      pass its checks exactly when now an unexpired one is unrevoked, or being refreshed, that was
      issued, or whose refresh began, after the user's revocation key: after the time it stands at,
      or one that a revocation under way may yet set it back to. */
  lemma RotatesAgainIff(s: Auth, user: UserId)
    requires Steady(s)
    ensures CanRotate(s, user) <==> Free(s, user, s.clock)
  {
    if Free(s, user, s.clock) {
      FreeRotates(s, user);
    }
    if CanRotate(s, user) && !Free(s, user, s.clock) {
      var after, id, later :| Rotates(s, user, after, id, later);
      RunNotFree(s, after, user, s.clock);
      RunSteady(s, after);
      NotFreeRejected(Exec(s, after), user, id, later, s.clock);
      assert false;
    }
  }
}
