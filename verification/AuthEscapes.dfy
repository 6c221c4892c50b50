/** Which refreshes escape a revocation: those that pass their checks after it has read its clock
    and commit after its UPDATE has run. */
module AuthEscapes {
  import opened Basics
  import opened Wrappers
  import opened AuthTokens
  import opened AuthRuns
  import opened AuthRevocation
  import Redis

  // --- Which refreshes escape a revocation -------------------------------------------------------

  predicate Newer(time: int, from: Option<int>) { from.Some? ==> time > from.value }

  /** A refresh of the user's passes its checks: after `from`, with a token expiring after `until`. */
  predicate Passes(s: Auth, e: Event, user: UserId, from: Option<int>, until: Option<int>) {
    && e.action.DoBegin? && e.action.token in s.tokens && s.tokens[e.action.token].userId == user
    && Decide(s, e.action.token, e.at) == Decision.Rotate
    && Newer(e.at, from) && Newer(s.tokens[e.action.token].expiresAt, until)
  }

  ghost predicate SomePass(s: Auth, run: seq<Event>, user: UserId, from: Option<int>, until: Option<int>)
    decreases |run|
  {
    run != [] && (Passes(s, run[0], user, from, until) || SomePass(Step(s, run[0]), run[1..], user, from, until))
  }

  /** One passes and is still in flight when the run ends. */
  ghost predicate SomeOpen(s: Auth, run: seq<Event>, user: UserId, from: Option<int>, until: Option<int>)
    decreases |run|
  {
    run != [] && ((Passes(s, run[0], user, from, until) && s.nextId in Exec(s, run).inFlight) ||
                  SomeOpen(Step(s, run[0]), run[1..], user, from, until))
  }

  predicate LateFlight(s: Auth, user: UserId, q: nat, from: Option<int>, until: Option<int>) {
    && q in s.inFlight && s.inFlight[q].token in s.tokens && s.tokens[s.inFlight[q].token].userId == user
    && Newer(s.inFlight[q].begunAt, from) && Newer(s.tokens[s.inFlight[q].token].expiresAt, until)
  }

  /** Inserted after the UPDATE, so not seen by it. */
  predicate LateRow(s: Auth, user: UserId, t: TokenId, seen: nat, from: Option<int>, until: Option<int>) {
    t in s.tokens && s.tokens[t].userId == user && s.tokens[t].revokedAt.None? && t >= seen
    && Newer(s.tokens[t].issuedAt, from) && Newer(s.tokens[t].expiresAt, until)
  }

  ghost predicate Flying(s: Auth, user: UserId, from: Option<int>, until: Option<int>) {
    exists q :: LateFlight(s, user, q, from, until)
  }

  ghost predicate Late(s: Auth, user: UserId, seen: nat, from: Option<int>, until: Option<int>) {
    Flying(s, user, from, until) || exists t :: LateRow(s, user, t, seen, from, until)
  }

  predicate Others(s: Auth, q: nat, user: UserId) { q in s.revoking ==> s.revoking[q].user != user }

  /** The user starts no revocation, and none of theirs moves on but `r`. */
  predicate Alone(s: Auth, a: Action, user: UserId, r: nat) {
    a.DoRevoke? ==>
      match a.step
      case ReadClock(v, _) => v != user
      case SetKey(q) => q == r || Others(s, q, user)
      case UpdateRows(q) => q == r || Others(s, q, user)
      case Commit(q) => q == r || Others(s, q, user)
  }

  ghost predicate AloneRun(s: Auth, run: seq<Event>, user: UserId, r: nat)
    decreases |run|
  {
    run == [] || (Alone(s, run[0].action, user, r) && AloneRun(Step(s, run[0]), run[1..], user, r))
  }

  /** Besides, the user neither logs in nor out, and revokes no session. */
  predicate Bystanding(s: Auth, a: Action, user: UserId, r: nat) {
    && Alone(s, a, user, r)
    && match a
       case DoLogin(v, _) => v != user
       case DoLogout(_, refresh, _) => refresh.Some? && refresh.value in s.tokens ==> s.tokens[refresh.value].userId != user
       case DoRevokeSession(access, _) => access.sub != user
       case _ => true
  }

  ghost predicate BystandingRun(s: Auth, run: seq<Event>, user: UserId, r: nat)
    decreases |run|
  {
    run == [] || (Bystanding(s, run[0].action, user, r) && BystandingRun(Step(s, run[0]), run[1..], user, r))
  }

  /** The revocation `r` of the user, unless committed, whose UPDATE saw the rows below `seen`. */
  ghost predicate Updated(s: Auth, user: UserId, r: nat, seen: nat) {
    r < s.nextId && seen <= s.nextId &&
    (r in s.revoking ==> s.revoking[r].user == user && s.revoking[r].seen == Some(seen))
  }

  lemma RevokeUpdated(s: Auth, step: RevocationStep, now: int, r: nat)
    requires r < s.nextId && r in s.revoking
    ensures var s' := Revoke(s, step, now);
            r in s'.revoking ==>
              && s'.revoking[r].user == s.revoking[r].user && s'.revoking[r].at == s.revoking[r].at
              && (s.revoking[r].seen.Some? ==> s'.revoking[r].seen == s.revoking[r].seen)
              && (s'.revoking[r].keySet <==> s.revoking[r].keySet || (step == SetKey(r) && KeyDue(s, r)))
  {
    match step {
      case SetKey(q) => RevokeKeyFrame(s, q, now);
      case Commit(q) => RevokeCommitFrame(s, q);
      case _ =>
    }
  }

  /** A revocation not under way is not taken up again. */
  lemma RevokeOver(s: Auth, step: RevocationStep, now: int, r: nat)
    requires r < s.nextId && r !in s.revoking
    ensures r !in Revoke(s, step, now).revoking
  {
    match step {
      case SetKey(q) => RevokeKeyFrame(s, q, now);
      case Commit(q) => RevokeCommitFrame(s, q);
      case _ =>
    }
  }

  lemma UpdatedStep(s: Auth, a: Action, now: int, user: UserId, r: nat, seen: nat)
    requires Updated(s, user, r, seen)
    ensures Updated(Act(s, a, now), user, r, seen)
  {
    IdsGrow(s, a, now);
    if !a.DoRevoke? {
      RevokingFrame(s, a, now);
    } else if r in s.revoking {
      RevokeUpdated(s, a.step, now, r);
    } else {
      RevokeOver(s, a.step, now, r);
    }
  }

  /** Nobody but the user touches the user's rows, and `r` none that its UPDATE did not see. */
  lemma UnseenKept(s: Auth, a: Action, now: int, user: UserId, r: nat, seen: nat, t: TokenId)
    requires Rooted(s) && Updated(s, user, r, seen) && Bystanding(s, a, user, r) && !a.DoCommit? && !a.DoLogin?
    requires t in s.tokens && s.tokens[t].userId == user && t >= seen
    ensures t in Act(s, a, now).tokens && Act(s, a, now).tokens[t] == s.tokens[t]
  {
    match a {
      case DoBegin(token) => BeginFrame(s, token, now);
      case DoLogout(access, refresh, session) => LogoutFrame(s, access, refresh, session, now);
      case DoBlacklist(access) => BlacklistFrame(s, access, now);
      case DoRevoke(step) =>
        RevokeFrame(s, step, now);
        if step.Commit? {
          RevokeCommitFrame(s, step.revocation);
        }
      case DoRevokeSession(access, session) =>
        RevokeSessionFrame(s, access, session, now);
        if MayRevoke(s, access, session, now) {
          assert SessionOk(s.tokens, s.origin, s.sessions[session]);
        }
      case DoSetActive(_, _) =>
    }
  }

  lemma RowsSameLate(s: Auth, s': Auth, user: UserId, seen: nat, from: Option<int>, until: Option<int>)
    requires s'.tokens.Keys == s.tokens.Keys
    requires forall t :: t in s.tokens ==> s'.tokens[t].userId == s.tokens[t].userId
    requires forall t :: t in s.tokens && s.tokens[t].userId == user && t >= seen ==> s'.tokens[t] == s.tokens[t]
    ensures forall t :: LateRow(s', user, t, seen, from, until) <==> LateRow(s, user, t, seen, from, until)
  {
  }

  lemma FlightsSameLate(s: Auth, s': Auth, user: UserId, from: Option<int>, until: Option<int>)
    requires s'.inFlight == s.inFlight && SameKin(s.tokens, s'.tokens)
    ensures forall q :: LateFlight(s', user, q, from, until) <==> LateFlight(s, user, q, from, until)
  {
  }

  lemma BeginLate(s: Auth, id: TokenId, now: int, user: UserId, seen: nat, from: Option<int>, until: Option<int>)
    requires Numbered(s)
    ensures var s', e := BeginRefresh(s, id, now), Event(now, DoBegin(id));
            && (forall t :: LateRow(s', user, t, seen, from, until) <==> LateRow(s, user, t, seen, from, until))
            && (Flying(s', user, from, until) <==> Flying(s, user, from, until) || Passes(s, e, user, from, until))
  {
    BeginFrame(s, id, now);
    var s', e := BeginRefresh(s, id, now), Event(now, DoBegin(id));
    forall q ensures LateFlight(s', user, q, from, until) <==>
                     LateFlight(s, user, q, from, until) || (q == s.nextId && Passes(s, e, user, from, until))
    {
    }
    if Passes(s, e, user, from, until) {
      assert LateFlight(s', user, s.nextId, from, until);
    }
    if Flying(s, user, from, until) {
      var q :| LateFlight(s, user, q, from, until);
      assert LateFlight(s', user, q, from, until);
    }
  }

  /** Committing a late flight inserts a late row. */
  lemma CommitLate(s: Auth, request: nat, now: int, user: UserId, seen: nat, from: Option<int>, until: Option<int>)
    requires Sound(s) && seen <= s.nextId && Committable(s, request)
    ensures var s' := CommitRefresh(s, request, now);
            && (LateFlight(s, user, request, from, until) ==> LateRow(s', user, s.nextId, seen, from, until))
            && (!LateFlight(s, user, request, from, until) ==>
                  forall t :: LateRow(s', user, t, seen, from, until) <==> LateRow(s, user, t, seen, from, until))
            && (forall q :: LateFlight(s', user, q, from, until) <==> LateFlight(s, user, q, from, until) && q != request)
  {
    CommitFrame(s, request, now);
    var id := s.inFlight[request].token;
    assert s.nextId !in s.tokens && id != s.nextId && s.tokens[id].issuedAt <= s.inFlight[request].begunAt;
  }

  lemma LoginLate(s: Auth, v: UserId, way: LoginWay, now: int, user: UserId, seen: nat, from: Option<int>, until: Option<int>)
    requires Sound(s) && v != user
    ensures var s' := Login(s, v, way, now);
            && (forall t :: LateRow(s', user, t, seen, from, until) <==> LateRow(s, user, t, seen, from, until))
            && (forall q :: LateFlight(s', user, q, from, until) <==> LateFlight(s, user, q, from, until))
  {
    assert s.nextId !in s.tokens;
    var s' := Login(s, v, way, now);
    assert s'.inFlight == s.inFlight && forall t :: t in s.tokens ==> t in s'.tokens && s'.tokens[t] == s.tokens[t];
    assert forall t :: t in s'.tokens && s'.tokens[t].userId == user ==> t in s.tokens;
    assert forall q :: q in s.inFlight ==> s.inFlight[q].token in s.tokens;
  }

  lemma OtherActLate(s: Auth, a: Action, now: int, user: UserId, r: nat, seen: nat, from: Option<int>, until: Option<int>)
    requires Rooted(s) && Updated(s, user, r, seen) && Bystanding(s, a, user, r) && !a.DoBegin? && !a.DoCommit? && !a.DoLogin?
    ensures Late(Act(s, a, now), user, seen, from, until) <==> Late(s, user, seen, from, until)
  {
    var s' := Act(s, a, now);
    ActStamps(s, a, now);
    FlightFrame(s, a, now);
    forall t | t in s.tokens && s.tokens[t].userId == user && t >= seen ensures s'.tokens[t] == s.tokens[t] {
      UnseenKept(s, a, now, user, r, seen, t);
    }
    RowsSameLate(s, s', user, seen, from, until);
    FlightsSameLate(s, s', user, from, until);
  }

  /** From the UPDATE on, what is late stays late, and only a refresh that passes adds to it. */
  lemma ActLate(s: Auth, a: Action, now: int, user: UserId, r: nat, seen: nat, from: Option<int>, until: Option<int>)
    requires Steady(s) && Updated(s, user, r, seen) && Bystanding(s, a, user, r)
    ensures Late(Act(s, a, now), user, seen, from, until) <==>
            Late(s, user, seen, from, until) || Passes(s, Event(now, a), user, from, until)
  {
    if a.DoBegin? {
      BeginLate(s, a.token, now, user, seen, from, until);
    } else if a.DoCommit? {
      if Committable(s, a.request) {
        CommitLate(s, a.request, now, user, seen, from, until);
      }
    } else if a.DoLogin? {
      LoginLate(s, a.user, a.way, now, user, seen, from, until);
    } else {
      OtherActLate(s, a, now, user, r, seen, from, until);
    }
  }

  lemma LateIgnoresClock(s: Auth, e: Event, user: UserId, r: nat, seen: nat, from: Option<int>, until: Option<int>)
    ensures var s0 := s.(clock := e.at);
            && (Late(s0, user, seen, from, until) <==> Late(s, user, seen, from, until))
            && (Passes(s0, e, user, from, until) <==> Passes(s, e, user, from, until))
            && (Bystanding(s0, e.action, user, r) <==> Bystanding(s, e.action, user, r))
            && (Updated(s0, user, r, seen) <==> Updated(s, user, r, seen))
  {
    var s0 := s.(clock := e.at);
    if e.action.DoBegin? {
      assert Decide(s0, e.action.token, e.at) == Decide(s, e.action.token, e.at);
    }
    assert forall q :: LateFlight(s0, user, q, from, until) <==> LateFlight(s, user, q, from, until);
    assert forall t :: LateRow(s0, user, t, seen, from, until) <==> LateRow(s, user, t, seen, from, until);
  }

  lemma SteadyClock(s: Auth, now: int)
    requires Steady(s) && s.clock <= now
    ensures Steady(s.(clock := now))
  {
    ClockForward(s, now);
  }

  lemma {:induction false} RunLate(s: Auth, run: seq<Event>, user: UserId, r: nat, seen: nat, from: Option<int>, until: Option<int>)
    requires Steady(s) && Timed(s.clock, run) && Updated(s, user, r, seen) && BystandingRun(s, run, user, r)
    ensures Late(Exec(s, run), user, seen, from, until) <==>
            Late(s, user, seen, from, until) || SomePass(s, run, user, from, until)
    ensures Updated(Exec(s, run), user, r, seen)
    decreases |run|
  {
    if run != [] {
      var e := run[0];
      SteadyClock(s, e.at);
      LateIgnoresClock(s, e, user, r, seen, from, until);
      ActLate(s.(clock := e.at), e.action, e.at, user, r, seen, from, until);
      UpdatedStep(s.(clock := e.at), e.action, e.at, user, r, seen);
      StepSteady(s, e);
      RunLate(Step(s, e), run[1..], user, r, seen, from, until);
    }
  }

  // Before the UPDATE a late refresh can still commit in time to be seen.

  predicate StillFlying(s: Auth, user: UserId, from: Option<int>, until: Option<int>, q: nat, left: set<nat>) {
    LateFlight(s, user, q, from, until) && q in left
  }

  /** Of the refreshes late now, one is in flight still in the end. */
  ghost predicate SomeLeft(s: Auth, user: UserId, from: Option<int>, until: Option<int>, left: set<nat>) {
    exists q :: StillFlying(s, user, from, until, q, left)
  }

  lemma FlightKept(s: Auth, a: Action, now: int, q: nat)
    requires Numbered(s) && q < s.nextId
    ensures q in Act(s, a, now).inFlight ==> q in s.inFlight && Act(s, a, now).inFlight[q] == s.inFlight[q]
  {
    if a.DoBegin? {
      BeginFrame(s, a.token, now);
    } else if a.DoCommit? {
      if Committable(s, a.request) {
        CommitFrame(s, a.request, now);
      }
    } else {
      FlightFrame(s, a, now);
    }
  }

  lemma StepLeft(s: Auth, e: Event, user: UserId, from: Option<int>, until: Option<int>, left: set<nat>)
    requires Steady(s) && s.clock <= e.at
    requires forall q :: q in left && q < Step(s, e).nextId ==> q in Step(s, e).inFlight
    ensures SomeLeft(Step(s, e), user, from, until, left) <==>
            SomeLeft(s, user, from, until, left) || (Passes(s, e, user, from, until) && s.nextId in left)
  {
    var s' := Step(s, e);
    var passes := Passes(s, e, user, from, until) && s.nextId in left;
    forall q ensures StillFlying(s', user, from, until, q, left) <==>
                     StillFlying(s, user, from, until, q, left) || (q == s.nextId && passes)
    {
      StepFlight(s, e, user, from, until, left, q);
    }
    if passes {
      assert StillFlying(s', user, from, until, s.nextId, left);
    }
  }

  lemma OldFlight(s: Auth, a: Action, now: int, user: UserId, from: Option<int>, until: Option<int>, q: nat)
    requires Sound(s) && Numbered(s) && q < s.nextId
    ensures LateFlight(Act(s, a, now), user, q, from, until) <==> LateFlight(s, user, q, from, until) && q in Act(s, a, now).inFlight
  {
    FlightKept(s, a, now, q);
    ActPersists(s, a, now);
  }

  lemma NewFlight(s: Auth, a: Action, now: int, user: UserId, from: Option<int>, until: Option<int>, q: nat)
    requires Numbered(s) && q >= s.nextId
    ensures LateFlight(Act(s, a, now), user, q, from, until) <==> q == s.nextId && Passes(s, Event(now, a), user, from, until)
  {
    if a.DoBegin? {
      BeginNew(s, a.token, now, user, from, until, q);
    } else if a.DoCommit? {
      if Committable(s, a.request) {
        CommitFrame(s, a.request, now);
      }
    } else {
      FlightFrame(s, a, now);
    }
  }

  lemma BeginNew(s: Auth, id: TokenId, now: int, user: UserId, from: Option<int>, until: Option<int>, q: nat)
    requires Numbered(s) && q >= s.nextId
    ensures LateFlight(BeginRefresh(s, id, now), user, q, from, until) <==>
            q == s.nextId && Passes(s, Event(now, DoBegin(id)), user, from, until)
  {
    BeginFrame(s, id, now);
  }

  lemma StepFlight(s: Auth, e: Event, user: UserId, from: Option<int>, until: Option<int>, left: set<nat>, q: nat)
    requires Steady(s) && s.clock <= e.at
    requires q in left && q < Step(s, e).nextId ==> q in Step(s, e).inFlight
    ensures StillFlying(Step(s, e), user, from, until, q, left) <==>
            StillFlying(s, user, from, until, q, left) || (q == s.nextId && Passes(s, e, user, from, until) && q in left)
  {
    var s0 := s.(clock := e.at);
    SteadyClock(s, e.at);
    IdsGrow(s0, e.action, e.at);
    LateIgnoresClock(s, e, user, 0, 0, from, until);
    if q < s.nextId {
      OldFlight(s0, e.action, e.at, user, from, until, q);
    } else {
      NewFlight(s0, e.action, e.at, user, from, until, q);
    }
  }

  lemma {:induction false} RunFlights(s: Auth, run: seq<Event>, q: nat)
    requires Steady(s) && Timed(s.clock, run)
    ensures q in Exec(s, run).inFlight && q < s.nextId ==> q in s.inFlight
    decreases |run|
  {
    if run != [] {
      var s0 := s.(clock := run[0].at);
      StepSteady(s, run[0]);
      IdsGrow(s0, run[0].action, run[0].at);
      RunFlights(Step(s, run[0]), run[1..], q);
      if q < s.nextId {
        FlightKept(s0, run[0].action, run[0].at, q);
      }
    }
  }

  lemma {:induction false} RunLeft(s: Auth, run: seq<Event>, user: UserId, from: Option<int>, until: Option<int>)
    requires Steady(s) && Timed(s.clock, run)
    ensures Flying(Exec(s, run), user, from, until) <==>
            SomeLeft(s, user, from, until, Exec(s, run).inFlight.Keys) || SomeOpen(s, run, user, from, until)
    decreases |run|
  {
    var left := Exec(s, run).inFlight.Keys;
    if run == [] {
      assert forall q :: StillFlying(s, user, from, until, q, left) <==> LateFlight(s, user, q, from, until);
    } else {
      var s1 := Step(s, run[0]);
      StepSteady(s, run[0]);
      forall q | q in left && q < s1.nextId ensures q in s1.inFlight {
        RunFlights(s1, run[1..], q);
      }
      RunLeft(s1, run[1..], user, from, until);
      StepLeft(s, run[0], user, from, until, left);
    }
  }

  /** So when the run starts no later than `from`, a late refresh is one that passes during it. */
  lemma LateInFlightIff(s: Auth, run: seq<Event>, user: UserId, from: int, until: Option<int>)
    requires Steady(s) && Timed(s.clock, run) && s.clock <= from
    ensures Flying(Exec(s, run), user, Some(from), until) <==> SomeOpen(s, run, user, Some(from), until)
  {
    RunLeft(s, run, user, Some(from), until);
  }

  // --- When everything stays revoked -----------------------------------------------------------

  predicate KeyIs(s: Auth, user: UserId, at: int) { user in s.revokedBefore && s.revokedBefore[user].value == at }

  ghost predicate NoneUnderWay(s: Auth, user: UserId) {
    forall q :: q in s.revoking ==> s.revoking[q].user != user
  }

  /** `r`, begun at `at`, is the user's only revocation, and the key is its own once it is set. */
  ghost predicate Sole(s: Auth, user: UserId, r: nat, at: int) {
    && r < s.nextId
    && (forall q :: q in s.revoking && s.revoking[q].user == user ==> q == r && s.revoking[r].at == at)
    && (r in s.revoking ==> s.revoking[r].user == user)
    && ((r in s.revoking && !s.revoking[r].keySet) || KeyIs(s, user, at))
  }

  lemma RevokeSole(s: Auth, step: RevocationStep, now: int, user: UserId, r: nat, at: int)
    requires Sole(s, user, r, at) && Alone(s, DoRevoke(step), user, r)
    ensures Sole(Revoke(s, step, now), user, r, at)
  {
    match step {
      case SetKey(q) => RevokeKeyFrame(s, q, now);
      case Commit(q) => RevokeCommitFrame(s, q);
      case _ =>
    }
  }

  lemma ActSole(s: Auth, a: Action, now: int, user: UserId, r: nat, at: int)
    requires Sole(s, user, r, at) && Alone(s, a, user, r)
    ensures Sole(Act(s, a, now), user, r, at)
  {
    if a.DoRevoke? {
      RevokeSole(s, a.step, now, user, r, at);
    } else {
      KeyFrame(s, a, now);
      RevokingFrame(s, a, now);
      IdsGrow(s, a, now);
    }
  }

  lemma StepSole(s: Auth, e: Event, user: UserId, r: nat, at: int)
    requires Sole(s, user, r, at) && Alone(s, e.action, user, r)
    ensures Sole(Step(s, e), user, r, at)
  {
    ActSole(s.(clock := e.at), e.action, e.at, user, r, at);
  }

  lemma {:induction false} RunSole(s: Auth, run: seq<Event>, user: UserId, r: nat, at: int)
    requires Sole(s, user, r, at) && AloneRun(s, run, user, r)
    ensures Sole(Exec(s, run), user, r, at)
    decreases |run|
  {
    if run != [] {
      StepSole(s, run[0], user, r, at);
      RunSole(Step(s, run[0]), run[1..], user, r, at);
    }
  }

  lemma {:induction false} BystandersAlone(s: Auth, run: seq<Event>, user: UserId, r: nat)
    requires BystandingRun(s, run, user, r)
    ensures AloneRun(s, run, user, r) && NoLogin(run, user)
    decreases |run|
  {
    if run != [] {
      BystandersAlone(Step(s, run[0]), run[1..], user, r);
    }
  }

  /** The revocation `s.nextId` of the user reads its clock at `at`, its UPDATE runs at `t1`. */
  function Begun(s: Auth, user: UserId, keyFirst: bool, at: int): Auth {
    Step(s, Event(at, DoRevoke(ReadClock(user, keyFirst))))
  }

  function AtUpdate(s1: Auth, d1: seq<Event>, t1: int, r: nat): Auth {
    Step(Exec(s1, d1), Event(t1, DoRevoke(UpdateRows(r))))
  }

  function AtCommit(s3: Auth, d2: seq<Event>, t2: int, r: nat): Auth {
    Step(Exec(s3, d2), Event(t2, DoRevoke(Commit(r))))
  }

  /** The course of the revocation `r`: `d1` goes on before its UPDATE at `t1`, in `d2`, up to its
      commit at `t2`, the user does nothing else, and at no time is another of theirs under way. */
  ghost predicate Course(s: Auth, user: UserId, keyFirst: bool, at: int, d1: seq<Event>, t1: int, d2: seq<Event>, t2: int) {
    var r, s1 := s.nextId, Begun(s, user, keyFirst, at);
    var s3 := AtUpdate(s1, d1, t1, r);
    && Steady(s) && NoneUnderWay(s, user) && s.clock <= at
    && Timed(at, d1) && Exec(s1, d1).clock <= t1 && AloneRun(s1, d1, user, r) && RowsDue(Exec(s1, d1), r)
    && Timed(t1, d2) && Exec(s3, d2).clock <= t2 && BystandingRun(s3, d2, user, r) && CommitDue(Exec(s3, d2), r)
  }

  lemma BegunSole(s: Auth, user: UserId, keyFirst: bool, at: int)
    requires Steady(s) && NoneUnderWay(s, user) && s.clock <= at
    ensures var s1 := Begun(s, user, keyFirst, at);
            Steady(s1) && s1.clock == at && Sole(s1, user, s.nextId, at)
            && s1 == s.(clock := at, revoking := s1.revoking, nextId := s.nextId + 1)
  {
    StepSteady(s, Event(at, DoRevoke(ReadClock(user, keyFirst))));
  }

  lemma LateIsFlying(s2: Auth, s3: Auth, user: UserId, from: Option<int>, until: Option<int>)
    requires Sound(s2) && s3.tokens == s2.tokens && s3.inFlight == s2.inFlight
    ensures Late(s3, user, s2.nextId, from, until) <==> Flying(s2, user, from, until)
  {
    assert forall q :: LateFlight(s3, user, q, from, until) <==> LateFlight(s2, user, q, from, until);
    assert forall t :: !LateRow(s3, user, t, s2.nextId, from, until);
  }

  /** The UPDATE sees every row there is: late then is only what is in flight. */
  lemma UpdateSees(s2: Auth, t1: int, user: UserId, r: nat, at: int, from: Option<int>, until: Option<int>)
    requires Steady(s2) && s2.clock <= t1 && RowsDue(s2, r) && Sole(s2, user, r, at)
    ensures var s3 := Step(s2, Event(t1, DoRevoke(UpdateRows(r))));
            && Steady(s3) && s3.clock == t1 && Updated(s3, user, r, s2.nextId) && Sole(s3, user, r, at)
            && s3 == s2.(clock := t1, revoking := s3.revoking)
            && (Late(s3, user, s2.nextId, from, until) <==> Flying(s2, user, from, until))
  {
    var e := Event(t1, DoRevoke(UpdateRows(r)));
    StepSteady(s2, e);
    StepSole(s2, e, user, r, at);
    var s3 := Step(s2, e);
    assert s3 == s2.(clock := t1, revoking := s3.revoking) && s3.revoking[r].seen == Some(s2.nextId);
    LateIsFlying(s2, s3, user, from, until);
  }

  /** The commit: every unrevoked row left was inserted after the UPDATE, and those stay. */
  lemma CommitSpares(s4: Auth, t2: int, user: UserId, r: nat, at: int, seen: nat, from: Option<int>, until: Option<int>)
    requires Steady(s4) && s4.clock <= t2 && CommitDue(s4, r) && Sole(s4, user, r, at) && Updated(s4, user, r, seen)
    ensures var v := Step(s4, Event(t2, DoRevoke(Commit(r))));
            && Steady(v) && v.clock == t2 && KeyIs(v, user, at) && NoneUnderWay(v, user)
            && (forall t :: t in Unrevoked(v.tokens, user) ==> t >= seen)
            && (Late(v, user, seen, from, until) <==> Late(s4, user, seen, from, until))
  {
    var e := Event(t2, DoRevoke(Commit(r)));
    StepSteady(s4, e);
    StepSole(s4, e, user, r, at);
    SteadyClock(s4, t2);
    LateIgnoresClock(s4, e, user, r, seen, from, until);
    ActLate(s4.(clock := t2), e.action, t2, user, r, seen, from, until);
    CommitIsExact(s4.(clock := t2), r);
  }

  lemma CourseLate(s: Auth, user: UserId, keyFirst: bool, at: int, d1: seq<Event>, t1: int, d2: seq<Event>, t2: int,
                   from: Option<int>, until: Option<int>)
    requires Course(s, user, keyFirst, at, d1, t1, d2, t2)
    ensures var r, s1 := s.nextId, Begun(s, user, keyFirst, at);
            var s2, s3 := Exec(s1, d1), AtUpdate(s1, d1, t1, r);
            var v := AtCommit(s3, d2, t2, r);
            && Steady(v) && v.clock == t2 && KeyIs(v, user, at) && NoneUnderWay(v, user)
            && (forall t :: t in Unrevoked(v.tokens, user) ==> t >= s2.nextId)
            && (Late(v, user, s2.nextId, from, until) <==> Flying(s2, user, from, until) || SomePass(s3, d2, user, from, until))
  {
    var r, s1 := s.nextId, Begun(s, user, keyFirst, at);
    var s2, s3 := Exec(s1, d1), AtUpdate(s1, d1, t1, r);
    BegunSole(s, user, keyFirst, at);
    RunSteady(s1, d1);
    RunSole(s1, d1, user, r, at);
    UpdateSees(s2, t1, user, r, at, from, until);
    RunLate(s3, d2, user, r, s2.nextId, from, until);
    RunSteady(s3, d2);
    BystandersAlone(s3, d2, user, r);
    RunSole(s3, d2, user, r, at);
    CommitSpares(Exec(s3, d2), t2, user, r, at, s2.nextId, from, until);
  }

  /** With the key at `at` and no revocation to change it, free is what is newer than `at`. */
  lemma FreeIsLate(v: Auth, user: UserId, at: int, seen: nat)
    requires Sound(v) && KeyIs(v, user, at) && NoneUnderWay(v, user) && forall t :: t in Unrevoked(v.tokens, user) ==> t >= seen
    ensures Free(v, user, v.clock) <==> Late(v, user, seen, Some(at), Some(v.clock))
  {
    assert forall time :: Bars(v, user, time) <==> time <= at;
    assert forall t :: RowFree(v, user, t, v.clock) <==> LateRow(v, user, t, seen, Some(at), Some(v.clock));
    assert forall q :: FlightFree(v, user, q, v.clock) <==> LateFlight(v, user, q, Some(at), Some(v.clock));
  }

  /** What revoking everything promises, and exactly when: from its commit at `t2` on, and until
      the next login, no refresh token of the user ever passes its checks again, those inserted
      later by refreshes in flight included, unless a refresh of theirs, of a token not expired by
      `t2`, passed its checks after the clock reading `at` and had not committed by the UPDATE. */
  lemma NoRotationAfterRevokeAllIff(s: Auth, user: UserId, keyFirst: bool, at: int, d1: seq<Event>, t1: int, d2: seq<Event>, t2: int)
    requires Course(s, user, keyFirst, at, d1, t1, d2, t2)
    ensures var r, s1 := s.nextId, Begun(s, user, keyFirst, at);
            var s3 := AtUpdate(s1, d1, t1, r);
            CanRotate(AtCommit(s3, d2, t2, r), user) <==>
            SomeOpen(s1, d1, user, Some(at), Some(t2)) || SomePass(s3, d2, user, Some(at), Some(t2))
  {
    var r, s1 := s.nextId, Begun(s, user, keyFirst, at);
    var v := AtCommit(AtUpdate(s1, d1, t1, r), d2, t2, r);
    CourseLate(s, user, keyFirst, at, d1, t1, d2, t2, Some(at), Some(t2));
    BegunSole(s, user, keyFirst, at);
    LateInFlightIff(s1, d1, user, at, Some(t2));
    FreeIsLate(v, user, at, Exec(s1, d1).nextId);
    RotatesAgainIff(v, user);
  }

  // It does happen, in both orders.

  /** The rest of a revocation that has only read its clock. */
  function Rest(s: Auth, keyFirst: bool, r: nat, now: int): Auth {
    var s1 := Step(s, Event(now, DoRevoke(if keyFirst then SetKey(r) else UpdateRows(r))));
    var s2 := Step(s1, Event(now, DoRevoke(if keyFirst then UpdateRows(r) else SetKey(r))));
    Step(s2, Event(now, DoRevoke(Commit(r))))
  }

  lemma RestFrame(s: Auth, r: nat, now: int)
    requires r in s.revoking && !s.revoking[r].keySet && s.revoking[r].seen.None?
    ensures var x := s.revoking[r];
            var s' := Rest(s, x.keyFirst, r, now);
            && KeyIs(s', x.user, x.at) && s'.inFlight == s.inFlight && s'.nextId == s.nextId
            && s'.activeUsers == s.activeUsers && SameKin(s.tokens, s'.tokens)
  {
    var x := s.revoking[r];
    var s0 := s.(clock := now);
    var a := if x.keyFirst then SetKey(r) else UpdateRows(r);
    var b := if x.keyFirst then UpdateRows(r) else SetKey(r);
    var s1 := Revoke(s0, a, now);
    RevokeFrame(s0, a, now);
    assert s1.clock == now && s1.revoking[r].user == x.user && s1.revoking[r].at == x.at && s1.nextId == s.nextId;
    var s2 := Revoke(s1, b, now);
    RevokeFrame(s1, b, now);
    assert KeyIs(s2, x.user, x.at) && s2.nextId == s.nextId;
    RevokeCommitFrame(s2, r);
    RevokeFrame(s2, Commit(r), now);
    assert s1.(clock := now) == s1 && s2.(clock := now) == s2;
  }

  predicate PassesNow(s: Auth, user: UserId, t: TokenId, now: int) {
    t in s.tokens && s.tokens[t].userId == user && Decide(s, t, now) == Decision.Rotate
  }

  /** A refresh begun just after the clock reading of a revocation. */
  function Caught(s: Auth, user: UserId, keyFirst: bool, at: int, id: TokenId): Auth {
    Step(Begun(s, user, keyFirst, at), Event(at + 1, DoBegin(id)))
  }

  /** The token `id` is being refreshed by the request after `r`, in time to escape. */
  ghost predicate IsCaught(s: Auth, s2: Auth, id: TokenId, at: int) {
    && s.nextId + 1 in s2.inFlight && s2.inFlight[s.nextId + 1] == InFlight(id, at + 1) && s2.nextId == s.nextId + 2
    && id in s.tokens && SameKin(s.tokens, s2.tokens) && s.tokens[id].userId in s2.activeUsers
  }

  lemma RestCaught(s: Auth, s2: Auth, id: TokenId, keyFirst: bool, at: int)
    requires IsCaught(s, s2, id, at)
    requires s.nextId in s2.revoking && s2.revoking[s.nextId] == Revocation(s.tokens[id].userId, at, keyFirst, false, None)
    ensures var v := Rest(s2, keyFirst, s.nextId, at + 2);
            IsCaught(s, v, id, at) && KeyIs(v, s.tokens[id].userId, at)
  {
    RestFrame(s2, s.nextId, at + 2);
  }

  lemma CaughtRotates(s: Auth, v: Auth, id: TokenId, at: int)
    requires Steady(s) && IsCaught(s, v, id, at) && KeyIs(v, s.tokens[id].userId, at) && s.tokens[id].expiresAt > at + 3
    ensures PassesNow(Step(v, Event(at + 3, DoCommit(s.nextId + 1))), s.tokens[id].userId, s.nextId + 2, at + 3)
  {
  }

  /** It passes its checks, and if it commits after the revocation its successor goes on to pass
      them: revoking everything has not ended the login. */
  lemma RefreshOutlastsRevocation(s: Auth, id: TokenId, keyFirst: bool, at: int)
    requires Steady(s) && Decide(s, id, at + 1) == Decision.Rotate && s.tokens[id].expiresAt > at + 3
    ensures var user, r := s.tokens[id].userId, s.nextId;
            var v := Rest(Caught(s, user, keyFirst, at, id), keyFirst, r, at + 2);
            KeyIs(v, user, at) && PassesNow(Step(v, Event(at + 3, DoCommit(r + 1))), user, r + 2, at + 3)
  {
    var user, r := s.tokens[id].userId, s.nextId;
    var s2 := Caught(s, user, keyFirst, at, id);
    RestCaught(s, s2, id, keyFirst, at);
    CaughtRotates(s, Rest(s2, keyFirst, r, at + 2), id, at);
  }

  // The first of them passes before the key is set.

  lemma StampsLate(s: Auth, s': Auth, user: UserId, from: Option<int>)
    requires Stamps(s, s') && s'.inFlight == s.inFlight
    ensures Late(s', user, 0, from, None) ==> Late(s, user, 0, from, None)
  {
    FlightsSameLate(s, s', user, from, None);
    assert forall t :: LateRow(s', user, t, 0, from, None) ==> LateRow(s, user, t, 0, from, None);
  }

  /** Nothing becomes late without a refresh that passes. */
  lemma LateNeedsPass(s: Auth, a: Action, now: int, user: UserId, from: Option<int>)
    requires Steady(s) && !(a.DoLogin? && a.user == user)
    ensures Late(Act(s, a, now), user, 0, from, None) ==> Late(s, user, 0, from, None) || Passes(s, Event(now, a), user, from, None)
  {
    if a.DoBegin? {
      BeginLate(s, a.token, now, user, 0, from, None);
    } else if a.DoCommit? {
      if Committable(s, a.request) {
        CommitLate(s, a.request, now, user, 0, from, None);
      }
    } else if a.DoLogin? {
      LoginLate(s, a.user, a.way, now, user, 0, from, None);
    } else {
      ActStamps(s, a, now);
      FlightFrame(s, a, now);
      StampsLate(s, Act(s, a, now), user, from);
    }
  }

  lemma {:induction false} RunNeedsPass(s: Auth, run: seq<Event>, user: UserId, from: Option<int>)
    requires Steady(s) && Timed(s.clock, run) && NoLogin(run, user) && !Late(s, user, 0, from, None)
    ensures Late(Exec(s, run), user, 0, from, None) ==> SomePass(s, run, user, from, None)
    decreases |run|
  {
    if run != [] {
      var e := run[0];
      SteadyClock(s, e.at);
      LateIgnoresClock(s, e, user, 0, 0, from, None);
      LateNeedsPass(s.(clock := e.at), e.action, e.at, user, from);
      StepSteady(s, e);
      if !Late(Step(s, e), user, 0, from, None) {
        RunNeedsPass(Step(s, e), run[1..], user, from);
      }
    }
  }

  /** Under the key only a late row passes. */
  lemma KeyStops(s: Auth, e: Event, user: UserId, at: int)
    requires Steady(s) && s.clock <= e.at && KeyIs(s, user, at) && !Late(s, user, 0, Some(at), None)
    ensures !Passes(s, e, user, Some(at), None)
  {
    if e.action.DoBegin? && e.action.token in s.tokens && s.tokens[e.action.token].userId == user {
      assert !LateRow(s, user, e.action.token, 0, Some(at), None);
      assert RowOk(s.tokens[e.action.token], s.clock);
    }
  }

  lemma {:induction false} RunUnderKey(s: Auth, run: seq<Event>, user: UserId, r: nat, at: int)
    requires Steady(s) && Timed(s.clock, run) && NoLogin(run, user) && AloneRun(s, run, user, r)
    requires Sole(s, user, r, at) && (r in s.revoking ==> s.revoking[r].keySet) && !Late(s, user, 0, Some(at), None)
    ensures !SomePass(s, run, user, Some(at), None)
    decreases |run|
  {
    if run != [] {
      var e := run[0];
      KeyStops(s, e, user, at);
      SteadyClock(s, e.at);
      LateIgnoresClock(s, e, user, 0, 0, Some(at), None);
      LateNeedsPass(s.(clock := e.at), e.action, e.at, user, Some(at));
      StepSteady(s, e);
      StepSole(s, e, user, r, at);
      KeyStaysSet(s, e, r);
      RunUnderKey(Step(s, e), run[1..], user, r, at);
    }
  }

  lemma KeyStaysSet(s: Auth, e: Event, r: nat)
    requires r < s.nextId && (r in s.revoking ==> s.revoking[r].keySet)
    ensures r in Step(s, e).revoking ==> Step(s, e).revoking[r].keySet
  {
    var s0 := s.(clock := e.at);
    if !e.action.DoRevoke? {
      RevokingFrame(s0, e.action, e.at);
    } else if r in s.revoking {
      RevokeUpdated(s0, e.action.step, e.at, r);
    } else {
      RevokeOver(s0, e.action.step, e.at, r);
    }
  }

  lemma NothingLateYet(s: Auth, user: UserId, at: int)
    requires Sound(s) && s.clock <= at
    ensures !Late(s, user, 0, Some(at), None)
  {
    assert forall t :: t in s.tokens ==> RowOk(s.tokens[t], s.clock);
    assert forall t :: !LateRow(s, user, t, 0, Some(at), None);
    assert forall q :: !LateFlight(s, user, q, Some(at), None);
  }

  lemma KeySetPoint(s: Auth, k: int, user: UserId, r: nat, at: int)
    requires Steady(s) && s.clock <= k && Sole(s, user, r, at) && KeyDue(s, r) && !Late(s, user, 0, Some(at), None)
    ensures var s' := Step(s, Event(k, DoRevoke(SetKey(r))));
            && Steady(s') && s'.clock == k && Sole(s', user, r, at) && !Late(s', user, 0, Some(at), None)
            && (r in s'.revoking ==> s'.revoking[r].keySet)
  {
    var e := Event(k, DoRevoke(SetKey(r)));
    StepSteady(s, e);
    StepSole(s, e, user, r, at);
    SteadyClock(s, k);
    LateIgnoresClock(s, e, user, 0, 0, Some(at), None);
    LateNeedsPass(s.(clock := k), e.action, k, user, Some(at));
    RevokeKeyFrame(s.(clock := k), r, k);
  }

  /** If no refresh of the user passes its checks between the clock reading and the moment `k` the
      key is set, then none does afterwards: the escape is open only between the two. */
  lemma EscapeOpensBeforeKey(s: Auth, user: UserId, keyFirst: bool, at: int, before: seq<Event>, k: int, after: seq<Event>)
    requires Steady(s) && NoneUnderWay(s, user) && s.clock <= at && Timed(at, before) && Timed(k, after)
    requires var r, s1 := s.nextId, Begun(s, user, keyFirst, at);
             var e := Event(k, DoRevoke(SetKey(r)));
             && Exec(s1, before).clock <= k && AloneRun(s1, before, user, r) && NoLogin(before, user) && KeyDue(Exec(s1, before), r)
             && AloneRun(Step(Exec(s1, before), e), after, user, r) && NoLogin(after, user)
             && !SomePass(s1, before, user, Some(at), None)
    ensures var r, s1 := s.nextId, Begun(s, user, keyFirst, at);
            !SomePass(Step(Exec(s1, before), Event(k, DoRevoke(SetKey(r)))), after, user, Some(at), None)
  {
    var r, s1 := s.nextId, Begun(s, user, keyFirst, at);
    var s2, e := Exec(s1, before), Event(k, DoRevoke(SetKey(r)));
    BegunSole(s, user, keyFirst, at);
    NothingLateYet(s1, user, at);
    RunNeedsPass(s1, before, user, Some(at));
    RunSteady(s1, before);
    RunSole(s1, before, user, r, at);
    KeySetPoint(s2, k, user, r, at);
    RunUnderKey(Step(s2, e), after, user, r, at);
  }

  // --- When the documented reuse response is met all the same ----------------------------------

  predicate CommitsFor(s: Auth, a: Action, user: UserId) {
    a.DoCommit? && Committable(s, a.request) && s.tokens[s.inFlight[a.request].token].userId == user
  }

  ghost predicate SomeCommit(s: Auth, run: seq<Event>, user: UserId)
    decreases |run|
  {
    run != [] && (CommitsFor(s, run[0].action, user) || SomeCommit(Step(s, run[0]), run[1..], user))
  }

  ghost predicate Unseen(s: Auth, user: UserId, seen: nat) {
    exists t :: LateRow(s, user, t, seen, None, None)
  }

  /** From the UPDATE on, only a commit for the user gives them an unrevoked row it did not see. */
  lemma ActUnseen(s: Auth, a: Action, now: int, user: UserId, r: nat, seen: nat)
    requires Steady(s) && Updated(s, user, r, seen) && Bystanding(s, a, user, r)
    ensures Unseen(Act(s, a, now), user, seen) <==> Unseen(s, user, seen) || CommitsFor(s, a, user)
  {
    if a.DoBegin? {
      BeginLate(s, a.token, now, user, seen, None, None);
    } else if a.DoCommit? {
      if Committable(s, a.request) {
        CommitLate(s, a.request, now, user, seen, None, None);
      }
    } else if a.DoLogin? {
      LoginLate(s, a.user, a.way, now, user, seen, None, None);
    } else {
      var s' := Act(s, a, now);
      ActStamps(s, a, now);
      forall t | t in s.tokens && s.tokens[t].userId == user && t >= seen ensures s'.tokens[t] == s.tokens[t] {
        UnseenKept(s, a, now, user, r, seen, t);
      }
      RowsSameLate(s, s', user, seen, None, None);
    }
  }

  /** Nor does anything but a login open a session. */
  lemma ActOpens(s: Auth, a: Action, now: int, user: UserId)
    requires !(a.DoLogin? && a.user == user)
    ensures Open(Act(s, a, now).sessions, user) <= Open(s.sessions, user)
  {
    if a.DoCommit? {
      if Committable(s, a.request) {
        CommitFrame(s, a.request, now);
      }
    } else if !a.DoLogin? {
      ActStamps(s, a, now);
    }
  }

  lemma ActUnrevoked(s: Auth, a: Action, now: int, user: UserId)
    requires s.nextId !in s.tokens && !(a.DoLogin? && a.user == user)
    ensures Unrevoked(Act(s, a, now).tokens, user) <= Unrevoked(s.tokens, user) + {s.nextId}
  {
    if a.DoCommit? {
      if Committable(s, a.request) {
        assert s.inFlight[a.request].token != s.nextId;
      }
    } else if !a.DoLogin? {
      ActStamps(s, a, now);
    }
  }

  lemma UnseenIgnoresClock(s: Auth, e: Event, user: UserId, seen: nat)
    ensures Unseen(s.(clock := e.at), user, seen) <==> Unseen(s, user, seen)
    ensures CommitsFor(s.(clock := e.at), e.action, user) <==> CommitsFor(s, e.action, user)
  {
    assert forall t :: LateRow(s.(clock := e.at), user, t, seen, None, None) <==> LateRow(s, user, t, seen, None, None);
  }

  lemma {:induction false} RunUnseen(s: Auth, run: seq<Event>, user: UserId, r: nat, seen: nat)
    requires Steady(s) && Timed(s.clock, run) && Updated(s, user, r, seen) && BystandingRun(s, run, user, r)
    ensures Unseen(Exec(s, run), user, seen) <==> Unseen(s, user, seen) || SomeCommit(s, run, user)
    ensures Open(Exec(s, run).sessions, user) <= Open(s.sessions, user)
    ensures (forall t :: t in Unrevoked(s.tokens, user) ==> t >= seen) ==>
              forall t :: t in Unrevoked(Exec(s, run).tokens, user) ==> t >= seen
    decreases |run|
  {
    if run != [] {
      var e := run[0];
      var s0 := s.(clock := e.at);
      SteadyClock(s, e.at);
      LateIgnoresClock(s, e, user, r, seen, None, None);
      UnseenIgnoresClock(s, e, user, seen);
      ActUnseen(s0, e.action, e.at, user, r, seen);
      ActOpens(s0, e.action, e.at, user);
      ActUnrevoked(s0, e.action, e.at, user);
      UpdatedStep(s0, e.action, e.at, user, r, seen);
      StepSteady(s, e);
      RunUnseen(Step(s, e), run[1..], user, r, seen);
    }
  }

  /** At the commit: nothing is left exactly when nothing was committed since the UPDATE. */
  lemma CommitLeaves(s: Auth, user: UserId, keyFirst: bool, at: int, d1: seq<Event>, t1: int, d2: seq<Event>, t2: int)
    requires Course(s, user, keyFirst, at, d1, t1, d2, t2)
    ensures var r, s1 := s.nextId, Begun(s, user, keyFirst, at);
            var s2, s3 := Exec(s1, d1), AtUpdate(s1, d1, t1, r);
            var v := AtCommit(s3, d2, t2, r);
            && Steady(v) && v.clock == t2 && Updated(v, user, r, s2.nextId)
            && Open(v.sessions, user) == {} && (forall t :: t in Unrevoked(v.tokens, user) ==> t >= s2.nextId)
            && (Unseen(v, user, s2.nextId) <==> SomeCommit(s3, d2, user))
  {
    var r, s1 := s.nextId, Begun(s, user, keyFirst, at);
    var s2, s3 := Exec(s1, d1), AtUpdate(s1, d1, t1, r);
    var s4, e := Exec(s3, d2), Event(t2, DoRevoke(Commit(r)));
    CourseLate(s, user, keyFirst, at, d1, t1, d2, t2, None, None);
    BegunSole(s, user, keyFirst, at);
    RunSteady(s1, d1);
    RunSole(s1, d1, user, r, at);
    UpdateSees(s2, t1, user, r, at, None, None);
    RunLate(s3, d2, user, r, s2.nextId, None, None);
    RunUnseen(s3, d2, user, r, s2.nextId);
    RunSteady(s3, d2);
    assert forall t :: !LateRow(s3, user, t, s2.nextId, None, None);
    CommitCloses(s4, t2, user, r, s2.nextId);
  }

  lemma CommitCloses(s4: Auth, t2: int, user: UserId, r: nat, seen: nat)
    requires Steady(s4) && s4.clock <= t2 && CommitDue(s4, r) && Updated(s4, user, r, seen)
    requires forall i :: i in Open(s4.sessions, user) ==> i < seen
    ensures var v := Step(s4, Event(t2, DoRevoke(Commit(r))));
            Open(v.sessions, user) == {} && Updated(v, user, r, seen) && (Unseen(v, user, seen) <==> Unseen(s4, user, seen))
  {
    var e, s0 := Event(t2, DoRevoke(Commit(r))), s4.(clock := t2);
    SteadyClock(s4, t2);
    LateIgnoresClock(s4, e, user, r, seen, None, None);
    UnseenIgnoresClock(s4, e, user, seen);
    UpdatedStep(s0, e.action, t2, user, r, seen);
    ActUnseen(s0, e.action, t2, user, r, seen);
    CommitIsExact(s0, r);
  }

  /** Once everything was revoked, and until the user logs in or out or revokes again, presenting
      a revoked token leaves them with no unrevoked token and no active session, as documented,
      exactly when no refresh of theirs has committed since the UPDATE. */
  lemma ReuseResponseIff(s: Auth, user: UserId, keyFirst: bool, at: int, d1: seq<Event>, t1: int, d2: seq<Event>, t2: int,
                         after: seq<Event>, id: TokenId, now: int)
    requires Course(s, user, keyFirst, at, d1, t1, d2, t2) && Timed(t2, after)
    requires var v := AtCommit(AtUpdate(Begun(s, user, keyFirst, at), d1, t1, s.nextId), d2, t2, s.nextId);
             && BystandingRun(v, after, user, s.nextId)
             && id in Exec(v, after).tokens && Exec(v, after).tokens[id].revokedAt.Some?
    ensures var s3 := AtUpdate(Begun(s, user, keyFirst, at), d1, t1, s.nextId);
            var v := AtCommit(s3, d2, t2, s.nextId);
            var s' := BeginRefresh(Exec(v, after), id, now);
            (Unrevoked(s'.tokens, user) == {} && Open(s'.sessions, user) == {}) <==>
            !SomeCommit(s3, d2, user) && !SomeCommit(v, after, user)
  {
    var s1 := Begun(s, user, keyFirst, at);
    var seen := Exec(s1, d1).nextId;
    var v := AtCommit(AtUpdate(s1, d1, t1, s.nextId), d2, t2, s.nextId);
    CommitLeaves(s, user, keyFirst, at, d1, t1, d2, t2);
    RunUnseen(v, after, user, s.nextId, seen);
    ReuseRevokesNothing(Exec(v, after), id, now);
    var s4 := Exec(v, after);
    assert forall t :: t in Unrevoked(s4.tokens, user) <==> LateRow(s4, user, t, seen, None, None);
  }
}
