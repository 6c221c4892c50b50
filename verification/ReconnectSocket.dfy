/** The reconnecting WebSocket client: what it does on each event, and how often and after what
    delays it tries again. */
module ReconnectSocket {

  const MAX_ATTEMPTS: nat := 10
  const RECONNECT_DELAY: real := 1000.0
  const MAX_DELAY: real := 10000.0

  datatype Ready = Absent | Connecting | Open | Closed

  /** `ready` is the state of the current socket. `awaitingToken` counts the calls of `connect` that
      wait for an access token, `refreshing` the token refreshes under way. `delays` is history:
      the delay, in milliseconds, of every reconnect timer set so far. */
  datatype Socket = Socket(ready: Ready, attempts: nat, intentional: bool, pinging: bool,
                           awaitingToken: nat, refreshing: nat, delays: seq<real>)

  const FRESH := Socket(Absent, 0, false, false, 0, 0, [])

  /** Timers firing, and callers, connect; once the token is there construction may fail. Sockets
      that are no longer the current one still open and close. A refresh ends with a new token or
      without. */
  datatype Event =
    | Connect
    | TokenReady(created: bool)
    | Opened(current: bool)
    | CloseEvent(code: nat, current: bool)
    | Refreshed(newToken: bool)
    | Disconnect

  function Pow(base: real, n: nat): real { if n == 0 then 1.0 else base * Pow(base, n - 1) }

  function Min(a: real, b: real): real { if a < b then a else b }

  function Max(a: real, b: real): real { if a < b then b else a }

  /** The delay before attempt number `attempts`, counted from 0. */
  function Delay(attempts: nat): real {
    Min(Max(2000.0, RECONNECT_DELAY) * Pow(1.5, attempts), MAX_DELAY)
  }

  function AttemptReconnect(s: Socket): Socket {
    if s.attempts < MAX_ATTEMPTS then s.(attempts := s.attempts + 1, delays := s.delays + [Delay(s.attempts)]) else s
  }

  /** `connect` up to its await. */
  function Reaching(s: Socket): Socket {
    var s1 := s.(intentional := false);
    if s1.ready == Open || s1.ready == Connecting then s1 else s1.(awaitingToken := s1.awaitingToken + 1)
  }

  /** The rest of it. */
  function Connected(s: Socket, created: bool): Socket {
    if s.awaitingToken == 0 then s
    else
      var s1 := s.(awaitingToken := s.awaitingToken - 1);
      if created then s1.(ready := Connecting) else AttemptReconnect(s1)
  }

  predicate Final(code: nat) { code == 1000 || code == 4003 || code == 4004 }

  predicate AuthFailure(code: nat) { code == 4001 || code == 1008 }

  function OnClose(s: Socket, code: nat, current: bool): Socket {
    var s1 := s.(ready := if current && s.ready != Absent then Closed else s.ready, pinging := false);
    if Final(code) then s1
    else if AuthFailure(code) then
      (if s1.attempts == 0 then s1.(attempts := 1, refreshing := s1.refreshing + 1) else s1)
    else if s1.intentional then s1
    else AttemptReconnect(s1)
  }

  /** A refresh that brings a token starts over; one that fails ends it. */
  function OnRefresh(s: Socket, newToken: bool): Socket {
    if s.refreshing == 0 then s
    else
      var s1 := s.(refreshing := s.refreshing - 1);
      if newToken then Reaching(s1.(attempts := 0)) else s1
  }

  function Step(s: Socket, e: Event): Socket {
    match e
    case Connect => Reaching(s)
    case TokenReady(created) => Connected(s, created)
    case Opened(current) =>
      s.(ready := if current && s.ready != Absent then Open else s.ready, attempts := 0, pinging := true)
    case CloseEvent(code, current) => OnClose(s, code, current)
    case Refreshed(newToken) => OnRefresh(s, newToken)
    case Disconnect => s.(ready := Absent, intentional := true, pinging := false)
  }

  function Exec(s: Socket, run: seq<Event>): Socket
    decreases |run|
  {
    if run == [] then s else Exec(Step(s, run[0]), run[1..])
  }

  /** The events that put the attempt counter back to zero. */
  predicate Resets(e: Event) { e.Opened? || (e.Refreshed? && e.newToken) }

  class ReconnectingWebSocket {
    var ready: Ready
    var reconnectAttempts: nat
    var isIntentionalDisconnect: bool
    var pinging: bool
    var awaitingToken: nat
    var refreshing: nat
    ghost var delays: seq<real>

    ghost function Now(): Socket
      reads this
    {
      Socket(ready, reconnectAttempts, isIntentionalDisconnect, pinging, awaitingToken, refreshing, delays)
    }

    constructor ()
      ensures Now() == FRESH
    {
      ready, reconnectAttempts, isIntentionalDisconnect, pinging := Absent, 0, false, false;
      awaitingToken, refreshing, delays := 0, 0, [];
    }

    /** Returns the delay of the timer it sets, if it sets one. */
    method AttemptAgain() returns (delay: real)
      modifies this
      ensures Now() == AttemptReconnect(old(Now()))
      ensures old(reconnectAttempts) < MAX_ATTEMPTS ==> delay == Delay(old(reconnectAttempts))
    {
      delay := 0.0;
      if reconnectAttempts < MAX_ATTEMPTS {
        delay := Min(Max(2000.0, RECONNECT_DELAY) * Pow(1.5, reconnectAttempts), MAX_DELAY);
        reconnectAttempts := reconnectAttempts + 1;
        delays := delays + [delay];
      }
    }

    /** Up to its await. */
    method ConnectSocket()
      modifies this
      ensures Now() == Step(old(Now()), Connect)
    {
      isIntentionalDisconnect := false;
      if ready == Open || ready == Connecting {
        return;
      }
      awaitingToken := awaitingToken + 1;
    }

    /** The rest of a `connect` that has its token. */
    method OnToken(created: bool)
      modifies this
      ensures Now() == Step(old(Now()), TokenReady(created))
    {
      if awaitingToken == 0 {
        return;
      }
      awaitingToken := awaitingToken - 1;
      if created {
        ready := Connecting;
      } else {
        var _ := AttemptAgain();
      }
    }

    method OnOpen(current: bool)
      modifies this
      ensures Now() == Step(old(Now()), Opened(current))
    {
      if current && ready != Absent {
        ready := Open;
      }
      reconnectAttempts, pinging := 0, true;
    }

    method OnCloseEvent(code: nat, current: bool)
      modifies this
      ensures Now() == Step(old(Now()), CloseEvent(code, current))
    {
      if current && ready != Absent {
        ready := Closed;
      }
      pinging := false;
      if code == 1000 || code == 4003 || code == 4004 {
        return;
      }
      if code == 4001 || code == 1008 {
        if reconnectAttempts == 0 {
          reconnectAttempts := 1;
          refreshing := refreshing + 1;
        }
        return;
      }
      if !isIntentionalDisconnect {
        var _ := AttemptAgain();
      }
    }

    method OnRefreshed(newToken: bool)
      modifies this
      ensures Now() == Step(old(Now()), Refreshed(newToken))
    {
      if refreshing == 0 {
        return;
      }
      refreshing := refreshing - 1;
      if newToken {
        reconnectAttempts := 0;
        ConnectSocket();
      }
    }

    method DisconnectSocket()
      modifies this
      ensures Now() == Step(old(Now()), Disconnect)
    {
      isIntentionalDisconnect, pinging, ready := true, false, Absent;
    }
  }

  // --- Delays ------------------------------------------------------------------------------

  function Sum(delays: seq<real>): real {
    if delays == [] then 0.0 else delays[0] + Sum(delays[1..])
  }

  /** The delays of attempts from..to, `to` excluded, added up. */
  function SumBetween(from: nat, to: nat): real
    decreases if from < to then to - from else 0
  {
    if from >= to then 0.0 else Delay(from) + SumBetween(from + 1, to)
  }

  lemma {:induction false} DelayRange(k: nat)
    ensures Pow(1.5, k) >= 1.0
    ensures 2000.0 <= Delay(k) <= Delay(k + 1) <= 10000.0
  {
    if k > 0 {
      DelayRange(k - 1);
    }
  }

  lemma {:induction false} DelaysAscend(j: nat, k: nat)
    requires j <= k
    ensures Delay(j) <= Delay(k)
    decreases k - j
  {
    if j < k {
      DelayRange(j);
      DelaysAscend(j + 1, k);
    }
  }

  lemma AllDelays()
    ensures SumBetween(0, MAX_ATTEMPTS) == 76250.0
  {
    assert Delay(0) == 2000.0 && Delay(1) == 3000.0 && Delay(2) == 4500.0 && Delay(3) == 6750.0;
    assert Pow(1.5, 4) == 5.0625;
    assert Delay(4) == 10000.0;
    DelaysAscend(4, 5); DelaysAscend(5, 6); DelaysAscend(6, 7); DelaysAscend(7, 8); DelaysAscend(8, 9);
    DelayRange(5); DelayRange(6); DelayRange(7); DelayRange(8); DelayRange(9);
    assert SumBetween(6, 10) == 40000.0 by {
      assert SumBetween(9, 10) == 10000.0;
      assert SumBetween(8, 10) == 20000.0;
      assert SumBetween(7, 10) == 30000.0;
    }
    assert SumBetween(3, 10) == 6750.0 + 20000.0 + 40000.0 by {
      assert SumBetween(5, 10) == 50000.0;
      assert SumBetween(4, 10) == 60000.0;
    }
    assert SumBetween(1, 10) == 3000.0 + 4500.0 + 66750.0 by {
      assert SumBetween(2, 10) == 4500.0 + 66750.0;
    }
  }

  // --- Bounds over every run -----------------------------------------------------------------

  /** What a stretch without a reset may add: for each attempt counted, at most one timer. */
  ghost predicate Scheduled(extra: seq<real>, from: nat, to: nat) {
    && from <= to
    && |extra| <= to - from
    && Sum(extra) <= SumBetween(from, to)
    && (forall i :: 0 <= i < |extra| ==> Delay(from) <= extra[i] <= MAX_DELAY)
    && (forall i, j :: 0 <= i < j < |extra| ==> extra[i] <= extra[j])
  }

  lemma StepSchedules(s: Socket, e: Event)
    requires s.attempts <= MAX_ATTEMPTS && !Resets(e)
    ensures var s' := Step(s, e);
            && s.attempts <= s'.attempts <= MAX_ATTEMPTS
            && (s'.delays == s.delays || (s'.delays == s.delays + [Delay(s.attempts)] && s'.attempts == s.attempts + 1))
  {
  }

  lemma {:induction false} SumForward(from: nat, mid: nat, to: nat)
    requires from <= mid <= to
    ensures SumBetween(mid, to) <= SumBetween(from, to)
    decreases mid - from
  {
    if from < mid {
      DelayRange(from);
      SumForward(from + 1, mid, to);
    }
  }

  /** Putting one timer, or none, before a stretch. */
  lemma ScheduledBefore(first: seq<real>, rest: seq<real>, from: nat, mid: nat, to: nat)
    requires from <= mid && Scheduled(rest, mid, to)
    requires first == [] || (first == [Delay(from)] && mid == from + 1)
    ensures Scheduled(first + rest, from, to)
  {
    DelayRange(from);
    DelaysAscend(from, mid);
    SumForward(from, mid, to);
    if first == [] {
      assert first + rest == rest;
    } else {
      assert (first + rest)[1..] == rest;
    }
  }

  lemma {:induction false} StretchSchedules(s: Socket, run: seq<Event>)
    requires s.attempts <= MAX_ATTEMPTS && forall e :: e in run ==> !Resets(e)
    ensures var s' := Exec(s, run);
            && s'.attempts <= MAX_ATTEMPTS && s.delays <= s'.delays
            && Scheduled(s'.delays[|s.delays|..], s.attempts, s'.attempts)
    decreases |run|
  {
    if run == [] {
      assert s.delays[|s.delays|..] == [];
    } else {
      var s1, s' := Step(s, run[0]), Exec(s, run);
      assert forall e :: e in run[1..] ==> e in run;
      StepSchedules(s, run[0]);
      StretchSchedules(s1, run[1..]);
      var first := s1.delays[|s.delays|..];
      assert first == [] || (first == [Delay(s.attempts)] && s1.attempts == s.attempts + 1);
      ScheduledBefore(first, s'.delays[|s1.delays|..], s.attempts, s1.attempts, s'.attempts);
      assert s'.delays[|s.delays|..] == first + s'.delays[|s1.delays|..];
    }
  }

  lemma {:induction false} AttemptsBounded(run: seq<Event>)
    ensures Exec(FRESH, run).attempts <= MAX_ATTEMPTS
  {
    AttemptsStay(FRESH, run);
  }

  lemma {:induction false} AttemptsStay(s: Socket, run: seq<Event>)
    requires s.attempts <= MAX_ATTEMPTS
    ensures Exec(s, run).attempts <= MAX_ATTEMPTS
    decreases |run|
  {
    if run != [] {
      AttemptsStay(Step(s, run[0]), run[1..]);
    }
  }

  /** After any history, a stretch in which nothing resets the counter sets at most ten timers,
      with delays that never fall, each from 2 to 10 seconds, 76.25 seconds in all. */
  lemma BackoffBound(before: seq<Event>, stretch: seq<Event>)
    requires forall e :: e in stretch ==> !Resets(e)
    ensures var s, s' := Exec(FRESH, before), Exec(Exec(FRESH, before), stretch);
            && s.delays <= s'.delays
            && var extra := s'.delays[|s.delays|..];
               && |extra| <= 10
               && Sum(extra) <= 76250.0
               && (forall i :: 0 <= i < |extra| ==> 2000.0 <= extra[i] <= 10000.0)
               && (forall i, j :: 0 <= i < j < |extra| ==> extra[i] <= extra[j])
  {
    var s := Exec(FRESH, before);
    AttemptsBounded(before);
    StretchSchedules(s, stretch);
    DelayRange(s.attempts);
    var to := Exec(s, stretch).attempts;
    SumForward(0, s.attempts, to);
    SumToMax(0, to);
    AllDelays();
  }

  lemma {:induction false} SumToMax(from: nat, to: nat)
    requires from <= to <= MAX_ATTEMPTS
    ensures SumBetween(from, to) <= SumBetween(from, MAX_ATTEMPTS)
    decreases MAX_ATTEMPTS - from
  {
    if from < to {
      SumToMax(from + 1, to);
    } else {
      SumForward(from, MAX_ATTEMPTS, MAX_ATTEMPTS);
    }
  }

  /** Which closes lead to a timer: any other code, on a connection not closed on purpose, while
      attempts remain. */
  lemma CloseSchedulesIff(s: Socket, code: nat, current: bool)
    ensures OnClose(s, code, current).delays != s.delays <==>
            !(code in {1000, 4003, 4004, 4001, 1008}) && !s.intentional && s.attempts < MAX_ATTEMPTS
  {
    assert s.delays + [Delay(s.attempts)] != s.delays by {
      assert |s.delays + [Delay(s.attempts)]| == |s.delays| + 1;
    }
  }

  // --- What each event does ------------------------------------------------------------------

  /** A close stops the pings and closes the socket if it is the current one; and by its code it does
      nothing more, or starts a token refresh if no attempt has been counted, or counts an attempt
      and sets a timer, on a connection not closed on purpose, while attempts remain. */
  lemma CloseIs(s: Socket, code: nat, current: bool)
    ensures var s' := Step(s, CloseEvent(code, current));
            var refused, final := code == 4001 || code == 1008, code == 1000 || code == 4003 || code == 4004;
            && !s'.pinging && s'.intentional == s.intentional && s'.awaitingToken == s.awaitingToken
            && s'.ready == (if current && s.ready != Absent then Closed else s.ready)
            && s'.refreshing == s.refreshing + (if refused && s.attempts == 0 then 1 else 0)
            && s'.attempts == s.attempts + (if (refused && s.attempts == 0) ||
                                               (!refused && !final && !s.intentional && s.attempts < 10) then 1 else 0)
            && |s'.delays| == |s.delays| + (if !refused && !final && !s.intentional && s.attempts < 10 then 1 else 0)
  {
  }

  /** Connecting does nothing to a socket that is open or connecting, and otherwise makes one more
      call wait; the call that goes on makes a socket, or counts as an attempt. */
  lemma ConnectIs(s: Socket, created: bool)
    ensures Step(s, Connect) ==
            s.(intentional := false, awaitingToken := s.awaitingToken + if s.ready == Open || s.ready == Connecting then 0 else 1)
    ensures s.awaitingToken == 0 ==> Step(s, TokenReady(created)) == s
    ensures s.awaitingToken > 0 ==>
              var s' := Step(s, TokenReady(created));
              && s'.awaitingToken == s.awaitingToken - 1
              && s' == s.(awaitingToken := s'.awaitingToken, ready := s'.ready, attempts := s'.attempts, delays := s'.delays)
              && s'.ready == (if created then Connecting else s.ready)
              && s'.attempts == s.attempts + (if !created && s.attempts < 10 then 1 else 0)
              && |s'.delays| == |s.delays| + (if !created && s.attempts < 10 then 1 else 0)
  {
  }

  /** What starts over: an open, and a refresh under way that brings a token, which also connects. */
  lemma ResetIs(s: Socket, current: bool, newToken: bool)
    ensures Step(s, Opened(current)) ==
            s.(attempts := 0, pinging := true, ready := if current && s.ready != Absent then Open else s.ready)
    ensures Step(s, Refreshed(newToken)) ==
            if s.refreshing == 0 then s
            else if newToken then Step(s.(refreshing := s.refreshing - 1, attempts := 0), Connect)
            else s.(refreshing := s.refreshing - 1)
    ensures Step(s, Disconnect) == s.(ready := Absent, intentional := true, pinging := false)
  {
  }

  // --- Refreshes, disconnects and the whole backoff ----------------------------------------------

  /** How many token refreshes a run starts. */
  function Started(s: Socket, run: seq<Event>): nat
    decreases |run|
  {
    if run == [] then 0
    else (if Step(s, run[0]).refreshing > s.refreshing then 1 else 0) + Started(Step(s, run[0]), run[1..])
  }

  /** Between resets at most one token refresh is started, and none once an attempt is counted. */
  lemma {:induction false} OneRefresh(s: Socket, run: seq<Event>)
    requires forall e :: e in run ==> !Resets(e)
    ensures Started(s, run) <= if s.attempts == 0 then 1 else 0
    decreases |run|
  {
    if run != [] {
      assert run[0] in run && forall e :: e in run[1..] ==> e in run;
      OneRefresh(Step(s, run[0]), run[1..]);
    }
  }

  /** The events that take back a disconnect. */
  predicate Reconnects(e: Event) { e.Connect? || (e.Refreshed? && e.newToken) }

  /** After a disconnect, until something connects again, no close sets a timer, whatever its code:
      a timer can only come from a call that was waiting for its token, one for each at most. */
  lemma {:induction false} DisconnectedStaysQuiet(s: Socket, run: seq<Event>, code: nat, current: bool)
    requires s.intentional && forall e :: e in run ==> !Reconnects(e)
    ensures var s' := Exec(s, run);
            && s'.intentional && s'.awaitingToken <= s.awaitingToken
            && |s'.delays| + s'.awaitingToken <= |s.delays| + s.awaitingToken
            && Step(s', CloseEvent(code, current)).delays == s'.delays
    decreases |run|
  {
    if run != [] {
      assert run[0] in run && forall e :: e in run[1..] ==> e in run;
      DisconnectedStaysQuiet(Step(s, run[0]), run[1..], code, current);
    }
  }

  lemma NoTimerAfterDisconnect(before: seq<Event>, run: seq<Event>, code: nat, current: bool)
    requires forall e :: e in run ==> !Reconnects(e)
    ensures var s := Exec(FRESH, before);
            var s' := Exec(Step(s, Disconnect), run);
            && Step(s', CloseEvent(code, current)).delays == s'.delays
            && |s'.delays| <= |s.delays| + s.awaitingToken
            && s'.intentional && !Step(s', Connect).intentional
  {
    DisconnectedStaysQuiet(Step(Exec(FRESH, before), Disconnect), run, code, current);
  }

  /** `n` closes of a connection lost, from a start with no attempt counted: the first ten set their
      timers, after these delays, and no later one sets any. */
  lemma {:induction false} LostConnection(n: nat)
    ensures var s := Exec(FRESH, seq(n, _ => CloseEvent(1006, true)));
            && s.attempts == (if n < 10 then n else 10) && !s.intentional
            && s.delays == [2000.0, 3000.0, 4500.0, 6750.0, 10000.0, 10000.0, 10000.0, 10000.0, 10000.0, 10000.0][..s.attempts]
  {
    if n > 0 {
      var run := seq(n, _ => CloseEvent(1006, true));
      LostConnection(n - 1);
      assert run == seq(n - 1, _ => CloseEvent(1006, true)) + [CloseEvent(1006, true)];
      ExecSnoc(FRESH, seq(n - 1, _ => CloseEvent(1006, true)), CloseEvent(1006, true));
      if n <= 10 {
        TenDelays(n - 1);
      }
    }
  }

  lemma {:induction false} ExecSnoc(s: Socket, run: seq<Event>, e: Event)
    ensures Exec(s, run + [e]) == Step(Exec(s, run), e)
    decreases |run|
  {
    if run == [] {
      assert (run + [e])[1..] == [];
    } else {
      ExecSnoc(Step(s, run[0]), run[1..], e);
      assert (run + [e])[1..] == run[1..] + [e];
    }
  }

  lemma TenDelays(k: nat)
    requires k < 10
    ensures Delay(k) == [2000.0, 3000.0, 4500.0, 6750.0, 10000.0, 10000.0, 10000.0, 10000.0, 10000.0, 10000.0][k]
  {
    assert Pow(1.5, 3) == 3.375 && Pow(1.5, 4) == 5.0625;
    if k >= 4 {
      DelaysAscend(4, k);
      DelayRange(k);
    }
  }
}
