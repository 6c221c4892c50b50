/** The two fixed-window counters: the Lua script of operations.py and the MULTI/EXPIRE NX
    pipeline of rate_limit.py, and what they admit over every timed trace of requests. */
module RateLimit {
  import opened Basics
  import opened Wrappers
  import opened Redis

  datatype Form = LuaScript | ExpireNx

  datatype Request = Request(key: string, at: int)

  // --- One request -------------------------------------------------------------------

  function HitCount(s: Store<string, int>, key: string, now: int): int {
    if Exists(s, key, now) then s[key].value + 1 else 1
  }

  /** `window` is in milliseconds. */
  function Hit(form: Form, s: Store<string, int>, key: string, window: int, now: int): Store<string, int> {
    var counted := Incr(s, key, now);
    match form
    case LuaScript => if HitCount(s, key, now) == 1 then Expire(counted, key, window, false, now) else counted
    case ExpireNx => Expire(counted, key, window, true, now)
  }

  /** The shared store of counters, changed one command at a time. */
  class CounterStore {
    var store: Store<string, int>

    constructor ()
      ensures store == map[]
    {
      store := map[];
    }

    method IncrKey(key: string, now: int) returns (count: int)
      modifies this
      ensures store == Incr(old(store), key, now)
      ensures count == HitCount(old(store), key, now) && Get(store, key, now) == Some(count)
    {
      store := Incr(store, key, now);
      count := store[key].value;
    }

    method ExpireKey(key: string, ttl: int, nx: bool, now: int)
      modifies this
      ensures store == Expire(old(store), key, ttl, nx, now)
    {
      store := Expire(store, key, ttl, nx, now);
    }

    /** The Lua script: EXPIRE only when the increment created the key. */
    method IncrementWithExpiry(key: string, windowSeconds: int, now: int) returns (count: int)
      modifies this
      ensures store == Hit(LuaScript, old(store), key, 1000 * windowSeconds, now)
      ensures count == HitCount(old(store), key, now)
      ensures !Exists(old(store), key, now) && windowSeconds > 0 ==>
                count == 1 && key in store && store[key].deadline == Some(now + 1000 * windowSeconds)
    {
      count := IncrKey(key, now);
      if count == 1 {
        ExpireKey(key, windowSeconds * 1000, false, now);
      }
    }
  }

  class RateLimiter {
    const times: int
    const seconds: int

    constructor (times: int, seconds: int)
      ensures this.times == times && this.seconds == seconds
    {
      this.times := times;
      this.seconds := seconds;
    }

    /** INCR then EXPIRE NX in one transaction; a count above `times` is answered with 429. */
    method Call(redis: CounterStore, key: string, now: int) returns (admitted: bool)
      modifies redis
      ensures redis.store == Hit(ExpireNx, old(redis.store), key, 1000 * seconds, now)
      ensures admitted <==> HitCount(old(redis.store), key, now) <= times
      ensures !Exists(old(redis.store), key, now) && seconds > 0 ==>
                key in redis.store && redis.store[key] == Entry(1, Some(now + 1000 * seconds))
    {
      var count := redis.IncrKey(key, now);
      redis.ExpireKey(key, seconds * 1000, true, now);
      admitted := count <= times;
    }
  }

  // --- Traces ------------------------------------------------------------------------

  ghost predicate InOrder(trace: seq<Request>) {
    forall i, j :: 0 <= i < j < |trace| ==> trace[i].at <= trace[j].at
  }

  function Run(form: Form, s: Store<string, int>, trace: seq<Request>, window: int): Store<string, int> {
    if trace == [] then s
    else Hit(form, Run(form, s, Init(trace), window), Last(trace).key, window, Last(trace).at)
  }

  /** The counts returned to the callers, one per request. */
  function Counts(form: Form, s: Store<string, int>, trace: seq<Request>, window: int): (counts: seq<int>)
    ensures |counts| == |trace|
  {
    if trace == [] then []
    else Counts(form, s, Init(trace), window) +
         [HitCount(Run(form, s, Init(trace), window), Last(trace).key, Last(trace).at)]
  }

  /** How many requests for `key` made at times in [from, to] were admitted. */
  function Admitted(trace: seq<Request>, counts: seq<int>, key: string, times: int, from: int, to: int): nat
    requires |trace| == |counts|
  {
    if trace == [] then 0
    else
      var r := Last(trace);
      Admitted(Init(trace), Init(counts), key, times, from, to) +
      (if r.key == key && from <= r.at <= to && Last(counts) <= times then 1 else 0)
  }

  function Max0(n: int): nat { if n < 0 then 0 else n }

  // --- Admission bounds --------------------------------------------------------------

  /** What the stored counter of `key` says about every request admitted so far, at or after
      any chosen instant `from`. The open window is [deadline - window, deadline). */
  ghost predicate Accounted(s: Store<string, int>, key: string, window: int, times: int, from: int, admitted: nat) {
    if key !in s then admitted == 0
    else
      && s[key].deadline.Some?
      && s[key].value >= 1
      && var end := s[key].deadline.value;
         var share := Min(s[key].value, Max0(times));
         && (from >= end ==> admitted == 0)
         && (from >= end - window ==> admitted <= share)
         && (end - window <= from + window ==> admitted <= Max0(times) + share)
  }

  /** One more hit keeps the account, whichever key it is for. */
  lemma HitKeepsAccount(s: Store<string, int>, key: string, window: int, times: int, from: int, admitted: nat, r: Request)
    requires window > 0
    requires Accounted(s, key, window, times, from, admitted)
    requires key in s ==> s[key].deadline.value <= r.at + window
    requires r.at < from ==> admitted == 0
    ensures var more := if r.key == key && from <= r.at && HitCount(s, key, r.at) <= times then 1 else 0;
            Accounted(Hit(ExpireNx, s, r.key, window, r.at), key, window, times, from, admitted + more)
    ensures var s' := Hit(ExpireNx, s, r.key, window, r.at);
            key in s' ==> s'[key].deadline.Some? && s'[key].deadline.value <= r.at + window
  {
    var s' := Hit(ExpireNx, s, r.key, window, r.at);
    if r.key != key {
      assert key in s' <==> key in s;
    } else if Exists(s, key, r.at) {
      assert s'[key] == Entry(s[key].value + 1, s[key].deadline);
    } else {
      assert s'[key] == Entry(1, Some(r.at + window));
    }
  }

  lemma {:induction false} AccountedAlways(trace: seq<Request>, window: int, key: string, times: int, from: int, to: int)
    requires window > 0 && InOrder(trace)
    requires trace != [] ==> Last(trace).at <= to
    ensures Accounted(Run(ExpireNx, map[], trace, window), key, window, times, from,
                      Admitted(trace, Counts(ExpireNx, map[], trace, window), key, times, from, to))
    ensures trace != [] && Last(trace).at < from ==>
              Admitted(trace, Counts(ExpireNx, map[], trace, window), key, times, from, to) == 0
    ensures var s := Run(ExpireNx, map[], trace, window);
            key in s ==> trace != [] && s[key].deadline.value <= Last(trace).at + window
  {
    if trace != [] {
      var before, r := Init(trace), Last(trace);
      AccountedAlways(before, window, key, times, from, to);
      var counts := Counts(ExpireNx, map[], trace, window);
      assert Init(counts) == Counts(ExpireNx, map[], before, window);
      var s := Run(ExpireNx, map[], before, window);
      HitKeepsAccount(s, key, window, times, from,
                      Admitted(before, Init(counts), key, times, from, to), r);
    }
  }

  /** Any stretch of time as long as the window, wherever it starts and both ends included,
      holds at most twice `times` admitted requests. */
  lemma {:induction false} SlidingBound(form: Form, trace: seq<Request>, window: int, key: string, times: int, from: int)
    requires window > 0 && InOrder(trace)
    ensures Admitted(trace, Counts(form, map[], trace, window), key, times, from, from + window) <= 2 * Max0(times)
    decreases |trace|
  {
    FormsAgreeFrom(form, map[], trace, window);
    if trace != [] {
      if Last(trace).at > from + window {
        SlidingBound(ExpireNx, Init(trace), window, key, times, from);
        var counts := Counts(ExpireNx, map[], trace, window);
        assert Init(counts) == Counts(ExpireNx, map[], Init(trace), window);
      } else {
        AccountedAlways(trace, window, key, times, from, from + window);
      }
    }
  }

  /** In a limiter's own units: of its calls for one key, at most 2 * `times` are admitted in any
      1000 * `seconds` milliseconds, and none if `times` is not positive. */
  lemma LimiterBound(form: Form, trace: seq<Request>, key: string, times: int, seconds: int, from: int)
    requires seconds > 0 && InOrder(trace)
    ensures Admitted(trace, Counts(form, map[], trace, 1000 * seconds), key, times, from, from + 1000 * seconds)
            <= if times > 0 then 2 * times else 0
  {
    SlidingBound(form, trace, 1000 * seconds, key, times, from);
  }

  lemma OneMore(trace: seq<Request>, r: Request, window: int, times: int, from: int)
    ensures var s := Run(ExpireNx, map[], trace, window);
            && Run(ExpireNx, map[], trace + [r], window) == Hit(ExpireNx, s, r.key, window, r.at)
            && Admitted(trace + [r], Counts(ExpireNx, map[], trace + [r], window), r.key, times, from, from + window) ==
               Admitted(trace, Counts(ExpireNx, map[], trace, window), r.key, times, from, from + window) +
               (if from <= r.at <= from + window && HitCount(s, r.key, r.at) <= times then 1 else 0)
  {
    assert Init(trace + [r]) == trace;
    var counts := Counts(ExpireNx, map[], trace + [r], window);
    assert Init(counts) == Counts(ExpireNx, map[], trace, window);
  }

  /** `trace`, then `n` times the request `r`. */
  function Burst(trace: seq<Request>, r: Request, n: nat): seq<Request> {
    if n == 0 then trace else Burst(trace, r, n - 1) + [r]
  }

  function AdmittedNear(trace: seq<Request>, key: string, window: int, times: int): nat {
    Admitted(trace, Counts(ExpireNx, map[], trace, window), key, times, 0, 0 + window)
  }

  lemma OneMoreAlone(trace: seq<Request>, key: string, e: Entry<int>, window: int, times: int, at: int)
    requires Run(ExpireNx, map[], trace, window) == map[key := e]
    requires window > 0 && 0 <= at <= window && e.deadline.Some?
    ensures var next := if Live(e, at) then Entry(e.value + 1, e.deadline) else Entry(1, Some(at + window));
            && Run(ExpireNx, map[], trace + [Request(key, at)], window) == map[key := next]
            && (next.value <= times ==>
                  AdmittedNear(trace + [Request(key, at)], key, window, times) == AdmittedNear(trace, key, window, times) + 1)
  {
    OneMore(trace, Request(key, at), window, times, 0);
  }

  lemma {:induction false} FirstBurst(key: string, window: int, times: nat, n: nat)
    requires window > 0 && 1 <= n <= times
    ensures var trace := Burst([], Request(key, 0), n);
            && Run(ExpireNx, map[], trace, window) == map[key := Entry(n, Some(window))]
            && AdmittedNear(trace, key, window, times) == n
  {
    var before := Burst([], Request(key, 0), n - 1);
    if n > 1 {
      FirstBurst(key, window, times, n - 1);
      OneMoreAlone(before, key, Entry(n - 1, Some(window)), window, times, 0);
    } else {
      OneMore(before, Request(key, 0), window, times, 0);
    }
  }

  lemma {:induction false} SecondBurst(first: seq<Request>, key: string, window: int, times: nat, m: nat)
    requires window > 0 && 1 <= m <= times
    requires Run(ExpireNx, map[], first, window) == map[key := Entry(times, Some(window))]
    ensures var trace := Burst(first, Request(key, window), m);
            && Run(ExpireNx, map[], trace, window) == map[key := Entry(m, Some(window + window))]
            && AdmittedNear(trace, key, window, times) == AdmittedNear(first, key, window, times) + m
  {
    var before := Burst(first, Request(key, window), m - 1);
    if m > 1 {
      SecondBurst(first, key, window, times, m - 1);
      OneMoreAlone(before, key, Entry(m - 1, Some(window + window)), window, times, window);
    } else {
      OneMoreAlone(before, key, Entry(times, Some(window)), window, times, window);
    }
  }

  /** The sliding bound cannot be improved: two full bursts a window apart all pass. */
  lemma SlidingBoundIsReached(key: string, window: int, times: nat)
    requires window > 0 && times >= 1
    ensures var trace := Burst(Burst([], Request(key, 0), times), Request(key, window), times);
            Admitted(trace, Counts(ExpireNx, map[], trace, window), key, times, 0, 0 + window) == 2 * times
  {
    FirstBurst(key, window, times, times);
    SecondBurst(Burst([], Request(key, 0), times), key, window, times, times);
  }

  /** The bound on one counter window: since the open window began, at most `times`. */
  lemma {:induction false} WindowBound(form: Form, trace: seq<Request>, window: int, key: string, times: int)
    requires window > 0 && InOrder(trace)
    requires key in Run(form, map[], trace, window)
    ensures var e := Run(form, map[], trace, window)[key];
            && e.deadline.Some? && trace != []
            && Admitted(trace, Counts(form, map[], trace, window), key, times,
                        e.deadline.value - window, Last(trace).at) <= Max0(times)
  {
    FormsAgreeFrom(form, map[], trace, window);
    var e := Run(ExpireNx, map[], trace, window)[key];
    AccountedAlways(trace, window, key, times, 0, if trace == [] then 0 else Last(trace).at);
    AccountedAlways(trace, window, key, times, e.deadline.value - window, Last(trace).at);
  }

  /** A window that is not positive counts nothing: EXPIRE deletes the key it has just created, and
      any number of requests pass at one instant. So the sliding bound needs window > 0. */
  lemma {:induction false} EmptyWindowAdmitsAll(form: Form, window: int, n: nat, key: string, times: int, at: int)
    requires window <= 0 && times >= 1
    ensures var trace := seq(n, _ => Request(key, at));
            && Run(form, map[], trace, window) == map[]
            && Admitted(trace, Counts(form, map[], trace, window), key, times, at, at) == n
  {
    var trace := seq(n, _ => Request(key, at));
    if n > 0 {
      EmptyWindowAdmitsAll(form, window, n - 1, key, times, at);
      assert Init(trace) == seq(n - 1, _ => Request(key, at));
      var counts := Counts(form, map[], trace, window);
      assert Init(counts) == Counts(form, map[], Init(trace), window);
      assert map[key := Entry(1, None)] - {key} == map[];
    }
  }

  // --- The window is fixed by its first hit ------------------------------------------

  function HitsOn(trace: seq<Request>, key: string): nat {
    if trace == [] then 0 else HitsOn(Init(trace), key) + (if Last(trace).key == key then 1 else 0)
  }

  /** However many requests follow, admitted or rejected, the deadline stays where the first
      hit put it, and the counter has counted every one of them. */
  lemma {:induction false} DeadlineFixed(form: Form, s: Store<string, int>, trace: seq<Request>, window: int, key: string)
    requires key in s && s[key].deadline.Some? && s[key].value >= 1
    requires forall r :: r in trace ==> r.at < s[key].deadline.value
    ensures var s' := Run(form, s, trace, window);
            key in s' && s'[key] == Entry(s[key].value + HitsOn(trace, key), s[key].deadline)
  {
    if trace != [] {
      DeadlineFixed(form, s, Init(trace), window, key);
    }
  }

  /** Hence the first request at or after the deadline opens a fresh window. */
  lemma NextWindowAdmits(form: Form, s: Store<string, int>, trace: seq<Request>, window: int, key: string, times: int, at: int)
    requires key in s && s[key].deadline.Some? && s[key].value >= 1
    requires forall r :: r in trace ==> r.at < s[key].deadline.value
    requires times >= 1 && window > 0
    requires s[key].deadline.value <= at
    ensures HitCount(Run(form, s, trace, window), key, at) == 1 <= times
    ensures Hit(form, Run(form, s, trace, window), key, window, at)[key] == Entry(1, Some(at + window))
  {
    DeadlineFixed(form, s, trace, window, key);
  }

  // --- The two forms -----------------------------------------------------------------

  ghost predicate AllTimed(s: Store<string, int>) {
    forall key :: key in s ==> s[key].deadline.Some? && s[key].value >= 1
  }

  lemma HitsAgree(form: Form, s: Store<string, int>, key: string, window: int, now: int)
    requires AllTimed(s)
    ensures Hit(form, s, key, window, now) == Hit(ExpireNx, s, key, window, now)
    ensures AllTimed(Hit(ExpireNx, s, key, window, now))
  {
  }

  /** From a store without stranded keys both forms do the same, request by request. */
  lemma {:induction false} FormsAgreeFrom(form: Form, s: Store<string, int>, trace: seq<Request>, window: int)
    requires AllTimed(s)
    ensures Run(form, s, trace, window) == Run(ExpireNx, s, trace, window)
    ensures Counts(form, s, trace, window) == Counts(ExpireNx, s, trace, window)
    ensures AllTimed(Run(ExpireNx, s, trace, window))
  {
    if trace != [] {
      FormsAgreeFrom(form, s, Init(trace), window);
      HitsAgree(form, Run(ExpireNx, s, Init(trace), window), Last(trace).key, window, Last(trace).at);
    }
  }

  /** A key without a TTL is never given one by the script: it counts for ever. */
  lemma {:induction false} ScriptNeverRecovers(s: Store<string, int>, trace: seq<Request>, window: int, key: string)
    requires key in s && s[key].deadline.None? && s[key].value >= 1
    ensures var s' := Run(LuaScript, s, trace, window);
            key in s' && s'[key] == Entry(s[key].value + HitsOn(trace, key), None)
  {
    if trace != [] {
      ScriptNeverRecovers(s, Init(trace), window, key);
    }
  }

  /** Once a stranded counter has reached `times`, the script rejects every later request. */
  lemma StrandedRejectedForever(s: Store<string, int>, trace: seq<Request>, window: int, key: string, times: int, at: int)
    requires key in s && s[key].deadline.None? && s[key].value >= 1 && s[key].value >= times
    ensures HitCount(Run(LuaScript, s, trace, window), key, at) > times
  {
    ScriptNeverRecovers(s, trace, window, key);
  }

  /** EXPIRE NX puts the missing deadline on a stranded key at its next hit; whatever comes
      meanwhile, the first request a window later is admitted again. */
  lemma StrandedRecovers(s: Store<string, int>, first: int, trace: seq<Request>, window: int, key: string, times: int, at: int)
    requires key in s && s[key].deadline.None? && s[key].value >= 1
    requires window > 0 && times >= 1
    requires forall r :: r in trace ==> r.at < first + window
    requires first + window <= at
    ensures HitCount(Run(ExpireNx, Hit(ExpireNx, s, key, window, first), trace, window), key, at) == 1 <= times
  {
    NextWindowAdmits(ExpireNx, Hit(ExpireNx, s, key, window, first), trace, window, key, times, at);
  }

  /** The forms return the same counts on every trace exactly when no key is stranded. */
  lemma FormsAgreeIff(s: Store<string, int>, window: int)
    requires window > 0
    requires forall key :: key in s ==> s[key].value >= 1
    ensures AllTimed(s) <==>
            forall trace :: InOrder(trace) ==> Counts(LuaScript, s, trace, window) == Counts(ExpireNx, s, trace, window)
  {
    if AllTimed(s) {
      forall trace | InOrder(trace)
        ensures Counts(LuaScript, s, trace, window) == Counts(ExpireNx, s, trace, window)
      {
        FormsAgreeFrom(LuaScript, s, trace, window);
      }
    } else {
      var key :| key in s && s[key].deadline.None?;
      var one, trace := [Request(key, 0)], [Request(key, 0), Request(key, window)];
      assert Init(trace) == one && Init(one) == [];
      assert Run(ExpireNx, s, one, window) == Hit(ExpireNx, s, key, window, 0);
      ScriptNeverRecovers(s, one, window, key);
      assert InOrder(trace);
      assert Counts(LuaScript, s, trace, window)[1] > 1;
      assert Counts(ExpireNx, s, trace, window)[1] == 1;
    }
  }
}
