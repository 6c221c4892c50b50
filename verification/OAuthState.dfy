/** The one-use OAuth state of google_oauth.py (the `state` parameter of section 10.12 of
    RFC 6749), with any number of callers interleaving between single Redis commands. */
module OAuthState {
  import opened Basics
  import opened Wrappers
  import Redis

  // Times are milliseconds.
  const STATE_TTL: int := 600_000
  const USED_TTL: int := 30_000
  const USED := "used:"

  /** Keys without the prefix `oauth_state:`, which all of them share. */
  type Keys = Redis.Store<string, string>

  function StateKey(state: string): string { state }

  function UsedKey(state: string): string { USED + state }

  // --- One caller ----------------------------------------------------------------------

  datatype Outcome = Success(claimedAt: int, markedAt: int) | Duplicate(seenAt: int) | Invalid

  /** Where a call of `verify_state` stands: which command it sends next, or how it ended. */
  datatype Caller =
    | Asking(state: string)
    | Checking(state: string)
    | Marking(state: string, claimedAt: int)
    | Done(state: string, outcome: Outcome)

  /** The next command of a caller: GETDEL, then EXISTS when it found nothing, SETEX when it did. */
  function Next(keys: Keys, c: Caller, now: int): (Keys, Caller) {
    match c
    case Asking(state) =>
      if Redis.Exists(keys, StateKey(state), now) then (Redis.Delete(keys, StateKey(state)), Marking(state, now))
      else (keys, Checking(state))
    case Checking(state) =>
      (keys, Done(state, if Redis.Exists(keys, UsedKey(state), now) then Duplicate(now) else Invalid))
    case Marking(state, claimedAt) =>
      (Redis.SetEx(keys, UsedKey(state), "1", USED_TTL, now), Done(state, Success(claimedAt, now)))
    case Done(_, _) => (keys, c)
  }

  class RedisKeys {
    var keys: Keys

    constructor ()
      ensures keys == map[]
    {
      keys := map[];
    }

    method SetEx(key: string, value: string, ttl: int, now: int)
      modifies this
      ensures keys == Redis.SetEx(old(keys), key, value, ttl, now)
    {
      keys := keys[key := Redis.Entry(value, Some(now + ttl))];
    }

    method GetDel(key: string, now: int) returns (value: Option<string>)
      modifies this
      ensures value == Redis.Get(old(keys), key, now)
      ensures keys == if value.Some? then Redis.Delete(old(keys), key) else old(keys)
    {
      value := Redis.Get(keys, key, now);
      if value.Some? {
        keys := keys - {key};
      }
    }

    method KeyExists(key: string, now: int) returns (found: bool)
      ensures found == Redis.Exists(keys, key, now)
    {
      found := Redis.Exists(keys, key, now);
    }

    method GenerateStateAndStore(state: string, now: int)
      modifies this
      ensures keys == Redis.SetEx(old(keys), StateKey(state), "1", STATE_TTL, now)
    {
      SetEx(StateKey(state), "1", STATE_TTL, now);
    }
  }

  /** One call, able to stop between any two of its commands. */
  class Verification {
    const redis: RedisKeys
    var caller: Caller

    constructor (redis: RedisKeys, state: string)
      ensures this.redis == redis && caller == Asking(state)
    {
      this.redis := redis;
      caller := Asking(state);
    }

    method SendNext(now: int)
      modifies this, redis
      ensures (redis.keys, caller) == Next(old(redis.keys), old(caller), now)
    {
      match caller {
        case Asking(state) =>
          var value := redis.GetDel(StateKey(state), now);
          caller := if value.Some? then Marking(state, now) else Checking(state);
        case Checking(state) =>
          var used := redis.KeyExists(UsedKey(state), now);
          caller := Done(state, if used then Duplicate(now) else Invalid);
        case Marking(state, claimedAt) =>
          redis.SetEx(UsedKey(state), "1", USED_TTL, now);
          caller := Done(state, Success(claimedAt, now));
        case Done(_, _) =>
      }
    }
  }

  // --- All callers ---------------------------------------------------------------------

  /** The store, the callers, and when each state was generated. */
  datatype World = World(keys: Keys, callers: map<nat, Caller>, generated: map<string, int>, clock: int)

  datatype Action = Generate(state: string) | Arrive(id: nat, state: string) | Advance(id: nat)

  datatype Event = Event(at: int, action: Action)

  const EMPTY := World(map[], map[], map[], 0)

  /** Generated states are new and URL-safe; a caller arrives once, with any string at all. */
  predicate Enabled(w: World, a: Action) {
    match a
    case Generate(state) => state !in w.generated && ':' !in state
    case Arrive(id, _) => id !in w.callers
    case Advance(id) => id in w.callers
  }

  function Step(w: World, e: Event): World
    requires Enabled(w, e.action)
  {
    match e.action
    case Generate(state) =>
      w.(keys := Redis.SetEx(w.keys, StateKey(state), "1", STATE_TTL, e.at),
         generated := w.generated[state := e.at], clock := e.at)
    case Arrive(id, state) => w.(callers := w.callers[id := Asking(state)], clock := e.at)
    case Advance(id) =>
      var (keys, c) := Next(w.keys, w.callers[id], e.at);
      w.(keys := keys, callers := w.callers[id := c], clock := e.at)
  }

  ghost predicate Possible(w: World, run: seq<Event>)
    decreases |run|
  {
    run == [] || (w.clock <= run[0].at && Enabled(w, run[0].action) && Possible(Step(w, run[0]), run[1..]))
  }

  function Exec(w: World, run: seq<Event>): World
    requires Possible(w, run)
    decreases |run|
  {
    if run == [] then w else Exec(Step(w, run[0]), run[1..])
  }

  // --- Keys ----------------------------------------------------------------------------

  /** The two key families overlap: the mark of one state is the key of another string. */
  predicate IsMark(key: string) { USED <= key }

  function Marked(key: string): string
    requires IsMark(key)
  {
    key[|USED|..]
  }

  lemma MarkKeys(state: string)
    ensures IsMark(UsedKey(state)) && Marked(UsedKey(state)) == state
    ensures ':' !in state ==> !IsMark(StateKey(state))
  {
    if IsMark(state) {
      assert state[|USED| - 1] == ':';
    }
  }

  // --- The invariant ---------------------------------------------------------------------

  /** The caller's GETDEL found the key. */
  predicate Won(c: Caller) {
    c.Marking? || (c.Done? && c.outcome.Success?)
  }

  function ClaimTime(c: Caller): int
    requires Won(c)
  {
    if c.Marking? then c.claimedAt else c.outcome.claimedAt
  }

  /** A call that presented `state` has returned successfully, at `markedAt`. */
  predicate Succeeded(w: World, id: nat, state: string, markedAt: int) {
    && id in w.callers && w.callers[id].Done? && w.callers[id].state == state
    && w.callers[id].outcome.Success? && w.callers[id].outcome.markedAt == markedAt
  }

  /** Nobody has claimed the key yet. */
  ghost predicate Unclaimed(w: World, key: string) {
    forall id :: id in w.callers && w.callers[id].state == key ==> !Won(w.callers[id])
  }

  /** A mark was left by a successful call, 30 seconds before it goes. */
  ghost predicate LeftBySuccess(w: World, key: string)
    requires key in w.keys && IsMark(key)
  {
    exists id, x :: Succeeded(w, id, Marked(key), x) && x <= w.clock && w.keys[key].deadline == Some(x + USED_TTL)
  }

  /** A stored key is a mark, or a generated state's as it was put there; and still unclaimed. */
  ghost predicate KeyOk(w: World, key: string)
    requires key in w.keys
  {
    && Unclaimed(w, key)
    && if IsMark(key) then LeftBySuccess(w, key)
       else key in w.generated && w.keys[key].deadline == Some(w.generated[key] + STATE_TTL)
  }

  /** A call on `state` succeeded at most 30 seconds before `at`. */
  ghost predicate JustUsed(w: World, state: string, at: int) {
    exists id, x :: Succeeded(w, id, state, x) && x <= at < x + USED_TTL
  }

  ghost predicate CallerOk(w: World, c: Caller) {
    && (Won(c) ==>
          if IsMark(c.state) then JustUsed(w, Marked(c.state), ClaimTime(c))
          else c.state in w.generated && w.generated[c.state] <= ClaimTime(c) < w.generated[c.state] + STATE_TTL)
    && (c.Done? && c.outcome.Duplicate? ==> JustUsed(w, c.state, c.outcome.seenAt))
  }

  /** Two callers with one string have not both won. */
  predicate NotBoth(a: Caller, b: Caller) {
    a.state == b.state ==> !(Won(a) && Won(b))
  }

  ghost predicate Inv(w: World) {
    && (forall key {:trigger KeyOk(w, key)} :: key in w.keys ==> KeyOk(w, key))
    && (forall id {:trigger CallerOk(w, w.callers[id])} :: id in w.callers ==> CallerOk(w, w.callers[id]))
    && (forall n :: n in w.generated ==> !IsMark(n) && w.generated[n] <= w.clock)
    && (forall i, j {:trigger NotBoth(w.callers[i], w.callers[j])} ::
          i in w.callers && j in w.callers && i != j ==> NotBoth(w.callers[i], w.callers[j]))
  }

  /** What callers have achieved is not lost as the world moves on. */
  ghost predicate Follows(w: World, w': World) {
    && w.clock <= w'.clock
    && (forall n :: n in w.generated ==> n in w'.generated && w'.generated[n] == w.generated[n])
    && (forall id :: id in w.callers && w.callers[id].Done? ==> id in w'.callers && w'.callers[id] == w.callers[id])
  }

  lemma UseKept(w: World, w': World, state: string, at: int)
    requires JustUsed(w, state, at) && Follows(w, w')
    ensures JustUsed(w', state, at)
  {
    var id, x :| Succeeded(w, id, state, x) && x <= at < x + USED_TTL;
    assert Succeeded(w', id, state, x);
  }

  lemma CallerKept(w: World, w': World, c: Caller)
    requires CallerOk(w, c) && Follows(w, w')
    ensures CallerOk(w', c)
  {
    if c.Done? && c.outcome.Duplicate? {
      UseKept(w, w', c.state, c.outcome.seenAt);
    }
    if Won(c) && IsMark(c.state) {
      UseKept(w, w', Marked(c.state), ClaimTime(c));
    }
  }

  lemma MarkKept(w: World, w': World, key: string)
    requires key in w.keys && IsMark(key) && LeftBySuccess(w, key) && Follows(w, w')
    requires key in w'.keys && w'.keys[key] == w.keys[key]
    ensures LeftBySuccess(w', key)
  {
    var id, x :| Succeeded(w, id, Marked(key), x) && x <= w.clock && w.keys[key].deadline == Some(x + USED_TTL);
    assert Succeeded(w', id, Marked(key), x);
  }

  lemma GenerateKeeps(w: World, e: Event)
    requires Inv(w) && w.clock <= e.at && e.action.Generate? && Enabled(w, e.action)
    ensures Inv(Step(w, e))
  {
    var w', state := Step(w, e), e.action.state;
    MarkKeys(state);
    assert Follows(w, w');
    forall id {:trigger CallerOk(w', w'.callers[id])} | id in w'.callers ensures CallerOk(w', w'.callers[id]) {
      assert CallerOk(w, w.callers[id]);
      CallerKept(w, w', w.callers[id]);
    }
    forall i, j {:trigger NotBoth(w'.callers[i], w'.callers[j])} | i in w'.callers && j in w'.callers && i != j
      ensures NotBoth(w'.callers[i], w'.callers[j])
    {
      assert NotBoth(w.callers[i], w.callers[j]);
    }
    forall key {:trigger KeyOk(w', key)} | key in w'.keys ensures KeyOk(w', key) {
      if key != state {
        assert KeyOk(w, key);
        KeyKept(w, w', key);
      } else {
        forall id | id in w'.callers && w'.callers[id].state == state ensures !Won(w'.callers[id]) {
          assert CallerOk(w, w.callers[id]);
        }
      }
    }
  }

  /** A key left alone stays as good, if none of its callers has won meanwhile. */
  lemma KeyKept(w: World, w': World, key: string)
    requires key in w.keys && KeyOk(w, key) && Follows(w, w')
    requires key in w'.keys && w'.keys[key] == w.keys[key] && Unclaimed(w', key)
    ensures KeyOk(w', key)
  {
    if IsMark(key) {
      MarkKept(w, w', key);
    }
  }

  /** The key as it was, and the caller no winner of it. */
  predicate LeftAlone(w: World, w': World, c: Caller, key: string) {
    key in w.keys && key in w'.keys && w'.keys[key] == w.keys[key] && (c.state == key ==> !Won(c))
  }

  /** A step that puts one caller in place, with the keys it leaves. */
  lemma PlaceKeeps(w: World, w': World, id: nat, c: Caller)
    requires Inv(w) && Follows(w, w') && w'.generated == w.generated
    requires w'.callers == w.callers[id := c]
    requires CallerOk(w', c)
    requires forall j {:trigger w.callers[j]} :: j in w.callers && j != id ==> NotBoth(w.callers[j], c)
    requires forall key {:trigger LeftAlone(w, w', c, key)} :: key in w'.keys ==> LeftAlone(w, w', c, key) || KeyOk(w', key)
    ensures Inv(w')
  {
    forall j {:trigger CallerOk(w', w'.callers[j])} | j in w'.callers ensures CallerOk(w', w'.callers[j]) {
      if j != id {
        assert CallerOk(w, w.callers[j]);
        CallerKept(w, w', w.callers[j]);
      }
    }
    forall i, j {:trigger NotBoth(w'.callers[i], w'.callers[j])} | i in w'.callers && j in w'.callers && i != j
      ensures NotBoth(w'.callers[i], w'.callers[j])
    {
      if i != id && j != id {
        assert NotBoth(w.callers[i], w.callers[j]);
      }
    }
    forall key {:trigger KeyOk(w', key)} | key in w'.keys ensures KeyOk(w', key) {
      if LeftAlone(w, w', c, key) {
        assert KeyOk(w, key);
        KeyKept(w, w', key);
      }
    }
  }

  /** A caller that loses, or only asks, disturbs nobody. */
  lemma NoRival(w: World, id: nat, c: Caller)
    requires Inv(w) && (Won(c) ==> id in w.callers && w.callers[id].state == c.state && (Won(w.callers[id]) || Unclaimed(w, c.state)))
    ensures forall j {:trigger w.callers[j]} :: j in w.callers && j != id ==> NotBoth(w.callers[j], c)
  {
    forall j {:trigger w.callers[j]} | j in w.callers && j != id ensures NotBoth(w.callers[j], c) {
      if Won(c) && Won(w.callers[id]) {
        assert NotBoth(w.callers[j], w.callers[id]);
      }
    }
  }

  lemma AskingKeeps(w: World, e: Event, id: nat)
    requires Inv(w) && w.clock <= e.at && e.action == Advance(id) && id in w.callers && w.callers[id].Asking?
    ensures Inv(Step(w, e))
  {
    var w', state := Step(w, e), w.callers[id].state;
    var c := w'.callers[id];
    assert Follows(w, w');
    if Redis.Exists(w.keys, state, e.at) {
      assert KeyOk(w, state);
      ClaimIsOk(w, w', state, e.at);
    }
    NoRival(w, id, c);
    PlaceKeeps(w, w', id, c);
  }

  /** A claim of a live key is in time. */
  lemma ClaimIsOk(w: World, w': World, state: string, now: int)
    requires state in w.keys && KeyOk(w, state) && Redis.Live(w.keys[state], now) && w.clock <= now && Follows(w, w')
    requires state in w.generated ==> w.generated[state] <= w.clock
    ensures CallerOk(w', Marking(state, now))
  {
    if IsMark(state) {
      var j, x :| Succeeded(w, j, Marked(state), x) && x <= w.clock && w.keys[state].deadline == Some(x + USED_TTL);
      assert Succeeded(w', j, Marked(state), x);
    }
  }

  lemma CheckingKeeps(w: World, e: Event, id: nat)
    requires Inv(w) && w.clock <= e.at && e.action == Advance(id) && id in w.callers && w.callers[id].Checking?
    ensures Inv(Step(w, e))
  {
    var w', state := Step(w, e), w.callers[id].state;
    assert Follows(w, w');
    if Redis.Exists(w.keys, UsedKey(state), e.at) {
      MarkKeys(state);
      assert KeyOk(w, UsedKey(state));
      MarkMeansUsed(w, w', state, e.at);
    }
    NoRival(w, id, w'.callers[id]);
    PlaceKeeps(w, w', id, w'.callers[id]);
  }

  lemma MarkMeansUsed(w: World, w': World, state: string, now: int)
    requires UsedKey(state) in w.keys && IsMark(UsedKey(state)) && Marked(UsedKey(state)) == state && LeftBySuccess(w, UsedKey(state))
    requires Redis.Live(w.keys[UsedKey(state)], now) && w.clock <= now && Follows(w, w')
    ensures JustUsed(w', state, now)
  {
    var j, x :| Succeeded(w, j, state, x) && x <= w.clock && w.keys[UsedKey(state)].deadline == Some(x + USED_TTL);
    assert Succeeded(w', j, state, x);
  }

  /** Whoever won with the mark of `state` did so after another call on `state` had succeeded. */
  lemma NoEarlyMark(w: World, id: nat, state: string)
    requires Inv(w) && id in w.callers && w.callers[id].Marking? && w.callers[id].state == state
    ensures Unclaimed(w, UsedKey(state))
  {
    MarkKeys(state);
    forall j | j in w.callers && w.callers[j].state == UsedKey(state) ensures !Won(w.callers[j]) {
      assert CallerOk(w, w.callers[j]);
      if Won(w.callers[j]) {
        NotYetUsed(w, id, state, ClaimTime(w.callers[j]));
        assert false;
      }
    }
  }

  lemma NotYetUsed(w: World, id: nat, state: string, at: int)
    requires Inv(w) && id in w.callers && w.callers[id].Marking? && w.callers[id].state == state
    ensures !JustUsed(w, state, at)
  {
    forall i, x | Succeeded(w, i, state, x) ensures !(x <= at < x + USED_TTL) {
      assert i != id ==> NotBoth(w.callers[i], w.callers[id]);
    }
  }

  lemma MarkingKeeps(w: World, e: Event, id: nat)
    requires Inv(w) && w.clock <= e.at && e.action == Advance(id) && id in w.callers && w.callers[id].Marking?
    ensures Inv(Step(w, e))
  {
    var w', state := Step(w, e), w.callers[id].state;
    var c := w'.callers[id];
    assert Follows(w, w');
    assert CallerOk(w, w.callers[id]);
    CallerKept(w, w', w.callers[id]);
    NoRival(w, id, c);
    NoEarlyMark(w, id, state);
    FreshMark(w, w', id, state, w.callers[id].claimedAt, e.at);
    forall key {:trigger LeftAlone(w, w', c, key)} | key in w'.keys && key != UsedKey(state) ensures LeftAlone(w, w', c, key) {
      assert KeyOk(w, key);
    }
    PlaceKeeps(w, w', id, c);
  }

  lemma FreshMark(w: World, w': World, id: nat, state: string, claimedAt: int, now: int)
    requires Unclaimed(w, UsedKey(state)) && w'.callers == w.callers[id := Done(state, Success(claimedAt, now))] && w'.clock == now
    requires UsedKey(state) in w'.keys && w'.keys[UsedKey(state)].deadline == Some(now + USED_TTL)
    ensures KeyOk(w', UsedKey(state))
  {
    MarkKeys(state);
    assert |UsedKey(state)| > |state|;
    assert Succeeded(w', id, Marked(UsedKey(state)), now);
  }

  lemma StepKeeps(w: World, e: Event)
    requires Inv(w) && w.clock <= e.at && Enabled(w, e.action)
    ensures Inv(Step(w, e))
  {
    match e.action {
      case Generate(_) => GenerateKeeps(w, e);
      case Arrive(id, state) =>
        NoRival(w, id, Asking(state));
        PlaceKeeps(w, Step(w, e), id, Asking(state));
      case Advance(id) =>
        match w.callers[id] {
          case Asking(_) => AskingKeeps(w, e, id);
          case Checking(_) => CheckingKeeps(w, e, id);
          case Marking(_, _) => MarkingKeeps(w, e, id);
          case Done(_, _) => DoneKeeps(w, e, id);
        }
    }
  }

  lemma DoneKeeps(w: World, e: Event, id: nat)
    requires Inv(w) && w.clock <= e.at && e.action == Advance(id) && id in w.callers && w.callers[id].Done?
    ensures Inv(Step(w, e))
  {
    var w', c := Step(w, e), w.callers[id];
    assert w'.callers == w.callers && Follows(w, w');
    assert CallerOk(w, c);
    CallerKept(w, w', c);
    forall key {:trigger LeftAlone(w, w', c, key)} | key in w'.keys ensures LeftAlone(w, w', c, key) {
      assert KeyOk(w, key);
    }
    NoRival(w, id, c);
    PlaceKeeps(w, w', id, c);
  }

  lemma {:induction false} RunKeeps(w: World, run: seq<Event>)
    requires Inv(w) && Possible(w, run)
    ensures Inv(Exec(w, run))
    decreases |run|
  {
    if run != [] {
      StepKeeps(w, run[0]);
      RunKeeps(Step(w, run[0]), run[1..]);
    }
  }

  // --- What the nonce promises -------------------------------------------------------------

  /** However the commands of any number of calls interleave, any one string, generated or not,
      lets at most one of them succeed. */
  lemma AtMostOneSucceeds(run: seq<Event>, i: nat, j: nat, state: string, x: int, y: int)
    requires Possible(EMPTY, run)
    requires Succeeded(Exec(EMPTY, run), i, state, x) && Succeeded(Exec(EMPTY, run), j, state, y)
    ensures i == j && x == y
  {
    RunKeeps(EMPTY, run);
    var w := Exec(EMPTY, run);
    assert NotBoth(w.callers[i], w.callers[j]) || i == j;
  }

  /** A call succeeds only by claiming a generated state within its 600 seconds, or, on a string
      that begins with `used:`, within the 30 seconds after a call on what follows succeeded. */
  lemma SuccessNeedsFreshState(run: seq<Event>, id: nat, state: string, x: int)
    requires Possible(EMPTY, run) && Succeeded(Exec(EMPTY, run), id, state, x)
    ensures var w := Exec(EMPTY, run);
            if IsMark(state) then JustUsed(w, Marked(state), w.callers[id].outcome.claimedAt)
            else state in w.generated && w.generated[state] <= w.callers[id].outcome.claimedAt < w.generated[state] + STATE_TTL
  {
    RunKeeps(EMPTY, run);
    assert CallerOk(Exec(EMPTY, run), Exec(EMPTY, run).callers[id]);
  }

  /** A state behind `k` prefixes `used:`. */
  function Prefixed(k: nat, state: string): string {
    if k == 0 then state else UsedKey(Prefixed(k - 1, state))
  }

  /** A success behind `k` prefixes has one behind every fewer, back to the generated state. */
  lemma {:induction false} SuccessesNest(run: seq<Event>, id: nat, state: string, k: nat, j: nat, x: int)
    requires Possible(EMPTY, run) && Succeeded(Exec(EMPTY, run), id, Prefixed(k, state), x) && j <= k
    ensures exists i, y :: Succeeded(Exec(EMPTY, run), i, Prefixed(j, state), y)
    decreases k
  {
    if j < k {
      SuccessNeedsFreshState(run, id, Prefixed(k, state), x);
      MarkKeys(Prefixed(k - 1, state));
      var w := Exec(EMPTY, run);
      var i, y :| Succeeded(w, i, Prefixed(k - 1, state), y) && y <= w.callers[id].outcome.claimedAt < y + USED_TTL;
      SuccessesNest(run, i, state, k - 1, j, y);
    }
  }

  function SuccessesOn(w: World, state: string): set<nat> {
    set id | id in w.callers && w.callers[id].state == state && w.callers[id].Done? && w.callers[id].outcome.Success?
  }

  /** The calls that succeeded on `state` behind at most `k` prefixes. */
  function SuccessesUpTo(w: World, state: string, k: nat): set<nat> {
    if k == 0 then SuccessesOn(w, state) else SuccessesUpTo(w, state, k - 1) + SuccessesOn(w, Prefixed(k, state))
  }

  /** One generated state leads to at most one success for each number of prefixes. */
  lemma {:induction false} SuccessesBounded(run: seq<Event>, state: string, k: nat)
    requires Possible(EMPTY, run)
    ensures |SuccessesUpTo(Exec(EMPTY, run), state, k)| <= k + 1
  {
    var w := Exec(EMPTY, run);
    OneSuccess(run, Prefixed(k, state));
    if k > 0 {
      SuccessesBounded(run, state, k - 1);
    }
  }

  lemma OneSuccess(run: seq<Event>, state: string)
    requires Possible(EMPTY, run)
    ensures |SuccessesOn(Exec(EMPTY, run), state)| <= 1
  {
    var w := Exec(EMPTY, run);
    var all := SuccessesOn(w, state);
    if all != {} {
      var i :| i in all;
      forall j | j in all ensures j == i {
        AtMostOneSucceeds(run, i, j, state, w.callers[i].outcome.markedAt, w.callers[j].outcome.markedAt);
      }
      assert all == {i};
    }
  }

  /** A state generated, verified once, and then its mark presented as a state. */
  const MARK_PRESENTED: seq<Event> :=
    [Event(0, Generate("a")), Event(1, Arrive(0, "a")), Event(2, Advance(0)), Event(3, Advance(0)),
     Event(4, Arrive(1, "used:a")), Event(5, Advance(1)), Event(6, Advance(1))]

  /** The world after the first `k` of these events. */
  function After(k: nat): World {
    var used := Done("a", Success(2, 3));
    var generated := map["a" := 0];
    if k == 0 then EMPTY
    else if k == 1 then World(map["a" := Redis.Entry("1", Some(STATE_TTL))], map[], generated, 0)
    else if k == 2 then World(map["a" := Redis.Entry("1", Some(STATE_TTL))], map[0 := Asking("a")], generated, 1)
    else if k == 3 then World(map[], map[0 := Marking("a", 2)], generated, 2)
    else if k == 4 then World(map["used:a" := Redis.Entry("1", Some(3 + USED_TTL))], map[0 := used], generated, 3)
    else if k == 5 then World(map["used:a" := Redis.Entry("1", Some(3 + USED_TTL))], map[0 := used, 1 := Asking("used:a")], generated, 4)
    else if k == 6 then World(map[], map[0 := used, 1 := Marking("used:a", 5)], generated, 5)
    else World(map["used:used:a" := Redis.Entry("1", Some(6 + USED_TTL))], map[0 := used, 1 := Done("used:a", Success(5, 6))], generated, 6)
  }

  lemma MarkStep(k: nat)
    requires k < 7
    ensures var e := MARK_PRESENTED[k];
            After(k).clock <= e.at && Enabled(After(k), e.action) && Step(After(k), e) == After(k + 1)
  {
    assert UsedKey("a") == "used:a" && UsedKey("used:a") == "used:used:a";
  }

  lemma {:induction false} MarkRun(k: nat)
    requires k <= 7
    ensures Possible(After(k), MARK_PRESENTED[k..]) && Exec(After(k), MARK_PRESENTED[k..]) == After(7)
    decreases 7 - k
  {
    if k < 7 {
      MarkStep(k);
      MarkRun(k + 1);
      assert MARK_PRESENTED[k..][1..] == MARK_PRESENTED[k + 1..];
    }
  }

  /** A string that was never generated can succeed: the second caller's does. */
  lemma MarkSucceeds()
    ensures Possible(EMPTY, MARK_PRESENTED)
    ensures var w := Exec(EMPTY, MARK_PRESENTED); Succeeded(w, 1, "used:a", 6) && "used:a" !in w.generated
  {
    MarkRun(0);
    assert MARK_PRESENTED[0..] == MARK_PRESENTED;
  }

  /** A call is told that it is a duplicate only when another call on the same state had
      returned successfully, within the 30 seconds before. */
  lemma DuplicateMeansUsed(run: seq<Event>, id: nat)
    requires Possible(EMPTY, run) && id in Exec(EMPTY, run).callers
    requires var c := Exec(EMPTY, run).callers[id]; c.Done? && c.outcome.Duplicate?
    ensures var w := Exec(EMPTY, run);
            JustUsed(w, w.callers[id].state, w.callers[id].outcome.seenAt)
  {
    RunKeeps(EMPTY, run);
    assert CallerOk(Exec(EMPTY, run), Exec(EMPTY, run).callers[id]);
  }

  /** A string that begins with `used:` is answered from the marks instead: its GETDEL finds a
      key exactly while the mark of what follows stands, up to 30 seconds after a success. */
  lemma MarkAnswersAsState(w: World, state: string, now: int)
    requires Inv(w) && w.clock <= now
    ensures Next(w.keys, Asking(UsedKey(state)), now).1.Marking? <==>
            UsedKey(state) in w.keys && w.keys[UsedKey(state)].deadline.Some? && now < w.keys[UsedKey(state)].deadline.value
    ensures Next(w.keys, Asking(UsedKey(state)), now).1.Marking? ==>
            exists j, x :: Succeeded(w, j, state, x) && now < x + USED_TTL
  {
    MarkKeys(state);
    if UsedKey(state) in w.keys {
      assert KeyOk(w, UsedKey(state));
    }
  }

  // --- When exactly each answer is given -------------------------------------------------------

  /** A generated state's key stands until somebody claims it, and so does the mark of a success. */
  ghost predicate Stands(w: World) {
    && (forall n :: n in w.generated && Unclaimed(w, n) ==> Stored(w, n, w.generated[n] + STATE_TTL))
    && (forall id, state, x :: Succeeded(w, id, state, x) && Unclaimed(w, UsedKey(state)) ==> Stored(w, UsedKey(state), x + USED_TTL))
  }

  predicate Stored(w: World, key: string, deadline: int) {
    key in w.keys && w.keys[key].deadline == Some(deadline)
  }

  lemma GenerateStands(w: World, e: Event)
    requires Inv(w) && Stands(w) && w.clock <= e.at && e.action.Generate? && Enabled(w, e.action)
    ensures Stands(Step(w, e))
  {
    var w' := Step(w, e);
    forall n | n in w'.generated && Unclaimed(w', n) ensures Stored(w', n, w'.generated[n] + STATE_TTL) {
      assert n in w.generated ==> Unclaimed(w, n);
    }
    forall id, state, x | Succeeded(w', id, state, x) && Unclaimed(w', UsedKey(state)) ensures Stored(w', UsedKey(state), x + USED_TTL) {
      assert Succeeded(w, id, state, x) && Unclaimed(w, UsedKey(state));
      assert ':' == UsedKey(state)[4] && UsedKey(state) != e.action.state;
    }
  }

  /** Putting a caller in place takes no claim away; what is still unclaimed was so before. */
  lemma StillUnclaimed(w: World, w': World, id: nat, c: Caller, key: string)
    requires w'.callers == w.callers[id := c] && Unclaimed(w', key)
    requires id in w.callers && Won(w.callers[id]) ==> Won(c) && w.callers[id].state == c.state
    ensures Unclaimed(w, key)
  {
    forall j | j in w.callers && w.callers[j].state == key ensures !Won(w.callers[j]) {
      assert j in w'.callers;
    }
  }

  /** A step that puts one caller in place and disturbs no unclaimed key but `touched`. */
  lemma PlaceStands(w: World, w': World, id: nat, c: Caller, touched: string)
    requires Stands(w) && w'.generated == w.generated && w'.callers == w.callers[id := c]
    requires id in w.callers && Won(w.callers[id]) ==> Won(c) && w.callers[id].state == c.state
    requires forall key :: key != touched ==> (key in w'.keys <==> key in w.keys) && (key in w.keys ==> w'.keys[key] == w.keys[key])
    requires touched in w.generated ==> !Unclaimed(w', touched)
    requires forall j, state, x :: Succeeded(w', j, state, x) ==>
               UsedKey(state) == touched || Succeeded(w, j, state, x)
    requires forall j, state, x :: Succeeded(w', j, state, x) && UsedKey(state) == touched && Unclaimed(w', touched) ==>
               Stored(w', touched, x + USED_TTL)
    ensures Stands(w')
  {
    forall n | n in w'.generated && Unclaimed(w', n) ensures Stored(w', n, w'.generated[n] + STATE_TTL) {
      StillUnclaimed(w, w', id, c, n);
    }
    forall j, state, x | Succeeded(w', j, state, x) && Unclaimed(w', UsedKey(state)) ensures Stored(w', UsedKey(state), x + USED_TTL) {
      if UsedKey(state) != touched {
        StillUnclaimed(w, w', id, c, UsedKey(state));
      }
    }
  }

  lemma MarkingStands(w: World, e: Event, id: nat)
    requires Inv(w) && Stands(w) && w.clock <= e.at && e.action == Advance(id) && id in w.callers && w.callers[id].Marking?
    ensures Stands(Step(w, e))
  {
    var w', state := Step(w, e), w.callers[id].state;
    var c := w'.callers[id];
    MarkKeys(state);
    forall j, s, x | Succeeded(w', j, s, x) ensures UsedKey(s) == UsedKey(state) || Succeeded(w, j, s, x) {
      assert j == id ==> s == state;
    }
    forall j, s, x | Succeeded(w', j, s, x) && UsedKey(s) == UsedKey(state) ensures Stored(w', UsedKey(state), x + USED_TTL) {
      assert Marked(UsedKey(s)) == s by {
        MarkKeys(s);
      }
      assert j != id && j in w.callers ==> NotBoth(w.callers[j], w.callers[id]);
    }
    assert UsedKey(state) !in w.generated;
    PlaceStands(w, w', id, c, UsedKey(state));
  }

  lemma AskingStands(w: World, e: Event, id: nat)
    requires Inv(w) && Stands(w) && w.clock <= e.at && e.action == Advance(id) && id in w.callers && w.callers[id].Asking?
    ensures Stands(Step(w, e))
  {
    var w', state := Step(w, e), w.callers[id].state;
    var c := w'.callers[id];
    assert forall j, s, x :: Succeeded(w', j, s, x) ==> Succeeded(w, j, s, x);
    if Redis.Exists(w.keys, state, e.at) {
      assert w'.callers[id].state == state && Won(w'.callers[id]);
      assert !Unclaimed(w', state);
      PlaceStands(w, w', id, c, state);
    } else {
      QuietStands(w, w', id, c);
    }
  }

  /** A step that leaves the keys and who has won. */
  lemma QuietStands(w: World, w': World, id: nat, c: Caller)
    requires Stands(w) && w'.keys == w.keys && w'.generated == w.generated && w'.callers == w.callers[id := c]
    requires id in w.callers && Won(w.callers[id]) ==> c == w.callers[id]
    requires Won(c) ==> id in w.callers && c == w.callers[id]
    ensures Stands(w')
  {
    forall n | n in w'.generated && Unclaimed(w', n) ensures Stored(w', n, w'.generated[n] + STATE_TTL) {
      StillUnclaimed(w, w', id, c, n);
    }
    forall j, state, x | Succeeded(w', j, state, x) && Unclaimed(w', UsedKey(state)) ensures Stored(w', UsedKey(state), x + USED_TTL) {
      assert Succeeded(w, j, state, x);
      StillUnclaimed(w, w', id, c, UsedKey(state));
    }
  }

  lemma StepStands(w: World, e: Event)
    requires Inv(w) && Stands(w) && w.clock <= e.at && Enabled(w, e.action)
    ensures Stands(Step(w, e))
  {
    match e.action {
      case Generate(_) => GenerateStands(w, e);
      case Arrive(id, state) => QuietStands(w, Step(w, e), id, Asking(state));
      case Advance(id) =>
        match w.callers[id] {
          case Asking(_) => AskingStands(w, e, id);
          case Marking(_, _) => MarkingStands(w, e, id);
          case _ => QuietStands(w, Step(w, e), id, Step(w, e).callers[id]);
        }
    }
  }

  lemma {:induction false} RunStands(w: World, run: seq<Event>)
    requires Inv(w) && Stands(w) && Possible(w, run)
    ensures Inv(Exec(w, run)) && Stands(Exec(w, run))
    decreases |run|
  {
    if run != [] {
      StepKeeps(w, run[0]);
      StepStands(w, run[0]);
      RunStands(Step(w, run[0]), run[1..]);
    }
  }

  /** A call on `state` succeeded less than 30 seconds before `now`, and nobody has claimed its mark. */
  ghost predicate MarkOpen(w: World, state: string, now: int) {
    Unclaimed(w, "used:" + state) && exists j, x :: Succeeded(w, j, state, x) && now < x + 30_000
  }

  /** Generated less than 600 seconds before `now` and not claimed; or a mark that is open. */
  ghost predicate Claimable(w: World, state: string, now: int) {
    if "used:" <= state then MarkOpen(w, state[5..], now)
    else state in w.generated && now < w.generated[state] + 600_000 && Unclaimed(w, state)
  }

  lemma MarkOpenIff(w: World, state: string, now: int)
    requires Inv(w) && Stands(w)
    ensures Redis.Exists(w.keys, "used:" + state, now) <==> MarkOpen(w, state, now)
  {
    var key := UsedKey(state);
    MarkKeys(state);
    assert key == "used:" + state;
    if Redis.Exists(w.keys, key, now) {
      assert KeyOk(w, key);
      var j, x :| Succeeded(w, j, Marked(key), x) && x <= w.clock && w.keys[key].deadline == Some(x + USED_TTL);
      assert Succeeded(w, j, state, x) && now < x + 30_000;
    }
    if MarkOpen(w, state, now) {
      var j, x :| Succeeded(w, j, state, x) && now < x + 30_000;
      assert Stored(w, key, x + USED_TTL);
    }
  }

  lemma ClaimableIff(w: World, state: string, now: int)
    requires Inv(w) && Stands(w)
    ensures Redis.Exists(w.keys, state, now) <==> Claimable(w, state, now)
  {
    if "used:" <= state {
      assert state == "used:" + state[5..];
      MarkOpenIff(w, state[5..], now);
    } else {
      assert !IsMark(state);
      assert state in w.keys ==> KeyOk(w, state);
      assert state in w.generated && Unclaimed(w, state) ==> Stored(w, state, w.generated[state] + STATE_TTL);
    }
  }

  /** In every reachable world, what the next command of a call makes of it. Its GETDEL finds the
      key exactly when the string is claimable, its EXISTS answers `duplicate` exactly when a call
      on the same string has just succeeded and its mark is unclaimed, and `invalid` otherwise; and a
      call that has claimed its key succeeds. */
  lemma AnswersIff(run: seq<Event>, id: nat, now: int)
    requires Possible(EMPTY, run) && id in Exec(EMPTY, run).callers
    ensures var w := Exec(EMPTY, run);
            var c, c' := w.callers[id], Step(w, Event(now, Advance(id))).callers[id];
            && (c.Asking? ==> c' == if Claimable(w, c.state, now) then Marking(c.state, now) else Checking(c.state))
            && (c.Checking? ==> c' == Done(c.state, if MarkOpen(w, c.state, now) then Duplicate(now) else Invalid))
            && (c.Marking? ==> c' == Done(c.state, Success(c.claimedAt, now)))
            && (c.Done? ==> c' == c)
  {
    assert Stands(EMPTY);
    RunStands(EMPTY, run);
    var w := Exec(EMPTY, run);
    var c := w.callers[id];
    ClaimableIff(w, c.state, now);
    MarkOpenIff(w, c.state, now);
  }

  /** So the first call on a generated state, within its 600 seconds, succeeds. */
  lemma FirstCallSucceeds(run: seq<Event>, id: nat, state: string, now: int, later: int)
    requires Possible(EMPTY, run) && Exec(EMPTY, run).clock <= now <= later
    requires var w := Exec(EMPTY, run);
             && id in w.callers && w.callers[id] == Asking(state) && state in w.generated && now < w.generated[state] + 600_000
             && forall j :: j in w.callers && w.callers[j].state == state && j != id ==>
                  w.callers[j].Asking? || w.callers[j].Checking? || (w.callers[j].Done? && !w.callers[j].outcome.Success?)
    ensures var w := Exec(EMPTY, run);
            Step(Step(w, Event(now, Advance(id))), Event(later, Advance(id))).callers[id] == Done(state, Success(now, later))
  {
    var w := Exec(EMPTY, run);
    RunKeeps(EMPTY, run);
    assert !IsMark(state);
    AnswersIff(run, id, now);
    assert Claimable(w, state, now);
  }
}
