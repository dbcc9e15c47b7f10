/** The signing-key cache of the bearer-token provider (crates/sqe-auth/src/bearer_token.rs). Time is
    in seconds. */
module Jwks {
  import opened Prelude

  const CACHE_TTL: nat := 900
  const REFETCH_MIN_INTERVAL: nat := 30

  datatype Key = Key(material: string, alg: string)

  datatype CachedJwk = CachedJwk(key: Key, lastSeen: nat)

  type JwksMap = map<string, CachedJwk>

  datatype Cached = Cached(keys: JwksMap, inserted: nat)

  /** What the endpoint answered: nothing usable, or the loadable keys by `kid`. */
  type Response = Option<map<string, Key>>

  predicate Live(cache: Option<Cached>, now: nat) {
    cache.Some? && now < cache.value.inserted + CACHE_TTL
  }

  /** `fetch_jwks_map`: every key of the answer was seen now. */
  function Seen(served: map<string, Key>, now: nat): JwksMap {
    map kid | kid in served :: CachedJwk(served[kid], now)
  }

  predicate WithinGrace(entry: CachedJwk, now: nat, grace: nat) {
    now - entry.lastSeen <= grace
  }

  /** The replacement map of `refetch_jwks`: the fresh keys, seen at `seenAt`, and the retired ones still in
      their grace window -- unless the answer was empty or there is no window. */
  function Replacement(served: map<string, Key>, seenAt: nat, cache: Option<Cached>, now: nat, grace: nat): JwksMap {
    if served == map[] || grace == 0 || !Live(cache, now) then Seen(served, seenAt)
    else
      var retired := map kid | kid in cache.value.keys && kid !in served
          && WithinGrace(cache.value.keys[kid], now, grace)
                       :: cache.value.keys[kid];
      retired + Seen(served, seenAt)
  }

  /** Within the cooldown a cached map is used instead of the network. */
  predicate Suppressed(cache: Option<Cached>, lastRefetch: Option<nat>, now: nat) {
    lastRefetch.Some? && now - lastRefetch.value < REFETCH_MIN_INTERVAL && Live(cache, now)
  }

  /** The verdict of the JWT library for one key. */
  datatype Verdict = Accepted(claims: string) | InvalidSignature | Rejected(reason: string)

  /** The cache and the map that `get_jwks` leaves and returns. */
  function Got(cache: Option<Cached>, now: nat, first: Response): (Option<Cached>, Option<JwksMap>) {
    if Live(cache, now) then (cache, Some(cache.value.keys))
    else if first.None? then (cache, None)
    else (Some(Cached(Seen(first.value, now), now)), Some(Seen(first.value, now)))
  }

  /** The same for `refetch_jwks`. */
  function Refetched(cache: Option<Cached>, lastRefetch: Option<nat>, now: nat, again: Response, grace: nat)
    : (Option<Cached>, Option<JwksMap>)
  {
    if Suppressed(cache, lastRefetch, now) then (cache, Some(cache.value.keys))
    else if again.None? then (cache, None)
    else
      var keys := Replacement(again.value, now, cache, now, grace);
      (Some(Cached(keys, now)), Some(keys))
  }

  /** A map is cached and younger than 15 minutes. */
  ghost predicate IsFresh(cache: Option<Cached>, now: nat) {
    cache.Some? && now < cache.value.inserted + 900
  }

  /** The last refetch is less than 30 seconds ago. */
  ghost predicate CoolingDown(lastRefetch: Option<nat>, now: nat) {
    lastRefetch.Some? && now < lastRefetch.value + 30
  }

  /** `keys` are those of the answer, seen now, and of `held` those not in the answer that were seen no longer
      than `grace` ago -- none where the answer is empty or there is no grace. */
  ghost predicate IsReplacement(keys: JwksMap, served: map<string, Key>, held: JwksMap, now: nat, grace: nat) {
    && (forall kid :: kid in keys <==>
          kid in served || (served != map[] && grace > 0 && kid in held && now <= held[kid].lastSeen + grace))
    && (forall kid :: kid in keys ==>
          keys[kid] == if kid in served then CachedJwk(served[kid], now) else held[kid])
  }

  /** The provider object, one call at a time and each at one instant. `first` and `again` are what the
      endpoint would answer. */
  class Provider {
    const grace: nat
    var cache: Option<Cached>
    var lastRefetch: Option<nat>

    constructor (grace: nat)
      ensures this.grace == grace && cache == None && lastRefetch == None
    {
      this.grace, cache, lastRefetch := grace, None, None;
    }

    method GetJwks(now: nat, first: Response) returns (r: Option<JwksMap>, fetches: nat)
      modifies this`cache
      ensures (cache, r) == Got(old(cache), now, first)
      ensures if IsFresh(old(cache), now) then fetches == 0 && cache == old(cache) && r == Some(cache.value.keys)
              else if first.None? then fetches == 1 && cache == old(cache) && r == None
              else
                && fetches == 1 && r.Some? && cache == Some(Cached(r.value, now))
                && IsReplacement(r.value, first.value, map[], now, 0)
    {
      if Live(cache, now) { return Some(cache.value.keys), 0; }
      match first
      case None => return None, 1;
      case Some(served) =>
        cache := Some(Cached(Seen(served, now), now));
        return Some(cache.value.keys), 1;
    }

    /** The loop that carries retired keys over. */
    method CarryOver(served: map<string, Key>, existing: JwksMap, now: nat) returns (merged: JwksMap)
      ensures merged == (map kid | kid in existing && kid !in served
              && WithinGrace(existing[kid], now, grace) :: existing[kid])
                        + Seen(served, now)
    {
      merged := Seen(served, now);
      var todo := existing.Keys;
      while todo != {}
        invariant todo <= existing.Keys
        invariant forall kid :: kid in merged <==>
                    kid in served || (kid in existing && kid !in todo && WithinGrace(existing[kid], now, grace))
        invariant forall kid :: kid in merged ==>
                    merged[kid] == if kid in served then CachedJwk(served[kid], now) else existing[kid]
        decreases |todo|
      {
        var kid :| kid in todo;
        if kid !in served && now - existing[kid].lastSeen <= grace {
          merged := merged[kid := existing[kid]];
        }
        todo := todo - {kid};
      }
    }

    method RefetchJwks(now: nat, again: Response) returns (r: Option<JwksMap>, fetches: nat)
      modifies this
      ensures (cache, r) == Refetched(old(cache), old(lastRefetch), now, again, grace)
      ensures if CoolingDown(old(lastRefetch), now) && IsFresh(old(cache), now) then
                fetches == 0 && lastRefetch == old(lastRefetch) && cache == old(cache) && r == Some(cache.value.keys)
              else if again.None? then
                fetches == 1 && lastRefetch == Some(now) && cache == old(cache) && r == None
              else
                && fetches == 1 && lastRefetch == Some(now) && r.Some? && cache == Some(Cached(r.value, now))
                && var held := if IsFresh(old(cache), now) then old(cache).value.keys else map[];
                   IsReplacement(r.value, again.value, held, now, grace)
    {
      if lastRefetch.Some? && now - lastRefetch.value < REFETCH_MIN_INTERVAL {
        if Live(cache, now) { return Some(cache.value.keys), 0; }
      }
      lastRefetch := Some(now);
      if again.None? { return None, 1; }
      var served := again.value;
      var keys := Seen(served, now);
      if served != map[] && grace != 0 && Live(cache, now) {
        keys := CarryOver(served, cache.value.keys, now);
      }
      cache := Some(Cached(keys, now));
      return Some(keys), 1;
    }

    /** The endpoint serves a key under which the token verifies, no refetch was sent in the last 30 seconds, and
        a key that is cached under the same name either accepts the token or does not fit its signature. */
    ghost predicate AcceptsServed(cache: Option<Cached>, lastRefetch: Option<nat>, now: nat, kid: string,
                                  verify: CachedJwk -> Verdict, first: Response, again: Response)
    {
      && again.Some? && kid in again.value && verify(CachedJwk(again.value[kid], now)).Accepted? && first == again
      && !CoolingDown(lastRefetch, now)
      && (IsFresh(cache, now) && kid in cache.value.keys ==> !verify(cache.value.keys[kid]).Rejected?)
    }

    /** `validate_jwt`: the verdict under the key first obtained, unless that key is missing or does not fit
        the signature; then the verdict under the key after a refetch. */
    method ValidateJwt(now: nat, kid: string, verify: CachedJwk -> Verdict, first: Response, again: Response)
      returns (v: Verdict, fetches: nat)
      modifies this
      ensures var (cache1, jwks1) := Got(old(cache), now, first);
              if jwks1.None? then v.Rejected? && cache == cache1 && lastRefetch == old(lastRefetch)
              else if kid in jwks1.value && !verify(jwks1.value[kid]).InvalidSignature? then
                v == verify(jwks1.value[kid]) && cache == cache1 && lastRefetch == old(lastRefetch)
              else
                var (cache2, jwks2) := Refetched(cache1, old(lastRefetch), now, again, grace);
                && cache == cache2
                && if jwks2.Some? && kid in jwks2.value then v == verify(jwks2.value[kid]) else v.Rejected?
      ensures IsFresh(old(cache), now) && kid in old(cache).value.keys && verify(old(cache).value.keys[kid]).Accepted?
              ==> fetches == 0
      ensures AcceptsServed(old(cache), old(lastRefetch), now, kid, verify, first, again) ==> v.Accepted?
      ensures v.Accepted? ==> IsFresh(cache, now) && kid in cache.value.keys && v == verify(cache.value.keys[kid])
      ensures fetches <= 2
    {
      var jwks, f1 := GetJwks(now, first);
      fetches := f1;
      if jwks.None? { return Rejected("JWKS unavailable"), fetches; }
      if kid in jwks.value {
        v := verify(jwks.value[kid]);
        if !v.InvalidSignature? { return; }
      }
      var f2;
      jwks, f2 := RefetchJwks(now, again);
      fetches := fetches + f2;
      if jwks.None? || kid !in jwks.value { return Rejected("Key ID not found in JWKS after refresh"), fetches; }
      v := verify(jwks.value[kid]);
    }
  }
}

/** The cache under concurrency: tasks queue on the fetch mutex; the answer of the network, the merge with the
    cached keys and the storing are steps of their own, and time passes in between. */
module JwksRuns {
  import opened Prelude
  import opened Jwks

  datatype Phase =
    | WantsFetch
    | WantsRefetch
    | Fetching(again: bool)
    | Merging(served: map<string, Key>, seenAt: nat)
    | Storing(keys: JwksMap, seenAt: nat)

  /** A successful answer of the endpoint. */
  datatype Fetch = Fetch(time: nat, keys: map<string, Key>)

  /** A request that `refetch_jwks` sent, and whether a map was cached at that moment. */
  datatype Start = Start(time: nat, cached: bool)

  /** `holder` has the fetch mutex. The rest only records history: `slowest` is the longest time between an
      answer and its storing. */
  datatype State = State(now: nat, cache: Option<Cached>, lastRefetch: Option<nat>, holder: Option<nat>,
                         tasks: map<nat, Phase>, fetches: seq<Fetch>, starts: seq<Start>, slowest: nat)

  datatype Action =
    | Tick(seconds: nat)
    | Evict
    | Get(task: nat)
    | Refetch(task: nat)
    | Lock(task: nat)
    | Answer(task: nat, response: Response)
    | Merge(task: nat)
    | Store(task: nat)

  const INIT := State(0, None, None, None, map[], [], [], 0)

  predicate Enabled(s: State, a: Action) {
    match a
    case Tick(_) | Evict => true
    case Get(t) => t !in s.tasks
    case Refetch(t) => t !in s.tasks
    case Lock(t) => t in s.tasks && (s.tasks[t].WantsFetch? || s.tasks[t].WantsRefetch?) && s.holder.None?
    case Answer(t, _) => t in s.tasks && s.tasks[t].Fetching?
    case Merge(t) => t in s.tasks && s.tasks[t].Merging?
    case Store(t) => t in s.tasks && s.tasks[t].Storing?
  }

  function Next(s: State, a: Action, grace: nat): State
    requires Enabled(s, a)
  {
    match a
    case Tick(seconds) => s.(now := s.now + seconds)
    case Evict => s.(cache := None)
    case Get(t) => if Live(s.cache, s.now) then s else s.(tasks := s.tasks[t := WantsFetch])
    case Refetch(t) => s.(tasks := s.tasks[t := WantsRefetch])
    case Lock(t) => Locked(s, t)
    case Answer(t, response) => Answered(s, t, response)
    case Merge(t) => Merged(s, t, grace)
    case Store(t) => Stored(s, t)
  }

  /** With the mutex: the double check of a fetch, or the cooldown of a refetch. */
  function Locked(s: State, t: nat): State
    requires t in s.tasks
  {
    var again := s.tasks[t].WantsRefetch?;
    if (if again then Suppressed(s.cache, s.lastRefetch, s.now) else Live(s.cache, s.now))
        then s.(tasks := s.tasks - {t})
    else
      var holding := s.(holder := Some(t), tasks := s.tasks[t := Fetching(again)]);
      if again then holding.(lastRefetch := Some(s.now), starts := s.starts + [Start(s.now, Live(s.cache, s.now))])
      else holding
  }

  /** The answer arrives; its keys are seen now. A failure releases the mutex. */
  function Answered(s: State, t: nat, response: Response): State
    requires t in s.tasks && s.tasks[t].Fetching?
  {
    match response
    case None => s.(holder := None, tasks := s.tasks - {t})
    case Some(served) =>
      var next := if s.tasks[t].again then Merging(served, s.now) else Storing(Seen(served, s.now), s.now);
      s.(tasks := s.tasks[t := next], fetches := s.fetches + [Fetch(s.now, served)])
  }

  /** The grace window of the retired keys is checked. */
  function Merged(s: State, t: nat, grace: nat): State
    requires t in s.tasks && s.tasks[t].Merging?
  {
    var Merging(served, seenAt) := s.tasks[t];
    s.(tasks := s.tasks[t := Storing(Replacement(served, seenAt, s.cache, s.now, grace), seenAt)])
  }

  /** The map goes into the cache; the mutex is released. */
  function Stored(s: State, t: nat): State
    requires t in s.tasks && s.tasks[t].Storing?
  {
    var Storing(keys, seenAt) := s.tasks[t];
    var took := if s.now > seenAt then s.now - seenAt else 0;
    s.(cache := Some(Cached(keys, s.now)), holder := None, tasks := s.tasks - {t},
       slowest := if took > s.slowest then took else s.slowest)
  }

  predicate IsRun(s: State, run: seq<Action>, grace: nat)
    decreases |run|
  {
    run == [] || (Enabled(s, run[0]) && IsRun(Next(s, run[0], grace), run[1..], grace))
  }

  function After(s: State, run: seq<Action>, grace: nat): State
    requires IsRun(s, run, grace)
    decreases |run|
  {
    if run == [] then s else After(Next(s, run[0], grace), run[1..], grace)
  }

  // ---- the invariant -------------------------------------------------------------------------

  /** Some answer at time `entry.lastSeen` carried this key. */
  ghost predicate Published(fetches: seq<Fetch>, kid: string, entry: CachedJwk) {
    exists i :: 0 <= i < |fetches| && fetches[i].time == entry.lastSeen
                && kid in fetches[i].keys && fetches[i].keys[kid] == entry.key
  }

  /** Every key was published, and at `at` it had been seen within the grace window. */
  ghost predicate KeysInv(s: State, keys: JwksMap, at: nat, grace: nat) {
    forall kid :: kid in keys ==>
      keys[kid].lastSeen <= s.now && at <= keys[kid].lastSeen + grace && Published(s.fetches, kid, keys[kid])
  }

  ghost predicate CacheInv(s: State, grace: nat) {
    s.cache.Some? ==>
      && s.cache.value.inserted <= s.now
      && KeysInv(s, s.cache.value.keys, if s.cache.value.inserted > s.slowest then s.cache.value.inserted - s.slowest
          else 0, grace)
  }

  ghost predicate StartsInv(s: State) {
    && (s.starts == [] <==> s.lastRefetch.None?)
    && (s.starts != [] ==> s.lastRefetch.value == s.starts[|s.starts| - 1].time <= s.now)
    && forall i :: 0 < i < |s.starts| ==>
         s.starts[i - 1].time <= s.starts[i].time
         && (s.starts[i].cached ==> s.starts[i].time >= s.starts[i - 1].time + REFETCH_MIN_INTERVAL)
  }

  ghost predicate TaskInv(s: State, t: nat, grace: nat)
    requires t in s.tasks
  {
    match s.tasks[t]
    case WantsFetch => true
    case WantsRefetch => true
    case Fetching(_) => s.holder == Some(t)
    case Merging(served, seenAt) => s.holder == Some(t) && seenAt <= s.now && Fetch(seenAt, served) in s.fetches
    case Storing(keys, seenAt) => s.holder == Some(t) && seenAt <= s.now && KeysInv(s, keys, seenAt, grace)
  }

  ghost predicate Inv(s: State, grace: nat) {
    CacheInv(s, grace) && StartsInv(s) && forall t :: t in s.tasks ==> TaskInv(s, t, grace)
  }

  /** History only grows. */
  lemma {:induction false} KeysStay(s: State, s': State, keys: JwksMap, at: nat, at': nat, grace: nat)
    requires KeysInv(s, keys, at, grace) && s.fetches <= s'.fetches && s.now <= s'.now && at' <= at
    ensures KeysInv(s', keys, at', grace)
  {
    forall kid | kid in keys ensures Published(s'.fetches, kid, keys[kid]) {
      assert Published(s.fetches, kid, keys[kid]);
      var i :| 0 <= i < |s.fetches| && s.fetches[i].time == keys[kid].lastSeen && kid in s.fetches[i].keys
          && s.fetches[i].keys[kid] == keys[kid].key;
      assert s'.fetches[i] == s.fetches[i];
    }
  }

  lemma {:induction false} SeenKeys(s: State, served: map<string, Key>, at: nat, grace: nat)
    requires Fetch(at, served) in s.fetches && at <= s.now
    ensures KeysInv(s, Seen(served, at), at, grace)
  {
    var i :| 0 <= i < |s.fetches| && s.fetches[i] == Fetch(at, served);
    forall kid | kid in served ensures Published(s.fetches, kid, CachedJwk(served[kid], at)) {
      assert s.fetches[i].time == at && kid in s.fetches[i].keys;
    }
  }

  lemma {:induction false} MergedKeys(s: State, t: nat, grace: nat)
    requires Inv(s, grace) && t in s.tasks && s.tasks[t].Merging?
    ensures var m := s.tasks[t]; KeysInv(s, Replacement(m.served, m.seenAt, s.cache, s.now, grace), m.seenAt, grace)
  {
    assert TaskInv(s, t, grace);
    var m := s.tasks[t];
    SeenKeys(s, m.served, m.seenAt, grace);
    hide Published;
  }

  lemma {:induction false} CacheStays(s: State, a: Action, grace: nat)
    requires Inv(s, grace) && Enabled(s, a)
    ensures CacheInv(Next(s, a, grace), grace)
  {
    var s' := Next(s, a, grace);
    if a.Store? {
      assert TaskInv(s, a.task, grace);
      var keys, seenAt := s.tasks[a.task].keys, s.tasks[a.task].seenAt;
      var at := if s.now > s'.slowest then s.now - s'.slowest else 0;
      KeysStay(s, s', keys, seenAt, at, grace);
    } else if s'.cache.Some? {
      var c := s.cache.value;
      var at := if c.inserted > s.slowest then c.inserted - s.slowest else 0;
      KeysStay(s, s', c.keys, at, at, grace);
    }
  }

  lemma {:induction false} TaskStays(s: State, a: Action, grace: nat, t: nat)
    requires Inv(s, grace) && Enabled(s, a) && t in Next(s, a, grace).tasks
    ensures TaskInv(Next(s, a, grace), t, grace)
  {
    hide KeysInv, CacheInv, StartsInv, Replacement;
    var s' := Next(s, a, grace);
    if t in s.tasks { assert TaskInv(s, t, grace); }
    if !a.Tick? && !a.Evict? && a.task in s.tasks { assert TaskInv(s, a.task, grace); }
    if t in s.tasks && s.tasks[t].Storing? && s'.tasks[t] == s.tasks[t] {
      KeysStay(s, s', s.tasks[t].keys, s.tasks[t].seenAt, s.tasks[t].seenAt, grace);
    } else if a.Answer? && a.task == t && s'.tasks[t].Storing? {
      assert s'.fetches[|s.fetches|] == Fetch(s.now, a.response.value);
      SeenKeys(s', a.response.value, s.now, grace);
    } else if a.Merge? && a.task == t {
      MergedKeys(s, t, grace);
      KeysStay(s, s', s'.tasks[t].keys, s'.tasks[t].seenAt, s'.tasks[t].seenAt, grace);
    } else if s'.tasks[t].Merging? && a.Answer? && a.task == t {
      assert s'.fetches[|s.fetches|] == Fetch(s.now, a.response.value);
    }
  }

  lemma {:induction false} StartsStay(s: State, a: Action, grace: nat)
    requires Inv(s, grace) && Enabled(s, a)
    ensures StartsInv(Next(s, a, grace))
  {
    hide CacheInv, TaskInv, Replacement;
  }

  lemma {:induction false} RunKeepsInv(s: State, run: seq<Action>, grace: nat)
    requires Inv(s, grace) && IsRun(s, run, grace)
    ensures Inv(After(s, run, grace), grace)
    decreases |run|
  {
    hide CacheInv, StartsInv, TaskInv, Next, Enabled;
    if run != [] {
      var s' := Next(s, run[0], grace);
      CacheStays(s, run[0], grace);
      StartsStay(s, run[0], grace);
      forall t | t in s'.tasks ensures TaskInv(s', t, grace) { TaskStays(s, run[0], grace, t); }
      RunKeepsInv(s', run[1..], grace);
    }
  }

  // ---- over every run ------------------------------------------------------------------------

  /** A lookup now would find this key under this `kid`. */
  ghost predicate Obtainable(s: State, kid: string, key: Key) {
    IsFresh(s.cache, s.now) && kid in s.cache.value.keys && s.cache.value.keys[kid].key == key
  }

  /** The answer `i` carried the key. */
  ghost predicate Carried(s: State, i: nat, kid: string, key: Key) {
    i < |s.fetches| && kid in s.fetches[i].keys && s.fetches[i].keys[kid] == key
  }

  /** A key that can be obtained was in an answer less than grace window plus cache TTL ago, give or take the
      longest time an answer took to be stored. */
  lemma {:induction false} KeyAgeBound(run: seq<Action>, grace: nat, kid: string, key: Key) returns (i: nat)
    requires IsRun(INIT, run, grace) && Obtainable(After(INIT, run, grace), kid, key)
    ensures var s := After(INIT, run, grace);
            Carried(s, i, kid, key) && s.now < s.fetches[i].time + grace + 900 + s.slowest
  {
    RunKeepsInv(INIT, run, grace);
    var s := After(INIT, run, grace);
    var entry := s.cache.value.keys[kid];
    assert Published(s.fetches, kid, entry);
    i :| 0 <= i < |s.fetches| && s.fetches[i].time == entry.lastSeen && kid in s.fetches[i].keys
        && s.fetches[i].keys[kid] == entry.key;
  }

  /** Revocation: once no answer has carried the key since `t`, it is gone when that time is over. */
  lemma {:induction false} RevokedKeyIsGone(run: seq<Action>, grace: nat, kid: string, key: Key, t: nat)
    requires IsRun(INIT, run, grace)
    requires var s := After(INIT, run, grace);
             && s.now >= t + grace + 900 + s.slowest
             && forall i: nat :: Carried(s, i, kid, key) ==> s.fetches[i].time <= t
    ensures !Obtainable(After(INIT, run, grace), kid, key)
  {
    if Obtainable(After(INIT, run, grace), kid, key) {
      var i := KeyAgeBound(run, grace, kid, key);
    }
  }

  /** A key answered once, at time 0, and retired just inside its grace window by an answer whose storing
      takes `lag`. */
  function SlowRevocation(grace: nat, lag: nat, key: Key): seq<Action> {
    [Get(0), Lock(0), Answer(0, Some(map["old" := key])), Store(0), Tick(grace), Refetch(0), Lock(0),
     Answer(0, Some(map["new" := key])), Merge(0), Tick(lag), Store(0), Tick(CACHE_TTL - 1)]
  }

  /** The states of that run. */
  function Stage(i: nat, grace: nat, lag: nat, key: Key): State
    requires i <= 12
  {
    var first, second := map["old" := key], map["new" := key];
    var got := INIT.(cache := Some(Cached(Seen(first, 0), 0)), fetches := [Fetch(0, first)]);
    var later := got.(now := grace);
    var asking := later.(tasks := map[0 := Fetching(true)], holder := Some(0), lastRefetch := Some(grace),
        starts := [Start(grace, true)]);
    var seen := asking.(fetches := [Fetch(0, first), Fetch(grace, second)]);
    var keys := Replacement(second, grace, got.cache, grace, grace);
    var merged := seen.(tasks := map[0 := Storing(keys, grace)]);
    var done := seen.(now := grace + lag, tasks := map[], holder := None, cache := Some(Cached(keys, grace + lag)),
        slowest := lag);
    match i
    case 0 => INIT
    case 1 => INIT.(tasks := map[0 := WantsFetch])
    case 2 => INIT.(tasks := map[0 := Fetching(false)], holder := Some(0))
    case 3 => INIT.(tasks := map[0 := Storing(Seen(first, 0), 0)], holder := Some(0), fetches := [Fetch(0, first)])
    case 4 => got
    case 5 => later
    case 6 => later.(tasks := map[0 := WantsRefetch])
    case 7 => asking
    case 8 => seen.(tasks := map[0 := Merging(second, grace)])
    case 9 => merged
    case 10 => merged.(now := grace + lag)
    case 11 => done
    case _ => done.(now := grace + lag + CACHE_TTL - 1)
  }

  lemma {:induction false} StageStep(i: nat, grace: nat, lag: nat, key: Key)
    requires i < 12 && 0 < grace < CACHE_TTL
    ensures var a := SlowRevocation(grace, lag, key)[i];
            Enabled(Stage(i, grace, lag, key), a)
                && Next(Stage(i, grace, lag, key), a, grace) == Stage(i + 1, grace, lag, key)
  {
    hide Replacement;
  }

  lemma {:induction false} Stages(i: nat, grace: nat, lag: nat, key: Key)
    requires i <= 12 && 0 < grace < CACHE_TTL
    ensures var rest := SlowRevocation(grace, lag, key)[i..];
            IsRun(Stage(i, grace, lag, key), rest, grace)
                && After(Stage(i, grace, lag, key), rest, grace) == Stage(12, grace, lag, key)
    decreases 12 - i
  {
    hide Stage, Next, Enabled;
    var run := SlowRevocation(grace, lag, key);
    if i < 12 {
      StageStep(i, grace, lag, key);
      Stages(i + 1, grace, lag, key);
      assert run[i..][0] == run[i] && run[i..][1..] == run[i + 1..];
    }
  }

  lemma {:induction false} OldKeyIsKept(grace: nat, lag: nat, key: Key)
    requires 0 < grace < CACHE_TTL
    ensures Obtainable(Stage(12, grace, lag, key), "old", key)
  {
    assert "old"[0] != "new"[0];
    var second := map["new" := key];
    assert "old" !in second && "new" in second && second != map[];
    assert Stage(12, grace, lag, key).cache.value.keys
        == Replacement(second, grace, Stage(4, grace, lag, key).cache, grace, grace);
    var keys := Stage(4, grace, lag, key).cache.value.keys;
    assert "old" in keys && WithinGrace(keys["old"], grace, grace);
  }

  /** The bound cannot be lowered: for every lag this run still obtains the key one second before it. */
  lemma {:induction false} KeyAgeBoundIsTight(grace: nat, lag: nat, key: Key)
    requires 0 < grace < 900
    ensures var run := SlowRevocation(grace, lag, key);
            && IsRun(INIT, run, grace)
            && var s := After(INIT, run, grace);
               && Obtainable(s, "old", key) && s.slowest == lag && s.now == grace + 900 + lag - 1
               && s.fetches == [Fetch(0, map["old" := key]), Fetch(grace, map["new" := key])]
  {
    hide IsRun, After;
    Stages(0, grace, lag, key);
    OldKeyIsKept(grace, lag, key);
    assert SlowRevocation(grace, lag, key)[0..] == SlowRevocation(grace, lag, key);
  }

  /** What a refetch is about to store: the keys of the answer, and those retired keys that were last seen within
      the grace window; an empty answer leaves an empty map. The next step of the task puts exactly this into
      the cache. */
  lemma {:induction false} AfterRefetch(s: State, t: nat, served: map<string, Key>, seenAt: nat, grace: nat)
    requires t in s.tasks && s.tasks[t] == Merging(served, seenAt)
    ensures var m := Merged(s, t, grace);
            && m.tasks[t].Storing? && Stored(m, t).cache == Some(Cached(m.tasks[t].keys, m.now))
            && var keys := m.tasks[t].keys;
               && (served == map[] ==> keys == map[])
               && (forall kid :: kid in served ==> kid in keys && keys[kid] == CachedJwk(served[kid], seenAt))
               && (forall kid :: kid !in served ==>
                     (kid in keys <==>
                        && served != map[] && grace > 0 && IsFresh(s.cache, s.now) && kid in s.cache.value.keys
                        && s.now <= s.cache.value.keys[kid].lastSeen + grace))
               && (forall kid :: kid !in served && kid in keys ==> keys[kid] == s.cache.value.keys[kid])
  {
  }

  /** A failed fetch never changes the cached keys, and no step but a storing or an eviction does. */
  lemma {:induction false} CacheChangesOnlyOnSuccess(s: State, a: Action, grace: nat)
    requires Enabled(s, a) && Next(s, a, grace).cache != s.cache
    ensures a.Evict? || a.Store?
  {
  }

  /** While a map is cached, requests sent by refetches are a cooldown apart, failed ones included:
      `n` of them take at least `30 (n - 1)` seconds. */
  lemma {:induction false} RefetchSpacing(run: seq<Action>, grace: nat, i: nat, j: nat)
    requires IsRun(INIT, run, grace)
    requires i <= j < |After(INIT, run, grace).starts|
    requires forall k :: i < k <= j ==> After(INIT, run, grace).starts[k].cached
    ensures var starts := After(INIT, run, grace).starts;
            starts[j].time >= starts[i].time + 30 * (j - i)
    decreases j
  {
    RunKeepsInv(INIT, run, grace);
    if i < j { RefetchSpacing(run, grace, i, j - 1); }
  }

  /** A task that gets the mutex for a refetch sends a request if and only if the last one sent by a refetch is 30
      seconds ago or more, or no map younger than 15 minutes is cached; otherwise it is done. */
  lemma {:induction false} RefetchIsSent(run: seq<Action>, grace: nat, t: nat)
    requires IsRun(INIT, run, grace) && Enabled(After(INIT, run, grace), Lock(t))
    requires After(INIT, run, grace).tasks[t].WantsRefetch?
    ensures var s := After(INIT, run, grace);
            var s' := Next(s, Lock(t), grace);
            if s.starts != [] && s.now < s.starts[|s.starts| - 1].time + 30 && IsFresh(s.cache, s.now) then
              s'.starts == s.starts && t !in s'.tasks && s'.holder == None
            else
              && s'.starts == s.starts + [Start(s.now, IsFresh(s.cache, s.now))]
              && t in s'.tasks && s'.tasks[t] == Fetching(true) && s'.holder == Some(t)
  {
    RunKeepsInv(INIT, run, grace);
    hide CacheInv, TaskInv;
  }

  /** A lookup is answered from the cache if and only if a map younger than 15 minutes is there, and then sends no
      request; any other sends one when it gets the mutex, unless a map has come by then. */
  lemma {:induction false} FetchIsSent(s: State, grace: nat, t: nat)
    ensures Enabled(s, Get(t)) ==>
              var s' := Next(s, Get(t), grace);
              if IsFresh(s.cache, s.now) then s' == s else t in s'.tasks && s'.tasks[t] == WantsFetch
    ensures Enabled(s, Lock(t)) && s.tasks[t].WantsFetch? ==>
              var s' := Next(s, Lock(t), grace);
              if IsFresh(s.cache, s.now) then t !in s'.tasks && s'.holder == None
              else t in s'.tasks && s'.tasks[t] == Fetching(false) && s'.holder == Some(t)
  {
  }

  ghost predicate HoldsMutex(p: Phase) {
    p.Fetching? || p.Merging? || p.Storing?
  }

  /** At most one request is in flight, and none while an answer is being stored. */
  lemma {:induction false} SingleRequest(run: seq<Action>, grace: nat, t: nat, u: nat)
    requires IsRun(INIT, run, grace)
    requires var s := After(INIT, run, grace);
             t in s.tasks && HoldsMutex(s.tasks[t]) && u in s.tasks && HoldsMutex(s.tasks[u])
    ensures t == u
  {
    RunKeepsInv(INIT, run, grace);
    var s := After(INIT, run, grace);
    assert TaskInv(s, t, grace) && TaskInv(s, u, grace);
  }
}
