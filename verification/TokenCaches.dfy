/** The client-credentials token of the OIDC machine-to-machine provider (crates/sqe-auth/src/oidc_m2m.rs).
    Time is in nanoseconds. */
module OidcM2m {
  import opened Prelude

  const SECOND: nat := 1_000_000_000

  datatype CachedToken<T> = CachedToken(accessToken: T, expiresAt: nat)

  /** The lifetime that is believed: `expires_in`, but one second at least and one day at most. */
  function Lifetime(expiresIn: nat): nat {
    SECOND * if expiresIn < 1 then 1 else if expiresIn > 86400 then 86400 else expiresIn
  }

  predicate Fresh<T>(cache: Option<CachedToken<T>>, now: nat, skew: nat) {
    cache.Some? && cache.value.expiresAt > now && cache.value.expiresAt - now > skew
  }

  /** `token` and `expiresIn` of a successful answer. */
  datatype Response = Response(accessToken: string, expiresIn: nat)

  /** The provider object as one call sees it. The clock is read at `first`, `second` and `answered`;
      `meanwhile` is what another task stored while this one waited for the mutex. */
  class Provider {
    const skew: nat
    var cache: Option<CachedToken<string>>

    constructor (skew: nat)
      ensures this.skew == skew && cache == None
    {
      this.skew, cache := skew, None;
    }

    method CachedIfFresh(now: nat) returns (token: Option<string>)
      ensures token == if cache.Some? && now + skew < cache.value.expiresAt then Some(cache.value.accessToken) else None
    {
      if cache.Some? {
        var left := if cache.value.expiresAt > now then cache.value.expiresAt - now else 0;
        if left > skew { return Some(cache.value.accessToken); }
      }
      return None;
    }

    method GetToken(first: nat, meanwhile: Option<CachedToken<string>>, second: nat, answered: nat,
                    response: Option<Response>)
      returns (r: Result<string>, fetched: bool)
      requires first <= second <= answered
      modifies this
      ensures var found := if meanwhile.Some? then meanwhile else old(cache);
              if old(Fresh(cache, first, skew)) then
                !fetched && r == Ok(old(cache).value.accessToken) && cache == old(cache)
              else if Fresh(found, second, skew) then
                !fetched && r == Ok(found.value.accessToken) && cache == found
              else if response.None? then
                fetched && r.Err? && cache == found
              else
                && fetched && r == Ok(response.value.accessToken)
                && cache == Some(CachedToken(response.value.accessToken, answered + Lifetime(response.value.expiresIn)))
    {
      var token := CachedIfFresh(first);
      if token.Some? { return Ok(token.value), false; }
      if meanwhile.Some? { cache := meanwhile; }
      token := CachedIfFresh(second);
      if token.Some? { return Ok(token.value), false; }
      if response.None? { return Err("M2M token request failed"), true; }
      cache := Some(CachedToken(response.value.accessToken, answered + Lifetime(response.value.expiresIn)));
      return Ok(response.value.accessToken), true;
    }
  }
}

/** Any number of tasks calling `get_token`: each await is a step, and time passes in between. */
module OidcM2mRuns {
  import opened Prelude
  import opened OidcM2m

  /** A token as the identity provider issued it. */
  datatype Grant = Grant(token: string, expiresIn: nat, issuedAt: nat)

  datatype Phase =
    | Waiting
    | Holding
    | Requesting(sentAt: nat)
    | Storing(fetch: Fetch)

  datatype Fetch = Fetch(grant: Grant, sentAt: nat, answeredAt: nat)

  datatype Served = FromCache(grant: Grant, checkedAt: nat) | Own(grant: Grant)

  /** `holder` has the refresh mutex; `fetches` and `served` only record history. */
  datatype State = State(now: nat, cache: Option<CachedToken<Grant>>, holder: Option<nat>, tasks: map<nat, Phase>,
                         fetches: seq<Fetch>, served: seq<Served>)

  datatype Action =
    | Tick(duration: nat)
    | Call(task: nat)
    | Lock(task: nat)
    | Recheck(task: nat)
    | Answer(task: nat, response: Option<Grant>)
    | Store(task: nat)

  const INIT := State(0, None, None, map[], [], [])

  predicate Enabled(s: State, a: Action) {
    match a
    case Tick(_) => true
    case Call(t) => t !in s.tasks
    case Lock(t) => t in s.tasks && s.tasks[t].Waiting? && s.holder.None?
    case Recheck(t) => t in s.tasks && s.tasks[t].Holding?
    case Answer(t, response) =>
      t in s.tasks && s.tasks[t].Requesting?
      && (response.Some? ==> s.tasks[t].sentAt <= response.value.issuedAt <= s.now)
    case Store(t) => t in s.tasks && s.tasks[t].Storing?
  }

  /** The task is done and lets go of the mutex. */
  function Done(s: State, t: nat): State {
    s.(tasks := s.tasks - {t}, holder := None)
  }

  function Next(s: State, a: Action, skew: nat): State
    requires Enabled(s, a)
  {
    match a
    case Tick(duration) => s.(now := s.now + duration)
    case Call(t) =>
      if Fresh(s.cache, s.now, skew) then s.(served := s.served + [FromCache(s.cache.value.accessToken, s.now)])
      else s.(tasks := s.tasks[t := Waiting])
    case Lock(t) => s.(tasks := s.tasks[t := Holding], holder := Some(t))
    case Recheck(t) =>
      if Fresh(s.cache, s.now, skew) then
        Done(s, t).(served := s.served + [FromCache(s.cache.value.accessToken, s.now)])
      else s.(tasks := s.tasks[t := Requesting(s.now)])
    case Answer(t, response) =>
      (match response
       case None => Done(s, t)
       case Some(grant) => s.(tasks := s.tasks[t := Storing(Fetch(grant, s.tasks[t].sentAt, s.now))]))
    case Store(t) =>
      var f := s.tasks[t].fetch;
      Done(s, t).(cache := Some(CachedToken(f.grant, f.answeredAt + Lifetime(f.grant.expiresIn))),
                  fetches := s.fetches + [f], served := s.served + [Own(f.grant)])
  }

  predicate IsRun(s: State, run: seq<Action>, skew: nat)
    decreases |run|
  {
    run == [] || (Enabled(s, run[0]) && IsRun(Next(s, run[0], skew), run[1..], skew))
  }

  function After(s: State, run: seq<Action>, skew: nat): State
    requires IsRun(s, run, skew)
    decreases |run|
  {
    if run == [] then s else After(Next(s, run[0], skew), run[1..], skew)
  }

  // ---- the invariant -------------------------------------------------------------------------

  function Expiry(f: Fetch): nat {
    f.answeredAt + Lifetime(f.grant.expiresIn)
  }

  /** The request of a fetch that follows `fetches` was not sent while their last token was fresh. */
  predicate SentInTime(fetches: seq<Fetch>, sentAt: nat, skew: nat) {
    fetches != [] ==> sentAt + skew >= Expiry(fetches[|fetches| - 1]) && sentAt >= fetches[|fetches| - 1].answeredAt
  }

  predicate Timely(f: Fetch, now: nat) {
    f.sentAt <= f.grant.issuedAt <= f.answeredAt <= now
  }

  ghost predicate TaskInv(s: State, t: nat, skew: nat)
    requires t in s.tasks
  {
    match s.tasks[t]
    case Waiting => true
    case Holding => s.holder == Some(t)
    case Requesting(sentAt) => s.holder == Some(t) && sentAt <= s.now && SentInTime(s.fetches, sentAt, skew)
    case Storing(f) => s.holder == Some(t) && Timely(f, s.now) && SentInTime(s.fetches, f.sentAt, skew)
  }

  ghost predicate FetchesInv(s: State, skew: nat) {
    && (forall i :: 0 <= i < |s.fetches| ==> Timely(s.fetches[i], s.now))
    && (forall i :: 0 < i < |s.fetches| ==>
          s.fetches[i].sentAt + skew >= Expiry(s.fetches[i - 1]) && s.fetches[i].sentAt >= s.fetches[i - 1].answeredAt)
    && s.cache == if s.fetches == [] then None
                  else var f := s.fetches[|s.fetches| - 1]; Some(CachedToken(f.grant, Expiry(f)))
  }

  /** The token came with fetch `i` and had more than the skew left when it was checked. */
  predicate ServedFrom(s: State, v: Served, i: nat, skew: nat) {
    && i < |s.fetches| && s.fetches[i].grant == v.grant
    && (v.FromCache? ==> v.checkedAt + skew < Expiry(s.fetches[i]) && s.fetches[i].answeredAt <= v.checkedAt)
  }

  ghost predicate Backed(s: State, v: Served, skew: nat) {
    exists i: nat :: ServedFrom(s, v, i, skew)
  }

  ghost predicate ServedInv(s: State, skew: nat) {
    forall k :: 0 <= k < |s.served| ==> Backed(s, s.served[k], skew)
  }

  ghost predicate Inv(s: State, skew: nat) {
    (forall t :: t in s.tasks ==> TaskInv(s, t, skew)) && FetchesInv(s, skew) && ServedInv(s, skew)
  }

  lemma {:induction false} TasksStay(s: State, a: Action, skew: nat)
    requires Inv(s, skew) && Enabled(s, a)
    ensures var s' := Next(s, a, skew); forall t :: t in s'.tasks ==> TaskInv(s', t, skew)
  {
    hide Lifetime, ServedInv, TaskInv;
    var s' := Next(s, a, skew);
    forall t | t in s'.tasks ensures TaskInv(s', t, skew) { TaskStays(s, a, skew, t); }
  }

  lemma {:induction false} TaskStays(s: State, a: Action, skew: nat, t: nat)
    requires Inv(s, skew) && Enabled(s, a) && t in Next(s, a, skew).tasks
    ensures TaskInv(Next(s, a, skew), t, skew)
  {
    hide Lifetime, ServedInv;
    if t in s.tasks { assert TaskInv(s, t, skew); }
    if !a.Tick? && a.task in s.tasks { assert TaskInv(s, a.task, skew); }
  }

  lemma {:induction false} FetchesStay(s: State, a: Action, skew: nat)
    requires Inv(s, skew) && Enabled(s, a)
    ensures FetchesInv(Next(s, a, skew), skew)
  {
    hide Lifetime, ServedInv;
    if a.Store? {
      assert TaskInv(s, a.task, skew);
      FetchAdded(s, s.tasks[a.task].fetch, skew);
    }
  }

  lemma {:induction false} FetchAdded(s: State, f: Fetch, skew: nat)
    requires FetchesInv(s, skew) && Timely(f, s.now) && SentInTime(s.fetches, f.sentAt, skew)
    ensures FetchesInv(s.(cache := Some(CachedToken(f.grant, Expiry(f))), fetches := s.fetches + [f]), skew)
  {
    hide Lifetime;
  }

  lemma {:induction false} ServedStays(s: State, a: Action, skew: nat)
    requires Inv(s, skew) && Enabled(s, a)
    ensures ServedInv(Next(s, a, skew), skew)
  {
    var s' := Next(s, a, skew);
    forall k | 0 <= k < |s'.served| ensures Backed(s', s'.served[k], skew) {
      if k < |s.served| {
        assert Backed(s, s.served[k], skew);
        var i: nat :| ServedFrom(s, s.served[k], i, skew);
        assert ServedFrom(s', s'.served[k], i, skew);
      } else {
        assert ServedFrom(s', s'.served[k], |s'.fetches| - 1, skew);
      }
    }
  }

  lemma {:induction false} RunKeepsInv(s: State, run: seq<Action>, skew: nat)
    requires Inv(s, skew) && IsRun(s, run, skew)
    ensures Inv(After(s, run, skew), skew)
    decreases |run|
  {
    hide FetchesInv, ServedInv, TaskInv, Next;
    if run != [] {
      TasksStay(s, run[0], skew);
      FetchesStay(s, run[0], skew);
      ServedStays(s, run[0], skew);
      RunKeepsInv(Next(s, run[0], skew), run[1..], skew);
    }
  }

  // ---- over every run ------------------------------------------------------------------------

  predicate InFlight(s: State, t: nat) {
    t in s.tasks && s.tasks[t].Requesting?
  }

  /** At most one token request is in flight. */
  lemma {:induction false} SingleFlight(run: seq<Action>, skew: nat, t: nat, u: nat)
    requires IsRun(INIT, run, skew) && InFlight(After(INIT, run, skew), t) && InFlight(After(INIT, run, skew), u)
    ensures t == u
  {
    RunKeepsInv(INIT, run, skew);
    assert TaskInv(After(INIT, run, skew), t, skew) && TaskInv(After(INIT, run, skew), u, skew);
  }

  /** The request of a successful fetch is not sent before the previous token, counted from its
      answer, is within the skew of its end: `n` fetches span the lifetimes between them. */
  lemma {:induction false} FetchSpacing(run: seq<Action>, skew: nat, i: nat, j: nat)
    requires IsRun(INIT, run, skew) && i <= j < |After(INIT, run, skew).fetches|
    ensures var f := After(INIT, run, skew).fetches;
            f[j].answeredAt + skew * (j - i) >= f[i].answeredAt + Lifetimes(f[i..j])
  {
    RunKeepsInv(INIT, run, skew);
    Spaced(After(INIT, run, skew).fetches, skew, i, j);
  }

  lemma {:induction false} Spaced(f: seq<Fetch>, skew: nat, i: nat, j: nat)
    requires i <= j < |f|
    requires forall k :: 0 < k < |f| ==> f[k].sentAt <= f[k].answeredAt && f[k].sentAt + skew >= Expiry(f[k - 1])
    ensures f[j].answeredAt + skew * (j - i) >= f[i].answeredAt + Lifetimes(f[i..j])
    decreases j
  {
    hide Lifetime;
    if i < j {
      Spaced(f, skew, i, j - 1);
      assert f[i..j][..j - 1 - i] == f[i..j - 1];
      assert skew * (j - i) == skew * (j - 1 - i) + skew;
    }
  }

  function Lifetimes(f: seq<Fetch>): nat {
    if f == [] then 0 else Lifetimes(f[..|f| - 1]) + Lifetime(f[|f| - 1].grant.expiresIn)
  }

  /** Only a successful fetch changes the cache. */
  lemma CacheChangesOnlyOnSuccess(s: State, a: Action, skew: nat)
    requires Enabled(s, a) && Next(s, a, skew).cache != s.cache
    ensures a.Store? && Next(s, a, skew).cache.value.accessToken == s.tasks[a.task].fetch.grant
  {
  }

  /** The last token fetched answers a call, without a request, if and only if more than the skew is left of its
      lifetime, counted from its answer: of the issued one if that is a second to a day, otherwise of a second or
      a day. */
  lemma {:induction false} CallIsServed(run: seq<Action>, skew: nat, t: nat)
    requires IsRun(INIT, run, skew) && After(INIT, run, skew).fetches != []
    requires Enabled(After(INIT, run, skew), Call(t))
    ensures var s := After(INIT, run, skew);
            var f := s.fetches[|s.fetches| - 1];
            var seconds := if f.grant.expiresIn == 0 then 1 else if f.grant.expiresIn > 86400 then 86400
                else f.grant.expiresIn;
            var s' := Next(s, Call(t), skew);
            if s.now + skew < f.answeredAt + seconds * 1_000_000_000 then
              s' == s.(served := s.served + [FromCache(f.grant, s.now)])
            else s' == s.(tasks := s.tasks[t := Waiting])
  {
    RunKeepsInv(INIT, run, skew);
    hide TaskInv, ServedInv;
  }

  /** What of the lifetime, taken to be a second at least and a day at most, is left when a cached token is
      handed out: more than the skew less the time the answer took, because expiry is counted from the
      answer. The issued lifetime has as much left, unless it is zero. */
  lemma {:induction false} CachedTokenMargin(run: seq<Action>, skew: nat, k: nat, trip: nat)
    requires IsRun(INIT, run, skew) && k < |After(INIT, run, skew).served|
    requires After(INIT, run, skew).served[k].FromCache?
    requires forall f :: f in After(INIT, run, skew).fetches ==> f.answeredAt - f.sentAt <= trip
    ensures var v := After(INIT, run, skew).served[k];
            && v.checkedAt + skew < v.grant.issuedAt + Lifetime(v.grant.expiresIn) + trip
            && (v.grant.expiresIn >= 1 ==> v.checkedAt + skew < v.grant.issuedAt + v.grant.expiresIn * SECOND + trip)
  {
    RunKeepsInv(INIT, run, skew);
    var s := After(INIT, run, skew);
    assert Backed(s, s.served[k], skew);
    var i: nat :| ServedFrom(s, s.served[k], i, skew);
    assert s.fetches[i] in s.fetches && Timely(s.fetches[i], s.now);
  }

  /** A token whose lifetime does not exceed the skew is never served from the cache. */
  lemma {:induction false} ShortTokensAreNotReused(run: seq<Action>, skew: nat, k: nat)
    requires IsRun(INIT, run, skew) && k < |After(INIT, run, skew).served|
    requires Lifetime(After(INIT, run, skew).served[k].grant.expiresIn) <= skew
    ensures After(INIT, run, skew).served[k].Own?
  {
    RunKeepsInv(INIT, run, skew);
    var s := After(INIT, run, skew);
    assert Backed(s, s.served[k], skew);
    var i: nat :| ServedFrom(s, s.served[k], i, skew);
  }

  // ---- the margin cannot be improved -----------------------------------------------------------

  /** A token issued at once whose answer takes `trip`, served at the last possible moment. */
  function SlowAnswer(g: Grant, skew: nat, trip: nat): seq<Action>
    requires Lifetime(g.expiresIn) > skew
  {
    [Call(0), Lock(0), Recheck(0), Tick(trip), Answer(0, Some(g)), Store(0), Tick(Lifetime(g.expiresIn) - skew - 1),
        Call(1)]
  }

  function Stage(i: nat, g: Grant, skew: nat, trip: nat): State
    requires i <= 8 && Lifetime(g.expiresIn) > skew
  {
    var asking := INIT.(tasks := map[0 := Requesting(0)], holder := Some(0));
    var f := Fetch(g, 0, trip);
    var stored := INIT.(now := trip, cache := Some(CachedToken(g, Expiry(f))), fetches := [f], served := [Own(g)]);
    var late := stored.(now := Expiry(f) - skew - 1);
    match i
    case 0 => INIT
    case 1 => INIT.(tasks := map[0 := Waiting])
    case 2 => INIT.(tasks := map[0 := Holding], holder := Some(0))
    case 3 => asking
    case 4 => asking.(now := trip)
    case 5 => asking.(now := trip, tasks := map[0 := Storing(f)])
    case 6 => stored
    case 7 => late
    case _ => late.(served := [Own(g), FromCache(g, late.now)])
  }

  lemma StageStep(i: nat, g: Grant, skew: nat, trip: nat)
    requires i < 8 && Lifetime(g.expiresIn) > skew && g.issuedAt == 0
    ensures var a := SlowAnswer(g, skew, trip)[i];
            Enabled(Stage(i, g, skew, trip), a) && Next(Stage(i, g, skew, trip), a, skew) == Stage(i + 1, g, skew, trip)
  {
  }

  lemma {:induction false} Stages(i: nat, g: Grant, skew: nat, trip: nat)
    requires i <= 8 && Lifetime(g.expiresIn) > skew && g.issuedAt == 0
    ensures var rest := SlowAnswer(g, skew, trip)[i..];
            IsRun(Stage(i, g, skew, trip), rest, skew)
                && After(Stage(i, g, skew, trip), rest, skew) == Stage(8, g, skew, trip)
    decreases 8 - i
  {
    hide Stage, Next, Enabled;
    var run := SlowAnswer(g, skew, trip);
    if i < 8 {
      StageStep(i, g, skew, trip);
      Stages(i + 1, g, skew, trip);
      assert run[i..][0] == run[i] && run[i..][1..] == run[i + 1..];
    }
  }

  /** The bound is met to the nanosecond; an answer slower than the skew serves an expired token. */
  lemma {:induction false} CachedTokenMarginIsTight(g: Grant, skew: nat, trip: nat)
    requires g.issuedAt == 0 && Lifetime(g.expiresIn) > skew
    ensures IsRun(INIT, SlowAnswer(g, skew, trip), skew)
    ensures var s := After(INIT, SlowAnswer(g, skew, trip), skew);
            && s.served == [Own(g), FromCache(g, Lifetime(g.expiresIn) + trip - skew - 1)]
            && s.fetches == [Fetch(g, 0, trip)]
  {
    hide IsRun, After;
    Stages(0, g, skew, trip);
    assert SlowAnswer(g, skew, trip)[0..] == SlowAnswer(g, skew, trip);
  }
}
