/** The bearer a catalog is called with (crates/sqe-auth/src/per_catalog.rs). Time is in nanoseconds. */
module PerCatalog {
  import opened Prelude
  import opened OidcM2m

  const MARGIN: nat := 60 * SECOND
  const MIN_TTL: nat := 30 * SECOND
  const BAR: string := "|"

  /** A client-credentials configuration. */
  datatype Config = Config(endpoint: string, client: string, secret: string, scope: Option<string>)

  datatype CatalogAuth =
    | SessionBearer
    | Static(token: string)
    | Anonymous
    | Aws
    | ClientCredentials(config: Config)

  function ScopeText(c: Config): string {
    if c.scope.Some? then c.scope.value else ""
  }

  /** The key leaves the secret out, and takes a missing scope for an empty one. */
  function CacheKey(c: Config): string {
    c.endpoint + BAR + c.client + BAR + ScopeText(c)
  }

  /** How long a token may be cached: its lifetime less the margin. */
  function Cacheable(expiresIn: nat): nat {
    if expiresIn * SECOND >= MARGIN then expiresIn * SECOND - MARGIN else 0
  }

  predicate Usable<T>(entries: map<string, CachedToken<T>>, key: string, at: nat) {
    key in entries && entries[key].expiresAt > at
  }

  /** What a successful answer leaves in the cache. */
  function Remember<T>(entries: map<string, CachedToken<T>>, key: string, at: nat, token: T,
                       expiresIn: nat): map<string, CachedToken<T>> {
    if Cacheable(expiresIn) >= MIN_TTL then entries[key := CachedToken(token, at + Cacheable(expiresIn))] else entries
  }

  /** The process-wide cache as one call sees it; `at` is the instant the call samples. */
  class TokenCache {
    var entries: map<string, CachedToken<string>>

    constructor ()
      ensures entries == map[]
    {
      entries := map[];
    }

    method ResolveBearer(auth: CatalogAuth, session: string, at: nat,
                         response: Option<Response>) returns (r: Result<string>, fetched: bool)
      modifies this
      ensures match auth
              case SessionBearer => r == Ok(session) && !fetched
              case Static(token) => r == Ok(token) && !fetched
              case Anonymous => r == Ok("") && !fetched
              case Aws => r == Ok("") && !fetched
              case ClientCredentials(config) =>
                && (!fetched <==> CacheKey(config) in old(entries) && at < old(entries)[CacheKey(config)].expiresAt)
                && (!fetched ==> r == Ok(old(entries)[CacheKey(config)].accessToken))
                && (fetched && response.None? ==> r.Err?)
                && (fetched && response.Some? ==> r == Ok(response.value.accessToken))
      ensures entries == if fetched && response.Some? && auth.ClientCredentials?
                         then var Response(token, seconds) := response.value;
                           if seconds >= 90 then
                             var until := at + (seconds - 60) * 1_000_000_000;
                             old(entries)[CacheKey(auth.config) := CachedToken(token, until)]
                           else old(entries)
                         else old(entries)
    {
      match auth
      case SessionBearer => return Ok(session), false;
      case Static(token) => return Ok(token), false;
      case Anonymous => return Ok(""), false;
      case Aws => return Ok(""), false;
      case ClientCredentials(config) =>
        var key := CacheKey(config);
        if key in entries {
          var cached := entries[key];
          if cached.expiresAt > at { return Ok(cached.accessToken), false; }
        }
        if response.None? { return Err("token request failed"), true; }
        var lifetime := response.value.expiresIn * SECOND;
        var cacheable := if lifetime >= MARGIN then lifetime - MARGIN else 0;
        if cacheable >= MIN_TTL {
          entries := entries[key := CachedToken(response.value.accessToken, at + cacheable)];
        }
        return Ok(response.value.accessToken), true;
    }
  }

  // ---- which configurations share a cache entry ------------------------------------------------

  ghost predicate HasNoBar(c: Config) {
    '|' !in c.endpoint && '|' !in c.client && '|' !in ScopeText(c)
  }

  /** The same client at the same endpoint, asking for the same scope; the secrets may differ. */
  ghost predicate SameClient(c: Config, d: Config) {
    c.endpoint == d.endpoint && c.client == d.client && ScopeText(c) == ScopeText(d)
  }

  ghost predicate SharesWithItsOwn(c: Config) {
    forall d :: CacheKey(d) == CacheKey(c) <==> SameClient(d, c)
  }

  lemma {:induction false} FirstBar(a: string, x: string, b: string, y: string)
    requires a + BAR + x == b + BAR + y && '|' !in a && '|' !in b
    ensures a == b && x == y
  {
    var s := a + BAR + x;
    assert s[|a|] == '|' && s[|b|] == '|';
    assert a == s[..|a|] && b == s[..|b|] && x == s[|a| + 1..] && y == s[|b| + 1..];
  }

  lemma {:induction false} Bars(s: string) returns (k: nat)
    requires '|' in s
    ensures k < |s| && s == s[..k] + BAR + s[k + 1..]
  {
    k :| 0 <= k < |s| && s[k] == '|';
  }

  function CountBars(s: string): nat {
    if s == [] then 0 else CountBars(s[1..]) + if s[0] == '|' then 1 else 0
  }

  lemma {:induction false} CountAppend(s: string, t: string)
    ensures CountBars(s + t) == CountBars(s) + CountBars(t)
  {
    if s == [] {
      assert s + t == t;
    } else {
      CountAppend(s[1..], t);
      assert (s + t)[1..] == s[1..] + t;
    }
  }

  lemma {:induction false} CountZero(s: string)
    ensures CountBars(s) == 0 <==> '|' !in s
  {
    if s != [] {
      CountZero(s[1..]);
      assert s == [s[0]] + s[1..];
    }
  }

  lemma {:induction false} KeyBars(c: Config)
    ensures CountBars(CacheKey(c)) == CountBars(c.endpoint) + CountBars(c.client) + CountBars(ScopeText(c)) + 2
  {
    CountAppend(c.endpoint + BAR + c.client + BAR, ScopeText(c));
    CountAppend(c.endpoint + BAR + c.client, BAR);
    CountAppend(c.endpoint + BAR, c.client);
    CountAppend(c.endpoint, BAR);
    assert BAR[1..] == [] && CountBars(BAR) == 1;
  }

  lemma {:induction false} Collides(c: Config) returns (d: Config)
    requires !HasNoBar(c)
    ensures !SameClient(d, c) && CacheKey(d) == CacheKey(c)
  {
    if '|' in c.client {
      var k := Bars(c.client);
      var p, q := c.client[..k], c.client[k + 1..];
      d := Config(c.endpoint + BAR + p, q, c.secret, c.scope);
      assert CacheKey(d) == CacheKey(c) && |d.endpoint| > |c.endpoint|;
    } else if '|' in c.endpoint {
      var k := Bars(c.endpoint);
      d := Config(c.endpoint[..k], c.endpoint[k + 1..], c.secret, Some(c.client + BAR + ScopeText(c)));
      assert CacheKey(d) == CacheKey(c) && |d.endpoint| < |c.endpoint|;
    } else {
      var k := Bars(ScopeText(c));
      d := Config(c.endpoint, c.client + BAR + ScopeText(c)[..k], c.secret, Some(ScopeText(c)[k + 1..]));
      assert CacheKey(d) == CacheKey(c) && |d.client| > |c.client|;
    }
  }

  lemma {:induction false} BarsAreSeparators(c: Config, d: Config)
    requires HasNoBar(c) && CacheKey(d) == CacheKey(c)
    ensures HasNoBar(d)
  {
    hide CountBars, CacheKey, ScopeText;
    KeyBars(c);
    KeyBars(d);
    CountZero(c.endpoint); CountZero(c.client); CountZero(ScopeText(c));
    CountZero(d.endpoint); CountZero(d.client); CountZero(ScopeText(d));
  }

  lemma {:induction false} SameKey(c: Config, d: Config)
    requires HasNoBar(c) && HasNoBar(d) && CacheKey(d) == CacheKey(c)
    ensures SameClient(d, c)
  {
    hide ScopeText;
    assert CacheKey(c) == c.endpoint + BAR + (c.client + BAR + ScopeText(c));
    assert CacheKey(d) == d.endpoint + BAR + (d.client + BAR + ScopeText(d));
    FirstBar(c.endpoint, c.client + BAR + ScopeText(c), d.endpoint, d.client + BAR + ScopeText(d));
    FirstBar(c.client, ScopeText(c), d.client, ScopeText(d));
  }

  /** A configuration shares its cache entry with exactly those of the same endpoint, client and scope, if and
      only if none of these texts holds a bar. */
  lemma {:induction false} KeyIsUnique(c: Config)
    ensures SharesWithItsOwn(c) <==> HasNoBar(c)
  {
    hide HasNoBar;
    if !HasNoBar(c) {
      var d := Collides(c);
    } else {
      forall d ensures CacheKey(d) == CacheKey(c) <==> SameClient(d, c) {
        if CacheKey(d) == CacheKey(c) {
          BarsAreSeparators(c, d);
          SameKey(c, d);
        }
      }
    }
  }
}

/** Any number of concurrent calls, with misses in flight at the same time. */
module PerCatalogRuns {
  import opened OidcM2m
  import opened PerCatalog

  /** A token as the identity provider issued it, and for whom. */
  datatype Grant = Grant(token: string, issuedTo: Config, expiresIn: nat, issuedAt: nat)

  datatype Phase =
    | Sampled(config: Config, at: nat)
    | Requesting(config: Config, at: nat, sentAt: nat)
    | Storing(at: nat, grant: Grant)

  datatype Served = Served(config: Config, at: nat, grant: Grant)

  /** `hits` records the calls that were answered from the cache. */
  datatype State = State(now: nat, entries: map<string, CachedToken<Grant>>, tasks: map<nat, Phase>, hits: seq<Served>)

  datatype Action =
    | Tick(duration: nat)
    | Evict(key: string)
    | Sample(task: nat, config: Config)
    | Lookup(task: nat)
    | Fail(task: nat)
    | Answer(task: nat, grant: Grant)
    | Store(task: nat)

  const INIT := State(0, map[], map[], [])

  predicate Enabled(s: State, a: Action) {
    match a
    case Tick(_) | Evict(_) => true
    case Sample(t, _) => t !in s.tasks
    case Lookup(t) => t in s.tasks && s.tasks[t].Sampled?
    case Fail(t) => t in s.tasks && s.tasks[t].Requesting?
    case Answer(t, g) =>
      t in s.tasks && s.tasks[t].Requesting? && s.tasks[t].sentAt <= g.issuedAt <= s.now
          && g.issuedTo == s.tasks[t].config
    case Store(t) => t in s.tasks && s.tasks[t].Storing?
  }

  function Next(s: State, a: Action): State
    requires Enabled(s, a)
  {
    match a
    case Tick(duration) => s.(now := s.now + duration)
    case Evict(key) => s.(entries := s.entries - {key})
    case Sample(t, config) => s.(tasks := s.tasks[t := Sampled(config, s.now)])
    case Lookup(t) =>
      var key, at := CacheKey(s.tasks[t].config), s.tasks[t].at;
      if Usable(s.entries, key, at) then
        s.(tasks := s.tasks - {t}, hits := s.hits + [Served(s.tasks[t].config, at, s.entries[key].accessToken)])
      else s.(tasks := s.tasks[t := Requesting(s.tasks[t].config, at, s.now)])
    case Fail(t) => s.(tasks := s.tasks - {t})
    case Answer(t, g) => s.(tasks := s.tasks[t := Storing(s.tasks[t].at, g)])
    case Store(t) =>
      var at, g := s.tasks[t].at, s.tasks[t].grant;
      s.(tasks := s.tasks - {t}, entries := Remember(s.entries, CacheKey(g.issuedTo), at, g, g.expiresIn))
  }

  predicate IsRun(s: State, run: seq<Action>)
    decreases |run|
  {
    run == [] || (Enabled(s, run[0]) && IsRun(Next(s, run[0]), run[1..]))
  }

  function After(s: State, run: seq<Action>): State
    requires IsRun(s, run)
    decreases |run|
  {
    if run == [] then s else After(Next(s, run[0]), run[1..])
  }

  // ---- the invariant -------------------------------------------------------------------------

  predicate TaskInv(s: State, p: Phase) {
    match p
    case Sampled(_, at) => at <= s.now
    case Requesting(_, at, sentAt) => at <= sentAt <= s.now
    case Storing(at, g) => at <= g.issuedAt <= s.now
  }

  /** The entry ends a margin before the token does, and the token lives 90 seconds at least. */
  predicate EntryInv(key: string, e: CachedToken<Grant>) {
    && key == CacheKey(e.accessToken.issuedTo)
    && e.expiresAt + MARGIN <= e.accessToken.issuedAt + e.accessToken.expiresIn * SECOND
    && e.accessToken.expiresIn * SECOND >= MARGIN + MIN_TTL
  }

  predicate HitInv(h: Served) {
    && CacheKey(h.config) == CacheKey(h.grant.issuedTo)
    && h.at + MARGIN < h.grant.issuedAt + h.grant.expiresIn * SECOND
    && h.grant.expiresIn >= 90
  }

  ghost predicate Inv(s: State) {
    && (forall t :: t in s.tasks ==> TaskInv(s, s.tasks[t]))
    && (forall key :: key in s.entries ==> EntryInv(key, s.entries[key]))
    && (forall i :: 0 <= i < |s.hits| ==> HitInv(s.hits[i]))
  }

  lemma {:induction false} StepKeepsInv(s: State, a: Action)
    requires Inv(s) && Enabled(s, a)
    ensures Inv(Next(s, a))
  {
    var s' := Next(s, a);
    forall t | t in s'.tasks ensures TaskInv(s', s'.tasks[t]) {
      if t in s.tasks { assert TaskInv(s, s.tasks[t]); }
    }
    forall key | key in s'.entries ensures EntryInv(key, s'.entries[key]) {
      if a.Store? { assert TaskInv(s, s.tasks[a.task]); }
      if key in s.entries { assert EntryInv(key, s.entries[key]); }
    }
    forall i | 0 <= i < |s'.hits| ensures HitInv(s'.hits[i]) {
      if i < |s.hits| {
        assert HitInv(s.hits[i]);
      } else {
        var key := CacheKey(s.tasks[a.task].config);
        assert EntryInv(key, s.entries[key]);
      }
    }
  }

  lemma {:induction false} RunKeepsInv(s: State, run: seq<Action>)
    requires Inv(s) && IsRun(s, run)
    ensures Inv(After(s, run))
    decreases |run|
  {
    hide Next, Enabled, Inv;
    if run != [] {
      StepKeepsInv(s, run[0]);
      RunKeepsInv(Next(s, run[0]), run[1..]);
    }
  }

  // ---- over every run ------------------------------------------------------------------------

  /** A cached bearer has more than a minute of its issued lifetime left at the sampled instant, was
      issued for 90 seconds at least, and was issued to a configuration with the same key. */
  lemma {:induction false} CachedBearerMargin(run: seq<Action>, i: nat)
    requires IsRun(INIT, run) && i < |After(INIT, run).hits|
    ensures var h := After(INIT, run).hits[i];
            && h.at + 60 * SECOND < h.grant.issuedAt + h.grant.expiresIn * SECOND
            && h.grant.expiresIn >= 90
            && CacheKey(h.config) == CacheKey(h.grant.issuedTo)
  {
    RunKeepsInv(INIT, run);
    assert HitInv(After(INIT, run).hits[i]);
  }

  /** A configuration without bars is only ever served tokens issued for its endpoint, client and scope. */
  lemma {:induction false} NoForeignTokens(run: seq<Action>, i: nat)
    requires IsRun(INIT, run) && i < |After(INIT, run).hits| && HasNoBar(After(INIT, run).hits[i].config)
    ensures var h := After(INIT, run).hits[i]; SameClient(h.grant.issuedTo, h.config)
  {
    hide CacheKey, HasNoBar, SameClient;
    CachedBearerMargin(run, i);
    var h := After(INIT, run).hits[i];
    KeyIsUnique(h.config);
  }

  /** Tokens living less than 90 seconds are never cached. */
  lemma {:induction false} ShortTokensAreNotCached(run: seq<Action>, key: string)
    requires IsRun(INIT, run) && key in After(INIT, run).entries
    ensures After(INIT, run).entries[key].accessToken.expiresIn >= 90
  {
    RunKeepsInv(INIT, run);
    assert EntryInv(key, After(INIT, run).entries[key]);
  }

  /** A token of 90 seconds or more is stored until a minute before its lifetime is over, counted from the sampled
      instant, and a shorter one is not; a lookup is answered from the cache exactly up to then. */
  lemma {:induction false} LongTokensAreReused(s: State, t: nat)
    ensures Enabled(s, Store(t)) ==>
              var Storing(at, g) := s.tasks[t];
              Next(s, Store(t)).entries ==
                if g.expiresIn >= 90 then
                  s.entries[CacheKey(g.issuedTo) := CachedToken(g, at + (g.expiresIn - 60) * 1_000_000_000)]
                else s.entries
    ensures Enabled(s, Lookup(t)) ==>
              var Sampled(config, at) := s.tasks[t];
              var s' := Next(s, Lookup(t));
              if CacheKey(config) in s.entries && at < s.entries[CacheKey(config)].expiresAt then
                s'.hits == s.hits + [Served(config, at, s.entries[CacheKey(config)].accessToken)] && t !in s'.tasks
              else s'.hits == s.hits && t in s'.tasks && s'.tasks[t] == Requesting(config, at, s.now)
  {
    hide CacheKey;
  }

  // ---- what a shared entry leads to ------------------------------------------------------------

  /** One configuration fetches a token, another one with the same key asks next. */
  function Borrow(c: Config, g: Grant): seq<Action> {
    [Sample(0, g.issuedTo), Lookup(0), Answer(0, g), Store(0), Sample(1, c), Lookup(1)]
  }

  function Stage(i: nat, c: Config, g: Grant): State
    requires i <= 6
  {
    var stored := INIT.(entries := map[CacheKey(g.issuedTo) := CachedToken(g, Cacheable(g.expiresIn))]);
    match i
    case 0 => INIT
    case 1 => INIT.(tasks := map[0 := Sampled(g.issuedTo, 0)])
    case 2 => INIT.(tasks := map[0 := Requesting(g.issuedTo, 0, 0)])
    case 3 => INIT.(tasks := map[0 := Storing(0, g)])
    case 4 => stored
    case 5 => stored.(tasks := map[1 := Sampled(c, 0)])
    case _ => stored.(hits := [Served(c, 0, g)])
  }

  lemma StageStep(i: nat, c: Config, g: Grant)
    requires i < 6 && CacheKey(c) == CacheKey(g.issuedTo) && g.issuedAt == 0 && g.expiresIn >= 90
    ensures var a := Borrow(c, g)[i];
            Enabled(Stage(i, c, g), a) && Next(Stage(i, c, g), a) == Stage(i + 1, c, g)
  {
    hide CacheKey;
  }

  lemma {:induction false} Stages(i: nat, c: Config, g: Grant)
    requires i <= 6 && CacheKey(c) == CacheKey(g.issuedTo) && g.issuedAt == 0 && g.expiresIn >= 90
    ensures var rest := Borrow(c, g)[i..];
            IsRun(Stage(i, c, g), rest) && After(Stage(i, c, g), rest) == Stage(6, c, g)
    decreases 6 - i
  {
    hide Stage, Next, Enabled, CacheKey;
    var run := Borrow(c, g);
    if i < 6 {
      StageStep(i, c, g);
      Stages(i + 1, c, g);
      assert run[i..][0] == run[i] && run[i..][1..] == run[i + 1..];
    }
  }

  /** A configuration with a bar can be served a token that was issued to another client. */
  lemma {:induction false} ForeignToken(c: Config) returns (run: seq<Action>)
    requires !HasNoBar(c)
    ensures IsRun(INIT, run) && |After(INIT, run).hits| == 1
    ensures var h := After(INIT, run).hits[0]; h.config == c && !SameClient(h.grant.issuedTo, c)
  {
    hide IsRun, After, CacheKey, HasNoBar;
    var d := Collides(c);
    var g := Grant("token", d, 90, 0);
    run := Borrow(c, g);
    Stages(0, c, g);
    assert run[0..] == run;
  }

  /** Every configuration can be served a token that was fetched with another secret. */
  lemma {:induction false} ForeignSecret(c: Config, secret: string) returns (run: seq<Action>)
    ensures IsRun(INIT, run) && |After(INIT, run).hits| == 1
    ensures var h := After(INIT, run).hits[0]; h.config == c && h.grant.issuedTo == c.(secret := secret)
  {
    hide IsRun, After;
    var g := Grant("token", c.(secret := secret), 90, 0);
    run := Borrow(c, g);
    Stages(0, c, g);
    assert run[0..] == run;
  }
}
