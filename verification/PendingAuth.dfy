/** Interactive sign-in sessions (crates/sqe-auth/src/pending_auth.rs): the locked sections of the
    store, as functions of the entry they lock. */
module PendingAuth {
  import opened Prelude

  datatype TokenSet = TokenSet(accessToken: string, idToken: Option<string>, refreshToken: Option<string>,
      expiresIn: nat)

  datatype PendingAuth =
    | AwaitingCallback(codeVerifier: string, state: string, authorizationUrl: string, createdAt: nat)
    | Exchanging
    | Consumed
    | Complete(tokens: TokenSet)
    | Failed(error: string)

  /** `finish`: only a live flow takes a result. */
  function Finish(entry: PendingAuth, result: PendingAuth): (PendingAuth, bool) {
    if entry.AwaitingCallback? || entry.Exchanging? then (result, true) else (entry, false)
  }

  /** `take_callback_verifier`: the first callback with the stored state claims the verifier. */
  function Claim(entry: PendingAuth, returned: string): (PendingAuth, Result<string>) {
    if !entry.AwaitingCallback? then (entry, Err("Invalid or expired state parameter"))
    else if entry.state != returned then (entry, Err("State parameter does not match the stored value"))
    else (Exchanging, Ok(entry.codeVerifier))
  }

  /** `poll`. */
  function Peek(entry: PendingAuth): Option<PendingAuth> {
    if entry.Consumed? then None else Some(entry)
  }

  /** `poll_and_consume`: completed tokens have one winning reader. */
  function Consume(entry: PendingAuth): (PendingAuth, Option<PendingAuth>) {
    match entry
    case Complete(_) => (Consumed, Some(entry))
    case Consumed => (Consumed, None)
    case _ => (entry, Some(entry))
  }

  /** The entry may have moved from `a` to `b`: states are only ever left forwards. */
  predicate Leads(a: PendingAuth, b: PendingAuth) {
    || a == b
    || (a.AwaitingCallback? && !b.AwaitingCallback?)
    || (a.Exchanging? && (b.Complete? || b.Failed? || b.Consumed?))
    || (a.Complete? && b.Consumed?)
  }
}

/** The store object, one call at a time. */
module PendingAuthStore {
  import opened Prelude
  import opened PendingAuth

  class Entry {
    var state: PendingAuth

    constructor (state: PendingAuth)
      ensures this.state == state
    {
      this.state := state;
    }
  }

  datatype Slot = Slot(entry: Entry, inserted: nat)

  class Store {
    const timeout: nat
    var store: map<string, Slot>

    /** What the store holds: the state and the insertion time of every flow. */
    ghost function View(): map<string, (PendingAuth, nat)>
      reads this, set k | k in store :: store[k].entry
    {
      map k | k in store :: (store[k].entry.state, store[k].inserted)
    }

    ghost predicate Valid()
      reads this
    {
      forall k, l :: k in store && l in store && k != l ==> store[k].entry != store[l].entry
    }

    /** A lookup at time `now` finds the flow. */
    predicate Live(key: string, now: nat)
      reads this
    {
      key in store && now < store[key].inserted + timeout
    }

    constructor (timeout: nat)
      ensures Valid() && this.timeout == timeout && View() == map[]
    {
      this.timeout := timeout;
      store := map[];
    }

    method InsertPending(key: string, codeVerifier: string, state: string, url: string, now: nat)
      requires Valid()
      modifies this`store
      ensures Valid()
      ensures View() == old(View())[key := (AwaitingCallback(codeVerifier, state, url, now), now)]
    {
      var entry := new Entry(AwaitingCallback(codeVerifier, state, url, now));
      store := store[key := Slot(entry, now)];
    }

    /** `complete` and `fail`. */
    method FinishFlow(key: string, result: PendingAuth, now: nat) returns (done: bool)
      requires Valid()
      modifies set k | k in store :: store[k].entry
      ensures Valid() && store == old(store)
      ensures done <==> Live(key, now) && (old(View())[key].0.AwaitingCallback? || old(View())[key].0.Exchanging?)
      ensures View() == if done then old(View())[key := (result, old(View())[key].1)] else old(View())
    {
      if !Live(key, now) { return false; }
      var entry := store[key].entry;
      if !(entry.state.AwaitingCallback? || entry.state.Exchanging?) { return false; }
      entry.state := result;
      return true;
    }

    method TakeCallbackVerifier(returned: string, now: nat) returns (r: Result<string>)
      requires Valid()
      modifies set k | k in store :: store[k].entry
      ensures Valid() && store == old(store)
      ensures if Live(returned, now) && old(View())[returned].0.AwaitingCallback? then
                var (entry, inserted) := old(View())[returned];
                if entry.state == returned then
                  r == Ok(entry.codeVerifier) && View() == old(View())[returned := (Exchanging, inserted)]
                else r == Err("State parameter does not match the stored value") && View() == old(View())
              else r == Err("Invalid or expired state parameter") && View() == old(View())
    {
      if !Live(returned, now) { return Err("Invalid or expired state parameter"); }
      var entry := store[returned].entry;
      match entry.state
      case AwaitingCallback(verifier, stored, _, _) =>
        if stored != returned { return Err("State parameter does not match the stored value"); }
        entry.state := Exchanging;
        return Ok(verifier);
      case _ =>
        return Err("Invalid or expired state parameter");
    }

    method Poll(key: string, now: nat) returns (r: Option<PendingAuth>)
      ensures r == if Live(key, now) && !View()[key].0.Consumed? then Some(View()[key].0) else None
    {
      if !Live(key, now) { return None; }
      var state := store[key].entry.state;
      return if state.Consumed? then None else Some(state);
    }

    method PollAndConsume(key: string, now: nat) returns (r: Option<PendingAuth>)
      requires Valid()
      modifies this`store, set k | k in store :: store[k].entry
      ensures Valid()
      ensures r == if old(Live(key, now)) && !old(View())[key].0.Consumed? then Some(old(View())[key].0) else None
      ensures View() == if r.Some? && r.value.Complete? then old(View()) - {key} else old(View())
      ensures r.Some? && r.value.Complete? ==> old(store[key].entry).state == Consumed
    {
      if !Live(key, now) { return None; }
      var entry := store[key].entry;
      match entry.state
      case Complete(tokens) =>
        entry.state := Consumed;
        store := store - {key};
        return Some(Complete(tokens));
      case Consumed =>
        return None;
      case _ =>
        return Some(entry.state);
    }

    method Remove(key: string)
      requires Valid()
      modifies this`store
      ensures Valid() && View() == old(View()) - {key}
    {
      store := store - {key};
    }
  }
}

/** The store under concurrency: a lookup hands out a shared entry, and the locked section on that
    entry is a later step of its own, so that anything may happen in between. */
module PendingAuthRuns {
  import opened Prelude
  import opened PendingAuth

  datatype Slot = Slot(entry: nat, inserted: nat)

  /** How an entry came to be. */
  datatype Birth = Birth(key: string, codeVerifier: string, state: string, url: string, inserted: nat)

  datatype Op = DoFinish(result: PendingAuth) | DoClaim | DoPoll | DoConsume

  /** Where a thread stands. `Releasing` still holds the lock of its entry. */
  datatype Phase = Holding(op: Op, key: string, entry: nat) | Releasing(key: string, entry: nat)

  /** What callers were told. */
  datatype Event =
    | Claimed(entry: nat, codeVerifier: string)
    | Finished(entry: nat, result: PendingAuth)
    | Delivered(entry: nat, tokens: TokenSet)
    | Shown(entry: nat, state: Option<PendingAuth>)
    | Denied(entry: nat)

  /** `entries[h]` is the state behind handle `h`; `log` and `births` only record history. */
  datatype State = State(now: nat, store: map<string, Slot>, entries: seq<PendingAuth>,
                         threads: map<nat, Phase>, births: seq<Birth>, log: seq<Event>)

  datatype Action =
    | Tick(seconds: nat)
    | InsertPending(key: string, codeVerifier: string, state: string, url: string)
    | Drop(key: string)                       // remove, or an eviction of the cache
    | Lookup(thread: nat, op: Op, key: string)
    | Section(thread: nat)
    | LockFails(thread: nat)
    | Invalidate(thread: nat)

  const INIT := State(0, map[], [], map[], [], [])

  predicate Live(s: State, key: string, timeout: nat) {
    key in s.store && s.now < s.store[key].inserted + timeout
  }

  predicate Locked(s: State, entry: nat) {
    exists t :: t in s.threads && s.threads[t].Releasing? && s.threads[t].entry == entry
  }

  /** Only `complete` and `fail` reach `finish`. */
  predicate ResultOk(op: Op) {
    op.DoFinish? ==> op.result.Complete? || op.result.Failed?
  }

  predicate Enabled(s: State, a: Action) {
    match a
    case Tick(_) | InsertPending(_, _, _, _) | Drop(_) => true
    case Lookup(t, op, _) => t !in s.threads && ResultOk(op)
    case Section(t) =>
      && t in s.threads && s.threads[t].Holding?
      && s.threads[t].entry < |s.entries| && !Locked(s, s.threads[t].entry)
    case LockFails(t) => t in s.threads && s.threads[t].Holding?
    case Invalidate(t) => t in s.threads && s.threads[t].Releasing?
  }

  function Next(s: State, a: Action, timeout: nat): State
    requires Enabled(s, a)
  {
    match a
    case Tick(seconds) => s.(now := s.now + seconds)
    case InsertPending(key, verifier, state, url) =>
      s.(store := s.store[key := Slot(|s.entries|, s.now)],
         entries := s.entries + [AwaitingCallback(verifier, state, url, s.now)],
         births := s.births + [Birth(key, verifier, state, url, s.now)])
    case Drop(key) => s.(store := s.store - {key})
    case Lookup(t, op, key) =>
      if Live(s, key, timeout) then s.(threads := s.threads[t := Holding(op, key, s.store[key].entry)]) else s
    case Section(t) => Locking(s, t)
    case LockFails(t) => s.(threads := s.threads - {t})
    case Invalidate(t) => s.(store := s.store - {s.threads[t].key}, threads := s.threads - {t})
  }

  /** The locked section of thread `t`. */
  function Locking(s: State, t: nat): State
    requires Enabled(s, Section(t))
  {
    var Holding(op, key, h) := s.threads[t];
    var entry := s.entries[h];
    var done := s.(threads := s.threads - {t});
    match op
    case DoFinish(result) =>
      var (after, ok) := Finish(entry, result);
      done.(entries := s.entries[h := after], log := s.log + [if ok then Finished(h, result) else Denied(h)])
    case DoClaim =>
      var (after, r) := Claim(entry, key);
      done.(entries := s.entries[h := after], log := s.log + [if r.Ok? then Claimed(h, r.value) else Denied(h)])
    case DoPoll => done.(log := s.log + [Shown(h, Peek(entry))])
    case DoConsume =>
      var (after, r) := Consume(entry);
      if r.Some? && r.value.Complete? then
        s.(entries := s.entries[h := after], threads := s.threads[t := Releasing(key, h)],
           log := s.log + [Delivered(h, r.value.tokens)])
      else done.(log := s.log + [Shown(h, r)])
  }

  /** `run` is a run from `s`: every action is enabled where it happens. */
  predicate IsRun(s: State, run: seq<Action>, timeout: nat)
    decreases |run|
  {
    run == [] || (Enabled(s, run[0]) && IsRun(Next(s, run[0], timeout), run[1..], timeout))
  }

  function After(s: State, run: seq<Action>, timeout: nat): State
    requires IsRun(s, run, timeout)
    decreases |run|
  {
    if run == [] then s else After(Next(s, run[0], timeout), run[1..], timeout)
  }

  // ---- what the history says of an entry ----------------------------------------------------

  function Claims(log: seq<Event>, h: nat): nat {
    if log == [] then 0
    else
      var e := log[|log| - 1];
      Claims(log[..|log| - 1], h) + if e.Claimed? && e.entry == h then 1 else 0
  }

  function Finishes(log: seq<Event>, h: nat): nat {
    if log == [] then 0
    else
      var e := log[|log| - 1];
      Finishes(log[..|log| - 1], h) + if e.Finished? && e.entry == h then 1 else 0
  }

  function Deliveries(log: seq<Event>, h: nat): nat {
    if log == [] then 0
    else
      var e := log[|log| - 1];
      Deliveries(log[..|log| - 1], h) + if e.Delivered? && e.entry == h then 1 else 0
  }

  /** How a flow starts. */
  function Newborn(b: Birth): PendingAuth { AwaitingCallback(b.codeVerifier, b.state, b.url, b.inserted) }

  /** The entry stands where its history put it. */
  ghost predicate EntryInv(s: State, h: nat)
    requires h < |s.entries| && |s.births| == |s.entries|
  {
    var claims, finishes, deliveries := Claims(s.log, h), Finishes(s.log, h), Deliveries(s.log, h);
    && claims <= 1
    && match s.entries[h]
       case AwaitingCallback(_, _, _, _) =>
         claims == 0 && finishes == 0 && deliveries == 0 && s.entries[h] == Newborn(s.births[h])
       case Exchanging => claims == 1 && finishes == 0 && deliveries == 0
       case Complete(tokens) => finishes == 1 && deliveries == 0 && Finished(h, Complete(tokens)) in s.log
       case Failed(error) => finishes == 1 && deliveries == 0 && Finished(h, Failed(error)) in s.log
       case Consumed => finishes == 1 && deliveries == 1
  }

  /** Event `j` of the log is one the store may report, and tokens come after their completion. */
  ghost predicate EventInv(s: State, j: nat)
    requires j < |s.log| && |s.births| == |s.entries|
  {
    && s.log[j].entry < |s.entries|
    && match s.log[j]
       case Claimed(h, verifier) => verifier == s.births[h].codeVerifier && s.births[h].state == s.births[h].key
       case Finished(h, result) => result.Complete? || result.Failed?
       case Delivered(h, tokens) => Finished(h, Complete(tokens)) in s.log[..j]
       case Shown(_, _) | Denied(_) => true
  }

  ghost predicate Inv(s: State) {
    && |s.births| == |s.entries|
    && (forall k :: k in s.store ==>
          s.store[k].entry < |s.entries| && s.births[s.store[k].entry].key == k
          && s.store[k].inserted == s.births[s.store[k].entry].inserted)
    && (forall t :: t in s.threads ==>
          s.threads[t].entry < |s.entries| && s.births[s.threads[t].entry].key == s.threads[t].key
          && (s.threads[t].Holding? ==> ResultOk(s.threads[t].op)))
    && (forall h :: 0 <= h < |s.entries| ==> EntryInv(s, h))
    && (forall j :: 0 <= j < |s.log| ==> EventInv(s, j))
  }

  lemma {:induction false} NoHistory(log: seq<Event>, h: nat)
    requires forall j :: 0 <= j < |log| ==> log[j].entry != h
    ensures Claims(log, h) == 0 && Finishes(log, h) == 0 && Deliveries(log, h) == 0
  {
    if log != [] { NoHistory(log[..|log| - 1], h); }
  }

  lemma Logged(log: seq<Event>, e: Event, h: nat)
    ensures Claims(log + [e], h) == Claims(log, h) + if e.Claimed? && e.entry == h then 1 else 0
    ensures Finishes(log + [e], h) == Finishes(log, h) + if e.Finished? && e.entry == h then 1 else 0
    ensures Deliveries(log + [e], h) == Deliveries(log, h) + if e.Delivered? && e.entry == h then 1 else 0
  {
    assert (log + [e])[..|log|] == log;
  }

  lemma InsertKeepsInv(s: State, a: Action, timeout: nat)
    requires a.InsertPending? && Inv(s)
    ensures Inv(Next(s, a, timeout))
  {
    var s' := Next(s, a, timeout);
    forall j | 0 <= j < |s.log| ensures s.log[j].entry != |s.entries| { assert EventInv(s, j); }
    NoHistory(s.log, |s.entries|);
    forall h | 0 <= h < |s'.entries| ensures EntryInv(s', h) {
      assert h < |s.entries| ==> EntryInv(s, h) && s'.entries[h] == s.entries[h] && s'.births[h] == s.births[h];
    }
    forall j | 0 <= j < |s'.log| ensures EventInv(s', j) { assert EventInv(s, j); }
  }

  /** A section logs one event about the entry it locks and changes no other. */
  lemma SectionShape(s: State, t: nat)
    requires Enabled(s, Section(t))
    ensures var s' := Locking(s, t); var h := s.threads[t].entry;
            && s'.births == s.births && s'.store == s.store && |s'.entries| == |s.entries|
            && (forall g :: 0 <= g < |s.entries| && g != h ==> s'.entries[g] == s.entries[g])
            && (forall u :: u in s'.threads ==>
                  && u in s.threads
                  && s'.threads[u].entry == s.threads[u].entry && s'.threads[u].key == s.threads[u].key
                  && (s'.threads[u].Holding? ==> s'.threads[u] == s.threads[u]))
            && |s'.log| == |s.log| + 1 && s'.log == s.log + [s'.log[|s.log|]] && s'.log[|s.log|].entry == h
  {
  }

  lemma {:induction false} SectionKeepsEntry(s: State, t: nat, g: nat)
    requires Inv(s) && Enabled(s, Section(t)) && g < |s.entries|
    ensures EntryInv(Locking(s, t), g)
  {
    hide Claims, Finishes, Deliveries;
    var s' := Locking(s, t);
    assert EntryInv(s, g);
    Logged(s.log, s'.log[|s.log|], g);
  }

  lemma SectionKeepsEvent(s: State, t: nat, j: nat)
    requires Inv(s) && Enabled(s, Section(t)) && j < |Locking(s, t).log|
    ensures EventInv(Locking(s, t), j)
  {
    var s' := Locking(s, t);
    SectionShape(s, t);
    if j < |s.log| {
      assert EventInv(s, j);
      assert s'.log[..j] == s.log[..j];
    } else {
      assert EntryInv(s, s.threads[t].entry);
      assert s'.log[..j] == s.log;
    }
  }

  /** Whatever the section does to its entry, the history still explains every entry. */
  lemma SectionKeepsInv(s: State, t: nat)
    requires Inv(s) && Enabled(s, Section(t))
    ensures Inv(Locking(s, t))
  {
    var s' := Locking(s, t);
    SectionShape(s, t);
    forall g | 0 <= g < |s'.entries| ensures EntryInv(s', g) { SectionKeepsEntry(s, t, g); }
    forall j | 0 <= j < |s'.log| ensures EventInv(s', j) { SectionKeepsEvent(s, t, j); }
    hide Locking, EntryInv, EventInv;
  }

  lemma StepKeepsInv(s: State, a: Action, timeout: nat)
    requires Inv(s) && Enabled(s, a)
    ensures Inv(Next(s, a, timeout))
  {
    match a
    case InsertPending(_, _, _, _) => InsertKeepsInv(s, a, timeout);
    case Section(t) => SectionKeepsInv(s, t);
    case _ =>
      var s' := Next(s, a, timeout);
      forall h | 0 <= h < |s'.entries| ensures EntryInv(s', h) { assert EntryInv(s, h); }
      forall j | 0 <= j < |s'.log| ensures EventInv(s', j) { assert EventInv(s, j); }
  }

  lemma {:induction false} RunKeepsInv(s: State, run: seq<Action>, timeout: nat)
    requires Inv(s) && IsRun(s, run, timeout)
    ensures Inv(After(s, run, timeout))
    decreases |run|
  {
    if run != [] {
      StepKeepsInv(s, run[0], timeout);
      RunKeepsInv(Next(s, run[0], timeout), run[1..], timeout);
    }
  }

  // ---- over every interleaving --------------------------------------------------------------

  /** Per inserted entry: at most one verifier is handed out, at most one `complete` or `fail`
      succeeds, and at most one poll delivers tokens. */
  lemma AtMostOnce(run: seq<Action>, timeout: nat, h: nat)
    requires IsRun(INIT, run, timeout)
    ensures var log := After(INIT, run, timeout).log;
            Claims(log, h) <= 1 && Finishes(log, h) <= 1 && Deliveries(log, h) <= 1
  {
    RunKeepsInv(INIT, run, timeout);
    var s := After(INIT, run, timeout);
    if h < |s.entries| {
      assert EntryInv(s, h);
    } else {
      forall j | 0 <= j < |s.log| ensures s.log[j].entry != h { assert EventInv(s, j); }
      NoHistory(s.log, h);
    }
  }

  /** Delivered tokens are those of the entry's one successful `complete`, which came first; a
      claimed verifier is the one inserted with the entry, and its caller returned the state stored
      with it. */
  lemma AnswersAreGenuine(run: seq<Action>, timeout: nat, j: nat)
    requires IsRun(INIT, run, timeout) && j < |After(INIT, run, timeout).log|
    ensures var s := After(INIT, run, timeout); var e := s.log[j];
            && e.entry < |s.births|
            && (e.Delivered? ==> Finished(e.entry, Complete(e.tokens)) in s.log[..j])
            && (e.Claimed? ==> e.codeVerifier == s.births[e.entry].codeVerifier
                               && s.births[e.entry].state == s.births[e.entry].key)
  {
    RunKeepsInv(INIT, run, timeout);
    assert EventInv(After(INIT, run, timeout), j);
  }

  /** What one step may do to the rest of the store. */
  ghost predicate Forward(s: State, s': State) {
    && s.now <= s'.now
    && s.births <= s'.births && s.log <= s'.log
    && |s.entries| <= |s'.entries|
    && (forall h :: 0 <= h < |s.entries| ==> Leads(s.entries[h], s'.entries[h]))
    && (forall k :: k in s'.store ==>
          s'.store[k].entry >= |s.entries| || (k in s.store && s.store[k] == s'.store[k]))
  }

  lemma StepGoesForward(s: State, a: Action, timeout: nat)
    requires Inv(s) && Enabled(s, a)
    ensures Forward(s, Next(s, a, timeout))
  {
  }

  lemma ForwardIsTransitive(a: State, b: State, c: State)
    requires Inv(b) && Forward(a, b) && Forward(b, c)
    ensures Forward(a, c)
  {
    forall h | 0 <= h < |a.entries| ensures Leads(a.entries[h], c.entries[h]) {
      assert Leads(a.entries[h], b.entries[h]) && Leads(b.entries[h], c.entries[h]);
    }
    forall k | k in c.store ensures c.store[k].entry >= |a.entries| || (k in a.store && a.store[k] == c.store[k]) {
      assert c.store[k].entry >= |b.entries| || (k in b.store && b.store[k] == c.store[k]);
    }
  }

  /** No resurrection, over runs of any length: entries only move forwards, and an entry that is no
      longer stored is never stored again -- only an insertion, with a handle of its own, adds a key. */
  lemma {:induction false} NoResurrection(s: State, run: seq<Action>, timeout: nat)
    requires Inv(s) && IsRun(s, run, timeout)
    ensures Forward(s, After(s, run, timeout))
    decreases |run|
  {
    if run != [] {
      var s1 := Next(s, run[0], timeout);
      StepKeepsInv(s, run[0], timeout);
      StepGoesForward(s, run[0], timeout);
      NoResurrection(s1, run[1..], timeout);
      ForwardIsTransitive(s, s1, After(s, run, timeout));
    }
  }

  ghost predicate StoredUnder(s: State, key: string, h: nat) {
    key in s.store && s.store[key].entry == h && h < |s.births|
  }

  /** Whatever completions happened, a lookup at or after the insertion time plus the timeout does
      not find the entry, and one before that finds the entry that is stored. */
  lemma DeadlineIsKept(run: seq<Action>, timeout: nat, a: Action)
    requires IsRun(INIT, run, timeout)
    requires a.Lookup? && Enabled(After(INIT, run, timeout), a)
    ensures var s := After(INIT, run, timeout);
            var s' := Next(s, a, timeout);
            && (a.thread in s'.threads ==>
                  && s'.threads[a.thread].entry < |s.births|
                  && s.now < s.births[s'.threads[a.thread].entry].inserted + timeout
                  && s.births[s'.threads[a.thread].entry].key == a.key)
            && (forall h: nat :: StoredUnder(s, a.key, h) && s.now < s.births[h].inserted + timeout ==>
                  a.thread in s'.threads && s'.threads[a.thread] == Holding(a.op, a.key, h))
  {
    RunKeepsInv(INIT, run, timeout);
  }

  // ---- what a locked section answers ---------------------------------------------------------

  lemma {:induction false} OneFinish(log: seq<Event>, h: nat, x: PendingAuth, y: PendingAuth)
    requires Finishes(log, h) <= 1 && Finished(h, x) in log && Finished(h, y) in log
    ensures x == y
  {
    var n := |log| - 1;
    assert log == log[..n] + [log[n]];
    if log[n].Finished? && log[n].entry == h {
      if Finished(h, x) in log[..n] { SomeFinish(log[..n], h, x); }
      if Finished(h, y) in log[..n] { SomeFinish(log[..n], h, y); }
    } else {
      OneFinish(log[..n], h, x, y);
    }
  }

  lemma {:induction false} SomeFinish(log: seq<Event>, h: nat, x: PendingAuth)
    requires Finished(h, x) in log
    ensures Finishes(log, h) >= 1
  {
    var n := |log| - 1;
    assert log == log[..n] + [log[n]];
    if log[n] != Finished(h, x) { SomeFinish(log[..n], h, x); }
  }

  /** Where an entry stands, told by its history alone. */
  ghost predicate StandsAt(s: State, h: nat, state: PendingAuth)
    requires h < |s.births|
  {
    if Deliveries(s.log, h) > 0 then state == Consumed
    else if Finishes(s.log, h) > 0 then Finished(h, state) in s.log
    else if Claims(s.log, h) > 0 then state == Exchanging
    else state == Newborn(s.births[h])
  }

  lemma {:induction false} EntryStands(s: State, h: nat, state: PendingAuth)
    requires Inv(s) && h < |s.entries|
    ensures StandsAt(s, h, state) <==> s.entries[h] == state
  {
    hide Claims, Finishes, Deliveries;
    assert EntryInv(s, h);
    if Finishes(s.log, h) > 0 && Finished(h, state) in s.log && !s.entries[h].Consumed? {
      OneFinish(s.log, h, state, s.entries[h]);
    }
  }

  /** The answer to one who consumes: the tokens, or where the flow stands without them. */
  function Consuming(h: nat, state: PendingAuth): Event {
    if state.Complete? then Delivered(h, state.tokens) else Shown(h, Some(state))
  }

  /** What the caller of the section of thread `t` is told, by the history of the entry: the first `complete` or
      `fail` succeeds; the first callback with the stored state gets the verifier, if nothing finished the flow
      before it; completed tokens are delivered to the first who comes to consume them; and whoever polls sees
      where the flow stands, until the tokens are gone. */
  lemma {:induction false} SectionAnswers(s: State, t: nat)
    requires Inv(s) && Enabled(s, Section(t))
    ensures var s' := Locking(s, t);
            var Holding(op, key, h) := s.threads[t];
            var birth := s.births[h];
            && |s'.log| == |s.log| + 1
            && var answer := s'.log[|s.log|];
               match op
               case DoFinish(result) => answer == if Finishes(s.log, h) == 0 then Finished(h, result) else Denied(h)
               case DoClaim =>
                 answer == if Claims(s.log, h) == 0 && Finishes(s.log, h) == 0 && birth.state == key
                           then Claimed(h, birth.codeVerifier) else Denied(h)
               case DoPoll =>
                 if Deliveries(s.log, h) > 0 then answer == Shown(h, None)
                 else exists state :: StandsAt(s, h, state) && answer == Shown(h, Some(state))
               case DoConsume =>
                 if Deliveries(s.log, h) > 0 then answer == Shown(h, None)
                 else exists state :: StandsAt(s, h, state) && answer == Consuming(h, state)
  {
    hide Claims, Finishes, Deliveries;
    var h := s.threads[t].entry;
    assert EntryInv(s, h);
    EntryStands(s, h, s.entries[h]);
  }

  /** And the entry then stands where its longer history puts it. */
  lemma {:induction false} SectionMoves(s: State, t: nat, state: PendingAuth)
    requires Inv(s) && Enabled(s, Section(t))
    ensures var s' := Locking(s, t); var h := s.threads[t].entry;
            h < |s'.births| && h < |s'.entries| && (StandsAt(s', h, state) <==> s'.entries[h] == state)
  {
    SectionKeepsInv(s, t);
    EntryStands(Locking(s, t), s.threads[t].entry, state);
  }

  /** One flow from its start to its tokens. */
  function Login(t: nat, key: string, verifier: string, url: string, tokens: TokenSet): seq<Action> {
    [InsertPending(key, verifier, key, url), Lookup(t, DoClaim, key), Section(t),
        Lookup(t, DoFinish(Complete(tokens)), key), Section(t), Lookup(t, DoConsume, key), Section(t)]
  }

  /** The normal login: from every state the callback gets the verifier, the exchange is accepted, and the poll
      delivers its tokens. */
  lemma {:induction false} LoginSucceeds(s: State, timeout: nat, t: nat, key: string, verifier: string, url: string,
                                         tokens: TokenSet)
    requires Inv(s) && t !in s.threads && timeout > 0
    ensures var run, h := Login(t, key, verifier, url, tokens), |s.entries|;
            && IsRun(s, run, timeout)
            && After(s, run, timeout).log == s.log + [Claimed(h, verifier), Finished(h, Complete(tokens)),
                                                     Delivered(h, tokens)]
  {
    var start, h := InsertPending(key, verifier, key, url), |s.entries|;
    var s0 := Inserted(s, start, timeout);
    hide Enabled, Next, Locking, Live, Inv, IsRun, After, Untouched, ResultOk;
    var s1 := ClaimTurn(s0, t, key, h, timeout);
    var s2 := FinishTurn(s1, t, tokens, key, h, timeout);
    var s3 := ConsumeTurn(s2, t, key, h, timeout);
    ThreeTurns(s, start, Section(t), Lookup(t, DoClaim, key), Lookup(t, DoFinish(Complete(tokens)), key),
               Lookup(t, DoConsume, key), timeout);
    assert s.log + [Claimed(h, verifier)] + [Finished(h, Complete(tokens))] + [Delivered(h, tokens)]
        == s.log + [Claimed(h, verifier), Finished(h, Complete(tokens)), Delivered(h, tokens)];
  }

  lemma {:induction false} Inserted(s: State, a: Action, timeout: nat) returns (after: State)
    requires Inv(s) && a.InsertPending?
    ensures Enabled(s, a) && after == Next(s, a, timeout)
    ensures after.threads == s.threads && after.log == s.log && after.now == s.now
    ensures a.key in after.store && after.store[a.key] == Slot(|s.entries|, s.now)
    ensures |after.entries| == |s.entries| + 1 && Untouched(after, |s.entries|)
    ensures after.entries[|s.entries|] == AwaitingCallback(a.codeVerifier, a.state, a.url, s.now)
  {
    after := Next(s, a, timeout);
  }

  /** Three lookups, each with its section `z`. */
  lemma {:induction false} ThreeTurns(s: State, start: Action, z: Action, a: Action, b: Action, c: Action,
                                      timeout: nat)
    requires Enabled(s, start)
    requires var s0 := Next(s, start, timeout);
             && Enabled(s0, a) && Enabled(Next(s0, a, timeout), z)
             && var s1 := Next(Next(s0, a, timeout), z, timeout);
                && Enabled(s1, b) && Enabled(Next(s1, b, timeout), z)
                && var s2 := Next(Next(s1, b, timeout), z, timeout);
                   Enabled(s2, c) && Enabled(Next(s2, c, timeout), z)
    ensures var s0 := Next(s, start, timeout);
            var s1 := Next(Next(s0, a, timeout), z, timeout);
            var s2 := Next(Next(s1, b, timeout), z, timeout);
            var run := [start, a, z, b, z, c, z];
            IsRun(s, run, timeout) && After(s, run, timeout) == Next(Next(s2, c, timeout), z, timeout)
  {
    hide Enabled, Next, IsRun, After;
    var s0 := Next(s, start, timeout);
    var s1 := Next(Next(s0, a, timeout), z, timeout);
    var s2 := Next(Next(s1, b, timeout), z, timeout);
    Ends(Next(Next(s2, c, timeout), z, timeout), timeout);
    TwoSteps(s2, c, z, [], timeout);
    assert [c, z] + [] == [c, z];
    TwoSteps(s1, b, z, [c, z], timeout);
    assert [b, z] + [c, z] == [b, z, c, z];
    TwoSteps(s0, a, z, [b, z, c, z], timeout);
    var run := [start, a, z, b, z, c, z];
    assert run[1..] == [a, z] + [b, z, c, z];
    Starts(s, run, timeout);
  }

  /** No thread is busy with the entry. */
  ghost predicate Untouched(s: State, h: nat) {
    forall u :: u in s.threads ==> s.threads[u].entry != h
  }

  /** One thread looks the entry up and goes through its section undisturbed. */
  lemma {:induction false} Turn(s: State, t: nat, op: Op, key: string, h: nat, timeout: nat) returns (after: State)
    requires t !in s.threads && ResultOk(op) && Untouched(s, h) && h < |s.entries|
    requires key in s.store && s.store[key] == Slot(h, s.now) && timeout > 0
    ensures Enabled(s, Lookup(t, op, key)) && Enabled(Next(s, Lookup(t, op, key), timeout), Section(t))
    ensures after == Next(Next(s, Lookup(t, op, key), timeout), Section(t), timeout)
    ensures after == Locking(s.(threads := s.threads[t := Holding(op, key, h)]), t)
    ensures !op.DoConsume? ==> after.threads == s.threads
    ensures after.store == s.store && after.now == s.now && |after.entries| == |s.entries|
  {
    var mid := Next(s, Lookup(t, op, key), timeout);
    assert mid == s.(threads := s.threads[t := Holding(op, key, h)]);
    assert !Locked(mid, h);
    after := Locking(mid, t);
    assert (s.threads[t := Holding(op, key, h)]) - {t} == s.threads;
  }

  lemma {:induction false} ClaimTurn(s: State, t: nat, key: string, h: nat, timeout: nat) returns (after: State)
    requires t !in s.threads && Untouched(s, h) && h < |s.entries|
    requires key in s.store && s.store[key] == Slot(h, s.now) && timeout > 0
    requires s.entries[h].AwaitingCallback? && s.entries[h].state == key
    ensures Enabled(s, Lookup(t, DoClaim, key)) && Enabled(Next(s, Lookup(t, DoClaim, key), timeout), Section(t))
    ensures after == Next(Next(s, Lookup(t, DoClaim, key), timeout), Section(t), timeout)
    ensures after == s.(entries := s.entries[h := Exchanging], log := s.log + [Claimed(h, s.entries[h].codeVerifier)])
    ensures Untouched(after, h)
  {
    after := Turn(s, t, DoClaim, key, h, timeout);
  }

  lemma {:induction false} FinishTurn(s: State, t: nat, tokens: TokenSet, key: string, h: nat, timeout: nat)
    returns (after: State)
    requires t !in s.threads && Untouched(s, h) && h < |s.entries|
    requires key in s.store && s.store[key] == Slot(h, s.now) && timeout > 0 && s.entries[h].Exchanging?
    ensures var op := DoFinish(Complete(tokens));
            && Enabled(s, Lookup(t, op, key)) && Enabled(Next(s, Lookup(t, op, key), timeout), Section(t))
            && after == Next(Next(s, Lookup(t, op, key), timeout), Section(t), timeout)
    ensures after == s.(entries := s.entries[h := Complete(tokens)], log := s.log + [Finished(h, Complete(tokens))])
    ensures Untouched(after, h)
  {
    after := Turn(s, t, DoFinish(Complete(tokens)), key, h, timeout);
  }

  lemma {:induction false} ConsumeTurn(s: State, t: nat, key: string, h: nat, timeout: nat) returns (after: State)
    requires t !in s.threads && Untouched(s, h) && h < |s.entries|
    requires key in s.store && s.store[key] == Slot(h, s.now) && timeout > 0 && s.entries[h].Complete?
    ensures Enabled(s, Lookup(t, DoConsume, key)) && Enabled(Next(s, Lookup(t, DoConsume, key), timeout), Section(t))
    ensures after == Next(Next(s, Lookup(t, DoConsume, key), timeout), Section(t), timeout)
    ensures after.log == s.log + [Delivered(h, s.entries[h].tokens)]
  {
    after := Turn(s, t, DoConsume, key, h, timeout);
  }

  lemma {:induction false} Ends(s: State, timeout: nat)
    ensures IsRun(s, [], timeout) && After(s, [], timeout) == s
  {
  }

  lemma {:induction false} Starts(s: State, run: seq<Action>, timeout: nat)
    requires run != [] && Enabled(s, run[0]) && IsRun(Next(s, run[0], timeout), run[1..], timeout)
    ensures IsRun(s, run, timeout) && After(s, run, timeout) == After(Next(s, run[0], timeout), run[1..], timeout)
  {
  }

  lemma {:induction false} TwoSteps(s: State, a: Action, b: Action, rest: seq<Action>, timeout: nat)
    requires Enabled(s, a) && Enabled(Next(s, a, timeout), b)
    requires IsRun(Next(Next(s, a, timeout), b, timeout), rest, timeout)
    ensures var run := [a, b] + rest;
            IsRun(s, run, timeout)
            && After(s, run, timeout) == After(Next(Next(s, a, timeout), b, timeout), rest, timeout)
  {
    hide Enabled, Next;
    var run := [a, b] + rest;
    assert run[1..] == [b] + rest && ([b] + rest)[1..] == rest;
    Starts(Next(s, a, timeout), [b] + rest, timeout);
    Starts(s, run, timeout);
  }
}
