/** Under which name the time of an evaluation is booked, told by intervals alone
    (scripts/compile-profile-attribute.py). */
module ProfileBooking {
  import opened Prelude
  import opened ProfileAttribution

  // ---- by intervals ------------------------------------------------------------------------------

  /** Event `i` comes before event `k` and has not ended when it starts. */
  ghost predicate Encloses(es: seq<Event>, i: nat, k: nat) {
    i < k < |es| && es[k].ts < es[i].ts + es[i].dur
  }

  /** An evaluation inside no other. */
  ghost predicate Outermost(es: seq<Event>, k: nat) {
    && k < |es| && es[k].name == "evaluate_obligation"
    && forall i: nat :: Encloses(es, i, k) ==> es[i].name != "evaluate_obligation"
  }

  /** Event `i` is the last root query that encloses event `k`. */
  ghost predicate InnermostRoot(es: seq<Event>, i: nat, k: nat) {
    && Encloses(es, i, k) && es[i].name in ROOTS
    && forall j: nat :: i < j && Encloses(es, j, k) ==> es[j].name !in ROOTS
  }

  ghost predicate HasRoot(es: seq<Event>, k: nat) {
    exists i: nat :: InnermostRoot(es, i, k)
  }

  /** The function that event `k` is booked on: the first 110 characters of the item of its root. */
  ghost predicate OnFunction(es: seq<Event>, k: nat, f: string) {
    if HasRoot(es, k) then
      exists i: nat :: InnermostRoot(es, i, k) && f == es[i].item[..if |es[i].item| < 110 then |es[i].item| else 110]
    else f == "<no root>"
  }

  /** The root query that event `k` is booked on. */
  ghost predicate OnRoot(es: seq<Event>, k: nat, f: string) {
    if HasRoot(es, k) then exists i: nat :: InnermostRoot(es, i, k) && f == es[i].name else f == "<no root>"
  }

  /** The time of the outermost evaluations among the first `k` events that are booked on function `f`. */
  ghost function FunctionTime(es: seq<Event>, k: nat, f: string): nat
    requires k <= |es|
  {
    if k == 0 then 0
    else FunctionTime(es, k - 1, f) + if Outermost(es, k - 1) && OnFunction(es, k - 1, f) then es[k - 1].dur else 0
  }

  ghost function RootTime(es: seq<Event>, k: nat, f: string): nat
    requires k <= |es|
  {
    if k == 0 then 0
    else RootTime(es, k - 1, f) + if Outermost(es, k - 1) && OnRoot(es, k - 1, f) then es[k - 1].dur else 0
  }

  /** The same over the first `n` threads. */
  ghost function AllFunctionTime(threads: seq<seq<Event>>, n: nat, f: string): nat
    requires n <= |threads|
  {
    if n == 0 then 0
    else AllFunctionTime(threads, n - 1, f) + FunctionTime(threads[n - 1], |threads[n - 1]|, f)
  }

  ghost function AllRootTime(threads: seq<seq<Event>>, n: nat, f: string): nat
    requires n <= |threads|
  {
    if n == 0 then 0 else AllRootTime(threads, n - 1, f) + RootTime(threads[n - 1], |threads[n - 1]|, f)
  }

  function TimeOf(m: map<string, nat>, key: string): nat { if key in m then m[key] else 0 }

  // ---- the stack finds that root -------------------------------------------------------------------

  /** The last root among the first `m` events that is still open at `t`. */
  ghost predicate LastOpenRoot(es: seq<Event>, m: nat, t: int, i: nat) {
    && i < m <= |es| && t < es[i].End() && es[i].name in ROOTS
    && forall j: nat :: i < j < m && t < es[j].End() ==> es[j].name !in ROOTS
  }

  lemma {:induction false} TopRootOfOpen(es: seq<Event>, m: nat, t: int)
    requires m <= |es|
    ensures var root := TopRoot(Open(es[..m], t));
            if root.None? then forall i: nat :: !LastOpenRoot(es, m, t, i)
            else exists i: nat :: LastOpenRoot(es, m, t, i) && es[i] == root.value
  {
    if m > 0 {
      var front := es[..m - 1];
      TopRootOfOpen(es, m - 1, t);
      OpenSnoc(es[..m], t);
      assert es[..m][..m - 1] == front && es[..m][m - 1] == es[m - 1];
      hide Open, TopRoot;
      if Alive(es[m - 1], t) {
        TopRootSnoc(Open(front, t), es[m - 1]);
      } else {
        assert Open(front, t) + [] == Open(front, t);
      }
      NextOpenRoot(es, m, t);
      if es[m - 1].name in ROOTS && Alive(es[m - 1], t) {
        assert LastOpenRoot(es, m, t, m - 1);
      }
    }
  }

  lemma {:induction false} TopRootSnoc(s: seq<Event>, e: Event)
    ensures TopRoot(s + [e]) == if e.name in ROOTS then Some(e) else TopRoot(s)
  {
    assert (s + [e])[..|s|] == s;
  }

  lemma {:induction false} NextOpenRoot(es: seq<Event>, m: nat, t: int)
    requires 0 < m <= |es|
    ensures !(es[m - 1].name in ROOTS && Alive(es[m - 1], t)) ==>
              forall i: nat :: LastOpenRoot(es, m, t, i) <==> LastOpenRoot(es, m - 1, t, i)
  {
  }

  lemma {:induction false} LastIsInnermost(es: seq<Event>, k: nat, i: nat)
    requires k < |es|
    ensures LastOpenRoot(es, k, es[k].ts, i) <==> InnermostRoot(es, i, k)
  {
  }

  lemma {:induction false} OneInnermost(es: seq<Event>, k: nat, i: nat, j: nat)
    requires InnermostRoot(es, i, k) && InnermostRoot(es, j, k)
    ensures i == j
  {
  }

  /** The root the sweep finds is the innermost one, and there is none exactly where there is none. */
  lemma {:induction false} FindsInnermost(es: seq<Event>, k: nat)
    requires Ordered(es) && Nested(es) && k < |es|
    ensures var root := TopRoot(StackAt(es, k));
            if root.None? then !HasRoot(es, k) else exists i: nat :: InnermostRoot(es, i, k) && es[i] == root.value
  {
    hide TopRoot, StackAt, Open, Ordered, Nested, LastOpenRoot, InnermostRoot;
    StackIsEnclosing(es, k);
    TopRootOfOpen(es, k, es[k].ts);
    forall i: nat ensures LastOpenRoot(es, k, es[k].ts, i) <==> InnermostRoot(es, i, k) { LastIsInnermost(es, k, i); }
  }

  /** The names that a charged evaluation is booked under. */
  lemma {:induction false} KeysAreRight(es: seq<Event>, k: nat, f: string)
    requires Ordered(es) && Nested(es) && k < |es|
    ensures var root := TopRoot(StackAt(es, k));
            (FnKey(root) == f <==> OnFunction(es, k, f)) && (RootKey(root) == f <==> OnRoot(es, k, f))
  {
    hide TopRoot, StackAt, Ordered, Nested;
    FindsInnermost(es, k);
    var root := TopRoot(StackAt(es, k));
    if root.Some? {
      var i: nat :| InnermostRoot(es, i, k) && es[i] == root.value;
      hide InnermostRoot;
      assert HasRoot(es, k);
      var item := es[i].item;
      assert item[..|item|] == item;
      forall j: nat | InnermostRoot(es, j, k) ensures j == i { OneInnermost(es, k, i, j); }
    }
  }

  lemma {:induction false} ChargedIs(es: seq<Event>, k: nat)
    requires Ordered(es) && Nested(es) && k < |es|
    ensures Charged(es, k) <==> Outermost(es, k)
  {
    hide StackAt, HasEval, Ordered, Nested;
    ChargedIsOutermost(es, k);
    assert es[k].name == EVAL ==> forall i: nat :: Encloses(es, i, k) <==> i < k && es[k].ts < es[i].End();
  }

  // ---- every event is in the list of its thread ------------------------------------------------------

  lemma {:induction false} OfThreadCount(events: seq<Event>, t: int, e: Event)
    ensures multiset(OfThread(events, t))[e] == if e.tid == t then multiset(events)[e] else 0
  {
    if events != [] {
      var n := |events| - 1;
      OfThreadCount(events[..n], t, e);
      assert events == events[..n] + [events[n]];
    }
  }

  // ---- the counters --------------------------------------------------------------------------------

  lemma {:induction false} AddTime(m: map<string, nat>, key: string, n: nat, f: string)
    ensures TimeOf(Add(m, key, n), f) == TimeOf(m, f) + if key == f then n else 0
  {
  }

  lemma {:induction false} ThreadTimes(c: Counters, es: seq<Event>, k: nat, f: string)
    requires Ordered(es) && Nested(es) && k <= |es|
    ensures var d := Charges(c, es, k);
            && TimeOf(d.perFn, f) == TimeOf(c.perFn, f) + FunctionTime(es, k, f)
            && TimeOf(d.perRoot, f) == TimeOf(c.perRoot, f) + RootTime(es, k, f)
  {
    hide TopRoot, StackAt, FnKey, RootKey, Add, TimeOf, Outermost, OnFunction, OnRoot, Charged, Ordered, Nested;
    if k > 0 {
      ThreadTimes(c, es, k - 1, f);
      ChargedIs(es, k - 1);
      KeysAreRight(es, k - 1, f);
      var before := Charges(c, es, k - 1);
      var root := TopRoot(StackAt(es, k - 1));
      AddTime(before.perFn, FnKey(root), es[k - 1].dur, f);
      AddTime(before.perRoot, RootKey(root), es[k - 1].dur, f);
    }
  }

  /** Each counter holds exactly the time of the outermost evaluations, of all threads, whose innermost enclosing
      root query has that item or that name. */
  lemma {:induction false} CountersAreTimes(threads: seq<seq<Event>>, n: nat, f: string)
    requires n <= |threads| && forall i :: 0 <= i < |threads| ==> Ordered(threads[i]) && Nested(threads[i])
    ensures var c := ChargeAll(threads, n);
            TimeOf(c.perFn, f) == AllFunctionTime(threads, n, f) && TimeOf(c.perRoot, f) == AllRootTime(threads, n, f)
  {
    hide Charges, FunctionTime, RootTime, Ordered, Nested;
    if n > 0 {
      CountersAreTimes(threads, n - 1, f);
      ThreadTimes(ChargeAll(threads, n - 1), threads[n - 1], |threads[n - 1]|, f);
    }
  }
}
