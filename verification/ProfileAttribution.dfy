/** Charging trait-solving time to functions (scripts/compile-profile-attribute.py). */
module ProfileAttribution {
  import opened Prelude

  /** A complete event. `item` is the cleaned-up `arg0` of a query, `dur` is in microseconds. */
  datatype Event = Event(name: string, ts: int, dur: nat, tid: int, item: string) {
    function End(): int { ts + dur }
  }

  const EVAL: string := "evaluate_obligation"
  const NO_ROOT: string := "<no root>"

  const ROOTS: set<string> := {
    "typeck_root", "mir_borrowck", "check_coroutine_obligations", "optimized_mir", "items_of_instance",
    "check_well_formed", "mir_built", "coherence_checking", "generate_crate_metadata"
  }

  /** The sort key: by start, and of two that start together the longer first. */
  predicate NotAfter(a: Event, b: Event) {
    a.ts < b.ts || (a.ts == b.ts && a.dur >= b.dur)
  }

  ghost predicate Ordered(es: seq<Event>) {
    forall i, j :: 0 <= i < j < |es| ==> NotAfter(es[i], es[j])
  }

  /** Two events of one thread overlap only when one lies inside the other. */
  ghost predicate Nested(es: seq<Event>) {
    forall i, j :: 0 <= i < |es| && 0 <= j < |es| ==>
      || es[i].End() <= es[j].ts || es[j].End() <= es[i].ts
      || (es[i].ts <= es[j].ts && es[j].End() <= es[i].End())
      || (es[j].ts <= es[i].ts && es[i].End() <= es[j].End())
  }

  predicate Alive(e: Event, t: int) { t < e.End() }

  /** The events of `s` that have not ended at time `t`, in order. */
  function Open(s: seq<Event>, t: int): seq<Event> {
    if s == [] then []
    else Open(s[..|s| - 1], t) + if Alive(s[|s| - 1], t) then [s[|s| - 1]] else []
  }

  /** The `while` that pops ended events off the stack. */
  function Popped(s: seq<Event>, t: int): seq<Event> {
    if s == [] || Alive(s[|s| - 1], t) then s else Popped(s[..|s| - 1], t)
  }

  /** The stack of the sweep just before event `k` is looked at. */
  function StackAt(es: seq<Event>, k: nat): seq<Event>
    requires k < |es|
  {
    if k == 0 then [] else Popped(StackAt(es, k - 1) + [es[k - 1]], es[k].ts)
  }

  /** The events before `k` that enclose it. */
  function Enclosing(es: seq<Event>, k: nat): seq<Event>
    requires k < |es|
  {
    Open(es[..k], es[k].ts)
  }

  // ---- the stack is the chain of enclosing events -------------------------------------------

  /** Ends never grow towards the top of the stack. */
  ghost predicate Shrinking(s: seq<Event>) {
    forall i, j :: 0 <= i < j < |s| ==> s[j].End() <= s[i].End()
  }

  lemma {:induction false} OpenMembers(s: seq<Event>, t: int)
    ensures forall e :: e in Open(s, t) <==> e in s && Alive(e, t)
  {
    if s != [] {
      OpenMembers(s[..|s| - 1], t);
      assert s == s[..|s| - 1] + [s[|s| - 1]];
    }
  }

  lemma {:induction false} OpenSnoc(s: seq<Event>, t: int)
    requires s != []
    ensures Open(s, t) == Open(s[..|s| - 1], t) + if Alive(s[|s| - 1], t) then [s[|s| - 1]] else []
  {
  }

  lemma {:induction false} OpenAll(s: seq<Event>, t: int)
    requires forall e :: e in s ==> Alive(e, t)
    ensures Open(s, t) == s
  {
    if s != [] {
      var front, last := s[..|s| - 1], s[|s| - 1];
      assert last in s;
      OpenAll(front, t);
      hide Open;
      OpenSnoc(s, t);
      assert s == front + [last];
    }
  }

  /** What had ended stays ended: filtering again at a later time is filtering at that time. */
  lemma {:induction false} OpenLater(s: seq<Event>, t: int, t': int)
    requires t <= t'
    ensures Open(Open(s, t), t') == Open(s, t')
  {
    if s != [] {
      var front, last := s[..|s| - 1], s[|s| - 1];
      OpenLater(front, t, t');
      if Alive(last, t) {
        assert (Open(front, t) + [last])[..|Open(front, t)|] == Open(front, t);
      } else {
        assert Open(s, t) == Open(front, t);
      }
    }
  }

  /** With shrinking ends, popping from the top removes exactly the ended events. */
  lemma {:induction false} PoppedIsOpen(s: seq<Event>, t: int)
    requires Shrinking(s)
    ensures Popped(s, t) == Open(s, t)
  {
    if s != [] {
      if Alive(s[|s| - 1], t) {
        OpenAll(s, t);
      } else {
        PoppedIsOpen(s[..|s| - 1], t);
      }
    }
  }

  lemma {:induction false} OpenIndices(s: seq<Event>, t: int, a: nat, b: nat) returns (i: nat, j: nat)
    requires a < b < |Open(s, t)|
    ensures i < j < |s| && s[i] == Open(s, t)[a] && s[j] == Open(s, t)[b] && Alive(s[i], t) && Alive(s[j], t)
  {
    var front := s[..|s| - 1];
    var o := Open(front, t);
    if b < |o| {
      i, j := OpenIndices(front, t, a, b);
    } else {
      OpenMembers(front, t);
      assert o[a] in front;
      i :| 0 <= i < |front| && front[i] == o[a];
      j := |s| - 1;
    }
  }

  /** Of two events that are both open at `k`, the later lies inside the earlier. */
  lemma EnclosingShrinks(es: seq<Event>, k: nat)
    requires Ordered(es) && Nested(es) && k < |es|
    ensures Shrinking(Enclosing(es, k) + [es[k]])
  {
    var s := Enclosing(es, k);
    OpenMembers(es[..k], es[k].ts);
    forall a, b | 0 <= a < b < |s| + 1 ensures (s + [es[k]])[b].End() <= (s + [es[k]])[a].End() {
      if b < |s| {
        var i, j := OpenIndices(es[..k], es[k].ts, a, b);
        Inside(es, i, j, es[k].ts);
      } else {
        assert s[a] in es[..k];
        var i :| 0 <= i < k && es[i] == s[a];
        Inside(es, i, k, es[k].ts);
      }
    }
  }

  lemma Inside(es: seq<Event>, i: nat, j: nat, t: int)
    requires Ordered(es) && Nested(es) && i < j < |es|
    requires Alive(es[i], t) && es[j].ts <= t
    ensures es[i].ts <= es[j].ts && es[j].End() <= es[i].End()
  {
    assert NotAfter(es[i], es[j]);
    assert es[i].End() > es[j].ts;
  }

  /** What is open at an event was open at the event before, or is that event. */
  lemma {:induction false} OpenStep(es: seq<Event>, k: nat)
    requires Ordered(es) && 0 < k < |es|
    ensures Open(Enclosing(es, k - 1) + [es[k - 1]], es[k].ts) == Enclosing(es, k)
  {
    var s := Enclosing(es, k - 1) + [es[k - 1]];
    assert NotAfter(es[k - 1], es[k]);
    OpenLater(es[..k - 1], es[k - 1].ts, es[k].ts);
    assert s[..|s| - 1] == Enclosing(es, k - 1);
    assert es[..k][..k - 1] == es[..k - 1];
  }

  /** Just before each event the stack is exactly the chain of earlier events enclosing it. */
  lemma {:induction false} StackIsEnclosing(es: seq<Event>, k: nat)
    requires Ordered(es) && Nested(es) && k < |es|
    ensures StackAt(es, k) == Enclosing(es, k)
  {
    if k == 0 {
      assert es[..0] == [];
    } else {
      StackIsEnclosing(es, k - 1);
      EnclosingShrinks(es, k - 1);
      PoppedIsOpen(Enclosing(es, k - 1) + [es[k - 1]], es[k].ts);
      OpenStep(es, k);
    }
  }

  // ---- charging ------------------------------------------------------------------------------

  /** `any(...)`: an evaluation encloses the event. */
  predicate HasEval(stack: seq<Event>) {
    exists i :: 0 <= i < |stack| && stack[i].name == EVAL
  }

  /** The topmost root query of the stack. */
  function TopRoot(stack: seq<Event>): Option<Event> {
    if stack == [] then None
    else if stack[|stack| - 1].name in ROOTS then Some(stack[|stack| - 1])
    else TopRoot(stack[..|stack| - 1])
  }

  function FnKey(root: Option<Event>): string {
    if root.None? then NO_ROOT else if |root.value.item| <= 110 then root.value.item else root.value.item[..110]
  }

  function RootKey(root: Option<Event>): string {
    if root.None? then NO_ROOT else root.value.name
  }

  function Add(m: map<string, nat>, key: string, n: nat): map<string, nat> {
    m[key := (if key in m then m[key] else 0) + n]
  }

  datatype Counters = Counters(perFn: map<string, nat>, perRoot: map<string, nat>)

  predicate Charged(es: seq<Event>, k: nat)
    requires k < |es|
  {
    es[k].name == EVAL && !HasEval(StackAt(es, k))
  }

  /** The counters after the first `k` events of one thread. */
  function Charges(c: Counters, es: seq<Event>, k: nat): Counters
    requires k <= |es|
  {
    if k == 0 then c
    else
      var before := Charges(c, es, k - 1);
      if !Charged(es, k - 1) then before
      else
        var root := TopRoot(StackAt(es, k - 1));
        Counters(Add(before.perFn, FnKey(root), es[k - 1].dur), Add(before.perRoot, RootKey(root), es[k - 1].dur))
  }

  /** The time charged for the first `k` events. */
  function ChargedTime(es: seq<Event>, k: nat): nat
    requires k <= |es|
  {
    if k == 0 then 0 else ChargedTime(es, k - 1) + if Charged(es, k - 1) then es[k - 1].dur else 0
  }

  /** Membership in the chain, by index. */
  lemma {:induction false} EnclosingMembers(es: seq<Event>, k: nat)
    requires k < |es|
    ensures forall i :: 0 <= i < k && es[k].ts < es[i].End() ==> es[i] in Enclosing(es, k)
    ensures forall e :: e in Enclosing(es, k) ==> exists i :: 0 <= i < k && es[i] == e && es[k].ts < es[i].End()
  {
    hide Open;
    OpenMembers(es[..k], es[k].ts);
    forall i | 0 <= i < k && es[k].ts < es[i].End() ensures es[i] in Enclosing(es, k) { assert es[..k][i] == es[i]; }
  }

  /** With nested events, what is charged is exactly the outermost evaluations. */
  lemma {:induction false} ChargedIsOutermost(es: seq<Event>, k: nat)
    requires Ordered(es) && Nested(es) && k < |es|
    ensures Charged(es, k) <==>
            es[k].name == EVAL && forall i :: 0 <= i < k && es[k].ts < es[i].End() ==> es[i].name != EVAL
  {
    hide Open, StackAt, Enclosing, Ordered, Nested;
    StackIsEnclosing(es, k);
    EnclosingMembers(es, k);
    var s := Enclosing(es, k);
    if i :| 0 <= i < k && es[k].ts < es[i].End() && es[i].name == EVAL { assert es[i] in s; }
    if j :| 0 <= j < |s| && s[j].name == EVAL { assert s[j] in s; }
  }

  lemma {:induction false} RootIsInnermost(s: seq<Event>, e: Event, r: nat)
    requires Shrinking(s + [e]) && IsTopRoot(s, r)
    ensures e.End() <= s[r].End()
    ensures forall f :: f in s && f.name in ROOTS ==> s[r].End() <= f.End()
  {
    var t := s + [e];
    assert t[r] == s[r] && t[|s|] == e;
    forall f | f in s && f.name in ROOTS ensures s[r].End() <= f.End() {
      var j :| 0 <= j < |s| && s[j] == f;
      assert t[j] == s[j];
    }
  }

  /** ... and each is charged to its innermost enclosing root query: the root encloses the event, and
      every other enclosing root ends no earlier. Without an enclosing root there is none. */
  lemma {:induction false} ChargedToInnermostRoot(es: seq<Event>, k: nat)
    requires Ordered(es) && Nested(es) && k < |es|
    ensures var root := TopRoot(StackAt(es, k));
            if root.None? then forall i :: 0 <= i < k && es[k].ts < es[i].End() ==> es[i].name !in ROOTS
            else
              && (exists i :: 0 <= i < k && es[i] == root.value)
              && root.value.name in ROOTS
              && root.value.ts <= es[k].ts && es[k].End() <= root.value.End()
              && forall i :: 0 <= i < k && es[k].ts < es[i].End() && es[i].name in ROOTS ==>
                   root.value.End() <= es[i].End()
  {
    hide Open, StackAt, Enclosing, TopRoot, Shrinking, Nested;
    var s := Enclosing(es, k);
    StackIsEnclosing(es, k);
    EnclosingMembers(es, k);
    EnclosingShrinks(es, k);
    TopRootIsLast(s);
    var root := TopRoot(s);
    if root.Some? {
      var r: nat :| IsTopRoot(s, r) && s[r] == root.value;
      assert s[r] in s;
      var q :| 0 <= q < k && es[q] == s[r];
      assert NotAfter(es[q], es[k]);
      RootIsInnermost(s, es[k], r);
      forall i | 0 <= i < k && es[k].ts < es[i].End() && es[i].name in ROOTS ensures s[r].End() <= es[i].End() {
        assert es[i] in s;
      }
    } else {
      forall i | 0 <= i < k && es[k].ts < es[i].End() ensures es[i].name !in ROOTS {
        var j :| 0 <= j < |s| && s[j] == es[i];
      }
    }
  }

  ghost predicate IsTopRoot(s: seq<Event>, r: nat) {
    r < |s| && s[r].name in ROOTS && forall j :: r < j < |s| ==> s[j].name !in ROOTS
  }

  lemma {:induction false} TopRootIsLast(s: seq<Event>)
    ensures var root := TopRoot(s);
            if root.None? then forall i :: 0 <= i < |s| ==> s[i].name !in ROOTS
            else exists r: nat :: IsTopRoot(s, r) && s[r] == root.value
  {
    if s != [] {
      var n := |s| - 1;
      if s[n].name in ROOTS {
        assert IsTopRoot(s, n);
      } else {
        TopRootIsLast(s[..n]);
        if TopRoot(s).Some? {
          var r: nat :| IsTopRoot(s[..n], r) && s[..n][r] == TopRoot(s).value;
          assert forall j :: r < j < n ==> s[..n][j] == s[j];
          assert IsTopRoot(s, r);
        }
      }
    }
  }

  // ---- totals --------------------------------------------------------------------------------

  /** The sum of the counters of `keys`. */
  ghost function Total(m: map<string, nat>, keys: set<string>): nat
    requires keys <= m.Keys
    decreases |keys|
  {
    if keys == {} then 0
    else
      var k :| k in keys;
      m[k] + Total(m, keys - {k})
  }

  lemma {:induction false} TotalOf(m: map<string, nat>, keys: set<string>, x: string)
    requires keys <= m.Keys && x in keys
    ensures Total(m, keys) == m[x] + Total(m, keys - {x})
    decreases |keys|
  {
    var k :| k in keys && Total(m, keys) == m[k] + Total(m, keys - {k});
    if k != x {
      TotalOf(m, keys - {k}, x);
      TotalOf(m, keys - {x}, k);
      assert keys - {k} - {x} == keys - {x} - {k};
    }
  }

  lemma {:induction false} TotalSame(m: map<string, nat>, n: map<string, nat>, keys: set<string>)
    requires keys <= m.Keys && keys <= n.Keys && forall k :: k in keys ==> m[k] == n[k]
    ensures Total(m, keys) == Total(n, keys)
    decreases |keys|
  {
    if keys != {} {
      var k :| k in keys && Total(m, keys) == m[k] + Total(m, keys - {k});
      TotalOf(n, keys, k);
      TotalSame(m, n, keys - {k});
    }
  }

  lemma AddTotal(m: map<string, nat>, key: string, n: nat)
    ensures Total(Add(m, key, n), Add(m, key, n).Keys) == Total(m, m.Keys) + n
  {
    var a := Add(m, key, n);
    assert a.Keys == m.Keys + {key};
    TotalOf(a, a.Keys, key);
    assert a.Keys - {key} == m.Keys - {key};
    TotalSame(a, m, m.Keys - {key});
    if key in m { TotalOf(m, m.Keys, key); } else { assert m.Keys - {key} == m.Keys; }
  }

  /** Nothing is lost or counted twice: both breakdowns grow by exactly the charged time. */
  lemma {:induction false} BreakdownsAgree(c: Counters, es: seq<Event>, k: nat)
    requires k <= |es|
    ensures var d := Charges(c, es, k);
            && Total(d.perFn, d.perFn.Keys) == Total(c.perFn, c.perFn.Keys) + ChargedTime(es, k)
            && Total(d.perRoot, d.perRoot.Keys) == Total(c.perRoot, c.perRoot.Keys) + ChargedTime(es, k)
  {
    if k > 0 {
      BreakdownsAgree(c, es, k - 1);
      var before := Charges(c, es, k - 1);
      var root := TopRoot(StackAt(es, k - 1));
      AddTotal(before.perFn, FnKey(root), es[k - 1].dur);
      AddTotal(before.perRoot, RootKey(root), es[k - 1].dur);
    }
  }

  /** The charged events of a thread do not overlap, so no more is charged than the thread's span. */
  lemma {:induction false} ChargedWithinSpan(es: seq<Event>, k: nat, until: int)
    requires Ordered(es) && Nested(es) && 0 < k <= |es|
    requires forall i :: 0 <= i < k && Charged(es, i) ==> es[i].End() <= until
    requires es[0].ts <= until
    ensures ChargedTime(es, k) <= until - es[0].ts
    decreases k
  {
    var e := es[k - 1];
    if k == 1 {
      assert ChargedTime(es, 0) == 0;
    } else if !Charged(es, k - 1) {
      ChargedWithinSpan(es, k - 1, until);
    } else {
      ChargedIsOutermost(es, k - 1);
      assert NotAfter(es[0], e);
      forall i | 0 <= i < k - 1 && Charged(es, i) ensures es[i].End() <= e.ts {
        ChargedIsOutermost(es, i);
      }
      ChargedWithinSpan(es, k - 1, e.ts);
    }
  }

  // ---- the program ---------------------------------------------------------------------------

  lemma {:induction false} OrderedSnoc(s: seq<Event>, p: nat, e: Event)
    requires Ordered(s) && p <= |s| && (p > 0 ==> NotAfter(s[p - 1], e))
    requires forall i :: p <= i < |s| ==> NotAfter(e, s[i])
    ensures Ordered(s[..p] + [e] + s[p..])
  {
    forall i | 0 <= i < p ensures NotAfter(s[i], e) {
      if i < p - 1 { assert NotAfter(s[i], s[p - 1]); }
    }
    hide NotAfter;
  }

  lemma {:induction false} InsertedEvents(s: seq<Event>, p: nat, e: Event)
    requires p <= |s|
    ensures multiset(s[..p] + [e] + s[p..]) == multiset(s) + multiset{e}
  {
    assert s == s[..p] + s[p..];
  }

  lemma NothingToOrder()
    ensures Ordered([]) && Stable([], [])
  {
  }

  lemma EitherFirst(a: Event, b: Event)
    ensures NotAfter(a, b) || NotAfter(b, a)
  {
  }

  /** The events with one start and one duration, in order. */
  function OfKey(s: seq<Event>, ts: int, dur: nat): seq<Event> {
    if s == [] then []
    else
      var n := |s| - 1;
      OfKey(s[..n], ts, dur) + if s[n].ts == ts && s[n].dur == dur then [s[n]] else []
  }

  lemma {:induction false} OfKeyAppend(a: seq<Event>, b: seq<Event>, ts: int, dur: nat)
    ensures OfKey(a + b, ts, dur) == OfKey(a, ts, dur) + OfKey(b, ts, dur)
    decreases |b|
  {
    if b == [] {
      assert a + b == a;
    } else {
      var n := |b| - 1;
      assert (a + b)[..|a| + n] == a + b[..n] && (a + b)[|a| + n] == b[n];
      OfKeyAppend(a, b[..n], ts, dur);
    }
  }

  lemma {:induction false} OfKeyNone(s: seq<Event>, e: Event)
    requires forall i :: 0 <= i < |s| ==> !NotAfter(s[i], e)
    ensures OfKey(s, e.ts, e.dur) == []
  {
    if s != [] { OfKeyNone(s[..|s| - 1], e); }
  }

  /** Events that the key does not tell apart keep their order. */
  ghost predicate Stable(lst: seq<Event>, events: seq<Event>) {
    forall ts, dur: nat :: OfKey(lst, ts, dur) == OfKey(events, ts, dur)
  }

  lemma {:induction false} InsertedIsStable(lst: seq<Event>, events: seq<Event>, p: nat, e: Event)
    requires p <= |lst| && Stable(lst, events) && forall i :: p <= i < |lst| ==> !NotAfter(lst[i], e)
    ensures Stable(lst[..p] + [e] + lst[p..], events + [e])
  {
    var front, back := lst[..p], lst[p..];
    assert lst == front + back;
    forall ts, dur: nat ensures OfKey(front + [e] + back, ts, dur) == OfKey(events + [e], ts, dur) {
      OfKeyAppend(front, back, ts, dur);
      OfKeyAppend(front + [e], back, ts, dur);
      OfKeyAppend(front, [e], ts, dur);
      OfKeyAppend(events, [e], ts, dur);
      assert OfKey(lst, ts, dur) == OfKey(events, ts, dur);
      if ts == e.ts && dur == e.dur {
        OfKeyNone(back, e);
      } else {
        assert [e][..0] == [] && OfKey([e], ts, dur) == [];
      }
    }
  }

  /** `list.sort` by the key: a stable sort. */
  method Sort(events: seq<Event>) returns (lst: seq<Event>)
    ensures Ordered(lst) && multiset(lst) == multiset(events) && Stable(lst, events)
  {
    hide NotAfter, Ordered, OfKey, Stable;
    lst := [];
    NothingToOrder();
    for n := 0 to |events|
      invariant Ordered(lst) && multiset(lst) == multiset(events[..n]) && Stable(lst, events[..n])
    {
      var e := events[n];
      var p := |lst|;
      while p > 0 && !NotAfter(lst[p - 1], e)
        invariant 0 <= p <= |lst|
        invariant forall i :: p <= i < |lst| ==> NotAfter(e, lst[i]) && !NotAfter(lst[i], e)
      {
        EitherFirst(lst[p - 1], e);
        p := p - 1;
      }
      OrderedSnoc(lst, p, e);
      InsertedEvents(lst, p, e);
      InsertedIsStable(lst, events[..n], p, e);
      assert events[..n + 1] == events[..n] + [e];
      lst := lst[..p] + [e] + lst[p..];
    }
    assert events[..|events|] == events;
  }

  /** The search from the top of the stack for a root query. */
  method FindRoot(stack: seq<Event>) returns (root: Option<Event>)
    ensures root == TopRoot(stack)
  {
    var i := |stack|;
    assert stack[..i] == stack;
    while i > 0
      invariant 0 <= i <= |stack|
      invariant TopRoot(stack[..i]) == TopRoot(stack)
    {
      i := i - 1;
      assert stack[..i + 1][..i] == stack[..i];
      if stack[i].name in ROOTS { return Some(stack[i]); }
    }
    return None;
  }

  /** The sweep over one thread. */
  method ChargeThread(lst: seq<Event>, c: Counters) returns (d: Counters)
    ensures d == Charges(c, lst, |lst|)
  {
    hide TopRoot, FnKey, RootKey, Add, HasEval;
    d := c;
    var stack: seq<Event> := [];
    for k := 0 to |lst|
      invariant stack == if k == 0 then [] else StackAt(lst, k - 1) + [lst[k - 1]]
      invariant d == Charges(c, lst, k)
    {
      var e := lst[k];
      while stack != [] && e.ts >= stack[|stack| - 1].ts + stack[|stack| - 1].dur
        invariant Popped(stack, e.ts) == StackAt(lst, k)
      {
        stack := stack[..|stack| - 1];
      }
      assert stack == StackAt(lst, k);
      if e.name == EVAL && !HasEval(stack) {
        var root := FindRoot(stack);
        d := Counters(Add(d.perFn, FnKey(root), e.dur), Add(d.perRoot, RootKey(root), e.dur));
      }
      stack := stack + [e];
    }
  }

  function OfThread(events: seq<Event>, tid: int): seq<Event> {
    if events == [] then []
    else
      var n := |events| - 1;
      OfThread(events[..n], tid) + if events[n].tid == tid then [events[n]] else []
  }

  /** The counters after the first `n` threads. */
  function ChargeAll(threads: seq<seq<Event>>, n: nat): Counters
    requires n <= |threads|
  {
    if n == 0 then Counters(map[], map[]) else Charges(ChargeAll(threads, n - 1), threads[n - 1], |threads[n - 1]|)
  }

  function AllChargedTime(threads: seq<seq<Event>>, n: nat): nat
    requires n <= |threads|
  {
    if n == 0 then 0 else AllChargedTime(threads, n - 1) + ChargedTime(threads[n - 1], |threads[n - 1]|)
  }

  /** Over all threads the total by function, the total by root query and the charged time agree. */
  lemma {:induction false} AllBreakdownsAgree(threads: seq<seq<Event>>, n: nat)
    requires n <= |threads|
    ensures var c := ChargeAll(threads, n);
            Total(c.perFn, c.perFn.Keys) == Total(c.perRoot, c.perRoot.Keys) == AllChargedTime(threads, n)
  {
    if n > 0 {
      AllBreakdownsAgree(threads, n - 1);
      BreakdownsAgree(ChargeAll(threads, n - 1), threads[n - 1], |threads[n - 1]|);
    }
  }

  lemma {:induction false} ChargeAllPrefix(threads: seq<seq<Event>>, more: seq<Event>, n: nat)
    requires n <= |threads|
    ensures ChargeAll(threads + [more], n) == ChargeAll(threads, n)
  {
    if n > 0 { ChargeAllPrefix(threads, more, n - 1); }
  }

  lemma {:induction false} ChargeOneMore(threads: seq<seq<Event>>, more: seq<Event>)
    ensures ChargeAll(threads + [more], |threads| + 1) == Charges(ChargeAll(threads, |threads|), more, |more|)
  {
    ChargeAllPrefix(threads, more, |threads|);
  }

  ghost predicate Distinct(tids: seq<int>) {
    forall i, j :: 0 <= i < j < |tids| ==> tids[i] != tids[j]
  }

  lemma NoEventsYet(events: seq<Event>)
    ensures forall t :: OfThread(events[..0], t) == []
  {
  }

  lemma OneMoreEvent(events: seq<Event>, n: nat)
    requires n < |events|
    ensures forall t :: OfThread(events[..n + 1], t)
                        == if events[n].tid == t then OfThread(events[..n], t) + [events[n]]
                            else OfThread(events[..n], t)
  {
    assert events[..n + 1][..n] == events[..n];
  }

  /** The list of each thread holds its events. */
  ghost predicate Lists(events: seq<Event>, byTid: map<int, seq<Event>>) {
    forall t :: OfThread(events, t) == if t in byTid then byTid[t] else []
  }

  ghost predicate AllListed(events: seq<Event>, tids: seq<int>) {
    forall i :: 0 <= i < |events| ==> events[i].tid in tids
  }

  ghost predicate SameThreads(tids: seq<int>, byTid: map<int, seq<Event>>) {
    forall t :: t in byTid <==> t in tids
  }

  /** Each thread's events, and the threads in the order they are first seen. */
  ghost predicate Grouped(events: seq<Event>, tids: seq<int>, byTid: map<int, seq<Event>>) {
    Distinct(tids) && SameThreads(tids, byTid) && Lists(events, byTid) && AllListed(events, tids)
  }

  lemma {:induction false} ListsSnoc(events: seq<Event>, n: nat, byTid: map<int, seq<Event>>)
    requires n < |events| && Lists(events[..n], byTid)
    ensures var e := events[n];
            Lists(events[..n + 1], byTid[e.tid := if e.tid in byTid then byTid[e.tid] + [e] else [e]])
  {
    hide OfThread;
    OneMoreEvent(events, n);
    assert [] + [events[n]] == [events[n]];
  }

  lemma {:induction false} AllListedSnoc(events: seq<Event>, n: nat, tids: seq<int>)
    requires n < |events| && AllListed(events[..n], tids)
    ensures AllListed(events[..n + 1], if events[n].tid in tids then tids else tids + [events[n].tid])
  {
    var all := events[..n + 1];
    forall i | 0 <= i < |all| ensures i < n ==> all[i].tid in tids {
      if i < n { assert all[i] == events[..n][i]; }
    }
  }

  lemma {:induction false} ThreadsSnoc(tids: seq<int>, byTid: map<int, seq<Event>>, t: int, list: seq<Event>)
    requires Distinct(tids) && SameThreads(tids, byTid)
    ensures var now := if t in tids then tids else tids + [t]; Distinct(now) && SameThreads(now, byTid[t := list])
  {
  }

  lemma {:induction false} GroupedSnoc(events: seq<Event>, n: nat, tids: seq<int>, byTid: map<int, seq<Event>>)
    requires n < |events| && Grouped(events[..n], tids, byTid)
    ensures var e := events[n];
            if e.tid in byTid then Grouped(events[..n + 1], tids, byTid[e.tid := byTid[e.tid] + [e]])
            else Grouped(events[..n + 1], tids + [e.tid], byTid[e.tid := [e]])
  {
    var e := events[n];
    assert e.tid in byTid <==> e.tid in tids;
    hide Lists, AllListed, SameThreads, Distinct;
    ListsSnoc(events, n, byTid);
    AllListedSnoc(events, n, tids);
    ThreadsSnoc(tids, byTid, e.tid, if e.tid in byTid then byTid[e.tid] + [e] else [e]);
  }

  /** `by_tid`, in the order threads are first seen. */
  method GroupByThread(events: seq<Event>) returns (tids: seq<int>, byTid: map<int, seq<Event>>)
    ensures Grouped(events, tids, byTid)
  {
    hide Grouped;
    byTid := map[];
    tids := [];
    NothingGrouped(events);
    for n := 0 to |events|
      invariant Grouped(events[..n], tids, byTid)
    {
      var e := events[n];
      GroupedSnoc(events, n, tids, byTid);
      if e.tid in byTid {
        byTid := byTid[e.tid := byTid[e.tid] + [e]];
      } else {
        byTid := byTid[e.tid := [e]];
        tids := tids + [e.tid];
      }
    }
    assert events[..|events|] == events;
  }

  lemma NothingGrouped(events: seq<Event>)
    ensures Grouped(events[..0], [], map[])
  {
    NoEventsYet(events);
  }

  /** Each list is one thread's events, sorted. */
  ghost predicate SortedThreads(events: seq<Event>, tids: seq<int>, threads: seq<seq<Event>>) {
    && |threads| <= |tids|
    && forall i :: 0 <= i < |threads| ==>
         Ordered(threads[i]) && multiset(threads[i]) == multiset(OfThread(events, tids[i]))
             && Stable(threads[i], OfThread(events, tids[i]))
  }

  /** The main loop: group by thread, sort each thread, sweep it into the shared counters. */
  method Attribute(events: seq<Event>) returns (tids: seq<int>, threads: seq<seq<Event>>, c: Counters)
    ensures Distinct(tids) && forall e :: e in events ==> e.tid in tids
    ensures |threads| == |tids| && SortedThreads(events, tids, threads)
    ensures c == ChargeAll(threads, |threads|)
  {
    hide Ordered, Stable, ChargeAll, Charges, OfThread, Distinct;
    var byTid;
    tids, byTid := GroupByThread(events);
    threads, c := [], Counters(map[], map[]);
    NothingCharged();
    for n := 0 to |tids|
      invariant |threads| == n && SortedThreads(events, tids, threads)
      invariant c == ChargeAll(threads, n)
    {
      var tid := tids[n];
      assert tid in tids;
      var lst := Sort(byTid[tid]);
      c := ChargeThread(lst, c);
      ChargeOneMore(threads, lst);
      threads := threads + [lst];
    }
  }

  lemma NothingCharged()
    ensures ChargeAll([], 0) == Counters(map[], map[])
  {
  }
}
