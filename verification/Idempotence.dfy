/** Qualifying an already qualified token list changes nothing. */
module Idempotence {
  import opened Prelude
  import opened SqlTokens
  import opened Scanner
  import opened SqlTree

  /** The namespace as tokens: identifiers, each followed by a period. */
  function Prefix(path: List<Ident>, k: List<Token>): List<Token> {
    match path
    case Nil => k
    case Cons(id, rest) => Cons(id.Tok(), Cons(Period, Prefix(rest, k)))
  }

  /** The tokens with the namespace inserted before every token the scanner marks. */
  function Rewrite(st: Stack, prev: Option<Token>, ts: List<Token>, names: Names, path: List<Ident>): List<Token>
    decreases ts
  {
    match ts
    case Nil => Nil
    case Cons(t, rest) =>
      var o := Step(st, prev, t, Head(rest), names);
      var tail := Cons(t, Rewrite(o.stack, Some(t), rest, names, path));
      if o.qualifies then Prefix(path, tail) else tail
  }

  function QualifyTokens(ts: List<Token>, tables: set<string>, path: List<Ident>): List<Token> {
    Rewrite(Bottom(FRESH), None, ts, Names(tables, CteNames(START, ts)), path)
  }

  /** The tokens with the namespace before the marked ones. */
  function Weave(ts: List<Token>, marks: seq<bool>, path: List<Ident>): List<Token> {
    match ts
    case Nil => Nil
    case Cons(t, rest) =>
      var tail := Cons(t, Weave(rest, if marks == [] then [] else marks[1..], path));
      if marks != [] && marks[0] then Prefix(path, tail) else tail
  }

  /** The rewriting inserts the namespace exactly at the marks of the scanner. */
  lemma {:induction false} RewriteFollowsMarks(st: Stack, prev: Option<Token>, ts: List<Token>, names: Names,
                                        path: List<Ident>)
    ensures Rewrite(st, prev, ts, names, path) == Weave(ts, Marks(st, prev, ts, names), path)
    decreases ts
  {
    if ts.Cons? {
      var o := Step(st, prev, ts.head, Head(ts.tail), names);
      RewriteFollowsMarks(o.stack, Some(ts.head), ts.tail, names, path);
      assert Marks(st, prev, ts, names)[1..] == Marks(o.stack, Some(ts.head), ts.tail, names);
    }
  }

  /** The tokenizer's keyword AS is spelled that way. */
  predicate Lexed(ts: List<Token>) {
    ts.Cons? ==> (ts.head.Word? && ts.head.kw == AS ==> ts.head.value == "as") && Lexed(ts.tail)
  }

  /** An argument list never expects a table. */
  ghost predicate CallsIdle(st: Stack) {
    && (st.top.functionArgs ==> !st.top.expectTable && !st.top.fromActive)
    && (st.Push? ==> CallsIdle(st.below))
  }

  lemma StepKeepsCallsIdle(st: Stack, prev: Option<Token>, t: Token, next: Option<Token>, names: Names)
    requires CallsIdle(st)
    ensures CallsIdle(Step(st, prev, t, next, names).stack)
  {
  }

  lemma {:induction false} PrefixCollects(path: List<Ident>, c: Collector, k: List<Token>)
    requires path.Cons? && c.mode != ExpectName(c.depth)
    ensures CteNames(c, Prefix(path, k)) == CteNames(if c.mode == InList(c.depth) then c.(mode := Off) else c, k)
  {
    var c' := if c.mode == InList(c.depth) then c.(mode := Off) else c;
    var rest := Prefix(path.tail, k);
    assert CollectStep(c, path.head.Tok()) == c';
    assert CteNames(c, Prefix(path, k)) == CteNames(c', Cons(Period, rest)) == CteNames(c', rest);
    if path.tail.Cons? {
      PrefixCollects(path.tail, c', k);
    }
  }

  /** What marks a token: it fills a table slot, and neither keyword nor period handles it. */
  lemma MarkedToken(st: Stack, prev: Option<Token>, t: Token, next: Option<Token>, names: Names)
    requires Step(st, prev, t, next, names).qualifies && CallsIdle(st)
    ensures t.Word? && t.value in names.tables && t.value !in names.ctes && !IsKeyword(t, WITH)
    ensures st.top.expectTable && Step(st, prev, t, next, names).stack == st.(top := st.top.(expectTable := false))
  {
  }

  /** Behind an inserted namespace the same token is passed over. */
  lemma MarkedTokenAgain(st: Stack, prev: Option<Token>, t: Token, next: Option<Token>, later: Option<Token>,
                         names: Names)
    requires Step(st, prev, t, next, names).qualifies
    ensures var done := st.(top := st.top.(expectTable := false));
            Step(done, Some(Period), t, later, names) == Outcome(done, false)
  {
  }

  /** A namespace in front of a marked token leaves the collector where the token alone does. */
  lemma {:induction false} PrefixedName(c: Collector, t: Token, rest: List<Token>, out: List<Token>, names: Names,
                                        path: List<Ident>)
    requires t.Word? && t.value !in names.ctes && !IsKeyword(t, WITH) && t.kw != AS && path.Cons?
    requires CteNames(c, Cons(t, rest)) <= names.ctes
            && CteNames(CollectStep(c, t), out) == CteNames(CollectStep(c, t), rest)
    ensures CteNames(c, Prefix(path, Cons(t, out))) == CteNames(c, Cons(t, rest))
  {
    assert !Collects(c, t);
    PrefixCollects(path, c, Cons(t, out));
  }

  /** The collector reads the same names before and after qualification. */
  lemma {:induction false} SameNames(st: Stack, prev: Option<Token>, c: Collector, ts: List<Token>, names: Names,
                                     path: List<Ident>)
    requires CallsIdle(st) && Lexed(ts) && path.Cons? && "as" !in names.tables
    requires CteNames(c, ts) <= names.ctes
    ensures CteNames(c, Rewrite(st, prev, ts, names, path)) == CteNames(c, ts)
    decreases ts
  {
    hide Step, CollectStep, Collects, Prefix;
    if ts.Cons? {
      var t := ts.head;
      var o := Step(st, prev, t, Head(ts.tail), names);
      StepKeepsCallsIdle(st, prev, t, Head(ts.tail), names);
      var c1 := CollectStep(c, t);
      SameNames(o.stack, Some(t), c1, ts.tail, names, path);
      var tail := Rewrite(o.stack, Some(t), ts.tail, names, path);
      if o.qualifies {
        MarkedToken(st, prev, t, Head(ts.tail), names);
        assert t.kw != AS;
        PrefixedName(c, t, ts.tail, tail, names, path);
      }
    }
  }

  /** Scanning over an inserted namespace fills the table slot and marks nothing. */
  lemma {:induction false} PrefixIsQuiet(path: List<Ident>, st: Stack, prev: Option<Token>, k: List<Token>,
                                        names: Names, ns: List<Ident>)
    requires path.Cons?
    ensures Rewrite(st, prev, Prefix(path, k), names, ns)
            == Prefix(path, Rewrite(st.(top := st.top.(expectTable := false)), Some(Period), k, names, ns))
  {
    var id, rest := path.head.Tok(), Prefix(path.tail, k);
    var done := st.(top := st.top.(expectTable := false));
    assert Step(st, prev, id, Some(Period), names) == Outcome(done, false);
    assert Step(done, Some(id), Period, Head(rest), names) == Outcome(done, false);
    assert Rewrite(st, prev, Prefix(path, k), names, ns)
        == Cons(id, Rewrite(done, Some(id), Cons(Period, rest), names, ns))
        == Cons(id, Cons(Period, Rewrite(done, Some(Period), rest, names, ns)));
    if path.tail.Cons? {
      PrefixIsQuiet(path.tail, done, Some(Period), k, names, ns);
    }
  }

  /** The head of a rewritten list is a period exactly when the head of the list is. */
  lemma RewriteKeepsHead(st: Stack, prev: Option<Token>, ts: List<Token>, names: Names, path: List<Ident>)
    requires path.Cons? && CallsIdle(st)
    ensures IsPeriod(Head(Rewrite(st, prev, ts, names, path))) == IsPeriod(Head(ts))
  {
    if ts.Cons? && Step(st, prev, ts.head, Head(ts.tail), names).qualifies {
      MarkedToken(st, prev, ts.head, Head(ts.tail), names);
    }
  }

  lemma NextMattersAsPeriod(st: Stack, prev: Option<Token>, t: Token, n1: Option<Token>, n2: Option<Token>,
                            names: Names)
    requires IsPeriod(n1) == IsPeriod(n2)
    ensures Step(st, prev, t, n1, names) == Step(st, prev, t, n2, names)
  {
  }

  /** With the same CTE names, a second pass finds nothing to insert. */
  lemma {:induction false} RewriteTwice(st: Stack, prev: Option<Token>, ts: List<Token>, names: Names,
                                        path: List<Ident>)
    requires CallsIdle(st) && path.Cons?
    ensures var out := Rewrite(st, prev, ts, names, path); Rewrite(st, prev, out, names, path) == out
    decreases ts
  {
    if ts.Cons? {
      var t := ts.head;
      var o := Step(st, prev, t, Head(ts.tail), names);
      StepKeepsCallsIdle(st, prev, t, Head(ts.tail), names);
      RewriteTwice(o.stack, Some(t), ts.tail, names, path);
      RewriteKeepsHead(o.stack, Some(t), ts.tail, names, path);
      var tail := Rewrite(o.stack, Some(t), ts.tail, names, path);
      if o.qualifies {
        MarkedToken(st, prev, t, Head(ts.tail), names);
        MarkedTokenAgain(st, prev, t, Head(ts.tail), Head(tail), names);
        PrefixIsQuiet(path, st, prev, Cons(t, tail), names, path);
      } else {
        NextMattersAsPeriod(st, prev, t, Head(tail), Head(ts.tail), names);
      }
    }
  }

  /** Qualification is idempotent on every token list, for every namespace that is a path of
      identifiers, when no suite table is named `as`. */
  lemma QualifyIsIdempotent(ts: List<Token>, tables: set<string>, path: List<Ident>)
    requires Lexed(ts) && path.Cons? && "as" !in tables
    ensures var out := QualifyTokens(ts, tables, path); QualifyTokens(out, tables, path) == out
  {
    var names := Names(tables, CteNames(START, ts));
    SameNames(Bottom(FRESH), None, START, ts, names, path);
    RewriteTwice(Bottom(FRESH), None, ts, names, path);
  }
}
