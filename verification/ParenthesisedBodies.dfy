/** A WITH list followed by a parenthesised body: what the collector then takes for a CTE name. */
module ParenthesisedBodies {
  import opened Prelude
  import opened SqlTokens
  import opened Scanner
  import opened SqlTree
  import opened Misreadings

  /** `(1, n)` */
  function Pair(n: string): Expr {
    Parens(Tok(Other("1"), Tok(Comma, Tok(Word(n, false, Plain), Done))), Done)
  }

  /** `SELECT 1 FROM (WITH a AS (SELECT 1) (SELECT 1)), n WHERE (1, n)`: the parenthesised body leaves the
      collector inside the list, and a word of a later grouping is collected. */
  function ParenthesisedBody(n: string): Script {
    var q := With(false, n + "a", Constant(n), Wrapped(Constant(n)));
    Ask1(From(Derived(false, q, NoAlias), CommaLink(Table(n), NoLinks), Clause(WHERE, Pair(n), NoClauses)))
  }

  function PairAtoms(n: string): List<Atom> {
    K(WHERE, S(LParen, S(Other("1"), S(Comma, S(Word(n, false, Plain), S(RParen, Nil))))))
  }

  lemma {:induction false} PairPrints(n: string)
    ensures PrintClauses(Clause(WHERE, Pair(n), NoClauses), {}, Nil) == PairAtoms(n)
    ensures ClausesOk(Clause(WHERE, Pair(n), NoClauses), false)
  {
    var inner, end := Pair(n).inner, S(RParen, Nil);
    PairInside(n, end);
    hide PrintExpr, ExprOk, PrintClauses, ClausesOk;
    ParensPrint(inner, Word("where", false, WHERE));
    WherePrints(Pair(n));
  }

  /** `1, n` */
  lemma {:induction false} PairInside(n: string, end: List<Atom>)
    ensures PrintExpr(Pair(n).inner, LParen, {}, end) == S(Other("1"), S(Comma, S(Word(n, false, Plain), end)))
    ensures ExprOk(Pair(n).inner, InClause, false)
  {
    var word := Tok(Word(n, false, Plain), Done);
    assert PrintExpr(word, Comma, {}, end) == S(Word(n, false, Plain), end) && ExprOk(word, InClause, false);
    var list := Tok(Comma, word);
    assert PrintExpr(list, Other("1"), {}, end) == S(Comma, S(Word(n, false, Plain), end));
    assert ExprOk(list, InClause, false);
  }

  lemma {:induction false} ParensPrint(inner: Expr, prev: Token)
    requires ExprOk(inner, InClause, false)
    ensures PrintExpr(Parens(inner, Done), prev, {}, Nil) == S(LParen, PrintExpr(inner, LParen, {}, S(RParen, Nil)))
    ensures ExprOk(Parens(inner, Done), InClause, false)
  {
    assert PrintExpr(Done, RParen, {}, Nil) == Nil && ExprOk(Done, InClause, false);
  }

  lemma {:induction false} WherePrints(e: Expr)
    requires ExprOk(e, InClause, false)
    ensures PrintClauses(Clause(WHERE, e, NoClauses), {}, Nil)
            == K(WHERE, PrintExpr(e, Word("where", false, WHERE), {}, Nil))
    ensures ClausesOk(Clause(WHERE, e, NoClauses), false)
  {
    hide PrintExpr, ExprOk;
    assert PrintClauses(NoClauses, {}, Nil) == Nil && ClausesOk(NoClauses, false);
  }

  /** What follows the parenthesised body. */
  function AfterBody(n: string): List<Atom> {
    S(RParen, S(Comma, Cons(Named(n, TableName(Offered, false)), PairAtoms(n))))
  }

  function Bodied(n: string): List<Atom> {
    Listed(false, n + "a", Picks(n, S(RParen, S(LParen, Picks(n, S(RParen, AfterBody(n)))))))
  }

  lemma {:induction false} ParenthesisedBodyPrints(n: string)
    ensures PrintScript(ParenthesisedBody(n)) == One(K(FROM, S(LParen, Bodied(n))))
    ensures ScriptOk(ParenthesisedBody(n), false)
  {
    hide QueryOk, PrintQuery, PrintScript, ScriptOk, PrintFactor, PrintLinks, FactorOk, LinksOk, PrintClauses,
        ClausesOk;
    var body := Wrapped(Constant(n));
    var q := With(false, n + "a", Constant(n), body);
    var f, links, clauses := Derived(false, q, NoAlias), CommaLink(Table(n), NoLinks),
        Clause(WHERE, Pair(n), NoClauses);
    var env, after := {} + {n + "a"}, AfterBody(n);
    ConstantPrints(n, false, false, false, env, S(RParen, after));
    BodyPrints(Constant(n), env, after);
    hide PrintBody, BodyOk;
    ConstantPrints(n, false, false, false, {}, S(RParen, S(LParen, Picks(n, S(RParen, after)))));
    WithPrints(false, n + "a", Constant(n), body, false, false, false, {}, after);
    PairPrints(n);
    DerivedPrints(q, n, false, PairAtoms(n));
    FromPrints(f, links, clauses, false, false, false, {}, Nil);
    AskPrints(From(f, links, clauses), false);
  }

  lemma {:induction false} BodyPrints(q: Query, env: set<string>, k: List<Atom>)
    ensures PrintBody(Wrapped(q), false, false, env, k) == S(LParen, PrintQuery(q, false, false, env, S(RParen, k)))
    ensures BodyOk(Wrapped(q), false) <==> QueryOk(q, false)
  {
    hide PrintQuery, QueryOk;
  }

  /** The collector takes one more token. */
  lemma {:induction false} Walk(c: Collector, a: Atom, k: List<Atom>, n: string)
    requires n in CteNames(CollectStep(c, a.tok), Toks(k))
    ensures n in CteNames(c, Toks(Cons(a, k)))
  {
  }

  lemma {:induction false} WalkIn(c: Collector, k: List<Atom>, n: string)
    requires n in CteNames(c.(depth := c.depth + 1), Toks(k))
    ensures n in CteNames(c, Toks(S(LParen, k)))
  {
  }

  lemma {:induction false} WalkOut(c: Collector, k: List<Atom>, n: string)
    requires n in CteNames(c, Toks(k))
    ensures n in CteNames(c.(depth := c.depth + 1), Toks(S(RParen, k)))
  {
  }

  lemma {:induction false} WalkAs(c: Collector, k: List<Atom>, n: string)
    requires c.mode == InList(c.depth) && n in CteNames(c, Toks(k))
    ensures n in CteNames(c, Toks(K(AS, k)))
  {
  }

  lemma {:induction false} WalkComma(c: Collector, k: List<Atom>, n: string)
    requires c.mode == InList(c.depth) && n in CteNames(c.(mode := ExpectName(c.depth)), Toks(k))
    ensures n in CteNames(c, Toks(S(Comma, k)))
  {
  }

  /** Tokens the collector passes over. */
  lemma {:induction false} WalkPast(c: Collector, a: Atom, k: List<Atom>, n: string)
    requires a.tok.Other?
            || ((a.tok.Word? || a.tok.Comma?) && !IsKeyword(a.tok, WITH) && (c.mode.Off? || c.mode.level != c.depth))
    requires n in CteNames(c, Toks(k))
    ensures n in CteNames(c, Toks(Cons(a, k)))
  {
  }

  lemma {:induction false} WalkConstant(c: Collector, x: string, k: List<Atom>, n: string)
    requires c.mode.Off? || c.mode.level < c.depth
    requires n in CteNames(c, Toks(k))
    ensures n in CteNames(c, Toks(Picks(x, k)))
  {
    hide CteNames, Toks;
    WalkPast(c, Atom(Other(x), Syntax), k, n);
    WalkPast(c, Atom(Word("select", false, SELECT), Syntax), S(Other(x), k), n);
  }

  /** Left in the list of the level below, the collector takes the word behind the comma for a CTE name. */
  lemma {:induction false} PairLeaks(n: string)
    ensures n in CteNames(Collector(0, InList(1)), Toks(PairAtoms(n)))
  {
    var c := Collector(1, InList(1));
    var word, end := Atom(Word(n, false, Plain), Syntax), S(RParen, Nil);
    hide CteNames, Toks, CollectStep, Spelling;
    WordLeaks(n, end);
    WalkComma(c, Cons(word, end), n);
    WalkPast(c, Atom(Other("1"), Syntax), S(Comma, Cons(word, end)), n);
    WalkIn(Collector(0, InList(1)), S(Other("1"), S(Comma, Cons(word, end))), n);
    WalkPast(Collector(0, InList(1)), Atom(Word(Spelling(WHERE), false, WHERE), Syntax),
             S(LParen, S(Other("1"), S(Comma, Cons(word, end)))), n);
  }

  lemma {:induction false} WordLeaks(n: string, k: List<Atom>)
    ensures n in CteNames(Collector(1, ExpectName(1)), Toks(S(Word(n, false, Plain), k)))
  {
  }

  lemma {:induction false} AfterLeaks(n: string)
    ensures n in CteNames(Collector(1, InList(1)), Toks(AfterBody(n)))
  {
    var c := Collector(0, InList(1));
    var table := Cons(Named(n, TableName(Offered, false)), PairAtoms(n));
    PairLeaks(n);
    hide CteNames, Toks, PairAtoms, CollectStep, Spelling;
    WalkPast(c, Named(n, TableName(Offered, false)), PairAtoms(n), n);
    WalkPast(c, Atom(Comma, Syntax), table, n);
    WalkOut(c, S(Comma, table), n);
  }

  lemma {:induction false} BodyLeaks(n: string)
    ensures n in CteNames(Collector(1, InList(1)), Toks(S(LParen, Picks(n, S(RParen, AfterBody(n))))))
  {
    var c := Collector(1, InList(1));
    hide CteNames, Toks, AfterBody, CollectStep, Spelling;
    AfterLeaks(n);
    WalkOut(c, AfterBody(n), n);
    WalkConstant(Collector(2, InList(1)), n, S(RParen, AfterBody(n)), n);
    WalkIn(c, Picks(n, S(RParen, AfterBody(n))), n);
  }

  lemma {:induction false} CteLeaks(n: string)
    ensures var cte := Picks(n, S(RParen, S(LParen, Picks(n, S(RParen, AfterBody(n))))));
            n in CteNames(Collector(1, InList(1)), Toks(K(AS, S(LParen, cte))))
  {
    var c := Collector(1, InList(1));
    var body := S(LParen, Picks(n, S(RParen, AfterBody(n))));
    var cte := Picks(n, S(RParen, body));
    BodyLeaks(n);
    hide CteNames, Toks, AfterBody, CollectStep, Spelling;
    WalkOut(c, body, n);
    WalkConstant(Collector(2, InList(1)), n, S(RParen, body), n);
    WalkIn(c, cte, n);
    WalkAs(c, S(LParen, cte), n);
  }

  lemma {:induction false} ListLeaks(n: string)
    ensures n in CteNames(Collector(1, Off), Toks(Bodied(n)))
  {
    var cte := Picks(n, S(RParen, S(LParen, Picks(n, S(RParen, AfterBody(n))))));
    var name := Named(n + "a", CteName(true));
    CteLeaks(n);
    hide CteNames, Toks, AfterBody, Picks;
    Walk(Collector(1, ExpectName(1)), name, K(AS, S(LParen, cte)), n);
    Walk(Collector(1, Off), Atom(Word("with", false, WITH), Syntax), Cons(name, K(AS, S(LParen, cte))), n);
  }

  lemma {:induction false} ScriptLeaks(n: string)
    ensures n in CteNames(START, Toks(One(K(FROM, S(LParen, Bodied(n))))))
  {
    ListLeaks(n);
    hide CteNames, Toks, Bodied;
    WalkIn(START, Bodied(n), n);
    WalkPast(START, Atom(Word("from", false, FROM), Syntax), S(LParen, Bodied(n)), n);
    WalkConstant(START, "1", K(FROM, S(LParen, Bodied(n))), n);
  }

  lemma {:induction false} ParenthesisedBodyIsMisread(n: string)
    ensures Misread(ParenthesisedBody(n), {n})
  {
    var a, table := Named(n, TableName(Offered, false)), Cons(Named(n, TableName(Offered, false)), PairAtoms(n));
    var body := S(LParen, Picks(n, S(RParen, AfterBody(n))));
    hide Misread, PrintScript, ScriptOk, CteNames, Toks;
    ParenthesisedBodyPrints(n);
    ScriptLeaks(n);
    Later(Comma, table, a);
    Later(RParen, S(Comma, table), a);
    Later(RParen, AfterBody(n), a);
    LaterThanConstant(n, S(RParen, AfterBody(n)), a);
    Later(LParen, Picks(n, S(RParen, AfterBody(n))), a);
    Later(RParen, body, a);
    LaterThanConstant(n, S(RParen, body), a);
    LaterThanList(n + "a", Picks(n, S(RParen, body)), a);
    Later(LParen, Bodied(n), a);
    Later(Word("from", false, FROM), S(LParen, Bodied(n)), a);
    LaterThanConstant("1", K(FROM, S(LParen, Bodied(n))), a);
    MisreadAt(ParenthesisedBody(n), false, n, TableName(Offered, false));
  }

  lemma {:induction false} LaterThanList(m: string, inner: List<Atom>, a: Atom)
    requires Occurs(a, inner)
    ensures Occurs(a, Listed(false, m, inner))
  {
    Later(LParen, inner, a);
    Later(Word("as", false, AS), S(LParen, inner), a);
    var list := Cons(Named(m, CteName(true)), K(AS, S(LParen, inner)));
    assert Occurs(a, list);
    Later(Word("with", false, WITH), list, a);
  }
}
