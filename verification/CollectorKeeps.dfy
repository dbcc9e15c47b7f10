/** On every script, whatever follows its WITH lists, the collector misses no CTE name that it can reach. */
module CollectorKeeps {
  import opened Prelude
  import opened SqlTokens
  import opened Scanner
  import opened SqlTree
  import opened Binding
  import opened CollectAgreement
  import opened Qualification

  /** From this state the collector records all atoms that `Recorded` names, and maybe others. */
  ghost predicate Keeps(c: Collector, l: List<Atom>)
    decreases l
  {
    l.Cons? ==> (Recorded(l.head.role) ==> Collects(c, l.head.tok)) && Keeps(CollectStep(c, l.head.tok), l.tail)
  }

  /** So it does from every mode at this depth. */
  ghost predicate KeepsAll(depth: nat, l: List<Atom>) {
    forall mode: Mode :: Keeps(Collector(depth, mode), l)
  }

  /** `loose`: nothing is known of the mode, because a WITH was printed. */
  ghost predicate Sure(c: Collector, loose: bool, l: List<Atom>) {
    if loose then KeepsAll(c.depth, l) else Keeps(c, l)
  }

  /** A mode that no word changes, or one that does not matter. */
  ghost predicate Calm(c: Collector, loose: bool) {
    loose || Quiet(c)
  }

  lemma {:induction false} Weaken(c: Collector, loose: bool, l: List<Atom>)
    requires KeepsAll(c.depth, l)
    ensures Sure(c, loose, l)
  {
    assert c == Collector(c.depth, c.mode);
  }

  // ---- tokens -----------------------------------------------------------------------------------

  predicate Level(t: Token) {
    !t.LParen? && !t.RParen? && !IsKeyword(t, WITH)
  }

  lemma {:induction false} TokenKeep(c: Collector, loose: bool, t: Token, role: Role, k: List<Atom>)
    requires Level(t) && !Recorded(role) && Calm(c, loose) && Sure(c, loose, k)
    ensures Sure(c, loose, Cons(Atom(t, role), k))
  {
    if loose {
      forall mode: Mode ensures Keeps(Collector(c.depth, mode), Cons(Atom(t, role), k)) {
        var next := CollectStep(Collector(c.depth, mode), t);
        assert next == Collector(c.depth, next.mode);
      }
    }
  }

  lemma {:induction false} OpenKeep(c: Collector, loose: bool, k: List<Atom>)
    requires Sure(Deeper(c), loose, k)
    ensures Sure(c, loose, S(LParen, k))
  {
    if loose {
      forall mode: Mode ensures Keeps(Collector(c.depth, mode), S(LParen, k)) {
        assert Keeps(Collector(c.depth + 1, mode), k);
      }
    }
  }

  lemma {:induction false} CloseKeep(c: Collector, loose: bool, k: List<Atom>)
    requires Sure(c, loose, k)
    ensures Sure(Deeper(c), loose, S(RParen, k))
  {
    if loose {
      var depth := Deeper(c).depth;
      forall mode: Mode ensures Keeps(Collector(depth, mode), S(RParen, k)) {
        assert Keeps(Collector(c.depth, mode), k);
      }
    }
  }

  lemma {:induction false} KeywordKeep(c: Collector, loose: bool, kw: Keyword, k: List<Atom>)
    requires kw != WITH && Calm(c, loose) && Sure(c, loose, k)
    ensures Sure(c, loose, K(kw, k))
  {
    hide Sure;
    TokenKeep(c, loose, Word(Spelling(kw), false, kw), Syntax, k);
  }

  // ---- lists of words ---------------------------------------------------------------------------

  lemma {:induction false} MoreKeep(ids: List<Ident>, c: Collector, loose: bool, k: List<Atom>)
    requires Calm(c, loose) && Sure(c, loose, k)
    ensures Sure(c, loose, PrintMore(ids, k))
  {
    hide Sure, Calm;
    if ids.Cons? {
      MoreKeep(ids.tail, c, loose, k);
      TokenKeep(c, loose, ids.head.Tok(), Syntax, PrintMore(ids.tail, k));
      TokenKeep(c, loose, Comma, Syntax, S(ids.head.Tok(), PrintMore(ids.tail, k)));
    }
  }

  lemma {:induction false} ColsKeep(cols: List<Ident>, c: Collector, loose: bool, k: List<Atom>)
    requires Calm(Deeper(c), loose) && Sure(c, loose, k)
    ensures Sure(c, loose, PrintCols(cols, k))
  {
    hide Sure, Calm;
    if cols.Cons? {
      CloseKeep(c, loose, k);
      MoreKeep(cols.tail, Deeper(c), loose, S(RParen, k));
      TokenKeep(Deeper(c), loose, cols.head.Tok(), Syntax, PrintMore(cols.tail, S(RParen, k)));
      OpenKeep(c, loose, S(cols.head.Tok(), PrintMore(cols.tail, S(RParen, k))));
    }
  }

  lemma {:induction false} PathKeep(path: List<Ident>, c: Collector, loose: bool, k: List<Atom>)
    requires Calm(c, loose) && Sure(c, loose, k)
    ensures Sure(c, loose, PrintPath(path, k))
  {
    hide Sure, Calm;
    if path.Cons? {
      PathKeep(path.tail, c, loose, k);
      TokenKeep(c, loose, path.head.Tok(), Syntax, PrintPath(path.tail, k));
      TokenKeep(c, loose, Period, Syntax, S(path.head.Tok(), PrintPath(path.tail, k)));
    }
  }

  lemma {:induction false} TargetKeep(name: Ident, path: List<Ident>, slot: Slot, env: set<string>, c: Collector,
                                      loose: bool, k: List<Atom>)
    requires Calm(c, loose) && Sure(c, loose, k)
    ensures Sure(c, loose, PrintTarget(name, path, slot, env, k))
  {
    hide Sure, Calm;
    PathKeep(path, c, loose, k);
    TokenKeep(c, loose, name.Tok(), if path.Nil? then TableName(slot, name.value in env) else Syntax,
              PrintPath(path, k));
  }

  lemma {:induction false} AliasKeep(a: Alias, c: Collector, loose: bool, k: List<Atom>)
    requires Calm(c, loose) && Sure(c, loose, k)
    ensures Sure(c, loose, PrintAlias(a, k))
  {
    hide Sure;
    if a.Alias? {
      ColsKeep(a.cols, c, loose, k);
      TokenKeep(c, loose, a.name.Tok(), Syntax, PrintCols(a.cols, k));
      KeywordKeep(c, loose, AS, S(a.name.Tok(), PrintCols(a.cols, k)));
    }
  }

  lemma {:induction false} WordsKeep(words: List<string>, c: Collector, loose: bool, k: List<Atom>)
    requires Calm(c, loose) && Sure(c, loose, k)
    ensures Sure(c, loose, PrintWords(words, k))
  {
    hide Sure, Calm;
    if words.Cons? {
      WordsKeep(words.tail, c, loose, k);
      TokenKeep(c, loose, Word(words.head, false, Plain), Syntax, PrintWords(words.tail, k));
    }
  }

  // ---- the tree ---------------------------------------------------------------------------------

  lemma {:induction false} ExprKeep(e: Expr, place: Place, prev: Token, env: set<string>, c: Collector, loose: bool,
                                    k: List<Atom>)
    requires ExprOk(e, place, false) && (ExprHasWith(e) ==> loose) && Calm(c, loose) && Sure(c, loose, k)
    ensures Sure(c, loose, PrintExpr(e, prev, env, k))
    decreases e, 0
  {
    hide Sure;
    match e
    case Done =>
    case Tok(t, rest) =>
      ExprKeep(rest, place, t, env, c, loose, k);
      TokenKeep(c, loose, t, Syntax, PrintExpr(rest, t, env, k));
    case Parens(inner, rest) =>
      ExprKeep(rest, place, RParen, env, c, loose, k);
      GroupKeep(inner, InClause, env, c, loose, PrintExpr(rest, RParen, env, k));
    case Call(fn, args, rest) =>
      var tail := PrintExpr(rest, RParen, env, k);
      ExprKeep(rest, place, RParen, env, c, loose, k);
      GroupKeep(args, InCall, env, c, loose, tail);
      TokenKeep(c, loose, fn.Tok(), Syntax, S(LParen, PrintExpr(args, LParen, env, S(RParen, tail))));
    case Sub(q, rest) =>
      ExprKeep(rest, place, RParen, env, c, loose, k);
      SubqueryKeep(q, !BeforeQuery(prev), env, c, loose, PrintExpr(rest, RParen, env, k));
  }

  lemma {:induction false} GroupKeep(e: Expr, place: Place, env: set<string>, c: Collector, loose: bool, k: List<Atom>)
    requires ExprOk(e, place, false) && (ExprHasWith(e) ==> loose) && Calm(Deeper(c), loose) && Sure(c, loose, k)
    ensures Sure(c, loose, S(LParen, PrintExpr(e, LParen, env, S(RParen, k))))
    decreases e, 1
  {
    hide Sure, Calm;
    CloseKeep(c, loose, k);
    ExprKeep(e, place, LParen, env, Deeper(c), loose, S(RParen, k));
    OpenKeep(c, loose, PrintExpr(e, LParen, env, S(RParen, k)));
  }

  lemma {:induction false} SubqueryKeep(q: Query, muted: bool, env: set<string>, c: Collector, loose: bool,
                                        k: List<Atom>)
    requires QueryOk(q, false) && (QueryHasWith(q) ==> loose) && Calm(Deeper(c), loose) && Sure(c, loose, k)
    ensures Sure(c, loose, S(LParen, PrintQuery(q, muted, false, env, S(RParen, k))))
    decreases q, 1
  {
    hide Sure, Calm;
    CloseKeep(c, loose, k);
    QueryKeep(q, muted, false, env, Deeper(c), loose, S(RParen, k));
    OpenKeep(c, loose, PrintQuery(q, muted, false, env, S(RParen, k)));
  }

  lemma {:induction false} FactorKeep(f: Factor, slot: Slot, env: set<string>, c: Collector, loose: bool, k: List<Atom>)
    requires FactorOk(f, false) && (FactorHasWith(f) ==> loose) && Calm(c, loose) && Sure(c, loose, k)
    ensures Sure(c, loose, PrintFactor(f, slot, env, k))
    decreases f
  {
    hide Sure;
    var tail := PrintAlias(f.alias, k);
    AliasKeep(f.alias, c, loose, k);
    match f
    case Base(only, name, path, alias) =>
      TargetKeep(name, path, slot, env, c, loose, tail);
      KeywordKeep(c, loose, ONLY, PrintTarget(name, path, slot, env, tail));
    case Literal(text, alias) =>
      TokenKeep(c, loose, Other(text), Syntax, tail);
    case Func(name, args, alias) =>
      GroupKeep(args, InCall, env, c, loose, tail);
      TokenKeep(c, loose, name.Tok(), FunctionName(slot), S(LParen, PrintExpr(args, LParen, env, S(RParen, tail))));
    case Derived(lateral, q, alias) =>
      SubqueryKeep(q, false, env, c, loose, tail);
      KeywordKeep(c, loose, LATERAL, S(LParen, PrintQuery(q, false, false, env, S(RParen, tail))));
    case Joined(first, links, alias) =>
      var rest := PrintLinks(links, Leading, env, S(RParen, tail));
      CloseKeep(c, loose, tail);
      LinksKeep(links, Leading, env, Deeper(c), loose, S(RParen, tail));
      FactorKeep(first, Leading, env, Deeper(c), loose, rest);
      OpenKeep(c, loose, PrintFactor(first, Leading, env, rest));
  }

  lemma {:induction false} CondKeep(cond: Cond, env: set<string>, c: Collector, loose: bool, k: List<Atom>)
    requires cond.OnCond? ==> ExprOk(cond.e, InFrom, false) && (ExprHasWith(cond.e) ==> loose)
    requires Calm(c, loose) && Sure(c, loose, k)
    ensures Sure(c, loose, PrintCond(cond, env, k))
    decreases cond
  {
    hide Sure;
    match cond
    case NoCond =>
    case OnCond(e) =>
      ExprKeep(e, InFrom, Word("on", false, ON), env, c, loose, k);
      KeywordKeep(c, loose, ON, PrintExpr(e, Word("on", false, ON), env, k));
    case UsingCols(first, more) =>
      ColsKeep(Cons(first, more), c, loose, k);
      KeywordKeep(c, loose, USING, PrintCols(Cons(first, more), k));
  }

  lemma {:induction false} LinksKeep(l: Links, slot: Slot, env: set<string>, c: Collector, loose: bool, k: List<Atom>)
    requires LinksOk(l, false) && (LinksHaveWith(l) ==> loose) && Calm(c, loose) && Sure(c, loose, k)
    ensures Sure(c, loose, PrintLinks(l, slot, env, k))
    decreases l
  {
    hide Sure, Calm;
    match l
    case NoLinks =>
    case CommaLink(f, rest) =>
      var tail := PrintLinks(rest, slot, env, k);
      LinksKeep(rest, slot, env, c, loose, k);
      FactorKeep(f, slot, env, c, loose, tail);
      TokenKeep(c, loose, Comma, Syntax, PrintFactor(f, slot, env, tail));
    case JoinLink(kinds, f, cond, rest) =>
      var next := AfterJoin(slot);
      var tail := PrintLinks(rest, next, env, k);
      LinksKeep(rest, next, env, c, loose, k);
      CondKeep(cond, env, c, loose, tail);
      FactorKeep(f, next, env, c, loose, PrintCond(cond, env, tail));
      KeywordKeep(c, loose, JOIN, PrintFactor(f, next, env, PrintCond(cond, env, tail)));
      WordsKeep(kinds, c, loose, K(JOIN, PrintFactor(f, next, env, PrintCond(cond, env, tail))));
  }

  lemma {:induction false} ClausesKeep(cl: Clauses, env: set<string>, c: Collector, loose: bool, k: List<Atom>)
    requires ClausesOk(cl, false) && (ClausesHaveWith(cl) ==> loose) && Calm(c, loose) && Sure(c, loose, k)
    ensures Sure(c, loose, PrintClauses(cl, env, k))
    decreases cl
  {
    hide Sure, Calm;
    if cl.Clause? {
      var kw := Word(Spelling(cl.kw), false, cl.kw);
      var tail := PrintClauses(cl.rest, env, k);
      ClausesKeep(cl.rest, env, c, loose, k);
      ExprKeep(cl.e, InClause, kw, env, c, loose, tail);
      KeywordKeep(c, loose, cl.kw, PrintExpr(cl.e, kw, env, tail));
    }
  }

  lemma {:induction false} BodyKeep(b: Body, muted: bool, called: bool, env: set<string>, c: Collector, loose: bool,
                                    k: List<Atom>)
    requires BodyOk(b, false) && (BodyHasWith(b) ==> loose) && Calm(c, loose) && Sure(c, loose, k)
    ensures Sure(c, loose, PrintBody(b, muted, called, env, k))
    decreases b, 1
  {
    hide Sure, ExprOk, ClausesOk, QueryOk, PrintExpr, PrintClauses, PrintQuery;
    var select := Word("select", false, SELECT);
    match b
    case Select(items, clauses) =>
      ClausesKeep(clauses, env, c, loose, k);
      ExprKeep(items, InClause, select, env, c, loose, PrintClauses(clauses, env, k));
      KeywordKeep(c, loose, SELECT, PrintExpr(items, select, env, PrintClauses(clauses, env, k)));
    case SelectFrom(_, _, _, _) =>
      SelectFromKeep(b, muted, called, env, c, loose, k);
    case Values(rows) =>
      ExprKeep(rows, InClause, Word("values", false, VALUES), env, c, loose, k);
      KeywordKeep(c, loose, VALUES, PrintExpr(rows, Word("values", false, VALUES), env, k));
    case SetOp(left, op, quantifier, right) =>
      var body := PrintBody(right, muted, false, env, k);
      BodyKeep(right, muted, false, env, c, loose, k);
      OperandKeep(op, quantifier, c, loose, body);
      BodyKeep(left, muted, called, env, c, loose, K(op, PrintQuantifier(quantifier, body)));
    case Wrapped(q) =>
      SubqueryKeep(q, called, env, c, loose, k);
  }

  lemma {:induction false} OperandKeep(op: SetKeyword, quantifier: Quantifier, c: Collector, loose: bool,
                                       k: List<Atom>)
    requires Calm(c, loose) && Sure(c, loose, k)
    ensures Sure(c, loose, K(op, PrintQuantifier(quantifier, k)))
  {
    hide Sure, Calm;
    KeywordKeep(c, loose, ALL, k);
    KeywordKeep(c, loose, DISTINCT, k);
    KeywordKeep(c, loose, op, PrintQuantifier(quantifier, k));
  }

  lemma {:induction false} SelectFromKeep(b: Body, muted: bool, called: bool, env: set<string>, c: Collector,
                                          loose: bool, k: List<Atom>)
    requires b.SelectFrom? && BodyOk(b, false) && (BodyHasWith(b) ==> loose) && Calm(c, loose) && Sure(c, loose, k)
    ensures Sure(c, loose, PrintBody(b, muted, called, env, k))
    decreases b, 0
  {
    hide Sure, Calm, ExprOk, FactorOk, LinksOk, ClausesOk;
    var slot := if muted then Muted else Offered;
    var select := Word("select", false, SELECT);
    var after := PrintClauses(b.clauses, env, k);
    var links := PrintLinks(b.links, slot, env, after);
    var list := PrintFactor(b.first, slot, env, links);
    ClausesKeep(b.clauses, env, c, loose, k);
    LinksKeep(b.links, slot, env, c, loose, after);
    FactorKeep(b.first, slot, env, c, loose, links);
    KeywordKeep(c, loose, FROM, list);
    ExprKeep(b.items, InClause, select, env, c, loose, K(FROM, list));
    KeywordKeep(c, loose, SELECT, PrintExpr(b.items, select, env, K(FROM, list)));
  }

  /** A list whose names are still reached is read in `ExpectName`. */
  lemma {:induction false} CtesKeep(ctes: Ctes, reached: bool, recursive: bool, env: set<string>, c: Collector,
                                    k: List<Atom>)
    requires ctes.Cte? && CtesOk(ctes, false) && KeepsAll(c.depth, k)
    requires reached ==> c.mode == ExpectName(c.depth)
    ensures Sure(c, !reached, PrintCtes(ctes, reached, recursive, env, k))
    decreases ctes
  {
    hide Sure, KeepsAll, PrintQuery, QueryOk, QueryHasWith;
    var inner := env + {ctes.name.value};
    var scope := if recursive then inner else env;
    var later := reached && !QueryHasWith(ctes.q);
    var more := PrintCtes(ctes.rest, later, recursive, inner, k);
    var after := if ctes.rest.NoCtes? then k else S(Comma, more);
    var named := c.(mode := InList(c.depth));
    if ctes.rest.Cte? {
      CtesKeep(ctes.rest, later, recursive, inner, c, k);
      NextCteKeep(named, c, later, more);
    } else {
      Weaken(named, !later, k);
    }
    SubqueryKeep(ctes.q, false, scope, named, !later, after);
    var body := S(LParen, PrintQuery(ctes.q, false, false, scope, S(RParen, after)));
    AsKeep(named, !later, body);
    ColsKeep(ctes.cols, named, !later, K(AS, body));
    CteNameKeep(c, named, ctes.name, reached, !later, PrintCols(ctes.cols, K(AS, body)));
  }

  lemma {:induction false} NextCteKeep(named: Collector, c: Collector, later: bool, k: List<Atom>)
    requires named == c.(mode := InList(c.depth)) && (later ==> c.mode == ExpectName(c.depth))
    requires Sure(c, !later, k)
    ensures Sure(named, !later, S(Comma, k))
  {
    if !later {
      TokenKeep(named, true, Comma, Syntax, k);
    }
  }

  lemma {:induction false} AsKeep(c: Collector, loose: bool, k: List<Atom>)
    requires c.mode == InList(c.depth) && Sure(c, loose, k)
    ensures Sure(c, loose, K(AS, k))
  {
    if loose {
      KeywordKeep(c, true, AS, k);
    }
  }

  lemma {:induction false} CteNameKeep(c: Collector, named: Collector, name: Ident, reached: bool, loose: bool,
                                       k: List<Atom>)
    requires named == c.(mode := InList(c.depth)) && (reached ==> c.mode == ExpectName(c.depth))
    requires Sure(named, loose, k) && (!reached ==> loose)
    ensures Sure(c, !reached, Cons(Atom(name.Tok(), CteName(reached)), k))
  {
    if !reached {
      TokenKeep(c, true, name.Tok(), CteName(false), k);
    } else if loose {
      Weaken(named, false, k);
    }
  }

  /** A WITH starts a list whatever the mode was. */
  lemma {:induction false} WithKeep(c: Collector, recursive: bool, k: List<Atom>)
    requires Sure(c.(mode := ExpectName(c.depth)), recursive, k)
    ensures KeepsAll(c.depth,
              K(WITH, if recursive then Cons(Atom(Word("recursive", false, Plain), RecursiveWord), k) else k))
  {
    var list := if recursive then Cons(Atom(Word("recursive", false, Plain), RecursiveWord), k) else k;
    assert Keeps(Collector(c.depth, ExpectName(c.depth)), list) by {
      if recursive {
        assert Keeps(Collector(c.depth, InList(c.depth)), k);
      }
    }
  }

  lemma {:induction false} QueryKeep(q: Query, muted: bool, called: bool, env: set<string>, c: Collector, loose: bool,
                                     k: List<Atom>)
    requires QueryOk(q, false) && (QueryHasWith(q) ==> loose) && Calm(c, loose) && Sure(c, loose, k)
    ensures Sure(c, loose, PrintQuery(q, muted, called, env, k))
    decreases q, 0
  {
    if q.ctes.NoCtes? {
      hide Sure, Calm;
      ClausesKeep(q.tail, env, c, loose, k);
      BodyKeep(q.body, muted, called, env, c, loose, PrintClauses(q.tail, env, k));
    } else {
      hide KeepsAll;
      var inner := env + ListNames(q.ctes);
      var after := PrintClauses(q.tail, inner, k);
      var main := PrintBody(q.body, muted, false, inner, after);
      var start := c.(mode := ExpectName(c.depth));
      ClausesKeep(q.tail, inner, c, true, k);
      BodyKeep(q.body, muted, false, inner, c, true, after);
      CtesKeep(q.ctes, !q.recursive, q.recursive, env, start, main);
      WithKeep(c, q.recursive, PrintCtes(q.ctes, !q.recursive, q.recursive, env, main));
    }
  }

  lemma {:induction false} TableKeep(verb: string, name: Ident, path: List<Ident>, k: List<Atom>)
    requires Sure(START, true, k)
    ensures var target := PrintTarget(name, path, Offered, {}, k);
            && Sure(START, true, W(verb, K(TABLE, target)))
            && Sure(START, true, W(verb, K(TABLE, K(IF, K(EXISTS, target)))))
            && Sure(START, true, W(verb, K(TABLE, K(IF, K(NOT, K(EXISTS, target))))))
  {
    hide Sure;
    var target := PrintTarget(name, path, Offered, {}, k);
    TargetKeep(name, path, Offered, {}, START, true, k);
    KeywordKeep(START, true, EXISTS, target);
    KeywordKeep(START, true, NOT, K(EXISTS, target));
    KeywordKeep(START, true, IF, K(EXISTS, target));
    KeywordKeep(START, true, IF, K(NOT, K(EXISTS, target)));
    TableWordKeep(verb, target);
    TableWordKeep(verb, K(IF, K(EXISTS, target)));
    TableWordKeep(verb, K(IF, K(NOT, K(EXISTS, target))));
  }

  lemma {:induction false} TableWordKeep(verb: string, k: List<Atom>)
    requires Sure(START, true, k)
    ensures Sure(START, true, W(verb, K(TABLE, k)))
  {
    hide Sure;
    KeywordKeep(START, true, TABLE, k);
    TokenKeep(START, true, Word(verb, false, Plain), Syntax, K(TABLE, k));
  }

  lemma {:induction false} StatementKeep(s: Statement, k: List<Atom>)
    requires StatementOk(s, false) && Sure(START, true, k)
    ensures Sure(START, true, PrintStatement(s, k))
  {
    hide Sure, PrintQuery, QueryOk, PrintTarget;
    var c := START;
    match s
    case Ask(q) =>
      QueryKeep(q, false, false, {}, c, true, k);
    case Insert(name, path, cols, q) =>
      var source := PrintQuery(q, false, cols.Nil?, {}, k);
      var target := PrintTarget(name, path, Offered, {}, PrintCols(cols, source));
      QueryKeep(q, false, cols.Nil?, {}, c, true, k);
      ColsKeep(cols, c, true, source);
      TargetKeep(name, path, Offered, {}, c, true, PrintCols(cols, source));
      KeywordKeep(c, true, INTO, target);
      TokenKeep(c, true, Word("insert", false, Plain), Syntax, K(INTO, target));
    case Delete(name, path, clauses) =>
      var tail := PrintClauses(clauses, {}, k);
      ClausesKeep(clauses, {}, c, true, k);
      TargetKeep(name, path, Offered, {}, c, true, tail);
      KeywordKeep(c, true, FROM, PrintTarget(name, path, Offered, {}, tail));
      TokenKeep(c, true, Word("delete", false, Plain), Syntax, K(FROM, PrintTarget(name, path, Offered, {}, tail)));
    case Update(name, path, clauses) =>
      ClausesKeep(clauses, {}, c, true, k);
      TargetKeep(name, path, Offered, {}, c, true, PrintClauses(clauses, {}, k));
      KeywordKeep(c, true, UPDATE, PrintTarget(name, path, Offered, {}, PrintClauses(clauses, {}, k)));
    case Drop(ifExists, name, path) =>
      TableKeep("drop", name, path, k);
    case CreateAs(ifNotExists, name, path, q) =>
      var source := PrintQuery(q, false, false, {}, k);
      QueryKeep(q, false, false, {}, c, true, k);
      KeywordKeep(c, true, AS, source);
      TableKeep("create", name, path, K(AS, source));
  }

  lemma {:induction false} ScriptKeep(s: Script)
    requires ScriptOk(s, false)
    ensures Sure(START, true, PrintScript(s))
    decreases s
  {
    if s.Then? {
      ScriptKeep(s.rest);
      TokenKeep(START, true, SemiColon, Syntax, PrintScript(s.rest));
      StatementKeep(s.s, S(SemiColon, PrintScript(s.rest)));
    } else {
      StatementKeep(s.s, Nil);
    }
  }

  lemma {:induction false} KeptNames(c: Collector, l: List<Atom>)
    requires Keeps(c, l)
    ensures RecordedNames(l) <= CteNames(c, Toks(l))
    decreases l
  {
    if l.Cons? {
      KeptNames(CollectStep(c, l.head.tok), l.tail);
    }
  }

  /** Every CTE name the tree marks as reached is among the names the scanner works with. */
  lemma {:induction false} NoNameIsMissed(s: Script)
    requires ScriptOk(s, false)
    ensures RecordedNames(PrintScript(s)) <= CteNames(START, Toks(PrintScript(s)))
  {
    hide PrintScript, ScriptOk;
    ScriptKeep(s);
    Weaken(START, false, PrintScript(s));
    KeptNames(START, PrintScript(s));
  }

  // ---- the everyday fragment ----------------------------------------------------------------------

  /** No reference that the scanner should qualify has the name of something collected. */
  predicate NoneIsHidden(l: List<Atom>, tables: set<string>, collected: set<string>) {
    l.Cons? ==> (Wants(l.head, tables) ==> l.head.tok.value !in collected) && NoneIsHidden(l.tail, tables, collected)
  }

  lemma {:induction false} EverydayFaithful(l: List<Atom>, names: Names, ctes: set<string>, seen: set<string>)
    requires Everyday(l, names.tables, ctes) && Grounded(l, seen)
    requires forall name :: name in names.tables && name in ctes ==> name in names.ctes
    requires seen + AllCteNames(l) <= ctes
    ensures Faithful(l, names) <==> NoneIsHidden(l, names.tables, names.ctes)
    decreases l
  {
    if l.Cons? {
      var more := if l.head.role.CteName? && l.head.tok.Word? then seen + {l.head.tok.value} else seen;
      EverydayFaithful(l.tail, names, ctes, more);
    }
  }

  lemma {:induction false} NotHidden(l: List<Atom>, tables: set<string>, ctes: set<string>, collected: set<string>)
    requires Everyday(l, tables, ctes) && forall name :: name in tables && name in collected ==> name in ctes
    ensures NoneIsHidden(l, tables, collected)
  {
    if l.Cons? { NotHidden(l.tail, tables, ctes, collected); }
  }

  /** On the everyday fragment the scanner is right if and only if it collects no name of a table it should
      qualify. It collects none where every WITH list is followed by SELECT or VALUES. */
  lemma {:induction false} EverydayAgreement(s: Script, tables: set<string>)
    requires ScriptOk(s, false)
    requires var l := PrintScript(s); Everyday(l, tables, AllCteNames(l))
    ensures var l := PrintScript(s);
            ScanMarks(Toks(l), tables) == Wanted(l, tables) <==> NoneIsHidden(l, tables, CteNames(START, Toks(l)))
    ensures var l := PrintScript(s); ScriptOk(s, true) ==> ScanMarks(Toks(l), tables) == Wanted(l, tables)
  {
    hide PrintScript, ScriptOk, CteNames, ScanMarks, Wanted, Faithful, NoneIsHidden, Everyday;
    var l := PrintScript(s);
    var names, ctes := NamesFor(s, tables), AllCteNames(l);
    NoNameIsMissed(s);
    forall name | name in tables ensures name in RecordedNames(l) <==> name in ctes {
      EverydayNames(l, tables, ctes, name);
    }
    ScriptIsGrounded(s);
    assert Grounded(l, {});
    EverydayFaithful(l, names, ctes, {});
    ScannerAgreesWithTree(s, false, tables);
    if ScriptOk(s, true) {
      CollectorOnScript(s);
      NotHidden(l, tables, ctes, names.ctes);
    }
  }
}
