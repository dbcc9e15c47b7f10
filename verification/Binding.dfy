/** The references a tree marks as bound are bound by a CTE printed before them. */
module Binding {
  import opened Prelude
  import opened SqlTokens
  import opened SqlTree

  /** Every bound reference of `l` has its name among `seen` or the CTE names before it. */
  ghost predicate Grounded(l: List<Atom>, seen: set<string>)
    decreases l
  {
    match l
    case Nil => true
    case Cons(a, rest) =>
      && (a.role.TableName? && a.role.bound ==> a.tok.Word? && a.tok.value in seen)
      && Grounded(rest, if a.role.CteName? && a.tok.Word? then seen + {a.tok.value} else seen)
  }

  ghost predicate Grows(k: List<Atom>, seen: set<string>) {
    forall more: set<string> :: seen <= more ==> Grounded(k, more)
  }

  lemma {:induction false} Plainly(t: Token, k: List<Atom>, seen: set<string>)
    requires Grows(k, seen)
    ensures Grows(S(t, k), seen)
  {
    forall more: set<string> | seen <= more ensures Grounded(S(t, k), more) { assert Grounded(k, more); }
  }

  lemma {:induction false} Reference(t: Token, role: Role, k: List<Atom>, seen: set<string>)
    requires t.Word? && Grows(k, seen) && (role.TableName? && role.bound ==> t.value in seen)
    ensures Grows(Cons(Atom(t, role), k), seen)
  {
    forall more: set<string> | seen <= more ensures Grounded(Cons(Atom(t, role), k), more) {
      assert Grounded(k, more) && Grounded(k, more + {t.value});
    }
  }

  lemma {:induction false} NamesCte(t: Token, reached: bool, k: List<Atom>, seen: set<string>)
    requires t.Word? && Grows(k, seen + {t.value})
    ensures Grows(Cons(Atom(t, CteName(reached)), k), seen)
  {
    forall more: set<string> | seen <= more ensures Grounded(Cons(Atom(t, CteName(reached)), k), more) {
      assert Grounded(k, more + {t.value});
    }
  }

  lemma {:induction false} WordsGrow(words: List<string>, k: List<Atom>, seen: set<string>)
    requires Grows(k, seen)
    ensures Grows(PrintWords(words, k), seen)
  {
    hide Grows;
    if words.Cons? {
      WordsGrow(words.tail, k, seen);
      Plainly(Word(words.head, false, Plain), PrintWords(words.tail, k), seen);
    }
  }

  lemma {:induction false} MoreGrow(ids: List<Ident>, k: List<Atom>, seen: set<string>)
    requires Grows(k, seen)
    ensures Grows(PrintMore(ids, k), seen)
  {
    hide Grows;
    if ids.Cons? {
      MoreGrow(ids.tail, k, seen);
      Plainly(ids.head.Tok(), PrintMore(ids.tail, k), seen);
      Plainly(Comma, S(ids.head.Tok(), PrintMore(ids.tail, k)), seen);
    }
  }

  lemma {:induction false} ColsGrow(cols: List<Ident>, k: List<Atom>, seen: set<string>)
    requires Grows(k, seen)
    ensures Grows(PrintCols(cols, k), seen)
  {
    hide Grows;
    if cols.Cons? {
      Plainly(RParen, k, seen);
      MoreGrow(cols.tail, S(RParen, k), seen);
      Plainly(cols.head.Tok(), PrintMore(cols.tail, S(RParen, k)), seen);
      Plainly(LParen, S(cols.head.Tok(), PrintMore(cols.tail, S(RParen, k))), seen);
    }
  }

  lemma {:induction false} PathGrows(path: List<Ident>, k: List<Atom>, seen: set<string>)
    requires Grows(k, seen)
    ensures Grows(PrintPath(path, k), seen)
  {
    hide Grows;
    if path.Cons? {
      PathGrows(path.tail, k, seen);
      Plainly(path.head.Tok(), PrintPath(path.tail, k), seen);
      Plainly(Period, S(path.head.Tok(), PrintPath(path.tail, k)), seen);
    }
  }

  lemma {:induction false} TargetGrows(name: Ident, path: List<Ident>, slot: Slot, env: set<string>, k: List<Atom>,
                                       seen: set<string>)
    requires env <= seen && Grows(k, seen)
    ensures Grows(PrintTarget(name, path, slot, env, k), seen)
  {
    hide Grows;
    PathGrows(path, k, seen);
    Reference(name.Tok(), TableName(slot, name.value in env), k, seen);
    Plainly(name.Tok(), PrintPath(path, k), seen);
  }

  lemma {:induction false} AliasGrows(a: Alias, k: List<Atom>, seen: set<string>)
    requires Grows(k, seen)
    ensures Grows(PrintAlias(a, k), seen)
  {
    hide Grows;
    if a.Alias? {
      ColsGrow(a.cols, k, seen);
      Plainly(a.name.Tok(), PrintCols(a.cols, k), seen);
      Plainly(Word("as", false, AS), S(a.name.Tok(), PrintCols(a.cols, k)), seen);
    }
  }

  lemma {:induction false} KeywordGrows(kw: Keyword, k: List<Atom>, seen: set<string>)
    requires Grows(k, seen)
    ensures Grows(K(kw, k), seen)
  {
    hide Grows;
    Plainly(Word(Spelling(kw), false, kw), k, seen);
  }

  lemma {:induction false} ExprGrows(e: Expr, prev: Token, env: set<string>, k: List<Atom>, seen: set<string>)
    requires env <= seen && Grows(k, seen)
    ensures Grows(PrintExpr(e, prev, env, k), seen)
    decreases e, 0
  {
    hide Grows;
    match e
    case Done =>
    case Tok(t, rest) =>
      ExprGrows(rest, t, env, k, seen);
      Plainly(t, PrintExpr(rest, t, env, k), seen);
    case Parens(inner, rest) =>
      ExprGrows(rest, RParen, env, k, seen);
      GroupGrows(inner, env, PrintExpr(rest, RParen, env, k), seen);
    case Call(fn, args, rest) =>
      var tail := PrintExpr(rest, RParen, env, k);
      ExprGrows(rest, RParen, env, k, seen);
      GroupGrows(args, env, tail, seen);
      Plainly(fn.Tok(), S(LParen, PrintExpr(args, LParen, env, S(RParen, tail))), seen);
    case Sub(q, rest) =>
      ExprGrows(rest, RParen, env, k, seen);
      SubqueryGrows(q, !BeforeQuery(prev), env, PrintExpr(rest, RParen, env, k), seen);
  }

  lemma {:induction false} GroupGrows(e: Expr, env: set<string>, k: List<Atom>, seen: set<string>)
    requires env <= seen && Grows(k, seen)
    ensures Grows(S(LParen, PrintExpr(e, LParen, env, S(RParen, k))), seen)
    decreases e, 1
  {
    hide Grows;
    Plainly(RParen, k, seen);
    ExprGrows(e, LParen, env, S(RParen, k), seen);
    Plainly(LParen, PrintExpr(e, LParen, env, S(RParen, k)), seen);
  }

  lemma {:induction false} SubqueryGrows(q: Query, muted: bool, env: set<string>, k: List<Atom>, seen: set<string>)
    requires env <= seen && Grows(k, seen)
    ensures Grows(S(LParen, PrintQuery(q, muted, false, env, S(RParen, k))), seen)
    decreases q, 1
  {
    hide Grows;
    Plainly(RParen, k, seen);
    QueryGrows(q, muted, false, env, S(RParen, k), seen);
    Plainly(LParen, PrintQuery(q, muted, false, env, S(RParen, k)), seen);
  }

  lemma {:induction false} FactorGrows(f: Factor, slot: Slot, env: set<string>, k: List<Atom>, seen: set<string>)
    requires env <= seen && Grows(k, seen)
    ensures Grows(PrintFactor(f, slot, env, k), seen)
    decreases f
  {
    hide Grows;
    var tail := PrintAlias(f.alias, k);
    AliasGrows(f.alias, k, seen);
    match f
    case Base(only, name, path, alias) =>
      TargetGrows(name, path, slot, env, tail, seen);
      KeywordGrows(ONLY, PrintTarget(name, path, slot, env, tail), seen);
    case Literal(text, alias) =>
      Plainly(Other(text), tail, seen);
    case Func(name, args, alias) =>
      GroupGrows(args, env, tail, seen);
      Reference(name.Tok(), FunctionName(slot), S(LParen, PrintExpr(args, LParen, env, S(RParen, tail))), seen);
    case Derived(lateral, q, alias) =>
      SubqueryGrows(q, false, env, tail, seen);
      KeywordGrows(LATERAL, S(LParen, PrintQuery(q, false, false, env, S(RParen, tail))), seen);
    case Joined(first, links, alias) =>
      var rest := PrintLinks(links, Leading, env, S(RParen, tail));
      Plainly(RParen, tail, seen);
      LinksGrow(links, Leading, env, S(RParen, tail), seen);
      FactorGrows(first, Leading, env, rest, seen);
      Plainly(LParen, PrintFactor(first, Leading, env, rest), seen);
  }

  lemma {:induction false} CondGrows(c: Cond, env: set<string>, k: List<Atom>, seen: set<string>)
    requires env <= seen && Grows(k, seen)
    ensures Grows(PrintCond(c, env, k), seen)
    decreases c
  {
    hide Grows;
    match c
    case NoCond =>
    case OnCond(e) =>
      ExprGrows(e, Word("on", false, ON), env, k, seen);
      KeywordGrows(ON, PrintExpr(e, Word("on", false, ON), env, k), seen);
    case UsingCols(first, more) =>
      ColsGrow(Cons(first, more), k, seen);
      KeywordGrows(USING, PrintCols(Cons(first, more), k), seen);
  }

  lemma {:induction false} LinksGrow(l: Links, slot: Slot, env: set<string>, k: List<Atom>, seen: set<string>)
    requires env <= seen && Grows(k, seen)
    ensures Grows(PrintLinks(l, slot, env, k), seen)
    decreases l
  {
    hide Grows;
    match l
    case NoLinks =>
    case CommaLink(f, rest) =>
      var tail := PrintLinks(rest, slot, env, k);
      LinksGrow(rest, slot, env, k, seen);
      FactorGrows(f, slot, env, tail, seen);
      Plainly(Comma, PrintFactor(f, slot, env, tail), seen);
    case JoinLink(kinds, f, cond, rest) =>
      var next := AfterJoin(slot);
      var tail := PrintCond(cond, env, PrintLinks(rest, next, env, k));
      LinksGrow(rest, next, env, k, seen);
      CondGrows(cond, env, PrintLinks(rest, next, env, k), seen);
      FactorGrows(f, next, env, tail, seen);
      KeywordGrows(JOIN, PrintFactor(f, next, env, tail), seen);
      WordsGrow(kinds, K(JOIN, PrintFactor(f, next, env, tail)), seen);
  }

  lemma {:induction false} ClausesGrow(c: Clauses, env: set<string>, k: List<Atom>, seen: set<string>)
    requires env <= seen && Grows(k, seen)
    ensures Grows(PrintClauses(c, env, k), seen)
    decreases c
  {
    hide Grows;
    if c.Clause? {
      var kw := Word(Spelling(c.kw), false, c.kw);
      ClausesGrow(c.rest, env, k, seen);
      ExprGrows(c.e, kw, env, PrintClauses(c.rest, env, k), seen);
      KeywordGrows(c.kw, PrintExpr(c.e, kw, env, PrintClauses(c.rest, env, k)), seen);
    }
  }

  lemma {:induction false} BodyGrows(b: Body, muted: bool, called: bool, env: set<string>, k: List<Atom>,
                                     seen: set<string>)
    requires env <= seen && Grows(k, seen)
    ensures Grows(PrintBody(b, muted, called, env, k), seen)
    decreases b
  {
    hide Grows;
    var select := Word("select", false, SELECT);
    match b
    case Select(items, clauses) =>
      ClausesGrow(clauses, env, k, seen);
      ExprGrows(items, select, env, PrintClauses(clauses, env, k), seen);
      KeywordGrows(SELECT, PrintExpr(items, select, env, PrintClauses(clauses, env, k)), seen);
    case SelectFrom(items, first, links, clauses) =>
      var slot := if muted then Muted else Offered;
      var after := PrintLinks(links, slot, env, PrintClauses(clauses, env, k));
      var list := K(FROM, PrintFactor(first, slot, env, after));
      ClausesGrow(clauses, env, k, seen);
      LinksGrow(links, slot, env, PrintClauses(clauses, env, k), seen);
      FactorGrows(first, slot, env, after, seen);
      KeywordGrows(FROM, PrintFactor(first, slot, env, after), seen);
      ExprGrows(items, select, env, list, seen);
      KeywordGrows(SELECT, PrintExpr(items, select, env, list), seen);
    case Values(rows) =>
      ExprGrows(rows, Word("values", false, VALUES), env, k, seen);
      KeywordGrows(VALUES, PrintExpr(rows, Word("values", false, VALUES), env, k), seen);
    case SetOp(left, op, quantifier, right) =>
      var operand := PrintBody(right, muted, false, env, k);
      BodyGrows(right, muted, false, env, k, seen);
      KeywordGrows(ALL, operand, seen);
      KeywordGrows(DISTINCT, operand, seen);
      KeywordGrows(op, PrintQuantifier(quantifier, operand), seen);
      BodyGrows(left, muted, called, env, K(op, PrintQuantifier(quantifier, operand)), seen);
    case Wrapped(q) =>
      SubqueryGrows(q, called, env, k, seen);
  }

  lemma {:induction false} CtesGrow(c: Ctes, reached: bool, recursive: bool, env: set<string>, k: List<Atom>,
                                    seen: set<string>)
    requires env <= seen && Grows(k, seen + ListNames(c))
    ensures Grows(PrintCtes(c, reached, recursive, env, k), seen)
    decreases c
  {
    hide Grows, PrintQuery;
    if c.NoCtes? {
      assert seen + ListNames(c) == seen;
    } else {
      var later, now := env + {c.name.value}, seen + {c.name.value};
      var more := PrintCtes(c.rest, reached && !QueryHasWith(c.q), recursive, later, k);
      var after := if c.rest.NoCtes? then k else S(Comma, more);
      assert now + ListNames(c.rest) == seen + ListNames(c);
      CtesGrow(c.rest, reached && !QueryHasWith(c.q), recursive, later, k, now);
      Plainly(Comma, more, now);
      assert Grows(after, now);
      var scope := if recursive then later else env;
      var body := S(LParen, PrintQuery(c.q, false, false, scope, S(RParen, after)));
      SubqueryGrows(c.q, false, scope, after, now);
      KeywordGrows(AS, body, now);
      ColsGrow(c.cols, K(AS, body), now);
      NamesCte(c.name.Tok(), reached, PrintCols(c.cols, K(AS, body)), seen);
    }
  }

  lemma {:induction false} QueryGrows(q: Query, muted: bool, called: bool, env: set<string>, k: List<Atom>,
                                      seen: set<string>)
    requires env <= seen && Grows(k, seen)
    ensures Grows(PrintQuery(q, muted, called, env, k), seen)
    decreases q, 0
  {
    hide Grows;
    if q.ctes.NoCtes? {
      ClausesGrow(q.tail, env, k, seen);
      BodyGrows(q.body, muted, called, env, PrintClauses(q.tail, env, k), seen);
    } else {
      var inner, now := env + ListNames(q.ctes), seen + ListNames(q.ctes);
      var main := PrintBody(q.body, muted, false, inner, PrintClauses(q.tail, inner, k));
      var list := PrintCtes(q.ctes, !q.recursive, q.recursive, env, main);
      MoreIsSeen(k, seen, now);
      ClausesGrow(q.tail, inner, k, now);
      BodyGrows(q.body, muted, false, inner, PrintClauses(q.tail, inner, k), now);
      CtesGrow(q.ctes, !q.recursive, q.recursive, env, main, seen);
      Reference(Word("recursive", false, Plain), RecursiveWord, list, seen);
      KeywordGrows(WITH, list, seen);
      KeywordGrows(WITH, Cons(Atom(Word("recursive", false, Plain), RecursiveWord), list), seen);
    }
  }

  lemma {:induction false} MoreIsSeen(k: List<Atom>, seen: set<string>, more: set<string>)
    requires seen <= more && Grows(k, seen)
    ensures Grows(k, more)
  {
  }

  lemma {:induction false} StatementGrows(s: Statement, k: List<Atom>)
    requires Grows(k, {})
    ensures Grows(PrintStatement(s, k), {})
  {
    hide Grows, PrintQuery, PrintTarget;
    match s
    case Ask(q) =>
      QueryGrows(q, false, false, {}, k, {});
    case Insert(name, path, cols, q) =>
      var source := PrintQuery(q, false, cols.Nil?, {}, k);
      QueryGrows(q, false, cols.Nil?, {}, k, {});
      ColsGrow(cols, source, {});
      IntroducedGrows("insert", INTO, name, path, PrintCols(cols, source));
    case Delete(name, path, clauses) =>
      ClausesGrow(clauses, {}, k, {});
      IntroducedGrows("delete", FROM, name, path, PrintClauses(clauses, {}, k));
    case Update(name, path, clauses) =>
      ClausesGrow(clauses, {}, k, {});
      TargetGrows(name, path, Offered, {}, PrintClauses(clauses, {}, k), {});
      KeywordGrows(UPDATE, PrintTarget(name, path, Offered, {}, PrintClauses(clauses, {}, k)), {});
    case Drop(ifExists, name, path) =>
      TableGrows("drop", name, path, k);
    case CreateAs(ifNotExists, name, path, q) =>
      QueryGrows(q, false, false, {}, k, {});
      KeywordGrows(AS, PrintQuery(q, false, false, {}, k), {});
      TableGrows("create", name, path, K(AS, PrintQuery(q, false, false, {}, k)));
  }

  lemma {:induction false} IntroducedGrows(verb: string, kw: Keyword, name: Ident, path: List<Ident>, k: List<Atom>)
    requires Grows(k, {})
    ensures Grows(W(verb, K(kw, PrintTarget(name, path, Offered, {}, k))), {})
  {
    hide Grows, PrintTarget;
    TargetGrows(name, path, Offered, {}, k, {});
    KeywordGrows(kw, PrintTarget(name, path, Offered, {}, k), {});
    Plainly(Word(verb, false, Plain), K(kw, PrintTarget(name, path, Offered, {}, k)), {});
  }

  lemma {:induction false} TableGrows(verb: string, name: Ident, path: List<Ident>, k: List<Atom>)
    requires Grows(k, {})
    ensures var target := PrintTarget(name, path, Offered, {}, k);
            && Grows(W(verb, K(TABLE, target)), {})
            && Grows(W(verb, K(TABLE, K(IF, K(EXISTS, target)))), {})
            && Grows(W(verb, K(TABLE, K(IF, K(NOT, K(EXISTS, target))))), {})
  {
    hide Grows, PrintTarget;
    var target := PrintTarget(name, path, Offered, {}, k);
    TargetGrows(name, path, Offered, {}, k, {});
    KeywordGrows(EXISTS, target, {});
    KeywordGrows(NOT, K(EXISTS, target), {});
    KeywordGrows(IF, K(EXISTS, target), {});
    KeywordGrows(IF, K(NOT, K(EXISTS, target)), {});
    TableWordGrows(verb, target);
    TableWordGrows(verb, K(IF, K(EXISTS, target)));
    TableWordGrows(verb, K(IF, K(NOT, K(EXISTS, target))));
  }

  lemma {:induction false} TableWordGrows(verb: string, k: List<Atom>)
    requires Grows(k, {})
    ensures Grows(W(verb, K(TABLE, k)), {})
  {
    hide Grows;
    KeywordGrows(TABLE, k, {});
    Plainly(Word(verb, false, Plain), K(TABLE, k), {});
  }

  /** In every script each reference marked as bound follows a CTE of its name. */
  lemma {:induction false} ScriptIsGrounded(s: Script)
    ensures Grows(PrintScript(s), {})
    decreases s
  {
    if s.Then? {
      ScriptIsGrounded(s.rest);
      Plainly(SemiColon, PrintScript(s.rest), {});
      StatementGrows(s.s, S(SemiColon, PrintScript(s.rest)));
    } else {
      StatementGrows(s.s, Nil);
    }
  }
}
