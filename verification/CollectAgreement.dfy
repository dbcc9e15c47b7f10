/** What the CTE-name collector does on the tokens of a syntax tree. */
module CollectAgreement {
  import opened Prelude
  import opened SqlTokens
  import opened Scanner
  import opened SqlTree

  /** The collector records this atom's value. */
  predicate Recorded(role: Role) {
    role == CteName(true) || role == RecursiveWord
  }

  /** From this state the collector records exactly the atoms that `Recorded` names. */
  ghost predicate Gathers(c: Collector, l: List<Atom>)
    decreases l
  {
    match l
    case Nil => true
    case Cons(a, rest) => Collects(c, a.tok) == Recorded(a.role) && Gathers(CollectStep(c, a.tok), rest)
  }

  /** No WITH list is being read at this depth. */
  ghost predicate Quiet(c: Collector) {
    c.mode.Off? || c.mode.level < c.depth
  }

  /** A phrase that prints a WITH leaves the collector off; any other leaves it alone. */
  ghost function After(c: Collector, hasWith: bool): Collector {
    if hasWith then c.(mode := Off) else c
  }

  ghost function Deeper(c: Collector): Collector {
    c.(depth := c.depth + 1)
  }

  lemma {:induction false} WordGather(c: Collector, t: Token, role: Role, k: List<Atom>)
    requires t.Word? && !IsKeyword(t, WITH) && !Recorded(role) && Quiet(c) && Gathers(c, k)
    ensures Gathers(c, Cons(Atom(t, role), k))
  {
  }

  lemma {:induction false} PunctuationGather(c: Collector, t: Token, k: List<Atom>)
    requires (t.Comma? && Quiet(c)) || t.Period? || t.Other? || t.SemiColon?
    requires Gathers(c, k)
    ensures Gathers(c, S(t, k))
  {
  }

  lemma {:induction false} CloseGather(c: Collector, k: List<Atom>)
    requires Gathers(c, k)
    ensures Gathers(Deeper(c), S(RParen, k))
  {
  }

  lemma {:induction false} OpenGather(c: Collector, k: List<Atom>)
    requires Gathers(Deeper(c), k)
    ensures Gathers(c, S(LParen, k))
  {
  }

  lemma {:induction false} MoreGather(ids: List<Ident>, c: Collector, k: List<Atom>)
    requires Quiet(c) && Gathers(c, k)
    ensures Gathers(c, PrintMore(ids, k))
  {
    if ids.Cons? {
      MoreGather(ids.tail, c, k);
      WordGather(c, ids.head.Tok(), Syntax, PrintMore(ids.tail, k));
      PunctuationGather(c, Comma, S(ids.head.Tok(), PrintMore(ids.tail, k)));
    }
  }

  lemma {:induction false} ColsGather(cols: List<Ident>, c: Collector, k: List<Atom>)
    requires Quiet(Deeper(c)) && Gathers(c, k)
    ensures Gathers(c, PrintCols(cols, k))
  {
    hide Gathers;
    if cols.Cons? {
      CloseGather(c, k);
      MoreGather(cols.tail, Deeper(c), S(RParen, k));
      WordGather(Deeper(c), cols.head.Tok(), Syntax, PrintMore(cols.tail, S(RParen, k)));
      OpenGather(c, S(cols.head.Tok(), PrintMore(cols.tail, S(RParen, k))));
    }
  }

  lemma {:induction false} PathGather(path: List<Ident>, c: Collector, k: List<Atom>)
    requires Quiet(c) && Gathers(c, k)
    ensures Gathers(c, PrintPath(path, k))
  {
    if path.Cons? {
      PathGather(path.tail, c, k);
      WordGather(c, path.head.Tok(), Syntax, PrintPath(path.tail, k));
      PunctuationGather(c, Period, S(path.head.Tok(), PrintPath(path.tail, k)));
    }
  }

  lemma {:induction false} TargetGather(name: Ident, path: List<Ident>, slot: Slot, env: set<string>, c: Collector,
                                        k: List<Atom>)
    requires Quiet(c) && Gathers(c, k)
    ensures Gathers(c, PrintTarget(name, path, slot, env, k))
  {
    hide Gathers;
    PathGather(path, c, k);
    WordGather(c, name.Tok(), if path.Nil? then TableName(slot, name.value in env) else Syntax, PrintPath(path, k));
  }

  lemma {:induction false} AliasGather(a: Alias, c: Collector, k: List<Atom>)
    requires Quiet(c) && Gathers(c, k)
    ensures Gathers(c, PrintAlias(a, k))
  {
    hide Gathers;
    if a.Alias? {
      ColsGather(a.cols, c, k);
      WordGather(c, a.name.Tok(), Syntax, PrintCols(a.cols, k));
      WordGather(c, Word("as", false, AS), Syntax, S(a.name.Tok(), PrintCols(a.cols, k)));
    }
  }

  lemma {:induction false} WordsGather(words: List<string>, c: Collector, k: List<Atom>)
    requires Quiet(c) && Gathers(c, k)
    ensures Gathers(c, PrintWords(words, k))
  {
    if words.Cons? {
      WordsGather(words.tail, c, k);
      WordGather(c, Word(words.head, false, Plain), Syntax, PrintWords(words.tail, k));
    }
  }

  lemma {:induction false} KeywordGather(c: Collector, kw: Keyword, k: List<Atom>)
    requires kw != WITH && Quiet(c) && Gathers(c, k)
    ensures Gathers(c, K(kw, k))
  {
  }

  lemma {:induction false} ExprGather(e: Expr, place: Place, prev: Token, env: set<string>, c: Collector, k: List<Atom>)
    requires ExprOk(e, place, true) && Quiet(c) && Gathers(After(c, ExprHasWith(e)), k)
    ensures Gathers(c, PrintExpr(e, prev, env, k))
    decreases e, 0
  {
    hide Gathers;
    match e
    case Done =>
    case Tok(t, rest) =>
      ExprGather(rest, place, t, env, c, k);
      TokGather(c, t, place, PrintExpr(rest, t, env, k));
    case Parens(inner, rest) =>
      ExprGather(rest, place, RParen, env, After(c, ExprHasWith(inner)), k);
      GroupGather(inner, InClause, env, c, PrintExpr(rest, RParen, env, k));
    case Call(fn, args, rest) =>
      var tail := PrintExpr(rest, RParen, env, k);
      ExprGather(rest, place, RParen, env, After(c, ExprHasWith(args)), k);
      GroupGather(args, InCall, env, c, tail);
      WordGather(c, fn.Tok(), Syntax, S(LParen, PrintExpr(args, LParen, env, S(RParen, tail))));
    case Sub(q, rest) =>
      ExprGather(rest, place, RParen, env, After(c, QueryHasWith(q)), k);
      SubqueryGather(q, !BeforeQuery(prev), env, c, PrintExpr(rest, RParen, env, k));
  }

  lemma {:induction false} TokGather(c: Collector, t: Token, place: Place, k: List<Atom>)
    requires TokOk(t, place) && Quiet(c) && Gathers(c, k)
    ensures Gathers(c, S(t, k))
  {
  }

  lemma {:induction false} GroupGather(e: Expr, place: Place, env: set<string>, c: Collector, k: List<Atom>)
    requires ExprOk(e, place, true) && Quiet(Deeper(c)) && Gathers(After(c, ExprHasWith(e)), k)
    ensures Gathers(c, S(LParen, PrintExpr(e, LParen, env, S(RParen, k))))
    decreases e, 1
  {
    hide Gathers;
    CloseGather(After(c, ExprHasWith(e)), k);
    ExprGather(e, place, LParen, env, Deeper(c), S(RParen, k));
    OpenGather(c, PrintExpr(e, LParen, env, S(RParen, k)));
  }

  lemma {:induction false} SubqueryGather(q: Query, muted: bool, env: set<string>, c: Collector, k: List<Atom>)
    requires QueryOk(q, true) && Quiet(Deeper(c)) && Gathers(After(c, QueryHasWith(q)), k)
    ensures Gathers(c, S(LParen, PrintQuery(q, muted, false, env, S(RParen, k))))
    decreases q, 1
  {
    hide Gathers;
    CloseGather(After(c, QueryHasWith(q)), k);
    QueryGather(q, muted, false, env, Deeper(c), S(RParen, k));
    OpenGather(c, PrintQuery(q, muted, false, env, S(RParen, k)));
  }

  lemma {:induction false} FactorGather(f: Factor, slot: Slot, env: set<string>, c: Collector, k: List<Atom>)
    requires FactorOk(f, true) && Quiet(c) && Gathers(After(c, FactorHasWith(f)), k)
    ensures Gathers(c, PrintFactor(f, slot, env, k))
    decreases f
  {
    hide Gathers;
    var tail := PrintAlias(f.alias, k);
    AliasGather(f.alias, After(c, FactorHasWith(f)), k);
    match f
    case Base(only, name, path, alias) =>
      TargetGather(name, path, slot, env, c, tail);
      KeywordGather(c, ONLY, PrintTarget(name, path, slot, env, tail));
    case Literal(text, alias) =>
      PunctuationGather(c, Other(text), tail);
    case Func(name, args, alias) =>
      GroupGather(args, InCall, env, c, tail);
      WordGather(c, name.Tok(), FunctionName(slot), S(LParen, PrintExpr(args, LParen, env, S(RParen, tail))));
    case Derived(lateral, q, alias) =>
      SubqueryGather(q, false, env, c, tail);
      KeywordGather(c, LATERAL, S(LParen, PrintQuery(q, false, false, env, S(RParen, tail))));
    case Joined(first, links, alias) =>
      var rest := PrintLinks(links, Leading, env, S(RParen, tail));
      CloseGather(After(c, FactorHasWith(f)), tail);
      LinksGather(links, Leading, env, After(Deeper(c), FactorHasWith(first)), S(RParen, tail));
      FactorGather(first, Leading, env, Deeper(c), rest);
      OpenGather(c, PrintFactor(first, Leading, env, rest));
  }

  lemma {:induction false} CondGather(cond: Cond, env: set<string>, c: Collector, k: List<Atom>)
    requires cond.OnCond? ==> ExprOk(cond.e, InFrom, true)
    requires Quiet(c) && Gathers(After(c, cond.OnCond? && ExprHasWith(cond.e)), k)
    ensures Gathers(c, PrintCond(cond, env, k))
    decreases cond
  {
    hide Gathers;
    match cond
    case NoCond =>
    case OnCond(e) =>
      ExprGather(e, InFrom, Word("on", false, ON), env, c, k);
      KeywordGather(c, ON, PrintExpr(e, Word("on", false, ON), env, k));
    case UsingCols(first, more) =>
      ColsGather(Cons(first, more), c, k);
      KeywordGather(c, USING, PrintCols(Cons(first, more), k));
  }

  lemma {:induction false} LinksGather(l: Links, slot: Slot, env: set<string>, c: Collector, k: List<Atom>)
    requires LinksOk(l, true) && Quiet(c) && Gathers(After(c, LinksHaveWith(l)), k)
    ensures Gathers(c, PrintLinks(l, slot, env, k))
    decreases l
  {
    hide Gathers;
    match l
    case NoLinks =>
    case CommaLink(f, rest) =>
      var tail := PrintLinks(rest, slot, env, k);
      LinksGather(rest, slot, env, After(c, FactorHasWith(f)), k);
      FactorGather(f, slot, env, c, tail);
      PunctuationGather(c, Comma, PrintFactor(f, slot, env, tail));
    case JoinLink(kinds, f, cond, rest) =>
      var next := AfterJoin(slot);
      var tail := PrintLinks(rest, next, env, k);
      var c1 := After(c, FactorHasWith(f));
      LinksGather(rest, next, env, After(c1, cond.OnCond? && ExprHasWith(cond.e)), k);
      CondGather(cond, env, c1, tail);
      FactorGather(f, next, env, c, PrintCond(cond, env, tail));
      KeywordGather(c, JOIN, PrintFactor(f, next, env, PrintCond(cond, env, tail)));
      WordsGather(kinds, c, K(JOIN, PrintFactor(f, next, env, PrintCond(cond, env, tail))));
  }

  lemma {:induction false} ClausesGather(cl: Clauses, env: set<string>, c: Collector, k: List<Atom>)
    requires ClausesOk(cl, true) && Quiet(c) && Gathers(After(c, ClausesHaveWith(cl)), k)
    ensures Gathers(c, PrintClauses(cl, env, k))
    decreases cl
  {
    hide Gathers;
    if cl.Clause? {
      var kw := Word(Spelling(cl.kw), false, cl.kw);
      var tail := PrintClauses(cl.rest, env, k);
      ClausesGather(cl.rest, env, After(c, ExprHasWith(cl.e)), k);
      ExprGather(cl.e, InClause, kw, env, c, tail);
      KeywordGather(c, cl.kw, PrintExpr(cl.e, kw, env, tail));
    }
  }

  /** The SELECT or VALUES that follows a WITH list ends the list. */
  lemma {:induction false} FirstWordGather(c: Collector, kw: Keyword, k: List<Atom>)
    requires kw != WITH && kw != AS && (Quiet(c) || c.mode == InList(c.depth))
    requires Gathers(After(c, !Quiet(c)), k)
    ensures Gathers(c, K(kw, k))
  {
  }

  lemma {:induction false} BodyGather(b: Body, muted: bool, called: bool, env: set<string>, c: Collector, k: List<Atom>)
    requires BodyOk(b, true) && (Quiet(c) || (Unwrapped(b) && c.mode == InList(c.depth)))
    requires Gathers(After(c, !Quiet(c) || BodyHasWith(b)), k)
    ensures Gathers(c, PrintBody(b, muted, called, env, k))
    decreases b, 1
  {
    hide Gathers;
    var c0 := After(c, !Quiet(c));
    match b
    case Select(items, clauses) =>
      var select := Word("select", false, SELECT);
      ClausesGather(clauses, env, After(c0, ExprHasWith(items)), k);
      ExprGather(items, InClause, select, env, c0, PrintClauses(clauses, env, k));
      FirstWordGather(c, SELECT, PrintExpr(items, select, env, PrintClauses(clauses, env, k)));
    case SelectFrom(items, first, links, clauses) =>
      SelectFromGather(b, muted, called, env, c, k);
    case Values(rows) =>
      ExprGather(rows, InClause, Word("values", false, VALUES), env, c0, k);
      FirstWordGather(c, VALUES, PrintExpr(rows, Word("values", false, VALUES), env, k));
    case SetOp(left, op, quantifier, right) =>
      OperandGather(op, quantifier, right, muted, env, After(c, !Quiet(c) || BodyHasWith(left)), k);
      BodyGather(left, muted, called, env, c,
          K(op, PrintQuantifier(quantifier, PrintBody(right, muted, false, env, k))));
    case Wrapped(q) =>
      SubqueryGather(q, called, env, c, k);
  }

  lemma {:induction false} SelectFromGather(b: Body, muted: bool, called: bool, env: set<string>, c: Collector,
                                        k: List<Atom>)
    requires b.SelectFrom? && BodyOk(b, true) && (Quiet(c) || c.mode == InList(c.depth))
    requires Gathers(After(c, !Quiet(c) || BodyHasWith(b)), k)
    ensures Gathers(c, PrintBody(b, muted, called, env, k))
    decreases b, 0
  {
    hide Gathers, ExprOk, FactorOk, LinksOk, ClausesOk;
    var slot := if muted then Muted else Offered;
    var select := Word("select", false, SELECT);
    var c0 := After(c, !Quiet(c));
    var c1 := After(c0, ExprHasWith(b.items));
    var c2 := After(c1, FactorHasWith(b.first));
    var after := PrintClauses(b.clauses, env, k);
    var links := PrintLinks(b.links, slot, env, after);
    ClausesGather(b.clauses, env, After(c2, LinksHaveWith(b.links)), k);
    LinksGather(b.links, slot, env, c2, after);
    FactorGather(b.first, slot, env, c1, links);
    var list := PrintFactor(b.first, slot, env, links);
    KeywordGather(c1, FROM, list);
    ExprGather(b.items, InClause, select, env, c0, K(FROM, list));
    FirstWordGather(c, SELECT, PrintExpr(b.items, select, env, K(FROM, list)));
  }

  lemma {:induction false} OperandGather(op: SetKeyword, quantifier: Quantifier, right: Body, muted: bool,
                                        env: set<string>,
                                         c: Collector, k: List<Atom>)
    requires BodyOk(right, true) && Quiet(c) && Gathers(After(c, BodyHasWith(right)), k)
    ensures Gathers(c, K(op, PrintQuantifier(quantifier, PrintBody(right, muted, false, env, k))))
    decreases right, 2
  {
    hide Gathers;
    var body := PrintBody(right, muted, false, env, k);
    BodyGather(right, muted, false, env, c, k);
    KeywordGather(c, ALL, body);
    KeywordGather(c, DISTINCT, body);
    KeywordGather(c, op, PrintQuantifier(quantifier, body));
  }

  /** A list whose names are still reached is read in `ExpectName`; any other records nothing. */
  lemma {:induction false} CtesGather(ctes: Ctes, reached: bool, recursive: bool, env: set<string>, c: Collector,
                                      k: List<Atom>)
    requires ctes.Cte? && CtesOk(ctes, true)
    requires if reached then c.mode == ExpectName(c.depth) else c.mode.Off? || c.mode == InList(c.depth)
    requires Gathers(c.(mode := Off), k) && Gathers(c.(mode := InList(c.depth)), k)
    ensures Gathers(c, PrintCtes(ctes, reached, recursive, env, k))
    decreases ctes
  {
    hide Gathers, PrintQuery, QueryOk, QueryHasWith;
    var named := c.(mode := if reached then InList(c.depth) else Off);
    var inner := env + {ctes.name.value};
    var later := reached && !QueryHasWith(ctes.q);
    var left := After(named, QueryHasWith(ctes.q));
    var more := PrintCtes(ctes.rest, later, recursive, inner, k);
    var after := if ctes.rest.NoCtes? then k else S(Comma, more);
    if ctes.rest.Cte? {
      CtesGather(ctes.rest, later, recursive, inner, if later then c.(mode := ExpectName(c.depth)) else left, k);
      NextCteGather(left, later, more);
    }
    var scope := if recursive then inner else env;
    SubqueryGather(ctes.q, false, scope, named, after);
    var body := S(LParen, PrintQuery(ctes.q, false, false, scope, S(RParen, after)));
    AsGather(named, body);
    ColsGather(ctes.cols, named, K(AS, body));
    CteNameGather(c, ctes.name, reached, PrintCols(ctes.cols, K(AS, body)));
  }

  lemma {:induction false} NextCteGather(c: Collector, later: bool, k: List<Atom>)
    requires if later then c.mode == InList(c.depth) else c.mode.Off?
    requires Gathers(if later then c.(mode := ExpectName(c.depth)) else c, k)
    ensures Gathers(c, S(Comma, k))
  {
  }

  lemma {:induction false} AsGather(c: Collector, k: List<Atom>)
    requires c.mode.Off? || c.mode == InList(c.depth)
    requires Gathers(c, k)
    ensures Gathers(c, K(AS, k))
  {
  }

  lemma {:induction false} CteNameGather(c: Collector, name: Ident, reached: bool, k: List<Atom>)
    requires if reached then c.mode == ExpectName(c.depth) else c.mode.Off? || c.mode == InList(c.depth)
    requires Gathers(c.(mode := if reached then InList(c.depth) else Off), k)
    ensures Gathers(c, Cons(Atom(name.Tok(), CteName(reached)), k))
  {
  }

  lemma {:induction false} WithGather(c: Collector, recursive: bool, k: List<Atom>)
    requires Gathers(c.(mode := if recursive then InList(c.depth) else ExpectName(c.depth)), k)
    ensures Gathers(c, K(WITH, if recursive then Cons(Atom(Word("recursive", false, Plain), RecursiveWord), k) else k))
  {
  }

  lemma {:induction false} QueryGather(q: Query, muted: bool, called: bool, env: set<string>, c: Collector,
                                       k: List<Atom>)
    requires QueryOk(q, true) && Quiet(c) && Gathers(After(c, QueryHasWith(q)), k)
    ensures Gathers(c, PrintQuery(q, muted, called, env, k))
    decreases q, 0
  {
    hide Gathers;
    if q.ctes.NoCtes? {
      ClausesGather(q.tail, env, After(c, BodyHasWith(q.body)), k);
      BodyGather(q.body, muted, called, env, c, PrintClauses(q.tail, env, k));
    } else {
      var inner := env + ListNames(q.ctes);
      var after := PrintClauses(q.tail, inner, k);
      var main := PrintBody(q.body, muted, false, inner, after);
      var off := c.(mode := Off);
      ClausesGather(q.tail, inner, off, k);
      BodyGather(q.body, muted, false, inner, off, after);
      BodyGather(q.body, muted, false, inner, c.(mode := InList(c.depth)), after);
      CtesGather(q.ctes, !q.recursive, q.recursive, env,
                 c.(mode := if q.recursive then InList(c.depth) else ExpectName(c.depth)), main);
      WithGather(c, q.recursive, PrintCtes(q.ctes, !q.recursive, q.recursive, env, main));
    }
  }

  lemma {:induction false} InsertGather(s: Statement, k: List<Atom>)
    requires s.Insert? && QueryOk(s.q, true) && Gathers(START, k)
    ensures Gathers(START, PrintStatement(s, k))
  {
    hide Gathers, PrintQuery, QueryOk, PrintTarget;
    var c := START;
    var source := PrintQuery(s.q, false, s.cols.Nil?, {}, k);
    var target := PrintTarget(s.name, s.path, Offered, {}, PrintCols(s.cols, source));
    QueryGather(s.q, false, s.cols.Nil?, {}, c, k);
    ColsGather(s.cols, c, source);
    TargetGather(s.name, s.path, Offered, {}, c, PrintCols(s.cols, source));
    KeywordGather(c, INTO, target);
    WordGather(c, Word("insert", false, Plain), Syntax, K(INTO, target));
  }

  /** `TABLE [IF [NOT] EXISTS] target` behind DROP or CREATE. */
  lemma {:induction false} TableGather(verb: string, name: Ident, path: List<Ident>, k: List<Atom>)
    requires Gathers(START, k)
    ensures var target := PrintTarget(name, path, Offered, {}, k);
            && Gathers(START, W(verb, K(TABLE, target)))
            && Gathers(START, W(verb, K(TABLE, K(IF, K(EXISTS, target)))))
            && Gathers(START, W(verb, K(TABLE, K(IF, K(NOT, K(EXISTS, target))))))
  {
    hide Gathers;
    var c := START;
    var target := PrintTarget(name, path, Offered, {}, k);
    TargetGather(name, path, Offered, {}, c, k);
    KeywordGather(c, EXISTS, target);
    KeywordGather(c, NOT, K(EXISTS, target));
    KeywordGather(c, IF, K(EXISTS, target));
    KeywordGather(c, IF, K(NOT, K(EXISTS, target)));
    TableWordGather(verb, target);
    TableWordGather(verb, K(IF, K(EXISTS, target)));
    TableWordGather(verb, K(IF, K(NOT, K(EXISTS, target))));
  }

  lemma {:induction false} TableWordGather(verb: string, k: List<Atom>)
    requires Gathers(START, k)
    ensures Gathers(START, W(verb, K(TABLE, k)))
  {
    KeywordGather(START, TABLE, k);
    WordGather(START, Word(verb, false, Plain), Syntax, K(TABLE, k));
  }

  lemma {:induction false} StatementGather(s: Statement, k: List<Atom>)
    requires StatementOk(s, true) && Gathers(START, k)
    ensures Gathers(START, PrintStatement(s, k))
  {
    hide Gathers, PrintQuery, QueryOk, PrintTarget;
    var c := START;
    match s
    case Ask(q) =>
      QueryGather(q, false, false, {}, c, k);
    case Insert(_, _, _, _) =>
      InsertGather(s, k);
    case Delete(name, path, clauses) =>
      var tail := PrintClauses(clauses, {}, k);
      ClausesGather(clauses, {}, c, k);
      TargetGather(name, path, Offered, {}, c, tail);
      KeywordGather(c, FROM, PrintTarget(name, path, Offered, {}, tail));
      WordGather(c, Word("delete", false, Plain), Syntax, K(FROM, PrintTarget(name, path, Offered, {}, tail)));
    case Update(name, path, clauses) =>
      ClausesGather(clauses, {}, c, k);
      TargetGather(name, path, Offered, {}, c, PrintClauses(clauses, {}, k));
      KeywordGather(c, UPDATE, PrintTarget(name, path, Offered, {}, PrintClauses(clauses, {}, k)));
    case Drop(ifExists, name, path) =>
      TableGather("drop", name, path, k);
    case CreateAs(ifNotExists, name, path, q) =>
      var source := PrintQuery(q, false, false, {}, k);
      QueryGather(q, false, false, {}, c, k);
      KeywordGather(c, AS, source);
      TableGather("create", name, path, K(AS, source));
  }

  /** On every script whose WITH lists are followed by SELECT or VALUES, the collector records exactly the
      atoms `Recorded` names. */
  lemma {:induction false} ScriptGather(s: Script)
    requires ScriptOk(s, true)
    ensures Gathers(START, PrintScript(s))
    decreases s
  {
    if s.Then? {
      ScriptGather(s.rest);
      PunctuationGather(START, SemiColon, PrintScript(s.rest));
      StatementGather(s.s, S(SemiColon, PrintScript(s.rest)));
    } else {
      StatementGather(s.s, Nil);
    }
  }
}
