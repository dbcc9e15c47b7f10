/** Scripts whose subqueries stand where SQL expects a query: there the scanner looks at every FROM list. */
module Placement {
  import opened Prelude
  import opened SqlTokens
  import opened Scanner
  import opened SqlTree
  import opened ScanAgreement
  import opened Qualification
  import opened CollectorKeeps

  // ---- on the tree -----------------------------------------------------------------------------

  /** Every subquery stands behind a token of `BeforeQuery`; `prev` is the token before the expression. */
  predicate ExprPlaced(e: Expr, prev: Token) {
    match e
    case Done => true
    case Tok(t, rest) => ExprPlaced(rest, t)
    case Parens(inner, rest) => ExprPlaced(inner, LParen) && ExprPlaced(rest, RParen)
    case Call(_, args, rest) => ExprPlaced(args, LParen) && ExprPlaced(rest, RParen)
    case Sub(q, rest) => BeforeQuery(prev) && QueryPlaced(q) && ExprPlaced(rest, RParen)
  }

  predicate FactorPlaced(f: Factor) {
    match f
    case Base(_, _, _, _) => true
    case Literal(_, _) => true
    case Func(_, args, _) => ExprPlaced(args, LParen)
    case Derived(_, q, _) => QueryPlaced(q)
    case Joined(first, links, _) => FactorPlaced(first) && LinksPlaced(links)
  }

  predicate LinksPlaced(l: Links) {
    match l
    case NoLinks => true
    case CommaLink(f, rest) => FactorPlaced(f) && LinksPlaced(rest)
    case JoinLink(_, f, cond, rest) =>
      FactorPlaced(f) && (cond.OnCond? ==> ExprPlaced(cond.e, Word("on", false, ON))) && LinksPlaced(rest)
  }

  predicate ClausesPlaced(c: Clauses) {
    c.Clause? ==> ExprPlaced(c.e, Word(Spelling(c.kw), false, c.kw)) && ClausesPlaced(c.rest)
  }

  predicate BodyPlaced(b: Body) {
    match b
    case Select(items, clauses) => ExprPlaced(items, Word("select", false, SELECT)) && ClausesPlaced(clauses)
    case SelectFrom(items, first, links, clauses) =>
      && ExprPlaced(items, Word("select", false, SELECT))
      && FactorPlaced(first) && LinksPlaced(links) && ClausesPlaced(clauses)
    case Values(rows) => ExprPlaced(rows, Word("values", false, VALUES))
    case SetOp(left, _, _, right) => BodyPlaced(left) && BodyPlaced(right)
    case Wrapped(q) => QueryPlaced(q)
  }

  predicate CtesPlaced(c: Ctes) {
    c.Cte? ==> QueryPlaced(c.q) && CtesPlaced(c.rest)
  }

  predicate QueryPlaced(q: Query) {
    CtesPlaced(q.ctes) && BodyPlaced(q.body) && ClausesPlaced(q.tail)
  }

  /** The source of an INSERT without columns must not begin with a parenthesis. */
  predicate StatementPlaced(s: Statement) {
    match s
    case Ask(q) => QueryPlaced(q)
    case Insert(_, _, cols, q) => QueryPlaced(q) && (cols.Nil? && q.ctes.NoCtes? ==> Unwrapped(q.body))
    case Delete(_, _, clauses) => ClausesPlaced(clauses)
    case Update(_, _, clauses) => ClausesPlaced(clauses)
    case Drop(_, _, _) => true
    case CreateAs(_, _, _, q) => QueryPlaced(q)
  }

  predicate ScriptPlaced(s: Script) {
    StatementPlaced(s.s) && (s.Then? ==> ScriptPlaced(s.rest))
  }

  // ---- on the printed words --------------------------------------------------------------------

  predicate Audible(role: Role) {
    match role
    case TableName(slot, _) => !slot.Muted?
    case FunctionName(slot) => !slot.Muted?
    case _ => true
  }

  predicate AllAudible(l: List<Atom>) {
    l.Cons? ==> Audible(l.head.role) && AllAudible(l.tail)
  }

  lemma {:induction false} MoreAudible(ids: List<Ident>, k: List<Atom>)
    requires AllAudible(k)
    ensures AllAudible(PrintMore(ids, k))
  {
    if ids.Cons? { MoreAudible(ids.tail, k); }
  }

  lemma {:induction false} ColsAudible(cols: List<Ident>, k: List<Atom>)
    requires AllAudible(k)
    ensures AllAudible(PrintCols(cols, k))
  {
    if cols.Cons? { MoreAudible(cols.tail, S(RParen, k)); }
  }

  lemma {:induction false} PathAudible(path: List<Ident>, k: List<Atom>)
    requires AllAudible(k)
    ensures AllAudible(PrintPath(path, k))
  {
    if path.Cons? { PathAudible(path.tail, k); }
  }

  lemma {:induction false} TargetAudible(name: Ident, path: List<Ident>, slot: Slot, env: set<string>, k: List<Atom>)
    requires AllAudible(k) && !slot.Muted?
    ensures AllAudible(PrintTarget(name, path, slot, env, k))
  {
    PathAudible(path, k);
  }

  lemma {:induction false} AliasAudible(a: Alias, k: List<Atom>)
    requires AllAudible(k)
    ensures AllAudible(PrintAlias(a, k))
  {
    if a.Alias? { ColsAudible(a.cols, k); }
  }

  lemma {:induction false} WordsAudible(words: List<string>, k: List<Atom>)
    requires AllAudible(k)
    ensures AllAudible(PrintWords(words, k))
  {
    if words.Cons? { WordsAudible(words.tail, k); }
  }

  lemma {:induction false} ExprAudible(e: Expr, prev: Token, env: set<string>, k: List<Atom>)
    requires ExprPlaced(e, prev) && AllAudible(k)
    ensures AllAudible(PrintExpr(e, prev, env, k))
    decreases e
  {
    hide PrintQuery, QueryPlaced, BeforeQuery;
    match e
    case Done =>
    case Tok(t, rest) =>
      ExprAudible(rest, t, env, k);
    case Parens(inner, rest) =>
      ExprAudible(rest, RParen, env, k);
      ExprAudible(inner, LParen, env, S(RParen, PrintExpr(rest, RParen, env, k)));
    case Call(fn, args, rest) =>
      ExprAudible(rest, RParen, env, k);
      ExprAudible(args, LParen, env, S(RParen, PrintExpr(rest, RParen, env, k)));
    case Sub(q, rest) =>
      ExprAudible(rest, RParen, env, k);
      QueryAudible(q, false, env, S(RParen, PrintExpr(rest, RParen, env, k)));
  }

  lemma {:induction false} FactorAudible(f: Factor, slot: Slot, env: set<string>, k: List<Atom>)
    requires FactorPlaced(f) && AllAudible(k) && !slot.Muted?
    ensures AllAudible(PrintFactor(f, slot, env, k))
    decreases f
  {
    hide PrintQuery, QueryPlaced, PrintExpr, ExprPlaced;
    var tail := PrintAlias(f.alias, k);
    AliasAudible(f.alias, k);
    match f
    case Base(only, name, path, alias) =>
      TargetAudible(name, path, slot, env, tail);
    case Literal(_, _) =>
    case Func(name, args, alias) =>
      ExprAudible(args, LParen, env, S(RParen, tail));
    case Derived(lateral, q, alias) =>
      QueryAudible(q, false, env, S(RParen, tail));
    case Joined(first, links, alias) =>
      LinksAudible(links, Leading, env, S(RParen, tail));
      FactorAudible(first, Leading, env, PrintLinks(links, Leading, env, S(RParen, tail)));
  }

  lemma {:induction false} CondAudible(cond: Cond, env: set<string>, k: List<Atom>)
    requires (cond.OnCond? ==> ExprPlaced(cond.e, Word("on", false, ON))) && AllAudible(k)
    ensures AllAudible(PrintCond(cond, env, k))
    decreases cond
  {
    hide PrintExpr, ExprPlaced;
    match cond
    case NoCond =>
    case OnCond(e) =>
      ExprAudible(e, Word("on", false, ON), env, k);
    case UsingCols(first, more) =>
      ColsAudible(Cons(first, more), k);
  }

  lemma {:induction false} LinksAudible(l: Links, slot: Slot, env: set<string>, k: List<Atom>)
    requires LinksPlaced(l) && AllAudible(k) && !slot.Muted?
    ensures AllAudible(PrintLinks(l, slot, env, k))
    decreases l
  {
    hide PrintFactor, FactorPlaced, PrintExpr, ExprPlaced, PrintCond;
    match l
    case NoLinks =>
    case CommaLink(f, rest) =>
      LinksAudible(rest, slot, env, k);
      FactorAudible(f, slot, env, PrintLinks(rest, slot, env, k));
    case JoinLink(kinds, f, cond, rest) =>
      var next := AfterJoin(slot);
      var after := PrintCond(cond, env, PrintLinks(rest, next, env, k));
      LinksAudible(rest, next, env, k);
      CondAudible(cond, env, PrintLinks(rest, next, env, k));
      FactorAudible(f, next, env, after);
      WordsAudible(kinds, K(JOIN, PrintFactor(f, next, env, after)));
  }

  lemma {:induction false} ClausesAudible(c: Clauses, env: set<string>, k: List<Atom>)
    requires ClausesPlaced(c) && AllAudible(k)
    ensures AllAudible(PrintClauses(c, env, k))
    decreases c
  {
    hide PrintExpr, ExprPlaced, Spelling;
    if c.Clause? {
      ClausesAudible(c.rest, env, k);
      ExprAudible(c.e, Word(Spelling(c.kw), false, c.kw), env, PrintClauses(c.rest, env, k));
    }
  }

  /** `called` says what becomes of a parenthesis at the very start. */
  lemma {:induction false} BodyAudible(b: Body, called: bool, env: set<string>, k: List<Atom>)
    requires BodyPlaced(b) && AllAudible(k) && (called ==> Unwrapped(b))
    ensures AllAudible(PrintBody(b, false, called, env, k))
    decreases b
  {
    hide PrintExpr, ExprPlaced, PrintQuery, QueryPlaced, PrintFactor, FactorPlaced, PrintLinks, LinksPlaced,
        PrintClauses, ClausesPlaced;
    var select := Word("select", false, SELECT);
    match b
    case Select(items, clauses) =>
      ClausesAudible(clauses, env, k);
      ExprAudible(items, select, env, PrintClauses(clauses, env, k));
    case SelectFrom(items, first, links, clauses) =>
      var after := PrintClauses(clauses, env, k);
      var more := PrintLinks(links, Offered, env, after);
      ClausesAudible(clauses, env, k);
      LinksAudible(links, Offered, env, after);
      FactorAudible(first, Offered, env, more);
      ExprAudible(items, select, env, K(FROM, PrintFactor(first, Offered, env, more)));
    case Values(rows) =>
      ExprAudible(rows, Word("values", false, VALUES), env, k);
    case SetOp(left, op, quantifier, right) =>
      var second := PrintBody(right, false, false, env, k);
      BodyAudible(right, false, env, k);
      BodyAudible(left, called, env, K(op, PrintQuantifier(quantifier, second)));
    case Wrapped(q) =>
      QueryAudible(q, false, env, S(RParen, k));
  }

  lemma {:induction false} CtesAudible(c: Ctes, reached: bool, recursive: bool, env: set<string>, k: List<Atom>)
    requires CtesPlaced(c) && AllAudible(k)
    ensures AllAudible(PrintCtes(c, reached, recursive, env, k))
    decreases c
  {
    hide PrintQuery, QueryPlaced, QueryHasWith;
    if c.Cte? {
      var later := env + {c.name.value};
      var rest := PrintCtes(c.rest, reached && !QueryHasWith(c.q), recursive, later, k);
      var after := if c.rest.NoCtes? then k else S(Comma, rest);
      var scope := if recursive then later else env;
      CtesAudible(c.rest, reached && !QueryHasWith(c.q), recursive, later, k);
      QueryAudible(c.q, false, scope, S(RParen, after));
      ColsAudible(c.cols, K(AS, S(LParen, PrintQuery(c.q, false, false, scope, S(RParen, after)))));
    }
  }

  lemma {:induction false} QueryAudible(q: Query, called: bool, env: set<string>, k: List<Atom>)
    requires QueryPlaced(q) && AllAudible(k) && (called && q.ctes.NoCtes? ==> Unwrapped(q.body))
    ensures AllAudible(PrintQuery(q, false, called, env, k))
    decreases q
  {
    hide PrintBody, BodyPlaced, PrintClauses, ClausesPlaced, PrintCtes, CtesPlaced;
    var inner := if q.ctes.NoCtes? then env else env + ListNames(q.ctes);
    var after := PrintClauses(q.tail, inner, k);
    ClausesAudible(q.tail, inner, k);
    if q.ctes.NoCtes? {
      BodyAudible(q.body, called, inner, after);
    } else {
      BodyAudible(q.body, false, inner, after);
      CtesAudible(q.ctes, !q.recursive, q.recursive, env, PrintBody(q.body, false, false, inner, after));
    }
  }

  /** `TABLE [IF [NOT] EXISTS] target` behind DROP or CREATE. */
  lemma {:induction false} TableAudible(verb: string, target: List<Atom>)
    requires AllAudible(target)
    ensures AllAudible(W(verb, K(TABLE, target))) && AllAudible(W(verb, K(TABLE, K(IF, K(EXISTS, target)))))
    ensures AllAudible(W(verb, K(TABLE, K(IF, K(NOT, K(EXISTS, target))))))
  {
    hide Spelling;
    var there := K(EXISTS, target);
    assert AllAudible(there) && AllAudible(K(NOT, there));
    assert AllAudible(K(IF, there)) && AllAudible(K(IF, K(NOT, there)));
    assert AllAudible(K(TABLE, K(IF, there))) && AllAudible(K(TABLE, K(IF, K(NOT, there))));
  }

  lemma {:induction false} StatementAudible(s: Statement, k: List<Atom>)
    requires StatementPlaced(s) && AllAudible(k)
    ensures AllAudible(PrintStatement(s, k))
  {
    hide PrintQuery, QueryPlaced, PrintClauses, ClausesPlaced, PrintTarget, PrintCols;
    match s
    case Ask(q) =>
      QueryAudible(q, false, {}, k);
    case Insert(name, path, cols, q) =>
      var source := PrintQuery(q, false, cols.Nil?, {}, k);
      QueryAudible(q, cols.Nil?, {}, k);
      ColsAudible(cols, source);
      TargetAudible(name, path, Offered, {}, PrintCols(cols, source));
    case Delete(name, path, clauses) =>
      ClausesAudible(clauses, {}, k);
      TargetAudible(name, path, Offered, {}, PrintClauses(clauses, {}, k));
    case Update(name, path, clauses) =>
      ClausesAudible(clauses, {}, k);
      TargetAudible(name, path, Offered, {}, PrintClauses(clauses, {}, k));
    case Drop(ifExists, name, path) =>
      TargetAudible(name, path, Offered, {}, k);
      TableAudible("drop", PrintTarget(name, path, Offered, {}, k));
    case CreateAs(ifNotExists, name, path, q) =>
      var source := K(AS, PrintQuery(q, false, false, {}, k));
      QueryAudible(q, false, {}, k);
      TargetAudible(name, path, Offered, {}, source);
      TableAudible("create", PrintTarget(name, path, Offered, {}, source));
  }

  lemma {:induction false} ScriptAudible(s: Script)
    requires ScriptPlaced(s)
    ensures AllAudible(PrintScript(s))
    decreases s
  {
    hide PrintStatement, StatementPlaced;
    if s.Then? {
      ScriptAudible(s.rest);
      StatementAudible(s.s, S(SemiColon, PrintScript(s.rest)));
    } else {
      StatementAudible(s.s, Nil);
    }
  }

  // ---- what the scanner then marks ---------------------------------------------------------------

  /** A suite table or a table function of that name, behind the first JOIN of a parenthesised join or outside of
      any, that was not collected as a CTE. */
  predicate Marked(a: Atom, names: Names) {
    && (match a.role
        case TableName(slot, _) => !slot.Leading?
        case FunctionName(slot) => !slot.Leading?
        case _ => false)
    && a.tok.Word? && a.tok.value in names.tables && a.tok.value !in names.ctes
  }

  function MarkedOf(l: List<Atom>, names: Names): seq<bool> {
    match l
    case Nil => []
    case Cons(a, rest) => [Marked(a, names)] + MarkedOf(rest, names)
  }

  lemma {:induction false} SeenIsMarked(l: List<Atom>, names: Names)
    requires AllAudible(l)
    ensures SeenMarks(l, names) == MarkedOf(l, names)
  {
    if l.Cons? { SeenIsMarked(l.tail, names); }
  }

  /** Where subqueries stand behind IN, EXISTS, an operator and such, the scanner looks at the FROM list of each
      of them: it marks all suite tables but the leading ones of parenthesised joins and the collected ones. */
  lemma {:induction false} PlacedMarks(s: Script, tables: set<string>)
    requires ScriptOk(s, false) && ScriptPlaced(s)
    ensures var l := PrintScript(s); ScanMarks(Toks(l), tables) == MarkedOf(l, NamesFor(s, tables))
  {
    hide PrintScript, ScriptOk, ScriptPlaced;
    var l, names := PrintScript(s), NamesFor(s, tables);
    ScriptAudible(s);
    ScriptScan(s, false, None, names);
    GoodMarks(Bottom(FRESH), None, l, names);
    SeenIsMarked(l, names);
  }

  /** Nothing named like a suite table stands in a parenthesised join before its first JOIN, as a table function,
      as a CTE behind RECURSIVE or behind a CTE that holds a WITH, or as a table outside the scope of a CTE of
      the same name. */
  predicate Ordinary(l: List<Atom>, tables: set<string>, ctes: set<string>) {
    l.Cons? ==>
      && Ordinary(l.tail, tables, ctes)
      && (l.head.tok.Word? && l.head.tok.value in tables ==>
            match l.head.role
            case Syntax => true
            case TableName(slot, bound) => !slot.Leading? && (l.head.tok.value in ctes ==> bound)
            case FunctionName(_) => false
            case CteName(reached) => reached
            case RecursiveWord => false)
  }

  lemma {:induction false} OrdinaryIsEveryday(l: List<Atom>, tables: set<string>, ctes: set<string>)
    requires Ordinary(l, tables, ctes) && AllAudible(l)
    ensures Everyday(l, tables, ctes)
  {
    if l.Cons? { OrdinaryIsEveryday(l.tail, tables, ctes); }
  }

  /** On such scripts the scanner is right if and only if it collects no name of a table it should qualify. It
      collects none where every WITH list is followed by SELECT or VALUES. */
  lemma {:induction false} PlacedAgreement(s: Script, tables: set<string>)
    requires ScriptOk(s, false) && ScriptPlaced(s)
    requires var l := PrintScript(s); Ordinary(l, tables, AllCteNames(l))
    ensures var l := PrintScript(s);
            ScanMarks(Toks(l), tables) == Wanted(l, tables) <==> NoneIsHidden(l, tables, CteNames(START, Toks(l)))
    ensures var l := PrintScript(s); ScriptOk(s, true) ==> ScanMarks(Toks(l), tables) == Wanted(l, tables)
  {
    hide PrintScript, ScriptOk, ScriptPlaced, ScanMarks, Wanted;
    ScriptAudible(s);
    OrdinaryIsEveryday(PrintScript(s), tables, AllCteNames(PrintScript(s)));
    EverydayAgreement(s, tables);
  }
}
