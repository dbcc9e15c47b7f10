/** Syntax trees of SQL statements and their token form. Every printer takes the atoms that
    follow (`k`), so that printing only ever prepends. */
module SqlTree {
  import opened Prelude
  import opened SqlTokens

  datatype Ident = Ident(value: string, quoted: bool) {
    function Tok(): Token { Word(value, quoted, Plain) }
  }

  /** An expression is a balanced run of tokens, calls, groupings and subqueries. */
  datatype Expr =
    | Done
    | Tok(tok: Token, rest: Expr)
    | Parens(inner: Expr, rest: Expr)
    | Call(fn: Ident, args: Expr, rest: Expr)
    | Sub(q: Query, rest: Expr)

  datatype Alias = NoAlias | Alias(withAs: bool, name: Ident, cols: List<Ident>)

  datatype Factor =
    | Base(only: bool, name: Ident, path: List<Ident>, alias: Alias)
    | Literal(text: string, alias: Alias)
    | Func(name: Ident, args: Expr, alias: Alias)
    | Derived(lateral: bool, q: Query, alias: Alias)
    | Joined(first: Factor, links: Links, alias: Alias)

  datatype Cond = NoCond | OnCond(e: Expr) | UsingCols(first: Ident, more: List<Ident>)

  /** What follows the first factor of a FROM list. */
  datatype Links =
    | NoLinks
    | CommaLink(factor: Factor, rest: Links)
    | JoinLink(kinds: List<string>, factor: Factor, cond: Cond, rest: Links)

  type ClauseKeyword = kw: Keyword |
    kw in {WHERE, GROUP, HAVING, ORDER, LIMIT, OFFSET, FETCH, WINDOW, QUALIFY, SET, RETURNING} witness WHERE

  type SetKeyword = kw: Keyword | kw in {UNION, EXCEPT, INTERSECT} witness UNION

  datatype Quantifier = Bare | AllRows | DistinctRows

  datatype Clauses = NoClauses | Clause(kw: ClauseKeyword, e: Expr, rest: Clauses)

  datatype Body =
    | Select(items: Expr, clauses: Clauses)
    | SelectFrom(items: Expr, first: Factor, links: Links, clauses: Clauses)
    | Values(rows: Expr)
    | SetOp(left: Body, op: SetKeyword, quantifier: Quantifier, right: Body)
    | Wrapped(q: Query)

  datatype Ctes = NoCtes | Cte(name: Ident, cols: List<Ident>, q: Query, rest: Ctes)

  datatype Query = Query(recursive: bool, ctes: Ctes, body: Body, tail: Clauses)

  datatype Statement =
    | Ask(q: Query)
    | Insert(name: Ident, path: List<Ident>, cols: List<Ident>, q: Query)
    | Delete(name: Ident, path: List<Ident>, clauses: Clauses)
    | Update(name: Ident, path: List<Ident>, clauses: Clauses)
    | Drop(ifExists: bool, name: Ident, path: List<Ident>)
    | CreateAs(ifNotExists: bool, name: Ident, path: List<Ident>, q: Query)

  datatype Script = Last(s: Statement) | Then(s: Statement, rest: Script)

  // ---- the words of the language ----------------------------------------------------------

  /** Words that SQL puts before a table. */
  const TABLE_WORDS: set<Keyword> := {FROM, JOIN, INTO, UPDATE, TABLE, USING}

  /** Words that begin what follows a FROM list. */
  const CLAUSE_WORDS: set<Keyword> :=
    {WHERE, GROUP, HAVING, ORDER, LIMIT, OFFSET, FETCH, WINDOW, QUALIFY, SET, RETURNING,
     UNION, EXCEPT, INTERSECT, SELECT, VALUES, WITH}

  /** Words behind which a parenthesis holds a query or a grouping: those of predicates, of CASE, of select
      lists, of FROM lists and of set operations. */
  const QUERY_WORDS: set<Keyword> :=
    {IN, EXISTS, NOT, AND, OR, BETWEEN, ANY, SOME, ALL,
     CASE, WHEN, THEN, ELSE,
     SELECT, DISTINCT, VALUES, RETURNING,
     FROM, JOIN, LATERAL, USING, ON, WHERE, HAVING, BY,
     AS, WITH, UNION, EXCEPT, INTERSECT}

  /** A parenthesis behind this token holds a query or a grouping, and no arguments: behind an operator, a
      comma or a parenthesis, and behind one of these words. */
  predicate BeforeQuery(prev: Token) {
    prev.Word? ==> !prev.quoted && prev.kw in QUERY_WORDS
  }

  /** How the token scanner meets a table of a FROM list: it expects one there; it does not, because no
      JOIN has come yet in a parenthesised join; or it takes the parenthesis around the query for a
      call. */
  datatype Slot = Offered | Leading | Muted

  /** What a printed token stands for. `bound` says that a CTE in scope has the table's name; `reached`
      marks the CTE names before any list that a WITH interrupts. */
  datatype Role =
    | Syntax
    | TableName(slot: Slot, bound: bool)
    | FunctionName(slot: Slot)
    | CteName(reached: bool)
    | RecursiveWord

  datatype Atom = Atom(tok: Token, role: Role)

  function Toks(l: List<Atom>): List<Token> {
    match l
    case Nil => Nil
    case Cons(a, rest) => Cons(a.tok, Toks(rest))
  }

  function Spelling(kw: Keyword): string {
    match kw
    case Plain => "" case FROM => "from" case JOIN => "join" case INTO => "into"
    case UPDATE => "update" case TABLE => "table" case USING => "using" case IF => "if"
    case EXISTS => "exists" case NOT => "not" case ONLY => "only" case LATERAL => "lateral"
    case WHERE => "where" case GROUP => "group" case HAVING => "having" case ORDER => "order"
    case LIMIT => "limit" case OFFSET => "offset" case FETCH => "fetch" case UNION => "union"
    case EXCEPT => "except" case INTERSECT => "intersect" case WINDOW => "window"
    case QUALIFY => "qualify" case SET => "set" case RETURNING => "returning"
    case SELECT => "select" case VALUES => "values" case WITH => "with" case IN => "in"
    case AS => "as" case ON => "on" case AND => "and" case BETWEEN => "between" case OR => "or"
    case THEN => "then" case ELSE => "else" case WHEN => "when" case BY => "by" case ALL => "all"
    case ANY => "any" case SOME => "some" case CASE => "case" case DISTINCT => "distinct"
  }

  function S(t: Token, k: List<Atom>): List<Atom> { Cons(Atom(t, Syntax), k) }

  function K(kw: Keyword, k: List<Atom>): List<Atom> { S(Word(Spelling(kw), false, kw), k) }

  function W(text: string, k: List<Atom>): List<Atom> { S(Word(text, false, Plain), k) }

  function PrintWords(words: List<string>, k: List<Atom>): List<Atom> {
    match words
    case Nil => k
    case Cons(w, rest) => W(w, PrintWords(rest, k))
  }

  function PrintMore(ids: List<Ident>, k: List<Atom>): List<Atom> {
    match ids
    case Nil => k
    case Cons(id, rest) => S(Comma, S(id.Tok(), PrintMore(rest, k)))
  }

  /** `( a , b )`, or nothing. */
  function PrintCols(cols: List<Ident>, k: List<Atom>): List<Atom> {
    match cols
    case Nil => k
    case Cons(id, rest) => S(LParen, S(id.Tok(), PrintMore(rest, S(RParen, k))))
  }

  function PrintPath(path: List<Ident>, k: List<Atom>): List<Atom> {
    match path
    case Nil => k
    case Cons(id, rest) => S(Period, S(id.Tok(), PrintPath(rest, k)))
  }

  /** A table name: a reference of its own only when no path qualifies it already. */
  function PrintTarget(name: Ident, path: List<Ident>, slot: Slot, env: set<string>, k: List<Atom>): List<Atom> {
    if path.Nil? then Cons(Atom(name.Tok(), TableName(slot, name.value in env)), k)
    else S(name.Tok(), PrintPath(path, k))
  }

  function PrintAlias(a: Alias, k: List<Atom>): List<Atom> {
    match a
    case NoAlias => k
    case Alias(withAs, name, cols) =>
      var tail := S(name.Tok(), PrintCols(cols, k));
      if withAs then K(AS, tail) else tail
  }

  /** `prev` is the token before; it decides how the scanner takes a subquery's parenthesis. `env` holds
      the CTE names in scope, here and in all that follows. */
  function PrintExpr(e: Expr, prev: Token, env: set<string>, k: List<Atom>): List<Atom> {
    match e
    case Done => k
    case Tok(t, rest) => S(t, PrintExpr(rest, t, env, k))
    case Parens(inner, rest) =>
      S(LParen, PrintExpr(inner, LParen, env, S(RParen, PrintExpr(rest, RParen, env, k))))
    case Call(fn, args, rest) =>
      S(fn.Tok(), S(LParen, PrintExpr(args, LParen, env, S(RParen, PrintExpr(rest, RParen, env, k)))))
    case Sub(q, rest) =>
      S(LParen, PrintQuery(q, !BeforeQuery(prev), false, env, S(RParen, PrintExpr(rest, RParen, env, k))))
  }

  function PrintFactor(f: Factor, slot: Slot, env: set<string>, k: List<Atom>): List<Atom> {
    match f
    case Base(only, name, path, alias) =>
      var target := PrintTarget(name, path, slot, env, PrintAlias(alias, k));
      if only then K(ONLY, target) else target
    case Literal(text, alias) => S(Other(text), PrintAlias(alias, k))
    case Func(name, args, alias) =>
      Cons(Atom(name.Tok(), FunctionName(slot)),
           S(LParen, PrintExpr(args, LParen, env, S(RParen, PrintAlias(alias, k)))))
    case Derived(lateral, q, alias) =>
      var table := S(LParen, PrintQuery(q, false, false, env, S(RParen, PrintAlias(alias, k))));
      if lateral then K(LATERAL, table) else table
    case Joined(first, links, alias) =>
      S(LParen, PrintFactor(first, Leading, env, PrintLinks(links, Leading, env, S(RParen, PrintAlias(alias, k)))))
  }

  function PrintCond(c: Cond, env: set<string>, k: List<Atom>): List<Atom> {
    match c
    case NoCond => k
    case OnCond(e) => K(ON, PrintExpr(e, Word("on", false, ON), env, k))
    case UsingCols(first, more) => K(USING, PrintCols(Cons(first, more), k))
  }

  /** The slot behind a JOIN. */
  function AfterJoin(slot: Slot): Slot { if slot.Muted? then Muted else Offered }

  function PrintLinks(l: Links, slot: Slot, env: set<string>, k: List<Atom>): List<Atom> {
    match l
    case NoLinks => k
    case CommaLink(f, rest) => S(Comma, PrintFactor(f, slot, env, PrintLinks(rest, slot, env, k)))
    case JoinLink(kinds, f, cond, rest) =>
      var after := PrintCond(cond, env, PrintLinks(rest, AfterJoin(slot), env, k));
      PrintWords(kinds, K(JOIN, PrintFactor(f, AfterJoin(slot), env, after)))
  }

  function PrintClauses(c: Clauses, env: set<string>, k: List<Atom>): List<Atom> {
    match c
    case NoClauses => k
    case Clause(kw, e, rest) =>
      K(kw, PrintExpr(e, Word(Spelling(kw), false, kw), env, PrintClauses(rest, env, k)))
  }

  function PrintQuantifier(q: Quantifier, k: List<Atom>): List<Atom> {
    match q
    case Bare => k
    case AllRows => K(ALL, k)
    case DistinctRows => K(DISTINCT, k)
  }

  /** `muted`: the scanner takes the parenthesis around this query for a call. `called`: it would take one
      at the very start of the body for a call. */
  function PrintBody(b: Body, muted: bool, called: bool, env: set<string>, k: List<Atom>): List<Atom> {
    match b
    case Select(items, clauses) =>
      K(SELECT, PrintExpr(items, Word("select", false, SELECT), env, PrintClauses(clauses, env, k)))
    case SelectFrom(items, first, links, clauses) =>
      var slot := if muted then Muted else Offered;
      var list := PrintFactor(first, slot, env, PrintLinks(links, slot, env, PrintClauses(clauses, env, k)));
      K(SELECT, PrintExpr(items, Word("select", false, SELECT), env, K(FROM, list)))
    case Values(rows) => K(VALUES, PrintExpr(rows, Word("values", false, VALUES), env, k))
    case SetOp(left, op, quantifier, right) =>
      PrintBody(left, muted, called, env, K(op, PrintQuantifier(quantifier, PrintBody(right, muted, false, env, k))))
    case Wrapped(q) => S(LParen, PrintQuery(q, called, false, env, S(RParen, k)))
  }

  /** The names a WITH list binds for the query behind it. */
  function ListNames(c: Ctes): set<string> {
    if c.NoCtes? then {} else {c.name.value} + ListNames(c.rest)
  }

  /** A CTE sees the enclosing lists and the CTEs before it, and itself under RECURSIVE. */
  function PrintCtes(c: Ctes, reached: bool, recursive: bool, env: set<string>, k: List<Atom>): List<Atom> {
    match c
    case NoCtes => k
    case Cte(name, cols, q, rest) =>
      var later := env + {name.value};
      var after := if rest.NoCtes? then k
                   else S(Comma, PrintCtes(rest, reached && !QueryHasWith(q), recursive, later, k));
      Cons(Atom(name.Tok(), CteName(reached)),
           PrintCols(cols, K(AS,
               S(LParen, PrintQuery(q, false, false, if recursive then later else env, S(RParen, after))))))
  }

  function PrintQuery(q: Query, muted: bool, called: bool, env: set<string>, k: List<Atom>): List<Atom> {
    if q.ctes.NoCtes? then PrintBody(q.body, muted, called, env, PrintClauses(q.tail, env, k))
    else
      var inner := env + ListNames(q.ctes);
      var main := PrintBody(q.body, muted, false, inner, PrintClauses(q.tail, inner, k));
      var list := PrintCtes(q.ctes, !q.recursive, q.recursive, env, main);
      K(WITH, if q.recursive then Cons(Atom(Word("recursive", false, Plain), RecursiveWord), list) else list)
  }

  function PrintStatement(s: Statement, k: List<Atom>): List<Atom> {
    match s
    case Ask(q) => PrintQuery(q, false, false, {}, k)
    case Insert(name, path, cols, q) =>
      var source := PrintQuery(q, false, cols.Nil?, {}, k);
      W("insert", K(INTO, PrintTarget(name, path, Offered, {}, PrintCols(cols, source))))
    case Delete(name, path, clauses) =>
      W("delete", K(FROM, PrintTarget(name, path, Offered, {}, PrintClauses(clauses, {}, k))))
    case Update(name, path, clauses) =>
      K(UPDATE, PrintTarget(name, path, Offered, {}, PrintClauses(clauses, {}, k)))
    case Drop(ifExists, name, path) =>
      var target := PrintTarget(name, path, Offered, {}, k);
      W("drop", K(TABLE, if ifExists then K(IF, K(EXISTS, target)) else target))
    case CreateAs(ifNotExists, name, path, q) =>
      var target := PrintTarget(name, path, Offered, {}, K(AS, PrintQuery(q, false, false, {}, k)));
      W("create", K(TABLE, if ifNotExists then K(IF, K(NOT, K(EXISTS, target))) else target))
  }

  function PrintScript(s: Script): List<Atom> {
    match s
    case Last(st) => PrintStatement(st, Nil)
    case Then(st, rest) => PrintStatement(st, S(SemiColon, PrintScript(rest)))
  }

  // ---- where a WITH keyword is printed --------------------------------------------------

  predicate ExprHasWith(e: Expr) {
    match e
    case Done => false
    case Tok(_, rest) => ExprHasWith(rest)
    case Parens(inner, rest) => ExprHasWith(inner) || ExprHasWith(rest)
    case Call(_, args, rest) => ExprHasWith(args) || ExprHasWith(rest)
    case Sub(q, rest) => QueryHasWith(q) || ExprHasWith(rest)
  }

  predicate FactorHasWith(f: Factor) {
    match f
    case Base(_, _, _, _) => false
    case Literal(_, _) => false
    case Func(_, args, _) => ExprHasWith(args)
    case Derived(_, q, _) => QueryHasWith(q)
    case Joined(first, links, _) => FactorHasWith(first) || LinksHaveWith(links)
  }

  predicate LinksHaveWith(l: Links) {
    match l
    case NoLinks => false
    case CommaLink(f, rest) => FactorHasWith(f) || LinksHaveWith(rest)
    case JoinLink(_, f, cond, rest) =>
      FactorHasWith(f) || (cond.OnCond? && ExprHasWith(cond.e)) || LinksHaveWith(rest)
  }

  predicate ClausesHaveWith(c: Clauses) {
    c.Clause? && (ExprHasWith(c.e) || ClausesHaveWith(c.rest))
  }

  predicate BodyHasWith(b: Body) {
    match b
    case Select(items, clauses) => ExprHasWith(items) || ClausesHaveWith(clauses)
    case SelectFrom(items, first, links, clauses) =>
      ExprHasWith(items) || FactorHasWith(first) || LinksHaveWith(links) || ClausesHaveWith(clauses)
    case Values(rows) => ExprHasWith(rows)
    case SetOp(left, _, _, right) => BodyHasWith(left) || BodyHasWith(right)
    case Wrapped(q) => QueryHasWith(q)
  }

  predicate QueryHasWith(q: Query) {
    q.ctes.Cte? || BodyHasWith(q.body) || ClausesHaveWith(q.tail)
  }

  // ---- well-formed trees ----------------------------------------------------------------

  /** Where an expression stands: in a FROM list, in a clause or a grouping, or in call arguments. */
  datatype Place = InFrom | InClause | InCall

  /** Tokens an expression may hold. A SELECT or WITH begins a query instead; only call arguments may hold
      the FROM of `EXTRACT(x FROM y)`; a comma of a FROM list belongs to the list. */
  predicate TokOk(t: Token, place: Place) {
    match t
    case LParen | RParen | SemiColon | Whitespace => false
    case Comma => place != InFrom
    case Word(_, quoted, kw) =>
      if quoted then kw == Plain
      else
        && kw != WITH && kw != SELECT
        && (kw in TABLE_WORDS ==> place == InCall && kw in {FROM, USING})
        && (kw in CLAUSE_WORDS ==> place != InFrom)
    case Period | Other(_) => true
  }

  /** `closed` asks in addition that every WITH list is followed by SELECT or VALUES. */
  predicate ExprOk(e: Expr, place: Place, closed: bool) {
    match e
    case Done => true
    case Tok(t, rest) => TokOk(t, place) && ExprOk(rest, place, closed)
    case Parens(inner, rest) => ExprOk(inner, InClause, closed) && ExprOk(rest, place, closed)
    case Call(fn, args, rest) => ExprOk(args, InCall, closed) && ExprOk(rest, place, closed)
    case Sub(q, rest) => QueryOk(q, closed) && ExprOk(rest, place, closed)
  }

  predicate FactorOk(f: Factor, closed: bool) {
    match f
    case Base(_, _, _, _) => true
    case Literal(_, _) => true
    case Func(_, args, _) => ExprOk(args, InCall, closed)
    case Derived(_, q, _) => QueryOk(q, closed)
    case Joined(first, links, _) => FactorOk(first, closed) && LinksOk(links, closed)
  }

  predicate LinksOk(l: Links, closed: bool) {
    match l
    case NoLinks => true
    case CommaLink(f, rest) => FactorOk(f, closed) && LinksOk(rest, closed)
    case JoinLink(_, f, cond, rest) =>
      FactorOk(f, closed) && (cond.OnCond? ==> ExprOk(cond.e, InFrom, closed)) && LinksOk(rest, closed)
  }

  predicate ClausesOk(c: Clauses, closed: bool) {
    c.Clause? ==> ExprOk(c.e, InClause, closed) && ClausesOk(c.rest, closed)
  }

  predicate BodyOk(b: Body, closed: bool) {
    match b
    case Select(items, clauses) => ExprOk(items, InClause, closed) && ClausesOk(clauses, closed)
    case SelectFrom(items, first, links, clauses) =>
      && ExprOk(items, InClause, closed)
      && FactorOk(first, closed) && LinksOk(links, closed) && ClausesOk(clauses, closed)
    case Values(rows) => ExprOk(rows, InClause, closed)
    case SetOp(left, _, _, right) => BodyOk(left, closed) && BodyOk(right, closed)
    case Wrapped(q) => QueryOk(q, closed)
  }

  /** The body begins with SELECT or VALUES rather than with a parenthesis. */
  predicate Unwrapped(b: Body) {
    match b
    case SetOp(left, _, _, _) => Unwrapped(left)
    case Wrapped(_) => false
    case _ => true
  }

  predicate CtesOk(c: Ctes, closed: bool) {
    c.Cte? ==> QueryOk(c.q, closed) && CtesOk(c.rest, closed)
  }

  predicate QueryOk(q: Query, closed: bool) {
    && CtesOk(q.ctes, closed) && BodyOk(q.body, closed) && ClausesOk(q.tail, closed)
    && (closed && q.ctes.Cte? ==> Unwrapped(q.body))
  }

  predicate StatementOk(s: Statement, closed: bool) {
    match s
    case Ask(q) => QueryOk(q, closed)
    case Insert(_, _, _, q) => QueryOk(q, closed)
    case Delete(_, _, clauses) => ClausesOk(clauses, closed)
    case Update(_, _, clauses) => ClausesOk(clauses, closed)
    case Drop(_, _, _) => true
    case CreateAs(_, _, _, q) => QueryOk(q, closed)
  }

  predicate ScriptOk(s: Script, closed: bool) {
    StatementOk(s.s, closed) && (s.Then? ==> ScriptOk(s.rest, closed))
  }
}
