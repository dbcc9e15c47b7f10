/** What the scanner does on the tokens of a syntax tree. */
module ScanAgreement {
  import opened Prelude
  import opened SqlTokens
  import opened Scanner
  import opened SqlTree

  /** The scanner inserts the namespace before this atom: a table or table-function name in a slot it
      knows, that is in the suite and was not collected. */
  predicate Seen(a: Atom, names: Names) {
    && ((a.role.TableName? && a.role.slot.Offered?) || a.role == FunctionName(Offered))
    && a.tok.Word? && a.tok.value in names.tables && a.tok.value !in names.ctes
  }

  /** From this state the scanner marks exactly the atoms that `Seen` names. */
  ghost predicate Good(st: Stack, prev: Option<Token>, l: List<Atom>, names: Names)
    decreases l
  {
    match l
    case Nil => true
    case Cons(a, rest) =>
      var next := if rest.Nil? then None else Some(rest.head.tok);
      var o := Step(st, prev, a.tok, next, names);
      o.qualifies == Seen(a, names) && Good(o.stack, Some(a.tok), rest, names)
  }

  ghost predicate NoPeriod(k: List<Atom>) {
    k.Cons? ==> !k.head.tok.Period?
  }

  /** `k` is scanned correctly whatever token came before it. */
  ghost predicate Follows(st: Stack, k: List<Atom>, names: Names) {
    NoPeriod(k) && forall p: Option<Token> :: Good(st, p, k, names)
  }

  /** `k` is scanned correctly behind an identifier. */
  ghost predicate FollowsName(st: Stack, k: List<Atom>, names: Names) {
    NoPeriod(k) && forall value: string, quoted: bool :: Good(st, Some(Word(value, quoted, Plain)), k, names)
  }

  /** The scope of a call, in which no keyword counts. */
  const MUTED := Scope(false, false, true)

  function Ground(muted: bool): Scope { if muted then MUTED else FRESH }

  /** The scope in which a table of this slot is met, and the one it leaves behind. */
  function Before(slot: Slot): Scope { Scope(slot.Offered?, slot.Offered?, slot.Muted?) }

  function Behind(slot: Slot): Scope { Scope(false, slot.Offered?, slot.Muted?) }

  /** `k` is scanned correctly after a whole body, whatever its FROM list left behind. */
  ghost predicate Closes(st: Stack, muted: bool, k: List<Atom>, names: Names) {
    if muted then Follows(st.(top := MUTED), k, names)
    else forall from: bool :: Follows(st.(top := Scope(false, from, false)), k, names)
  }

  // ---- one token at a time --------------------------------------------------------------

  /** What is left of a scope when a parenthesis opens in it. */
  function Parent(st: Stack): Stack {
    st.(top := Scope(false, st.top.fromActive || st.top.expectTable, st.top.functionArgs))
  }

  lemma {:induction false} OpenScan(st: Stack, prev: Option<Token>, k: List<Atom>, names: Names)
    requires Good(Push(Scope(false, false, OpensCall(prev)), Parent(st)), Some(LParen), k, names)
    ensures Good(st, prev, S(LParen, k), names)
  {
  }

  lemma {:induction false} CloseScan(st: Stack, scope: Scope, k: List<Atom>, names: Names)
    requires Good(st, Some(RParen), k, names)
    ensures Follows(Push(scope, st), S(RParen, k), names)
    ensures forall muted: bool :: Closes(Push(scope, st), muted, S(RParen, k), names)
  {
  }

  /** A word that is no keyword of the scanner, where no table is expected. */
  lemma {:induction false} WordScan(st: Stack, t: Token, k: List<Atom>, names: Names)
    requires t.Word? && t.kw in {Plain, AS, ON} && !st.top.expectTable
    requires Good(st, Some(t), k, names)
    ensures Follows(st, S(t, k), names)
    ensures forall role: Role | role.CteName? || role.RecursiveWord? :: Follows(st, Cons(Atom(t, role), k), names)
  {
  }

  lemma {:induction false} NameScan(st: Stack, prev: Option<Token>, id: Ident, role: Role, k: List<Atom>, names: Names)
    requires role.TableName? || role.FunctionName?
    requires st.top == Before(role.slot) && !IsPeriod(prev) && NoPeriod(k)
    requires Good(st.(top := Behind(role.slot)), Some(id.Tok()), k, names)
    ensures Good(st, prev, Cons(Atom(id.Tok(), role), k), names)
  {
  }

  lemma {:induction false} QualifiedScan(st: Stack, prev: Option<Token>, id: Ident, k: List<Atom>, names: Names)
    requires k.Cons? && k.head.tok.Period?
    requires Good(st.(top := st.top.(expectTable := false)), Some(id.Tok()), k, names)
    ensures Good(st, prev, S(id.Tok(), k), names)
  {
  }

  lemma {:induction false} TokScan(st: Stack, prev: Option<Token>, t: Token, place: Place, k: List<Atom>, names: Names)
    requires TokOk(t, place) && Fits(st.top, place)
    requires Good(st, Some(t), k, names)
    ensures Good(st, prev, S(t, k), names)
  {
    if t.Word? { WordsAreKnown(t.kw); }
    hide IsIntroducer, IsBoundary, IsFiller;
  }

  lemma {:induction false} CommaScan(st: Stack, k: List<Atom>, names: Names)
    requires Good(st.(top := st.top.(expectTable := st.top.expectTable || st.top.fromActive)), Some(Comma), k, names)
    ensures Follows(st, S(Comma, k), names)
  {
  }

  lemma {:induction false} PeriodScan(st: Stack, prev: Option<Token>, k: List<Atom>, names: Names)
    requires Good(st.(top := st.top.(expectTable := false)), Some(Period), k, names)
    ensures Good(st, prev, S(Period, k), names)
  {
  }

  /** A literal in table position fills it. */
  lemma {:induction false} LiteralScan(st: Stack, prev: Option<Token>, text: string, k: List<Atom>, names: Names)
    requires Good(st.(top := st.top.(expectTable := false)), Some(Other(text)), k, names)
    ensures Good(st, prev, S(Other(text), k), names)
  {
  }

  /** A keyword behind which a table is expected, except in the scope of a call. */
  lemma {:induction false} IntroducerScan(st: Stack, slot: Slot, kw: Keyword, k: List<Atom>, names: Names)
    requires IsIntroducer(kw) && (if slot.Muted? then st.top == MUTED else slot.Offered? && !st.top.functionArgs)
    requires Good(st.(top := Before(slot)), Some(Word(Spelling(kw), false, kw)), k, names)
    ensures Follows(st, K(kw, k), names)
  {
    hide Spelling;
  }

  lemma {:induction false} FillerScan(st: Stack, prev: Option<Token>, kw: Keyword, k: List<Atom>, names: Names)
    requires IsFiller(kw) && (st.top.functionArgs ==> !st.top.expectTable)
    requires Good(st, Some(Word(Spelling(kw), false, kw)), k, names)
    ensures Good(st, prev, K(kw, k), names)
  {
    hide Spelling;
  }

  lemma {:induction false} BoundaryScan(st: Stack, muted: bool, kw: Keyword, k: List<Atom>, names: Names)
    requires IsBoundary(kw)
    requires Good(st.(top := Ground(muted)), Some(Word(Spelling(kw), false, kw)), k, names)
    ensures Closes(st, muted, K(kw, k), names)
  {
    hide Spelling;
  }

  // ---- the scanner's words are those of the language ------------------------------------

  /** The scanner takes a parenthesis for a call exactly where no query or grouping can stand. */
  lemma {:induction false} QueriesAndCalls(prev: Token)
    ensures OpensCall(Some(prev)) <==> !BeforeQuery(prev)
  {
  }

  lemma {:induction false} WordsAreKnown(kw: Keyword)
    ensures IsIntroducer(kw) <==> kw in TABLE_WORDS
    ensures IsBoundary(kw) <==> kw in CLAUSE_WORDS
  {
  }

  // ---- phrases ----------------------------------------------------------------------------

  lemma {:induction false} MoreScan(ids: List<Ident>, st: Stack, k: List<Atom>, names: Names)
    requires !st.top.expectTable && !st.top.fromActive
    requires Follows(st, k, names)
    ensures Follows(st, PrintMore(ids, k), names)
  {
    hide Good;
    if ids.Cons? {
      MoreScan(ids.tail, st, k, names);
      WordScan(st, ids.head.Tok(), PrintMore(ids.tail, k), names);
      CommaScan(st, S(ids.head.Tok(), PrintMore(ids.tail, k)), names);
    }
  }

  /** A column list leaves the scope it stands in without an expected table. */
  lemma {:induction false} ColsScan(cols: List<Ident>, st: Stack, prev: Option<Token>, k: List<Atom>, names: Names)
    requires NoPeriod(k)
    requires if cols.Nil? then Good(st, prev, k, names) else Good(Parent(st), Some(RParen), k, names)
    ensures Good(st, prev, PrintCols(cols, k), names)
    ensures NoPeriod(PrintCols(cols, k))
  {
    hide Good;
    if cols.Cons? {
      var scope := Scope(false, false, OpensCall(prev));
      var top := Push(scope, Parent(st));
      CloseScan(Parent(st), scope, k, names);
      MoreScan(cols.tail, top, S(RParen, k), names);
      WordScan(top, cols.head.Tok(), PrintMore(cols.tail, S(RParen, k)), names);
      OpenScan(st, prev, S(cols.head.Tok(), PrintMore(cols.tail, S(RParen, k))), names);
    }
  }

  lemma {:induction false} PathScan(id: Ident, path: List<Ident>, st: Stack, k: List<Atom>, names: Names)
    requires !st.top.expectTable
    requires FollowsName(st, k, names)
    ensures Good(st, Some(id.Tok()), PrintPath(path, k), names)
    decreases path
  {
    hide Good;
    if path.Cons? {
      var next := path.head.Tok();
      PathScan(path.head, path.tail, st, k, names);
      WordScan(st, next, PrintPath(path.tail, k), names);
      PeriodScan(st, Some(id.Tok()), S(next, PrintPath(path.tail, k)), names);
    }
  }

  /** A table name in table position: marked when it stands alone, skipped when it is qualified. */
  lemma {:induction false} TargetScan(name: Ident, path: List<Ident>, slot: Slot, env: set<string>, st: Stack,
                                      prev: Option<Token>, k: List<Atom>, names: Names)
    requires !IsPeriod(prev)
    requires st.top == Before(slot)
    requires FollowsName(st.(top := Behind(slot)), k, names)
    ensures Good(st, prev, PrintTarget(name, path, slot, env, k), names)
  {
    hide Good;
    var done := st.(top := Behind(slot));
    PathScan(name, path, done, k, names);
    if path.Nil? {
      NameScan(st, prev, name, TableName(slot, name.value in env), k, names);
    } else {
      QualifiedScan(st, prev, name, PrintPath(path, k), names);
    }
  }

  lemma {:induction false} AliasScan(a: Alias, st: Stack, k: List<Atom>, names: Names)
    requires !st.top.expectTable
    requires Follows(st, k, names)
    ensures Follows(st, PrintAlias(a, k), names)
  {
    hide Good;
    if a.Alias? {
      var tail := PrintCols(a.cols, k);
      assert Parent(st) == st;
      ColsScan(a.cols, st, Some(a.name.Tok()), k, names);
      WordScan(st, a.name.Tok(), tail, names);
      WordScan(st, Word("as", false, AS), S(a.name.Tok(), tail), names);
    }
  }

  lemma {:induction false} WordsScan(words: List<string>, st: Stack, k: List<Atom>, names: Names)
    requires !st.top.expectTable
    requires Follows(st, k, names)
    ensures Follows(st, PrintWords(words, k), names)
  {
    hide Good;
    if words.Cons? {
      WordsScan(words.tail, st, k, names);
      WordScan(st, Word(words.head, false, Plain), PrintWords(words.tail, k), names);
    }
  }

  /** The scope an expression of this place stands in. */
  ghost predicate Fits(scope: Scope, place: Place) {
    && !scope.expectTable
    && (place != InFrom ==> !scope.fromActive)
    && (place == InCall ==> scope.functionArgs)
  }

  // ---- trees ------------------------------------------------------------------------------

  lemma {:induction false} ExprScan(e: Expr, closed: bool, place: Place, env: set<string>, st: Stack, prev: Token,
                                    k: List<Atom>, names: Names)
    requires ExprOk(e, place, closed) && Fits(st.top, place)
    requires Follows(st, k, names)
    ensures Good(st, Some(prev), PrintExpr(e, prev, env, k), names)
    decreases e, 0
  {
    hide Good, PrintQuery, QueryOk;
    assert Parent(st) == st;
    match e
    case Done =>
    case Tok(t, rest) =>
      ExprScan(rest, closed, place, env, st, t, k, names);
      TokScan(st, Some(prev), t, place, PrintExpr(rest, t, env, k), names);
    case Parens(inner, rest) =>
      ExprScan(rest, closed, place, env, st, RParen, k, names);
      GroupScan(inner, closed, InClause, env, st, Some(prev), PrintExpr(rest, RParen, env, k), names);
    case Call(fn, args, rest) =>
      var tail := PrintExpr(rest, RParen, env, k);
      ExprScan(rest, closed, place, env, st, RParen, k, names);
      GroupScan(args, closed, InCall, env, st, Some(fn.Tok()), tail, names);
      WordScan(st, fn.Tok(), S(LParen, PrintExpr(args, LParen, env, S(RParen, tail))), names);
    case Sub(q, rest) =>
      ExprScan(rest, closed, place, env, st, RParen, k, names);
      QueriesAndCalls(prev);
      SubqueryScan(q, closed, env, st, Some(prev), PrintExpr(rest, RParen, env, k), names);
  }

  /** `( e )`. */
  lemma {:induction false} GroupScan(e: Expr, closed: bool, place: Place, env: set<string>, st: Stack,
                                     prev: Option<Token>, k: List<Atom>, names: Names)
    requires ExprOk(e, place, closed) && place != InFrom && (place == InCall ==> OpensCall(prev))
    requires Good(Parent(st), Some(RParen), k, names)
    ensures Good(st, prev, S(LParen, PrintExpr(e, LParen, env, S(RParen, k))), names)
    decreases e, 1
  {
    hide Good;
    var scope := Scope(false, false, OpensCall(prev));
    CloseScan(Parent(st), scope, k, names);
    ExprScan(e, closed, place, env, Push(scope, Parent(st)), LParen, S(RParen, k), names);
    OpenScan(st, prev, PrintExpr(e, LParen, env, S(RParen, k)), names);
  }

  /** `( query )`: muted exactly when the scanner takes it for a call. */
  lemma {:induction false} SubqueryScan(q: Query, closed: bool, env: set<string>, st: Stack, prev: Option<Token>,
                                        k: List<Atom>, names: Names)
    requires QueryOk(q, closed) && Good(Parent(st), Some(RParen), k, names)
    ensures Good(st, prev, S(LParen, PrintQuery(q, OpensCall(prev), false, env, S(RParen, k))), names)
    decreases q, 1
  {
    hide Good;
    var muted := OpensCall(prev);
    CloseScan(Parent(st), Ground(muted), k, names);
    QueryScan(q, closed, muted, false, env, Push(Ground(muted), Parent(st)), Some(LParen), S(RParen, k), names);
    OpenScan(st, prev, PrintQuery(q, muted, false, env, S(RParen, k)), names);
  }

  lemma {:induction false} FactorScan(f: Factor, closed: bool, slot: Slot, env: set<string>, st: Stack,
                                      prev: Option<Token>, k: List<Atom>, names: Names)
    requires FactorOk(f, closed) && !IsPeriod(prev) && !OpensCall(prev)
    requires st.top == Before(slot)
    requires Follows(st.(top := Behind(slot)), k, names)
    ensures Good(st, prev, PrintFactor(f, slot, env, k), names)
    decreases f
  {
    hide Good, PrintExpr, PrintQuery, PrintLinks, ExprOk, QueryOk, LinksOk, PrintPath;
    var done := st.(top := Behind(slot));
    assert Parent(st) == done == Parent(done);
    var tail := PrintAlias(f.alias, k);
    AliasScan(f.alias, done, k, names);
    match f
    case Base(only, name, path, alias) =>
      TargetScan(name, path, slot, env, st, if only then Some(Word("only", false, ONLY)) else prev, tail, names);
      if only {
        FillerScan(st, prev, ONLY, PrintTarget(name, path, slot, env, tail), names);
      }
    case Literal(text, alias) =>
      LiteralScan(st, prev, text, tail, names);
    case Func(name, args, alias) =>
      GroupScan(args, closed, InCall, env, done, Some(name.Tok()), tail, names);
      NameScan(st, prev, name, FunctionName(slot), S(LParen, PrintExpr(args, LParen, env, S(RParen, tail))), names);
    case Derived(lateral, q, alias) =>
      SubqueryScan(q, closed, env, st, if lateral then Some(Word("lateral", false, LATERAL)) else prev, tail, names);
      if lateral {
        FillerScan(st, prev, LATERAL, S(LParen, PrintQuery(q, false, false, env, S(RParen, tail))), names);
      }
    case Joined(first, links, alias) =>
      JoinedScan(f, closed, env, st, prev, tail, names);
  }

  /** `( table ... )`. */
  lemma {:induction false} JoinedScan(f: Factor, closed: bool, env: set<string>, st: Stack, prev: Option<Token>,
                                      k: List<Atom>, names: Names)
    requires f.Joined? && FactorOk(f, closed) && !OpensCall(prev)
    requires Good(Parent(st), Some(RParen), k, names)
    ensures var rest := PrintLinks(f.links, Leading, env, S(RParen, k));
            Good(st, prev, S(LParen, PrintFactor(f.first, Leading, env, rest)), names)
    decreases f, 0
  {
    hide Good, PrintExpr, PrintQuery, PrintLinks, ExprOk, QueryOk, LinksOk;
    var top := Push(FRESH, Parent(st));
    var rest := PrintLinks(f.links, Leading, env, S(RParen, k));
    CloseScan(Parent(st), FRESH, k, names);
    LinksScan(f.links, closed, Leading, env, top, S(RParen, k), names);
    FactorScan(f.first, closed, Leading, env, top, Some(LParen), rest, names);
    OpenScan(st, prev, PrintFactor(f.first, Leading, env, rest), names);
  }

  lemma {:induction false} CondScan(c: Cond, closed: bool, slot: Slot, env: set<string>, st: Stack, k: List<Atom>,
                                    names: Names)
    requires c.OnCond? ==> ExprOk(c.e, InFrom, closed)
    requires !slot.Leading? && st.top == Behind(slot)
    requires Follows(st, k, names)
    ensures Follows(st, PrintCond(c, env, k), names)
    decreases c
  {
    hide Good;
    match c
    case NoCond =>
    case OnCond(e) =>
      var on := Word("on", false, ON);
      ExprScan(e, closed, InFrom, env, st, on, k, names);
      WordScan(st, on, PrintExpr(e, on, env, k), names);
    case UsingCols(first, more) =>
      var cols := Cons(first, more);
      assert Parent(st.(top := Before(slot))) == st;
      ColsScan(cols, st.(top := Before(slot)), Some(Word("using", false, USING)), k, names);
      IntroducerScan(st, slot, USING, PrintCols(cols, k), names);
  }

  lemma {:induction false} LinksScan(l: Links, closed: bool, slot: Slot, env: set<string>, st: Stack, k: List<Atom>,
                                     names: Names)
    requires LinksOk(l, closed) && st.top == Behind(slot)
    requires Closes(st, slot.Muted?, k, names)
    ensures Follows(st, PrintLinks(l, slot, env, k), names)
    decreases l
  {
    hide Good;
    match l
    case NoLinks =>
      assert st.(top := Behind(slot)) == st;
    case CommaLink(f, rest) =>
      var tail := PrintLinks(rest, slot, env, k);
      LinksScan(rest, closed, slot, env, st, k, names);
      FactorScan(f, closed, slot, env, st.(top := Before(slot)), Some(Comma), tail, names);
      CommaScan(st, PrintFactor(f, slot, env, tail), names);
    case JoinLink(kinds, f, cond, rest) =>
      JoinScan(l, closed, slot, env, st, k, names);
  }

  lemma {:induction false} JoinScan(l: Links, closed: bool, slot: Slot, env: set<string>, st: Stack, k: List<Atom>,
                                    names: Names)
    requires l.JoinLink? && LinksOk(l, closed) && st.top == Behind(slot)
    requires Closes(st, slot.Muted?, k, names)
    ensures Follows(st, PrintLinks(l, slot, env, k), names)
    decreases l, 0
  {
    hide Good;
    var next := AfterJoin(slot);
    var joined := st.(top := Behind(next));
    var tail := PrintLinks(l.rest, next, env, k);
    LinksScan(l.rest, closed, next, env, joined, k, names);
    CondScan(l.cond, closed, next, env, joined, tail, names);
    var item := PrintFactor(l.factor, next, env, PrintCond(l.cond, env, tail));
    FactorScan(l.factor, closed, next, env, st.(top := Before(next)), Some(Word("join", false, JOIN)),
               PrintCond(l.cond, env, tail), names);
    IntroducerScan(st, next, JOIN, item, names);
    WordsScan(l.kinds, st, K(JOIN, item), names);
  }

  lemma {:induction false} ClausesScan(c: Clauses, closed: bool, muted: bool, env: set<string>, st: Stack,
                                       k: List<Atom>, names: Names)
    requires ClausesOk(c, closed)
    requires Closes(st, muted, k, names)
    ensures Closes(st, muted, PrintClauses(c, env, k), names)
    decreases c
  {
    hide Good;
    if c.Clause? {
      var tail := PrintClauses(c.rest, env, k);
      var kw := Word(Spelling(c.kw), false, c.kw);
      ClausesScan(c.rest, closed, muted, env, st, k, names);
      GroundCloses(st, muted, tail, names);
      ExprScan(c.e, closed, InClause, env, st.(top := Ground(muted)), kw, tail, names);
      BoundaryScan(st, muted, c.kw, PrintExpr(c.e, kw, env, tail), names);
    }
  }

  lemma {:induction false} GroundCloses(st: Stack, muted: bool, k: List<Atom>, names: Names)
    requires Closes(st, muted, k, names)
    ensures Follows(st.(top := Ground(muted)), k, names)
    ensures forall top: Scope :: Closes(st.(top := top), muted, k, names)
  {
    hide Good;
  }

  /** The scope a query is read in. */
  ghost predicate Reads(scope: Scope, muted: bool) {
    if muted then scope == MUTED else !scope.expectTable && !scope.functionArgs
  }

  lemma {:induction false} BodyScan(b: Body, closed: bool, muted: bool, called: bool, env: set<string>, st: Stack,
                                    prev: Option<Token>, k: List<Atom>, names: Names)
    requires BodyOk(b, closed) && Reads(st.top, muted) && called == OpensCall(prev)
    requires Closes(st, muted, k, names)
    ensures Good(st, prev, PrintBody(b, muted, called, env, k), names) && NoPeriod(PrintBody(b, muted, called, env, k))
    decreases b, 1
  {
    hide Good, PrintExpr, PrintQuery, ExprOk, QueryOk;
    var top := st.(top := Ground(muted));
    match b
    case Select(items, clauses) =>
      SelectScan(b, closed, muted, called, env, st, prev, k, names);
    case SelectFrom(items, first, links, clauses) =>
      SelectFromScan(b, closed, muted, called, env, st, prev, k, names);
    case Values(rows) =>
      var values := Word("values", false, VALUES);
      GroundCloses(st, muted, k, names);
      ExprScan(rows, closed, InClause, env, top, values, k, names);
      BoundaryScan(st, muted, VALUES, PrintExpr(rows, values, env, k), names);
      ReadsNext(st, muted, K(VALUES, PrintExpr(rows, values, env, k)), names);
    case SetOp(left, op, quantifier, right) =>
      OperandScan(op, quantifier, right, closed, muted, env, st, k, names);
      BodyScan(left, closed, muted, called, env, st, prev,
               K(op, PrintQuantifier(quantifier, PrintBody(right, muted, false, env, k))), names);
    case Wrapped(q) =>
      ReadsNext(st, muted, k, names);
      assert Parent(st) == st;
      SubqueryScan(q, closed, env, st, prev, k, names);
  }

  lemma {:induction false} ReadsNext(st: Stack, muted: bool, k: List<Atom>, names: Names)
    requires Reads(st.top, muted) && Closes(st, muted, k, names)
    ensures Follows(st, k, names)
  {
    hide Good;
    assert st.(top := st.top) == st;
    assert muted || st.top == Scope(false, st.top.fromActive, false);
  }

  lemma {:induction false} SelectScan(b: Body, closed: bool, muted: bool, called: bool, env: set<string>, st: Stack,
                                      prev: Option<Token>, k: List<Atom>, names: Names)
    requires b.Select? && BodyOk(b, closed) && Reads(st.top, muted)
    requires Closes(st, muted, k, names)
    ensures Good(st, prev, PrintBody(b, muted, called, env, k), names)
    decreases b, 0
  {
    hide Good, PrintExpr, PrintClauses, ExprOk, ClausesOk;
    var select := Word("select", false, SELECT);
    var tail := PrintClauses(b.clauses, env, k);
    ClausesScan(b.clauses, closed, muted, env, st, k, names);
    GroundCloses(st, muted, tail, names);
    ExprScan(b.items, closed, InClause, env, st.(top := Ground(muted)), select, tail, names);
    BoundaryScan(st, muted, SELECT, PrintExpr(b.items, select, env, tail), names);
    ReadsNext(st, muted, K(SELECT, PrintExpr(b.items, select, env, tail)), names);
  }

  lemma {:induction false} SelectFromScan(b: Body, closed: bool, muted: bool, called: bool, env: set<string>, st: Stack,
                                          prev: Option<Token>, k: List<Atom>, names: Names)
    requires b.SelectFrom? && BodyOk(b, closed) && Reads(st.top, muted)
    requires Closes(st, muted, k, names)
    ensures Good(st, prev, PrintBody(b, muted, called, env, k), names)
    decreases b, 0
  {
    hide Good, PrintExpr, PrintFactor, PrintLinks, PrintClauses, ExprOk, FactorOk, LinksOk, ClausesOk;
    var slot := if muted then Muted else Offered;
    var select := Word("select", false, SELECT);
    var top := st.(top := Ground(muted));
    var after := PrintClauses(b.clauses, env, k);
    var rest := PrintLinks(b.links, slot, env, after);
    var list := PrintFactor(b.first, slot, env, rest);
    ClausesScan(b.clauses, closed, muted, env, st, k, names);
    GroundCloses(st, muted, after, names);
    LinksScan(b.links, closed, slot, env, st.(top := Behind(slot)), after, names);
    FactorScan(b.first, closed, slot, env, st.(top := Before(slot)), Some(Word("from", false, FROM)), rest, names);
    IntroducerScan(top, slot, FROM, list, names);
    ExprScan(b.items, closed, InClause, env, top, select, K(FROM, list), names);
    BoundaryScan(st, muted, SELECT, PrintExpr(b.items, select, env, K(FROM, list)), names);
    ReadsNext(st, muted, K(SELECT, PrintExpr(b.items, select, env, K(FROM, list))), names);
  }

  lemma {:induction false} OperandScan(op: SetKeyword, quantifier: Quantifier, right: Body, closed: bool, muted: bool,
                                       env: set<string>, st: Stack, k: List<Atom>, names: Names)
    requires BodyOk(right, closed) && Closes(st, muted, k, names)
    ensures Closes(st, muted, K(op, PrintQuantifier(quantifier, PrintBody(right, muted, false, env, k))), names)
    decreases right, 2
  {
    hide Good, PrintBody, BodyOk;
    var top := st.(top := Ground(muted));
    var opTok := Word(Spelling(op), false, op);
    var quantTok := if quantifier.AllRows? then Word("all", false, ALL) else Word("distinct", false, DISTINCT);
    var body := PrintBody(right, muted, false, env, k);
    GroundCloses(st, muted, k, names);
    BodyScan(right, closed, muted, false, env, top, Some(if quantifier.Bare? then opTok else quantTok), k, names);
    if !quantifier.Bare? {
      QuantifierScan(top, muted, Some(opTok), quantifier, body, names);
    }
    BoundaryScan(st, muted, op, PrintQuantifier(quantifier, body), names);
  }

  lemma {:induction false} QuantifierScan(st: Stack, muted: bool, prev: Option<Token>, quantifier: Quantifier,
                                          k: List<Atom>, names: Names)
    requires st.top == Ground(muted) && !quantifier.Bare?
    requires var word := if quantifier.AllRows? then Word("all", false, ALL) else Word("distinct", false, DISTINCT);
             Good(st, Some(word), k, names)
    ensures Good(st, prev, PrintQuantifier(quantifier, k), names)
  {
  }

  lemma {:induction false} CtesScan(c: Ctes, closed: bool, reached: bool, recursive: bool, muted: bool,
                                    env: set<string>,
                                    st: Stack, prev: Option<Token>, k: List<Atom>, names: Names)
    requires c.Cte? && CtesOk(c, closed) && st.top == Ground(muted)
    requires Good(st, Some(RParen), k, names)
    ensures Good(st, prev, PrintCtes(c, reached, recursive, env, k), names)
    decreases c, 1
  {
    hide Good, PrintQuery, QueryOk, QueryHasWith;
    var later := env + {c.name.value};
    var more := PrintCtes(c.rest, reached && !QueryHasWith(c.q), recursive, later, k);
    var after := if c.rest.NoCtes? then k else S(Comma, more);
    if c.rest.Cte? {
      CtesScan(c.rest, closed, reached && !QueryHasWith(c.q), recursive, muted, later, st, Some(Comma), k, names);
      CommaScan(st, more, names);
    }
    CteScan(c, closed, if recursive then later else env, st, after, names);
  }

  /** `name ( cols ) AS ( query )`. */
  lemma {:induction false} CteScan(c: Ctes, closed: bool, env: set<string>, st: Stack, k: List<Atom>, names: Names)
    requires c.Cte? && CtesOk(c, closed) && !st.top.expectTable
    requires Good(st, Some(RParen), k, names)
    ensures var cte := PrintCols(c.cols, K(AS, S(LParen, PrintQuery(c.q, false, false, env, S(RParen, k)))));
            forall role: Role | role.CteName? :: Follows(st, Cons(Atom(c.name.Tok(), role), cte), names)
    decreases c, 0
  {
    hide Good, PrintQuery, QueryOk;
    var asTok := Word("as", false, AS);
    var body := S(LParen, PrintQuery(c.q, false, false, env, S(RParen, k)));
    assert Parent(st) == st;
    SubqueryScan(c.q, closed, env, st, Some(asTok), k, names);
    WordScan(st, asTok, body, names);
    ColsScan(c.cols, st, Some(c.name.Tok()), K(AS, body), names);
    WordScan(st, c.name.Tok(), PrintCols(c.cols, K(AS, body)), names);
  }

  lemma {:induction false} QueryScan(q: Query, closed: bool, muted: bool, called: bool, env: set<string>, st: Stack,
                                     prev: Option<Token>, k: List<Atom>, names: Names)
    requires QueryOk(q, closed) && Reads(st.top, muted) && called == OpensCall(prev)
    requires Closes(st, muted, k, names)
    ensures Good(st, prev, PrintQuery(q, muted, called, env, k), names)
            && NoPeriod(PrintQuery(q, muted, called, env, k))
    decreases q, 0
  {
    hide Good, PrintBody, PrintClauses, BodyOk, ClausesOk;
    if q.ctes.NoCtes? {
      ClausesScan(q.tail, closed, muted, env, st, k, names);
      BodyScan(q.body, closed, muted, called, env, st, prev, PrintClauses(q.tail, env, k), names);
    } else {
      var inner := env + ListNames(q.ctes);
      var top := st.(top := Ground(muted));
      var after := PrintClauses(q.tail, inner, k);
      var main := PrintBody(q.body, muted, false, inner, after);
      ClausesScan(q.tail, closed, muted, inner, st, k, names);
      GroundCloses(st, muted, after, names);
      BodyScan(q.body, closed, muted, false, inner, top, Some(RParen), after, names);
      WithScan(q, closed, muted, env, st, main, names);
      ReadsNext(st, muted, WithList(q, env, main), names);
    }
  }

  ghost function WithList(q: Query, env: set<string>, main: List<Atom>): List<Atom> {
    var list := PrintCtes(q.ctes, !q.recursive, q.recursive, env, main);
    K(WITH, if q.recursive then Cons(Atom(Word("recursive", false, Plain), RecursiveWord), list) else list)
  }

  lemma {:induction false} WithScan(q: Query, closed: bool, muted: bool, env: set<string>, st: Stack, main: List<Atom>,
                                    names: Names)
    requires q.ctes.Cte? && CtesOk(q.ctes, closed)
    requires Good(st.(top := Ground(muted)), Some(RParen), main, names)
    ensures Closes(st, muted, WithList(q, env, main), names)
    decreases q.ctes, 2
  {
    hide Good, QueryOk;
    var top := st.(top := Ground(muted));
    var recursive := Word("recursive", false, Plain);
    var list := PrintCtes(q.ctes, !q.recursive, q.recursive, env, main);
    CtesScan(q.ctes, closed, !q.recursive, q.recursive, muted, env, top,
             Some(if q.recursive then recursive else Word("with", false, WITH)), main, names);
    if q.recursive {
      WordScan(top, recursive, list, names);
      BoundaryScan(st, muted, WITH, Cons(Atom(recursive, RecursiveWord), list), names);
    } else {
      BoundaryScan(st, muted, WITH, list, names);
    }
  }

  // ---- statements --------------------------------------------------------------------------

  /** A target behind its introducer, and what follows the target. */
  lemma {:induction false} TargetAfterScan(kw: Keyword, name: Ident, path: List<Ident>, k: List<Atom>, names: Names)
    requires IsIntroducer(kw) && FollowsName(Bottom(Scope(false, true, false)), k, names)
    ensures Follows(Bottom(FRESH), K(kw, PrintTarget(name, path, Offered, {}, k)), names)
  {
    hide Good;
    TargetScan(name, path, Offered, {}, Bottom(Before(Offered)), Some(Word(Spelling(kw), false, kw)), k, names);
    IntroducerScan(Bottom(FRESH), Offered, kw, PrintTarget(name, path, Offered, {}, k), names);
  }

  lemma {:induction false} InsertScan(s: Statement, closed: bool, k: List<Atom>, names: Names)
    requires s.Insert? && QueryOk(s.q, closed) && Closes(Bottom(FRESH), false, k, names)
    ensures Follows(Bottom(FRESH), PrintStatement(s, k), names)
  {
    hide Good, PrintQuery, QueryOk;
    var done := Bottom(Behind(Offered));
    var source := PrintQuery(s.q, false, s.cols.Nil?, {}, k);
    GroundCloses(Bottom(FRESH), false, k, names);
    assert Closes(done, false, k, names) && Parent(done) == done;
    QueryStarts(s.q, closed, {}, done, k, names);
    ColsScan(s.cols, done, Some(s.name.Tok()), source, names);
    forall value, quoted ensures Good(done, Some(Word(value, quoted, Plain)), PrintCols(s.cols, source), names) {
      ColsScan(s.cols, done, Some(Word(value, quoted, Plain)), source, names);
    }
    TargetAfterScan(INTO, s.name, s.path, PrintCols(s.cols, source), names);
    WordScan(Bottom(FRESH), Word("insert", false, Plain),
             K(INTO, PrintTarget(s.name, s.path, Offered, {}, PrintCols(s.cols, source))), names);
  }

  /** A query behind a column list, or right behind a name. */
  lemma {:induction false} QueryStarts(q: Query, closed: bool, env: set<string>, st: Stack, k: List<Atom>, names: Names)
    requires QueryOk(q, closed) && Reads(st.top, false) && Closes(st, false, k, names)
    ensures Good(st, Some(RParen), PrintQuery(q, false, false, env, k), names)
    ensures NoPeriod(PrintQuery(q, false, false, env, k))
    ensures FollowsName(st, PrintQuery(q, false, true, env, k), names)
  {
    hide Good;
    QueryScan(q, closed, false, false, env, st, Some(RParen), k, names);
    QueryScan(q, closed, false, true, env, st, Some(Ident("x", false).Tok()), k, names);
    forall value, quoted ensures Good(st, Some(Word(value, quoted, Plain)), PrintQuery(q, false, true, env, k), names) {
      QueryScan(q, closed, false, true, env, st, Some(Word(value, quoted, Plain)), k, names);
    }
  }

  lemma {:induction false} CreateScan(s: Statement, closed: bool, k: List<Atom>, names: Names)
    requires s.CreateAs? && StatementOk(s, closed) && Closes(Bottom(FRESH), false, k, names)
    ensures Follows(Bottom(FRESH), PrintStatement(s, k), names)
  {
    hide Good, PrintQuery, QueryOk, PrintTarget;
    var done := Bottom(Behind(Offered));
    var source := PrintQuery(s.q, false, false, {}, k);
    GroundCloses(Bottom(FRESH), false, k, names);
    assert Closes(done, false, k, names);
    QueryScan(s.q, closed, false, false, {}, done, Some(Word("as", false, AS)), k, names);
    WordScan(done, Word("as", false, AS), source, names);
    TableScan(s.ifNotExists, true, s.name, s.path, K(AS, source), names);
    WordScan(Bottom(FRESH), Word("create", false, Plain), TableOf(s.ifNotExists, true, s.name, s.path, K(AS, source)),
        names);
  }

  lemma {:induction false} StatementScan(s: Statement, closed: bool, prev: Option<Token>, k: List<Atom>, names: Names)
    requires StatementOk(s, closed) && !OpensCall(prev) && Closes(Bottom(FRESH), false, k, names)
    ensures Good(Bottom(FRESH), prev, PrintStatement(s, k), names)
  {
    hide Good;
    var st := Bottom(FRESH);
    match s
    case Ask(q) =>
      QueryScan(q, closed, false, false, {}, st, prev, k, names);
    case Insert(_, _, _, _) =>
      InsertScan(s, closed, k, names);
    case Delete(name, path, clauses) =>
      var tail := PrintClauses(clauses, {}, k);
      ClausesScan(clauses, closed, false, {}, st, k, names);
      TargetAfterScan(FROM, name, path, tail, names);
      WordScan(st, Word("delete", false, Plain), K(FROM, PrintTarget(name, path, Offered, {}, tail)), names);
    case Update(name, path, clauses) =>
      ClausesScan(clauses, closed, false, {}, st, k, names);
      TargetAfterScan(UPDATE, name, path, PrintClauses(clauses, {}, k), names);
    case Drop(ifExists, name, path) =>
      TableScan(ifExists, false, name, path, k, names);
      WordScan(st, Word("drop", false, Plain), TableOf(ifExists, false, name, path, k), names);
    case CreateAs(_, _, _, _) =>
      CreateScan(s, closed, k, names);
  }

  /** `TABLE [IF [NOT] EXISTS] target`, the common part of DROP and CREATE. */
  ghost function TableOf(cond: bool, not: bool, name: Ident, path: List<Ident>, k: List<Atom>): List<Atom> {
    var target := PrintTarget(name, path, Offered, {}, k);
    K(TABLE, if !cond then target else K(IF, if not then K(NOT, K(EXISTS, target)) else K(EXISTS, target)))
  }

  lemma {:induction false} TableScan(cond: bool, not: bool, name: Ident, path: List<Ident>, k: List<Atom>, names: Names)
    requires Follows(Bottom(Scope(false, true, false)), k, names)
    ensures Follows(Bottom(FRESH), TableOf(cond, not, name, path, k), names)
  {
    hide Good;
    var table := Bottom(Before(Offered));
    var target := PrintTarget(name, path, Offered, {}, k);
    var tableTok := Word("table", false, TABLE);
    if !cond {
      TargetScan(name, path, Offered, {}, table, Some(tableTok), k, names);
      IntroducerScan(Bottom(FRESH), Offered, TABLE, target, names);
    } else {
      TargetScan(name, path, Offered, {}, table, Some(Word("exists", false, EXISTS)), k, names);
      FillerScan(table, Some(Word("not", false, NOT)), EXISTS, target, names);
      FillerScan(table, Some(Word("if", false, IF)), EXISTS, target, names);
      FillerScan(table, Some(Word("if", false, IF)), NOT, K(EXISTS, target), names);
      var rest := if not then K(NOT, K(EXISTS, target)) else K(EXISTS, target);
      FillerScan(table, Some(tableTok), IF, rest, names);
      IntroducerScan(Bottom(FRESH), Offered, TABLE, K(IF, rest), names);
    }
  }

  lemma {:induction false} SemiColonScan(k: List<Atom>, names: Names)
    requires Good(Bottom(FRESH), Some(SemiColon), k, names)
    ensures Closes(Bottom(FRESH), false, S(SemiColon, k), names)
  {
  }

  /** On every script the scanner marks exactly the atoms `Seen` names. */
  lemma {:induction false} ScriptScan(s: Script, closed: bool, prev: Option<Token>, names: Names)
    requires ScriptOk(s, closed) && !OpensCall(prev)
    ensures Good(Bottom(FRESH), prev, PrintScript(s), names)
    decreases s
  {
    hide Good;
    match s
    case Last(st) =>
      NilScan(names);
      StatementScan(st, closed, prev, Nil, names);
    case Then(st, rest) =>
      ScriptScan(rest, closed, Some(SemiColon), names);
      SemiColonScan(PrintScript(rest), names);
      StatementScan(st, closed, prev, S(SemiColon, PrintScript(rest)), names);
  }

  lemma {:induction false} NilScan(names: Names)
    ensures Closes(Bottom(FRESH), false, Nil, names)
  {
  }
}
