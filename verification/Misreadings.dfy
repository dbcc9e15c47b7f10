/** One family of scripts for each way a faithful reading can fail; `n` is the name of a suite table. */
module Misreadings {
  import opened Prelude
  import opened SqlTokens
  import opened Scanner
  import opened SqlTree
  import opened Qualification

  predicate Misread(s: Script, tables: set<string>) {
    var l := PrintScript(s);
    ScanMarks(Toks(l), tables) != Wanted(l, tables)
  }

  predicate Occurs(a: Atom, l: List<Atom>) {
    l.Cons? && (l.head == a || Occurs(a, l.tail))
  }

  lemma {:induction false} OneAtomIsEnough(a: Atom, l: List<Atom>, names: Names)
    requires Occurs(a, l) && !AtomFaithful(a, names)
    ensures !Faithful(l, names)
  {
    if l.head != a {
      OneAtomIsEnough(a, l.tail, names);
    }
  }

  function Named(n: string, role: Role): Atom { Atom(Word(n, false, Plain), role) }

  /** One reference that the scope and the scanner judge differently is enough for a misreading: a table the
      scanner looks at, bound but not collected or collected but not bound; a table it has no slot for; or
      a table function. The collector makes one set of names for the whole script. */
  lemma {:induction false} MisreadAt(s: Script, closed: bool, n: string, role: Role)
    requires ScriptOk(s, closed) && Occurs(Named(n, role), PrintScript(s))
    requires var collected := n in CteNames(START, Toks(PrintScript(s)));
             match role
             case TableName(slot, bound) => if slot.Offered? then bound != collected else !bound
             case FunctionName(slot) => slot.Offered? && !collected
             case _ => false
    ensures Misread(s, {n})
  {
    OneAtomIsEnough(Named(n, role), PrintScript(s), NamesFor(s, {n}));
    ScannerAgreesWithTree(s, closed, {n});
  }

  // ---- small trees and what they print ---------------------------------------------------------

  const ONE: Expr := Tok(Other("1"), Done)

  function Table(n: string): Factor { Base(false, Ident(n, false), Nil, NoAlias) }

  function Plainly(b: Body): Query { Query(false, NoCtes, b, NoClauses) }

  /** `SELECT <1> FROM <f> <links> <clauses>` */
  function From(f: Factor, links: Links, clauses: Clauses): Query { Plainly(SelectFrom(ONE, f, links, clauses)) }

  /** `SELECT <x>`, a constant. */
  function Constant(x: string): Query { Plainly(Select(Tok(Other(x), Done), NoClauses)) }

  /** `SELECT 1 FROM <n>` */
  function Read(n: string): Query { From(Table(n), NoLinks, NoClauses) }

  /** `WITH [RECURSIVE] <n> AS ( <q> ) <body>` */
  function With(recursive: bool, n: string, q: Query, body: Body): Query {
    Query(recursive, Cte(Ident(n, false), Nil, q, NoCtes), body, NoClauses)
  }

  function One(k: List<Atom>): List<Atom> { Picks("1", k) }

  function Behind(muted: bool): Slot { if muted then Muted else Offered }

  lemma {:induction false} OnePrints(closed: bool, prev: Token, env: set<string>, k: List<Atom>)
    ensures ExprOk(ONE, InClause, closed) && !ExprHasWith(ONE) && PrintExpr(ONE, prev, env, k) == S(Other("1"), k)
  {
  }

  lemma {:induction false} FromPrints(f: Factor, links: Links, clauses: Clauses, closed: bool, muted: bool,
                                      called: bool,
                                      env: set<string>, k: List<Atom>)
    ensures var q := From(f, links, clauses); var slot := Behind(muted);
            && PrintQuery(q, muted, called, env, k) == PrintBody(q.body, muted, called, env, k)
            == One(K(FROM, PrintFactor(f, slot, env, PrintLinks(links, slot, env, PrintClauses(clauses, env, k)))))
    ensures var q := From(f, links, clauses);
            && QueryOk(q, closed) == BodyOk(q.body, closed)
            == (FactorOk(f, closed) && LinksOk(links, closed) && ClausesOk(clauses, closed))
            && QueryHasWith(q) == (FactorHasWith(f) || LinksHaveWith(links) || ClausesHaveWith(clauses))
  {
    var slot := Behind(muted);
    var list := K(FROM, PrintFactor(f, slot, env, PrintLinks(links, slot, env, PrintClauses(clauses, env, k))));
    OnePrints(closed, Word("select", false, SELECT), env, list);
    hide PrintFactor, PrintLinks, FactorOk, LinksOk, FactorHasWith, LinksHaveWith, PrintExpr, ExprOk, ExprHasWith;
  }

  function Picks(x: string, k: List<Atom>): List<Atom> { K(SELECT, S(Other(x), k)) }

  lemma {:induction false} ConstantPrints(x: string, closed: bool, muted: bool, called: bool, env: set<string>,
                                        k: List<Atom>)
    ensures QueryOk(Constant(x), closed) && !QueryHasWith(Constant(x))
    ensures PrintQuery(Constant(x), muted, called, env, k) == Picks(x, k)
    ensures BodyOk(Constant(x).body, closed) && PrintBody(Constant(x).body, muted, called, env, k) == Picks(x, k)
  {
    var e := Constant(x).body.items;
    assert ExprOk(Done, InClause, closed) && ExprOk(e, InClause, closed) && !ExprHasWith(Done) && !ExprHasWith(e);
    assert !BodyHasWith(Constant(x).body) && !ClausesHaveWith(NoClauses);
    assert PrintExpr(e, Word("select", false, SELECT), env, k) == S(Other(x), PrintExpr(Done, Other(x), env, k));
  }

  lemma {:induction false} TablePrints(n: string, closed: bool, slot: Slot, env: set<string>, k: List<Atom>)
    ensures FactorOk(Table(n), closed) && !FactorHasWith(Table(n))
    ensures PrintFactor(Table(n), slot, env, k) == Cons(Named(n, TableName(slot, n in env)), k)
  {
  }

  function Reading(n: string, role: Role, k: List<Atom>): List<Atom> {
    One(K(FROM, Cons(Named(n, role), k)))
  }

  lemma {:induction false} ReadPrints(n: string, closed: bool, muted: bool, called: bool, env: set<string>,
                                      k: List<Atom>)
    ensures QueryOk(Read(n), closed) && BodyOk(Read(n).body, closed) && !QueryHasWith(Read(n))
    ensures PrintQuery(Read(n), muted, called, env, k) == PrintBody(Read(n).body, muted, called, env, k)
            == Reading(n, TableName(Behind(muted), n in env), k)
  {
    FromPrints(Table(n), NoLinks, NoClauses, closed, muted, called, env, k);
    TablePrints(n, closed, Behind(muted), env, k);
  }

  /** `WITH [RECURSIVE] <n> AS ( <one or read> )` in front of `k`. */
  function Listed(recursive: bool, n: string, inner: List<Atom>): List<Atom> {
    var list := Cons(Named(n, CteName(!recursive)), K(AS, S(LParen, inner)));
    K(WITH, if recursive then Cons(Named("recursive", RecursiveWord), list) else list)
  }

  lemma {:induction false} WithPrints(recursive: bool, n: string, q: Query, body: Body, closed: bool, muted: bool,
                                      called: bool,
                                      env: set<string>, k: List<Atom>)
    ensures var scope := if recursive then env + {n} else env;
            var main := PrintBody(body, muted, false, env + {n}, k);
            PrintQuery(With(recursive, n, q, body), muted, called, env, k)
            == Listed(recursive, n, PrintQuery(q, false, false, scope, S(RParen, main)))
    ensures QueryOk(With(recursive, n, q, body), closed)
            <==> QueryOk(q, closed) && BodyOk(body, closed) && (closed ==> Unwrapped(body))
    ensures QueryHasWith(With(recursive, n, q, body))
  {
    var w := With(recursive, n, q, body);
    var main := PrintBody(body, muted, false, env + {n}, k);
    OnlyName(w.ctes);
    assert PrintClauses(NoClauses, env + {n}, k) == k;
    hide PrintBody, QueryOk, BodyOk, QueryHasWith;
    CtePrints(n, q, !recursive, recursive, env, main);
    HeadPrints(w, muted, called, env, k);
    WithOk(w, closed);
  }

  lemma {:induction false} OnlyName(c: Ctes)
    ensures c.Cte? && c.rest.NoCtes? ==> ListNames(c) == {c.name.value}
  {
  }

  lemma {:induction false} CtePrints(n: string, q: Query, reached: bool, recursive: bool, env: set<string>,
                                     k: List<Atom>)
    ensures PrintCtes(Cte(Ident(n, false), Nil, q, NoCtes), reached, recursive, env, k)
            == Cons(Named(n, CteName(reached)),
                    K(AS, S(LParen, PrintQuery(q, false, false, if recursive then env + {n} else env, S(RParen, k)))))
  {
    hide PrintQuery;
  }

  lemma {:induction false} HeadPrints(q: Query, muted: bool, called: bool, env: set<string>, k: List<Atom>)
    requires q.ctes.Cte?
    ensures var inner := env + ListNames(q.ctes);
            var list := PrintCtes(q.ctes, !q.recursive, q.recursive, env,
                PrintBody(q.body, muted, false, inner, PrintClauses(q.tail, inner, k)));
            PrintQuery(q, muted, called, env, k)
            == K(WITH, if q.recursive then Cons(Named("recursive", RecursiveWord), list) else list)
  {
    hide PrintCtes, PrintBody, PrintClauses;
  }

  lemma {:induction false} WithOk(q: Query, closed: bool)
    requires q.ctes.Cte? && q.ctes.rest.NoCtes? && q.tail.NoClauses?
    ensures QueryOk(q, closed)
            <==> QueryOk(q.ctes.q, closed) && BodyOk(q.body, closed) && (closed ==> Unwrapped(q.body))
    ensures QueryHasWith(q)
  {
    hide BodyOk;
    assert CtesOk(q.ctes, closed) == QueryOk(q.ctes.q, closed);
  }

  // ---- following the printed words -------------------------------------------------------------

  /** `a` is printed, and `n` is recorded or not. */
  predicate Shape(l: List<Atom>, a: Atom, n: string, recorded: bool) {
    Occurs(a, l) && (n in RecordedNames(l) <==> recorded)
  }

  lemma {:induction false} Past(t: Token, k: List<Atom>, a: Atom, n: string)
    ensures forall recorded: bool :: Shape(k, a, n, recorded) ==> Shape(S(t, k), a, n, recorded)
  {
  }

  lemma {:induction false} PastConstant(x: string, k: List<Atom>, a: Atom, n: string)
    ensures forall recorded: bool :: Shape(k, a, n, recorded) ==> Shape(Picks(x, k), a, n, recorded)
  {
    hide Shape;
    Past(Other(x), k, a, n);
    Past(Word("select", false, SELECT), S(Other(x), k), a, n);
  }

  lemma {:induction false} ShapeOfReading(m: string, role: Role, k: List<Atom>, n: string)
    requires role.TableName?
    ensures n in RecordedNames(k) <==> n in RecordedNames(Reading(m, role, k))
    ensures Shape(Reading(m, role, k), Named(m, role), n, n in RecordedNames(k))
  {
    var list := Cons(Named(m, role), k);
    var recorded := n in RecordedNames(k);
    assert Shape(list, Named(m, role), n, recorded);
    hide Shape;
    Past(Word("from", false, FROM), list, Named(m, role), n);
    PastConstant("1", K(FROM, list), Named(m, role), n);
    ShapeRecords(Reading(m, role, k), Named(m, role), n, recorded);
  }

  lemma {:induction false} ShapeRecords(l: List<Atom>, a: Atom, n: string, recorded: bool)
    requires Shape(l, a, n, recorded)
    ensures n in RecordedNames(l) <==> recorded
  {
  }

  lemma {:induction false} PastListed(recursive: bool, m: string, inner: List<Atom>, a: Atom, n: string, recorded: bool)
    requires n != "recursive" && Shape(inner, a, n, recorded)
    ensures Shape(Listed(recursive, m, inner), a, n, recorded || (!recursive && m == n))
  {
    var list := Cons(Named(m, CteName(!recursive)), K(AS, S(LParen, inner)));
    Past(LParen, inner, a, n);
    Past(Word("as", false, AS), S(LParen, inner), a, n);
    assert Shape(list, a, n, recorded || (!recursive && m == n));
    Past(Word("with", false, WITH), list, a, n);
    if recursive {
      var more := Cons(Named("recursive", RecursiveWord), list);
      assert Shape(more, a, n, recorded);
      Past(Word("with", false, WITH), more, a, n);
    }
  }

  lemma {:induction false} NothingRecorded(n: string)
    ensures n !in RecordedNames(Nil)
  {
  }

  /** A misreading of a script whose WITH lists are followed by SELECT. */
  lemma {:induction false} MisreadShape(s: Script, n: string, role: Role, recorded: bool)
    requires ScriptOk(s, true) && Shape(PrintScript(s), Named(n, role), n, recorded)
    requires role == TableName(Offered, !recorded) || (role == FunctionName(Offered) && !recorded)
    ensures Misread(s, {n})
  {
    CollectorOnScript(s);
    MisreadAt(s, true, n, role);
  }

  function Ask1(q: Query): Script { Last(Ask(q)) }

  lemma {:induction false} AskPrints(q: Query, closed: bool)
    ensures PrintScript(Ask1(q)) == PrintQuery(q, false, false, {}, Nil)
            && (ScriptOk(Ask1(q), closed) <==> QueryOk(q, closed))
  {
  }

  // ---- the misreadings -------------------------------------------------------------------------

  /** `WITH RECURSIVE n AS (SELECT 1) SELECT 1 FROM n`: after RECURSIVE the collector loses the list. */
  function RecursiveWith(n: string): Script { Ask1(With(true, n, Constant(n), Read(n).body)) }

  lemma {:induction false} RecursiveWithIsMisread(n: string)
    requires n != "recursive"
    ensures Misread(RecursiveWith(n), {n})
  {
    hide Misread, QueryOk, PrintQuery, PrintScript, ScriptOk, Shape;
    var role, q := TableName(Offered, true), With(true, n, Constant(n), Read(n).body);
    var main := Reading(n, role, Nil);
    AskPrints(q, true);
    WithPrints(true, n, Constant(n), Read(n).body, true, false, false, {}, Nil);
    ReadPrints(n, true, false, false, {} + {n}, Nil);
    ConstantPrints(n, true, false, false, {} + {n}, S(RParen, main));
    NothingRecorded(n);
    ShapeOfReading(n, role, Nil, n);
    Past(RParen, main, Named(n, role), n);
    PastConstant(n, S(RParen, main), Named(n, role), n);
    PastListed(true, n, Picks(n, S(RParen, main)), Named(n, role), n, false);
    MisreadShape(RecursiveWith(n), n, role, false);
  }

  /** `WITH n AS (SELECT 1 FROM n) SELECT 1`: the CTE reads the table it is named after. */
  function SelfNamed(n: string): Script { Ask1(With(false, n, Read(n), Constant(n).body)) }

  lemma {:induction false} SelfNamedIsMisread(n: string)
    requires n != "recursive"
    ensures Misread(SelfNamed(n), {n})
  {
    hide Misread, QueryOk, PrintQuery, PrintScript, ScriptOk, Shape;
    var role, q := TableName(Offered, false), With(false, n, Read(n), Constant(n).body);
    var main := Picks(n, Nil);
    AskPrints(q, true);
    WithPrints(false, n, Read(n), Constant(n).body, true, false, false, {}, Nil);
    ReadPrints(n, true, false, false, {}, S(RParen, main));
    ConstantPrints(n, true, false, false, {} + {n}, Nil);
    RecordsNothing(n, n);
    ShapeOfReading(n, role, S(RParen, main), n);
    PastListed(false, n, Reading(n, role, S(RParen, main)), Named(n, role), n, false);
    MisreadShape(SelfNamed(n), n, role, true);
  }

  lemma {:induction false} RecordsNothing(x: string, n: string)
    ensures n !in RecordedNames(S(RParen, Picks(x, Nil)))
  {
    assert RecordedNames(S(Other(x), Nil)) == {};
    assert RecordedNames(Picks(x, Nil)) == {};
  }

  /** `SELECT 1 FROM n()`: a table function named like a suite table is qualified. */
  function TableFunction(n: string): Script { Ask1(From(Func(Ident(n, false), Done, NoAlias), NoLinks, NoClauses)) }

  lemma {:induction false} TableFunctionIsMisread(n: string)
    ensures Misread(TableFunction(n), {n})
  {
    var f := Func(Ident(n, false), Done, NoAlias);
    FromPrints(f, NoLinks, NoClauses, true, false, false, {}, Nil);
    AskPrints(From(f, NoLinks, NoClauses), true);
    FuncPrints(n, true, Nil);
    hide Misread, QueryOk, PrintQuery, PrintScript, ScriptOk, PrintFactor;
    var a, rest := Named(n, FunctionName(Offered)), S(LParen, S(RParen, Nil));
    assert Shape(Cons(a, rest), a, n, false) by { assert RecordedNames(S(RParen, Nil)) == {} == RecordedNames(rest); }
    hide Shape;
    Past(Word("from", false, FROM), Cons(a, rest), a, n);
    PastConstant("1", K(FROM, Cons(a, rest)), a, n);
    MisreadShape(TableFunction(n), n, FunctionName(Offered), false);
  }

  lemma {:induction false} FuncPrints(n: string, closed: bool, k: List<Atom>)
    ensures var f := Func(Ident(n, false), Done, NoAlias);
            FactorOk(f, closed) && PrintFactor(f, Offered, {}, k)
                == Cons(Named(n, FunctionName(Offered)), S(LParen, S(RParen, k)))
  {
  }

  /** `SELECT 1 FROM (n)`: the first table of a parenthesised join is missed. */
  function ParenthesisedJoin(n: string): Script { Ask1(From(Joined(Table(n), NoLinks, NoAlias), NoLinks, NoClauses)) }

  lemma {:induction false} ParenthesisedJoinIsMisread(n: string)
    ensures Misread(ParenthesisedJoin(n), {n})
  {
    var f := Joined(Table(n), NoLinks, NoAlias);
    FromPrints(f, NoLinks, NoClauses, true, false, false, {}, Nil);
    AskPrints(From(f, NoLinks, NoClauses), true);
    TablePrints(n, true, Leading, {}, S(RParen, Nil));
    var a := Named(n, TableName(Leading, false));
    assert PrintFactor(f, Offered, {}, Nil) == S(LParen, Cons(a, S(RParen, Nil)));
    assert FactorOk(f, true);
    hide Misread, QueryOk, PrintQuery, PrintScript, ScriptOk, PrintFactor;
    Later(LParen, Cons(a, S(RParen, Nil)), a);
    Later(Word("from", false, FROM), S(LParen, Cons(a, S(RParen, Nil))), a);
    LaterThanConstant("1", K(FROM, S(LParen, Cons(a, S(RParen, Nil)))), a);
    MisreadAt(ParenthesisedJoin(n), true, n, TableName(Leading, false));
  }

  lemma {:induction false} Later(t: Token, k: List<Atom>, a: Atom)
    requires Occurs(a, k)
    ensures Occurs(a, S(t, k))
  {
  }

  lemma {:induction false} LaterThanConstant(x: string, k: List<Atom>, a: Atom)
    requires Occurs(a, k)
    ensures Occurs(a, Picks(x, k))
  {
    Later(Other(x), k, a);
    Later(Word("select", false, SELECT), S(Other(x), k), a);
  }

  /** `WITH n AS (SELECT 1) SELECT 1; SELECT 1 FROM n`: a CTE of one statement hides the table of the next. */
  function TwoStatements(n: string): Script {
    Then(Ask(With(false, n, Constant(n), Constant(n).body)), Ask1(Read(n)))
  }

  lemma {:induction false} TwoStatementsAreMisread(n: string)
    requires n != "recursive"
    ensures Misread(TwoStatements(n), {n})
  {
    var role, q := TableName(Offered, false), With(false, n, Constant(n), Constant(n).body);
    var second := S(SemiColon, Reading(n, role, Nil));
    ThenPrints(q, Ask1(Read(n)), true);
    hide Misread, QueryOk, PrintQuery, PrintScript, ScriptOk, Shape;
    AskPrints(Read(n), true);
    ReadPrints(n, true, false, false, {}, Nil);
    WithPrints(false, n, Constant(n), Constant(n).body, true, false, false, {}, second);
    ConstantPrints(n, true, false, false, {} + {n}, second);
    ConstantPrints(n, true, false, false, {}, S(RParen, Picks(n, second)));
    NothingRecorded(n);
    ShapeOfReading(n, role, Nil, n);
    Past(SemiColon, Reading(n, role, Nil), Named(n, role), n);
    PastConstant(n, second, Named(n, role), n);
    Past(RParen, Picks(n, second), Named(n, role), n);
    PastConstant(n, S(RParen, Picks(n, second)), Named(n, role), n);
    PastListed(false, n, Picks(n, S(RParen, Picks(n, second))), Named(n, role), n, false);
    MisreadShape(TwoStatements(n), n, role, true);
  }

  lemma {:induction false} ThenPrints(q: Query, s: Script, closed: bool)
    ensures PrintScript(Then(Ask(q), s)) == PrintQuery(q, false, false, {}, S(SemiColon, PrintScript(s)))
    ensures ScriptOk(Then(Ask(q), s), closed) <==> QueryOk(q, closed) && ScriptOk(s, closed)
  {
    hide PrintQuery, QueryOk;
  }

  /** `SELECT 1 FROM (WITH n AS (SELECT 1) SELECT 1), n`: a CTE of a derived table hides the table outside it. */
  function OutOfScope(n: string): Script {
    Ask1(From(Derived(false, With(false, n, Constant(n), Constant(n).body), NoAlias), CommaLink(Table(n), NoLinks),
        NoClauses))
  }

  lemma {:induction false} OutOfScopeIsMisread(n: string)
    requires n != "recursive"
    ensures Misread(OutOfScope(n), {n})
  {
    var role := TableName(Offered, false);
    var a := Named(n, role);
    var after := S(RParen, S(Comma, Cons(a, Nil)));
    var table := Listed(false, n, Picks(n, S(RParen, Picks(n, after))));
    hide Misread, PrintScript, ScriptOk, Shape;
    OutOfScopePrints(n);
    JustRead(n, role);
    Past(Comma, Cons(a, Nil), a, n);
    Past(RParen, S(Comma, Cons(a, Nil)), a, n);
    PastConstant(n, after, a, n);
    Past(RParen, Picks(n, after), a, n);
    PastConstant(n, S(RParen, Picks(n, after)), a, n);
    PastListed(false, n, Picks(n, S(RParen, Picks(n, after))), a, n, false);
    Past(LParen, table, a, n);
    Past(Word("from", false, FROM), S(LParen, table), a, n);
    PastConstant("1", K(FROM, S(LParen, table)), a, n);
    MisreadShape(OutOfScope(n), n, role, true);
  }

  lemma {:induction false} OutOfScopePrints(n: string)
    ensures var after := S(RParen, S(Comma, Cons(Named(n, TableName(Offered, false)), Nil)));
            PrintScript(OutOfScope(n))
                == One(K(FROM, S(LParen, Listed(false, n, Picks(n, S(RParen, Picks(n, after)))))))
    ensures ScriptOk(OutOfScope(n), true)
  {
    hide QueryOk, PrintQuery, PrintScript, ScriptOk, PrintFactor, PrintLinks, FactorOk, LinksOk, PrintBody, BodyOk,
        PrintClauses, ClausesOk;
    var q := With(false, n, Constant(n), Constant(n).body);
    var f, links := Derived(false, q, NoAlias), CommaLink(Table(n), NoLinks);
    var after := S(RParen, S(Comma, Cons(Named(n, TableName(Offered, false)), Nil)));
    ConstantPrints(n, true, false, false, {} + {n}, after);
    ConstantPrints(n, true, false, false, {}, S(RParen, Picks(n, after)));
    WithPrints(false, n, Constant(n), Constant(n).body, true, false, false, {}, after);
    DerivedPrints(q, n, true, Nil);
    NoClause({}, Nil, true);
    FromPrints(f, links, NoClauses, true, false, false, {}, Nil);
    AskPrints(From(f, links, NoClauses), true);
  }

  lemma {:induction false} NoClause(env: set<string>, k: List<Atom>, closed: bool)
    ensures PrintClauses(NoClauses, env, k) == k && ClausesOk(NoClauses, closed)
  {
  }

  lemma {:induction false} JustRead(n: string, role: Role)
    requires role.TableName?
    ensures Shape(Cons(Named(n, role), Nil), Named(n, role), n, false)
  {
  }

  /** `( <q> ), <n>` */
  lemma {:induction false} DerivedPrints(q: Query, n: string, closed: bool, k: List<Atom>)
    ensures var after := S(RParen, S(Comma, Cons(Named(n, TableName(Offered, false)), k)));
            PrintFactor(Derived(false, q, NoAlias), Offered, {},
                PrintLinks(CommaLink(Table(n), NoLinks), Offered, {}, k))
            == S(LParen, PrintQuery(q, false, false, {}, after))
    ensures FactorOk(Derived(false, q, NoAlias), closed) <==> QueryOk(q, closed)
    ensures LinksOk(CommaLink(Table(n), NoLinks), closed)
  {
    TablePrints(n, closed, Offered, {}, k);
    assert PrintLinks(NoLinks, Offered, {}, k) == k;
    hide PrintQuery, QueryOk;
  }

  /** `WITH a AS (WITH b AS (SELECT 1) SELECT 1), n AS (SELECT 1) SELECT 1 FROM n`: after a CTE that itself
      holds a WITH, the rest of the list is lost to the collector. */
  function NestedWith(n: string): Script {
    var a, b := n + "a", n + "b";
    var inner := With(false, b, Constant(n), Constant(n).body);
    Ask1(Query(false, Cte(Ident(a, false), Nil, inner, Cte(Ident(n, false), Nil, Constant(n), NoCtes)), Read(n).body,
        NoClauses))
  }

  lemma {:induction false} NestedWithIsMisread(n: string)
    requires n != "recursive"
    ensures Misread(NestedWith(n), {n})
  {
    var a, b, role := n + "a", n + "b", TableName(Offered, true);
    var inner := With(false, b, Constant(n), Constant(n).body);
    var ctes := Cte(Ident(a, false), Nil, inner, Cte(Ident(n, false), Nil, Constant(n), NoCtes));
    var q := Query(false, ctes, Read(n).body, NoClauses);
    var main := Reading(n, role, Nil);
    var second := Cons(Named(n, CteName(false)), K(AS, S(LParen, Picks(n, S(RParen, main)))));
    var after := S(RParen, S(Comma, second));
    var nested := Listed(false, b, Picks(n, S(RParen, Picks(n, after))));
    assert |a| == |b| == |n| + 1;
    hide Misread, QueryOk, PrintQuery, PrintScript, ScriptOk, Shape, PrintBody, BodyOk, QueryHasWith;
    AskPrints(q, true);
    NoClause({} + ListNames(ctes), Nil, true);
    TwoNames(ctes);
    HeadPrints(q, false, false, {}, Nil);
    ReadPrints(n, true, false, false, {} + ListNames(ctes), Nil);
    WithPrints(false, b, Constant(n), Constant(n).body, true, false, false, {}, after);
    TwoCtesPrint(a, inner, n, Constant(n), main);
    ConstantPrints(n, true, false, false, {} + {a}, S(RParen, main));
    ConstantPrints(n, true, false, false, {} + {b}, after);
    ConstantPrints(n, true, false, false, {}, S(RParen, Picks(n, after)));
    TwoCtesOk(q, true);
    NothingRecorded(n);
    ShapeOfReading(n, role, Nil, n);
    Past(RParen, main, Named(n, role), n);
    PastConstant(n, S(RParen, main), Named(n, role), n);
    PastCte(n, false, Picks(n, S(RParen, main)), Named(n, role), n, false);
    Past(Comma, second, Named(n, role), n);
    Past(RParen, S(Comma, second), Named(n, role), n);
    PastConstant(n, after, Named(n, role), n);
    Past(RParen, Picks(n, after), Named(n, role), n);
    PastConstant(n, S(RParen, Picks(n, after)), Named(n, role), n);
    PastListed(false, b, Picks(n, S(RParen, Picks(n, after))), Named(n, role), n, false);
    PastListed(false, a, nested, Named(n, role), n, false);
    MisreadShape(NestedWith(n), n, role, false);
  }

  lemma {:induction false} TwoNames(c: Ctes)
    requires c.Cte? && c.rest.Cte? && c.rest.rest.NoCtes?
    ensures ListNames(c) == {c.name.value, c.rest.name.value}
  {
    OnlyName(c.rest);
  }

  lemma {:induction false} TwoCtesPrint(a: string, q: Query, b: string, r: Query, k: List<Atom>)
    requires QueryHasWith(q)
    ensures var second := Cons(Named(b, CteName(false)),
            K(AS, S(LParen, PrintQuery(r, false, false, {} + {a}, S(RParen, k)))));
            PrintCtes(Cte(Ident(a, false), Nil, q, Cte(Ident(b, false), Nil, r, NoCtes)), true, false, {}, k)
            == Cons(Named(a, CteName(true)),
                K(AS, S(LParen, PrintQuery(q, false, false, {}, S(RParen, S(Comma, second))))))
  {
    CtePrints(b, r, false, false, {} + {a}, k);
    hide PrintQuery;
  }

  lemma {:induction false} TwoCtesOk(q: Query, closed: bool)
    requires q.ctes.Cte? && q.ctes.rest.Cte? && q.ctes.rest.rest.NoCtes? && q.tail.NoClauses? && Unwrapped(q.body)
    ensures QueryOk(q, closed)
            <==> QueryOk(q.ctes.q, closed) && QueryOk(q.ctes.rest.q, closed) && BodyOk(q.body, closed)
  {
    hide BodyOk;
    assert CtesOk(q.ctes.rest, closed) == QueryOk(q.ctes.rest.q, closed);
  }

  lemma {:induction false} PastCte(m: string, reached: bool, inner: List<Atom>, a: Atom, n: string, recorded: bool)
    requires Shape(inner, a, n, recorded)
    ensures Shape(Cons(Named(m, CteName(reached)), K(AS, S(LParen, inner))), a, n, recorded || (reached && m == n))
  {
    Past(LParen, inner, a, n);
    Past(Word("as", false, AS), S(LParen, inner), a, n);
  }

  // ---- subqueries taken for calls ----------------------------------------------------------------

  /** `SELECT 1 FROM t <kw> <e>` */
  function FromWith(n: string, kw: ClauseKeyword, e: Expr): Script {
    Ask1(From(Table(n + "t"), NoLinks, Clause(kw, e, NoClauses)))
  }

  lemma {:induction false} MutedIsMisread(n: string, kw: ClauseKeyword, e: Expr)
    requires ExprOk(e, InClause, true)
    requires Occurs(Named(n, TableName(Muted, false)), PrintExpr(e, Word(Spelling(kw), false, kw), {}, Nil))
    ensures Misread(FromWith(n, kw, e), {n})
  {
    var printed := PrintExpr(e, Word(Spelling(kw), false, kw), {}, Nil);
    var a, other := Named(n, TableName(Muted, false)), Named(n + "t", TableName(Offered, false));
    hide Misread, PrintScript, ScriptOk, PrintExpr, ExprOk, Spelling;
    FromWithPrints(n, kw, e);
    Later(Word(Spelling(kw), false, kw), printed, a);
    assert Occurs(a, Cons(other, K(kw, printed)));
    FromIsFrom();
    Later(Word("from", false, FROM), Cons(other, K(kw, printed)), a);
    LaterThanConstant("1", K(FROM, Cons(other, K(kw, printed))), a);
    MisreadAt(FromWith(n, kw, e), true, n, TableName(Muted, false));
  }

  lemma {:induction false} FromIsFrom()
    ensures Spelling(FROM) == "from"
  {
  }

  lemma {:induction false} FromWithPrints(n: string, kw: ClauseKeyword, e: Expr)
    requires ExprOk(e, InClause, true)
    ensures var printed := PrintExpr(e, Word(Spelling(kw), false, kw), {}, Nil);
            PrintScript(FromWith(n, kw, e))
                == One(K(FROM, Cons(Named(n + "t", TableName(Offered, false)), K(kw, printed))))
    ensures ScriptOk(FromWith(n, kw, e), true)
  {
    hide QueryOk, PrintQuery, PrintScript, ScriptOk, PrintExpr, ExprOk, PrintClauses, ClausesOk, Spelling;
    var clauses, t := Clause(kw, e, NoClauses), Table(n + "t");
    var printed := PrintExpr(e, Word(Spelling(kw), false, kw), {}, Nil);
    OneClause(kw, e);
    TablePrints(n + "t", true, Offered, {}, K(kw, printed));
    NoLink(K(kw, printed));
    FromPrints(t, NoLinks, clauses, true, false, false, {}, Nil);
    AskPrints(From(t, NoLinks, clauses), true);
  }

  lemma {:induction false} OneClause(kw: ClauseKeyword, e: Expr)
    requires ExprOk(e, InClause, true)
    ensures PrintClauses(Clause(kw, e, NoClauses), {}, Nil)
            == K(kw, PrintExpr(e, Word(Spelling(kw), false, kw), {}, Nil))
    ensures ClausesOk(Clause(kw, e, NoClauses), true)
  {
    hide Spelling;
    NoClause({}, Nil, true);
  }

  lemma {:induction false} NoLink(k: List<Atom>)
    ensures PrintLinks(NoLinks, Offered, {}, k) == k && LinksOk(NoLinks, true)
  {
  }

  lemma {:induction false} OccursInReading(n: string, role: Role, k: List<Atom>)
    ensures Occurs(Named(n, role), Reading(n, role, k))
  {
    Later(Word("from", false, FROM), Cons(Named(n, role), k), Named(n, role));
    LaterThanConstant("1", K(FROM, Cons(Named(n, role), k)), Named(n, role));
  }

  lemma {:induction false} SubPrints(n: string, prev: Token)
    requires !BeforeQuery(prev)
    ensures ExprOk(Sub(Read(n), Done), InClause, true)
    ensures Occurs(Named(n, TableName(Muted, false)), PrintExpr(Sub(Read(n), Done), prev, {}, Nil))
  {
    ReadPrints(n, true, true, false, {}, S(RParen, Nil));
    OccursInReading(n, TableName(Muted, false), S(RParen, Nil));
    Later(LParen, Reading(n, TableName(Muted, false), S(RParen, Nil)), Named(n, TableName(Muted, false)));
  }

  /** `SELECT 1 FROM t LIMIT (SELECT 1 FROM n)`: behind LIMIT, OFFSET, GROUP and the other clause words that
      are no openers, a subquery is taken for a call. */
  lemma {:induction false} ClauseIsMisread(n: string, kw: ClauseKeyword)
    requires kw !in QUERY_WORDS
    ensures Misread(FromWith(n, kw, Sub(Read(n), Done)), {n})
  {
    hide Misread;
    SubPrints(n, Word(Spelling(kw), false, kw));
    MutedIsMisread(n, kw, Sub(Read(n), Done));
  }

  /** `SELECT 1 FROM t WHERE c LIKE (SELECT 1 FROM n)`: so it is behind LIKE and any other word that is no
      opener. */
  lemma {:induction false} WordIsMisread(n: string, w: Token)
    requires TokOk(w, InClause) && !BeforeQuery(w)
    ensures Misread(FromWith(n, WHERE, Tok(w, Sub(Read(n), Done))), {n})
  {
    var e := Tok(w, Sub(Read(n), Done));
    SubPrints(n, w);
    assert PrintExpr(e, Word(Spelling(WHERE), false, WHERE), {}, Nil) == S(w, PrintExpr(e.rest, w, {}, Nil));
    hide Misread, PrintExpr, Spelling;
    Later(w, PrintExpr(e.rest, w, {}, Nil), Named(n, TableName(Muted, false)));
    MutedIsMisread(n, WHERE, e);
  }

  /** `INSERT INTO t (SELECT 1 FROM n)`: the source of an INSERT without columns is taken for a call as well. */
  function InsertFrom(n: string): Script { Last(Insert(Ident(n + "t", false), Nil, Nil, Plainly(Wrapped(Read(n))))) }

  lemma {:induction false} InsertIsMisread(n: string)
    ensures Misread(InsertFrom(n), {n})
  {
    var q, a := Plainly(Wrapped(Read(n))), Named(n, TableName(Muted, false));
    var source := S(LParen, Reading(n, TableName(Muted, false), S(RParen, Nil)));
    var target := Cons(Named(n + "t", TableName(Offered, false)), source);
    WrappedPrints(Read(n), true, Nil);
    ReadPrints(n, true, true, false, {}, S(RParen, Nil));
    InsertPrints(n + "t", q, true);
    OccursInReading(n, TableName(Muted, false), S(RParen, Nil));
    hide Misread, PrintScript, ScriptOk, QueryOk, PrintQuery;
    Later(LParen, Reading(n, TableName(Muted, false), S(RParen, Nil)), a);
    assert Occurs(a, target);
    Later(Word("into", false, INTO), target, a);
    Later(Word("insert", false, Plain), K(INTO, target), a);
    MisreadAt(InsertFrom(n), true, n, TableName(Muted, false));
  }

  lemma {:induction false} WrappedPrints(q: Query, closed: bool, k: List<Atom>)
    ensures PrintQuery(Plainly(Wrapped(q)), false, true, {}, k)
            == S(LParen, PrintQuery(q, true, false, {}, S(RParen, k)))
    ensures QueryOk(Plainly(Wrapped(q)), closed) <==> QueryOk(q, closed)
  {
  }

  lemma {:induction false} InsertPrints(t: string, q: Query, closed: bool)
    ensures var s := Last(Insert(Ident(t, false), Nil, Nil, q));
            && PrintScript(s) == W("insert",
                K(INTO, Cons(Named(t, TableName(Offered, false)), PrintQuery(q, false, true, {}, Nil))))
            && (ScriptOk(s, closed) <==> QueryOk(q, closed))
  {
    hide PrintQuery, QueryOk;
  }
}
