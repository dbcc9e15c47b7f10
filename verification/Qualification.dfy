/** The qualifier against its reference: which tokens of a script are base-table references. */
module Qualification {
  import opened Prelude
  import opened SqlTokens
  import opened Scanner
  import opened SqlTree
  import opened ScanAgreement
  import opened CollectAgreement

  // ---- the reference -----------------------------------------------------------------------

  /** A bare reference to a suite table that no CTE in its scope binds. */
  predicate Wants(a: Atom, tables: set<string>) {
    a.role.TableName? && !a.role.bound && a.tok.Word? && a.tok.value in tables
  }

  function Wanted(l: List<Atom>, tables: set<string>): seq<bool> {
    match l
    case Nil => []
    case Cons(a, rest) => [Wants(a, tables)] + Wanted(rest, tables)
  }

  // ---- where the scanner and the reference part --------------------------------------------

  /** The exact conditions under which one atom is read as the reference reads it: where the scanner has a
      slot for tables, its one set of collected names must give the answer that the scope gives, and a
      table function must not be named like a suite table; where it has none, a suite table must be
      bound. */
  predicate AtomFaithful(a: Atom, names: Names) {
    a.tok.Word? && a.tok.value in names.tables ==>
      match a.role
      case TableName(slot, bound) => if slot.Offered? then bound <==> a.tok.value in names.ctes else bound
      case FunctionName(slot) => !slot.Offered? || a.tok.value in names.ctes
      case _ => true
  }

  predicate Faithful(l: List<Atom>, names: Names) {
    l.Cons? ==> AtomFaithful(l.head, names) && Faithful(l.tail, names)
  }

  function RecordedNames(l: List<Atom>): set<string> {
    match l
    case Nil => {}
    case Cons(a, rest) =>
      (if Recorded(a.role) && a.tok.Word? then {a.tok.value} else {}) + RecordedNames(rest)
  }

  function SeenMarks(l: List<Atom>, names: Names): seq<bool> {
    match l
    case Nil => []
    case Cons(a, rest) => [Seen(a, names)] + SeenMarks(rest, names)
  }

  lemma {:induction false} GoodMarks(st: Stack, prev: Option<Token>, l: List<Atom>, names: Names)
    requires Good(st, prev, l, names)
    ensures Marks(st, prev, Toks(l), names) == SeenMarks(l, names)
    decreases l
  {
    if l.Cons? {
      var next := if l.tail.Nil? then None else Some(l.tail.head.tok);
      assert Head(Toks(l.tail)) == next;
      var o := Step(st, prev, l.head.tok, next, names);
      GoodMarks(o.stack, Some(l.head.tok), l.tail, names);
    }
  }

  lemma {:induction false} GatheredNames(c: Collector, l: List<Atom>)
    requires Gathers(c, l)
    ensures CteNames(c, Toks(l)) == RecordedNames(l)
    decreases l
  {
    if l.Cons? {
      GatheredNames(CollectStep(c, l.head.tok), l.tail);
    }
  }

  lemma {:induction false} SeenIsWanted(l: List<Atom>, names: Names)
    ensures |SeenMarks(l, names)| == |Wanted(l, names.tables)|
    ensures SeenMarks(l, names) == Wanted(l, names.tables) <==> Faithful(l, names)
  {
    if l.Cons? {
      SeenIsWanted(l.tail, names);
      var s, w := SeenMarks(l, names), Wanted(l, names.tables);
      assert s[0] == Seen(l.head, names) && w[0] == Wants(l.head, names.tables);
      assert s[1..] == SeenMarks(l.tail, names) && w[1..] == Wanted(l.tail, names.tables);
    }
  }

  /** The names the qualifier works with on a script. */
  function NamesFor(s: Script, tables: set<string>): Names {
    Names(tables, CteNames(START, Toks(PrintScript(s))))
  }

  /** When every WITH list is followed by SELECT or VALUES, the CTE names the scanner works with are those
      the tree marks as recorded. */
  lemma {:induction false} CollectorOnScript(s: Script)
    requires ScriptOk(s, true)
    ensures CteNames(START, Toks(PrintScript(s))) == RecordedNames(PrintScript(s))
  {
    ScriptGather(s);
    GatheredNames(START, PrintScript(s));
  }

  /** On the tokens of every script the scanner inserts the namespace exactly before the bare references to
      suite tables that no CTE in scope binds -- if and only if the script is faithful. */
  lemma {:induction false} ScannerAgreesWithTree(s: Script, closed: bool, tables: set<string>)
    requires ScriptOk(s, closed)
    ensures var l := PrintScript(s);
            && |ScanMarks(Toks(l), tables)| == |Wanted(l, tables)|
            && (ScanMarks(Toks(l), tables) == Wanted(l, tables) <==> Faithful(l, NamesFor(s, tables)))
  {
    var l := PrintScript(s);
    var names := NamesFor(s, tables);
    ScriptScan(s, closed, None, names);
    GoodMarks(Bottom(FRESH), None, l, names);
    SeenIsWanted(l, names);
  }

  /** Where every WITH list is followed by SELECT or VALUES, the condition is read off the tree alone. */
  lemma {:induction false} ClosedScriptAgreement(s: Script, tables: set<string>)
    requires ScriptOk(s, true)
    ensures var l := PrintScript(s);
            ScanMarks(Toks(l), tables) == Wanted(l, tables) <==> Faithful(l, Names(tables, RecordedNames(l)))
  {
    hide ScanMarks, Wanted, Faithful, RecordedNames, CteNames;
    CollectorOnScript(s);
    ScannerAgreesWithTree(s, true, tables);
  }

  // ---- the everyday fragment -----------------------------------------------------------------

  /** All names of CTEs, in scope or not. */
  function AllCteNames(l: List<Atom>): set<string> {
    match l
    case Nil => {}
    case Cons(a, rest) => (if a.role.CteName? && a.tok.Word? then {a.tok.value} else {}) + AllCteNames(rest)
  }

  /** Nothing named like a suite table stands in a parenthesised join before its first JOIN, in a query
      that is taken for a call, as a table function, as a CTE behind RECURSIVE or behind a CTE that holds a
      WITH, or as a table outside the scope of a CTE of the same name. */
  predicate Everyday(l: List<Atom>, tables: set<string>, ctes: set<string>) {
    l.Cons? ==>
      && Everyday(l.tail, tables, ctes)
      && (l.head.tok.Word? && l.head.tok.value in tables ==>
            match l.head.role
            case Syntax => true
            case TableName(slot, bound) => slot.Offered? && (l.head.tok.value in ctes ==> bound)
            case FunctionName(_) => false
            case CteName(reached) => reached
            case RecursiveWord => false)
  }

  lemma {:induction false} EverydayNames(l: List<Atom>, tables: set<string>, ctes: set<string>, name: string)
    requires Everyday(l, tables, ctes) && name in tables
    ensures name in RecordedNames(l) <==> name in AllCteNames(l)
  {
    if l.Cons? {
      EverydayNames(l.tail, tables, ctes, name);
    }
  }

  // ---- statements ----------------------------------------------------------------------------

  function Followed<T>(a: List<T>, b: List<T>): List<T> {
    if a.Nil? then b else Cons(a.head, Followed(a.tail, b))
  }

  /** On all tokens, of a script or not, what stands behind a semicolon is scanned as if nothing came before. */
  lemma {:induction false} StatementsAreApart(st: Stack, prev: Option<Token>, a: List<Token>, b: List<Token>,
                                              names: Names)
    ensures Marks(st, prev, Followed(a, Cons(SemiColon, b)), names)
            == Marks(st, prev, Followed(a, Cons(SemiColon, Nil)), names)
                + Marks(Bottom(FRESH), Some(SemiColon), b, names)
    decreases a
  {
    if a.Cons? {
      var x, y := Followed(a.tail, Cons(SemiColon, b)), Followed(a.tail, Cons(SemiColon, Nil));
      assert Head(x) == Head(y);
      var o := Step(st, prev, a.head, Head(x), names);
      StatementsAreApart(o.stack, Some(a.head), a.tail, b, names);
    } else {
      assert Marks(Bottom(FRESH), Some(SemiColon), Nil, names) == [];
    }
  }
}
