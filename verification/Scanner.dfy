/** The token scanner of `qualify_tables` and `collect_cte_names`, as pure step functions. */
module Scanner {
  import opened Prelude
  import opened SqlTokens

  /** One parenthesis depth of the scanner. */
  datatype Scope = Scope(expectTable: bool, fromActive: bool, functionArgs: bool)

  const FRESH := Scope(false, false, false)

  /** The scope stack; it is never empty. */
  datatype Stack = Bottom(top: Scope) | Push(top: Scope, below: Stack)

  /** Lower-cased table names of the suite, and names bound by WITH. */
  datatype Names = Names(tables: set<string>, ctes: set<string>)

  datatype Outcome = Outcome(stack: Stack, qualifies: bool)

  predicate Qualifies(names: Names, prev: Option<Token>, value: string, next: Option<Token>) {
    !IsPeriod(prev) && !IsPeriod(next) && value in names.tables && value !in names.ctes
  }

  /** One significant token: the new stack, and whether the namespace is inserted before it. */
  function Step(st: Stack, prev: Option<Token>, tok: Token, next: Option<Token>, names: Names): Outcome {
    var scope := st.top;
    match tok
    case LParen =>
      var parent := scope.(expectTable := false, fromActive := scope.fromActive || scope.expectTable);
      Outcome(Push(FRESH.(functionArgs := OpensCall(prev)), st.(top := parent)), false)
    case RParen =>
      Outcome(if st.Push? then st.below else st, false)
    case Comma =>
      Outcome(if scope.fromActive then st.(top := scope.(expectTable := true)) else st, false)
    case SemiColon =>
      Outcome(Bottom(FRESH), false)
    case Word(value, quoted, kw) =>
      var live := !quoted && !scope.functionArgs;
      if live && IsIntroducer(kw) then
        Outcome(st.(top := scope.(expectTable := true, fromActive := true)), false)
      else if live && IsFiller(kw) && scope.expectTable then
        Outcome(st, false)
      else if live && IsBoundary(kw) then
        Outcome(st.(top := scope.(expectTable := false, fromActive := false)), false)
      else if scope.expectTable then
        Outcome(st.(top := scope.(expectTable := false)), Qualifies(names, prev, value, next))
      else
        Outcome(st, false)
    case _ =>
      Outcome(st.(top := scope.(expectTable := false)), false)
  }

  /** The tokens, in order, before which the namespace is inserted. */
  function Marks(st: Stack, prev: Option<Token>, ts: List<Token>, names: Names): seq<bool>
    decreases ts
  {
    match ts
    case Nil => []
    case Cons(t, rest) =>
      var o := Step(st, prev, t, Head(rest), names);
      [o.qualifies] + Marks(o.stack, Some(t), rest, names)
  }

  datatype Mode = Off | ExpectName(level: nat) | InList(level: nat)

  datatype Collector = Collector(depth: nat, mode: Mode)

  const START := Collector(0, Off)

  /** Does the collector record this token as a CTE name? */
  predicate Collects(c: Collector, tok: Token) {
    && tok.Word?
    && !IsKeyword(tok, WITH)
    && c.mode == ExpectName(c.depth)
  }

  function CollectStep(c: Collector, tok: Token): Collector {
    match tok
    case LParen => c.(depth := c.depth + 1)
    case RParen => c.(depth := if c.depth == 0 then 0 else c.depth - 1)
    case Comma => if c.mode == InList(c.depth) then c.(mode := ExpectName(c.depth)) else c
    case Word(_, _, kw) =>
      if IsKeyword(tok, WITH) then c.(mode := ExpectName(c.depth))
      else if c.mode == ExpectName(c.depth) then c.(mode := InList(c.depth))
      else if c.mode == InList(c.depth) && kw != AS then c.(mode := Off)
      else c
    case _ => c
  }

  function CteNames(c: Collector, ts: List<Token>): set<string>
    decreases ts
  {
    match ts
    case Nil => {}
    case Cons(t, rest) =>
      (if Collects(c, t) then {t.value} else {}) + CteNames(CollectStep(c, t), rest)
  }

  /** The qualifier on a whole token list. */
  function ScanMarks(ts: List<Token>, tables: set<string>): seq<bool> {
    Marks(Bottom(FRESH), None, ts, Names(tables, CteNames(START, ts)))
  }
}
