/** `collect_cte_names` and `qualify_tables` as they run: loops over a token vector, a scope stack,
    an insertion list and an output buffer. */
module QualifyTables {
  import opened Prelude
  import opened SqlTokens
  import opened Scanner
  import opened Sorted
  import opened TextSplice

  /** A token of the tokenizer with the position of its first character. */
  datatype Lexeme = Lexeme(token: Token, start: Location)

  function LowerChar(c: char): char {
    if 'A' <= c <= 'Z' then c - 'A' + 'a' else c
  }

  function Lower(s: string): string {
    seq(|s|, i requires 0 <= i < |s| => LowerChar(s[i]))
  }

  /** The same letter, large or small, or the same character. */
  predicate SameLetter(c: char, d: char) {
    || c == d
    || ('A' <= c <= 'Z' && 'a' <= d <= 'z' && c as int - 'A' as int == d as int - 'a' as int)
    || ('a' <= c <= 'z' && 'A' <= d <= 'Z' && c as int - 'a' as int == d as int - 'A' as int)
  }

  /** Names are the same in lower case if and only if they differ in the case of ASCII letters alone. */
  lemma {:induction false} LowerIgnoresCase(s: string, t: string)
    ensures Lower(s) == Lower(t) <==> |s| == |t| && forall i :: 0 <= i < |s| ==> SameLetter(s[i], t[i])
  {
    if |s| == |t| {
      forall i | 0 <= i < |s| ensures Lower(s)[i] == Lower(t)[i] <==> SameLetter(s[i], t[i]) {}
    } else {
      assert |Lower(s)| != |Lower(t)|;
    }
  }

  /** Names are compared in lower case only. */
  function Canon(t: Token): Token {
    if t.Word? then t.(value := Lower(t.value)) else t
  }

  function FromSeq(ts: seq<Token>): List<Token> {
    if ts == [] then Nil else Cons(ts[0], FromSeq(ts[1..]))
  }

  /** The tokens that are not white space, in lower case. */
  function Significant(ls: seq<Lexeme>): seq<Lexeme> {
    if ls == [] then []
    else
      var l := ls[|ls| - 1];
      Significant(ls[..|ls| - 1]) + (if l.token.Whitespace? then [] else [Lexeme(Canon(l.token), l.start)])
  }

  function Tokens(ls: seq<Lexeme>): seq<Token> {
    seq(|ls|, i requires 0 <= i < |ls| => ls[i].token)
  }

  /** The positions of the marked tokens, in order. */
  function Chosen(ls: seq<Lexeme>, marks: seq<bool>): seq<Location>
    requires |ls| == |marks|
  {
    if ls == [] then []
    else
      var n := |ls| - 1;
      Chosen(ls[..n], marks[..n]) + (if marks[n] then [ls[n].start] else [])
  }

  lemma {:induction false} MarksLength(st: Stack, prev: Option<Token>, ts: seq<Token>, names: Names)
    ensures |Marks(st, prev, FromSeq(ts), names)| == |ts|
    decreases |ts|
  {
    if ts != [] {
      var o := Step(st, prev, ts[0], Head(FromSeq(ts[1..])), names);
      MarksLength(o.stack, Some(ts[0]), ts[1..], names);
    }
  }

  /** The insertion points of the qualifier on a token vector. */
  ghost function InsertionPoints(ls: seq<Lexeme>, tables: set<string>): seq<Location> {
    var sig := Significant(ls);
    var ts := Tokens(sig);
    MarksLength(Bottom(FRESH), None, ts, Names(tables, CteNames(START, FromSeq(ts))));
    Chosen(sig, ScanMarks(FromSeq(ts), tables))
  }

  // ---- the collector -----------------------------------------------------------------------

  function CollectorAfter(c: Collector, ts: seq<Token>): Collector {
    if ts == [] then c else CollectStep(CollectorAfter(c, ts[..|ts| - 1]), ts[|ts| - 1])
  }

  lemma {:induction false} NamesSnoc(c: Collector, ts: seq<Token>, t: Token)
    ensures CteNames(c, FromSeq(ts + [t]))
            == CteNames(c, FromSeq(ts)) + (if Collects(CollectorAfter(c, ts), t) then {t.value} else {})
    ensures CollectorAfter(c, ts + [t]) == CollectStep(CollectorAfter(c, ts), t)
    decreases |ts|
  {
    hide CollectStep, Collects;
    assert (ts + [t])[..|ts|] == ts;
    if ts == [] {
      assert ts + [t] == [t] && [t][1..] == [];
      assert FromSeq([t]) == Cons(t, Nil);
    } else {
      NamesSnoc(CollectStep(c, ts[0]), ts[1..], t);
      assert (ts + [t])[0] == ts[0] && (ts + [t])[1..] == ts[1..] + [t];
      AfterFirst(c, ts);
    }
  }

  lemma {:induction false} AfterFirst(c: Collector, ts: seq<Token>)
    requires ts != []
    ensures CollectorAfter(c, ts) == CollectorAfter(CollectStep(c, ts[0]), ts[1..])
    decreases |ts|
  {
    if |ts| == 1 {
      assert ts[..0] == [] && ts[1..] == [];
    } else {
      AfterFirst(c, ts[..|ts| - 1]);
      assert ts[1..][..|ts| - 2] == ts[..|ts| - 1][1..];
    }
  }

  method CollectCteNames(lexemes: seq<Lexeme>) returns (names: set<string>)
    ensures names == CteNames(START, FromSeq(Tokens(Significant(lexemes))))
  {
    hide CteNames, CollectorAfter, Significant, FromSeq, CollectStep;
    names := {};
    var depth: nat, mode := 0, Off;
    NothingYet(lexemes);
    for n := 0 to |lexemes|
      invariant names == CteNames(START, FromSeq(Tokens(Significant(lexemes[..n]))))
      invariant Collector(depth, mode) == CollectorAfter(START, Tokens(Significant(lexemes[..n])))
    {
      var token := Canon(lexemes[n].token);
      SignificantSnoc(lexemes, n);
      ghost var seen := Tokens(Significant(lexemes[..n]));
      if !token.Whitespace? { NamesSnoc(START, seen, token); }
      if !token.Whitespace? {
        var found;
        depth, mode, found := CollectToken(depth, mode, token);
        if found { names := names + {token.value}; }
      }
    }
    assert lexemes[..|lexemes|] == lexemes;
  }

  lemma NothingYet(ls: seq<Lexeme>)
    ensures Tokens(Significant(ls[..0])) == [] && CteNames(START, FromSeq([])) == {}
            && CollectorAfter(START, []) == START
  {
  }

  /** The body of the collecting loop. */
  method CollectToken(depth: nat, mode: Mode, token: Token) returns (depth': nat, mode': Mode, found: bool)
    ensures found == Collects(Collector(depth, mode), token)
    ensures Collector(depth', mode') == CollectStep(Collector(depth, mode), token)
  {
    depth', mode', found := depth, mode, false;
    match token
    case LParen => depth' := depth + 1;
    case RParen => if depth > 0 { depth' := depth - 1; }
    case Word(value, quoted, kw) =>
      if !quoted && kw == WITH {
        mode' := ExpectName(depth);
      } else {
        match mode
        case ExpectName(d) =>
          if d == depth {
            found := true;
            mode' := InList(d);
          }
        case InList(d) =>
          if d == depth && kw != AS { mode' := Off; }
        case Off =>
      }
    case Comma =>
      if mode.InList? && mode.level == depth { mode' := ExpectName(depth); }
    case _ =>
  }

  lemma SignificantSnoc(ls: seq<Lexeme>, n: nat)
    requires n < |ls|
    ensures var t := Canon(ls[n].token);
            var before, after := Significant(ls[..n]), Significant(ls[..n + 1]);
            && after == (if t.Whitespace? then before else before + [Lexeme(t, ls[n].start)])
            && Tokens(after) == (if t.Whitespace? then Tokens(before) else Tokens(before) + [t])
  {
    assert ls[..n + 1][..n] == ls[..n];
  }

  // ---- the scanner -------------------------------------------------------------------------

  /** The scope vector of the source, innermost scope last. */
  function AsStack(scopes: seq<Scope>): Stack
    requires scopes != []
  {
    var n := |scopes| - 1;
    if n == 0 then Bottom(scopes[0]) else Push(scopes[n], AsStack(scopes[..n]))
  }

  lemma StackTop(scopes: seq<Scope>, scope: Scope)
    requires scopes != []
    ensures var n := |scopes| - 1;
            && AsStack(scopes[n := scope]) == AsStack(scopes).(top := scope)
            && AsStack(scopes + [scope]) == Push(scope, AsStack(scopes))
  {
    var n := |scopes| - 1;
    assert scopes[n := scope][..n] == scopes[..n];
    assert (scopes + [scope])[..n + 1] == scopes;
  }

  lemma StackShape(scopes: seq<Scope>)
    requires scopes != []
    ensures var st, n := AsStack(scopes), |scopes| - 1;
            && st.top == scopes[n]
            && (st.Push? <==> n > 0)
            && (n > 0 ==> st.below == AsStack(scopes[..n]))
            && AsStack([FRESH]) == Bottom(FRESH)
  {
  }

  /** One pass over the significant tokens with a scope vector. */
  method FindInsertions(sig: seq<Lexeme>, tables: set<string>, ctes: set<string>) returns (insertAt: seq<Location>)
    ensures var marks := Marks(Bottom(FRESH), None, FromSeq(Tokens(sig)), Names(tables, ctes));
            |marks| == |sig| && insertAt == Chosen(sig, marks)
  {
    ghost var names := Names(tables, ctes);
    ghost var ts := Tokens(sig);
    ghost var marks := Marks(Bottom(FRESH), None, FromSeq(ts), names);
    MarksLength(Bottom(FRESH), None, ts, names);
    var stack := [FRESH];
    insertAt := [];
    assert ts[0..] == ts && marks[0..] == marks;
    for k := 0 to |sig|
      invariant stack != []
      invariant marks[k..] == Marks(AsStack(stack), if k == 0 then None else Some(ts[k - 1]), FromSeq(ts[k..]), names)
      invariant insertAt == Chosen(sig[..k], marks[..k])
    {
      var tok := sig[k].token;
      var prev := if k == 0 then None else Some(sig[k - 1].token);
      var next := if k + 1 < |sig| then Some(sig[k + 1].token) else None;
      ghost var before := AsStack(stack);
      ghost var o := Step(before, prev, tok, next, names);
      var qualifies;
      stack, qualifies := ScanToken(stack, prev, tok, next, tables, ctes);
      if qualifies { insertAt := insertAt + [sig[k].start]; }
      assert FromSeq(ts[k..]) == Cons(tok, FromSeq(ts[k + 1..])) by { assert ts[k..][1..] == ts[k + 1..]; }
      assert Head(FromSeq(ts[k + 1..])) == next;
      assert marks[k] == o.qualifies && marks[k + 1..] == marks[k..][1..];
      assert sig[..k + 1][..k] == sig[..k] && marks[..k + 1][..k] == marks[..k];
    }
    assert sig[..|sig|] == sig && marks[..|sig|] == marks;
  }

  /** The loop body: the `match` on one token, with its early `continue`s. */
  method ScanToken(stack: seq<Scope>, prev: Option<Token>, tok: Token, next: Option<Token>, tables: set<string>,
                   ctes: set<string>)
    returns (after: seq<Scope>, qualifies: bool)
    requires stack != []
    ensures after != []
    ensures Outcome(AsStack(after), qualifies) == Step(AsStack(stack), prev, tok, next, Names(tables, ctes))
  {
    hide AsStack;
    StackShape(stack);
    after, qualifies := stack, false;
    var depth := |stack| - 1;
    var scope := stack[depth];
    match tok
    case LParen =>
      var derived := scope.expectTable;
      scope := scope.(expectTable := false);
      if derived { scope := scope.(fromActive := true); }
      var functionArgs := prev.Some? && prev.value.Word?
          && (if prev.value.quoted then true else !IsParenOpener(prev.value.kw));
      StackTop(stack, scope);
      after := stack[depth := scope];
      StackTop(after, FRESH.(functionArgs := functionArgs));
      after := after + [FRESH.(functionArgs := functionArgs)];
    case RParen =>
      if |stack| > 1 { after := stack[..depth]; }
    case Comma =>
      if scope.fromActive {
        StackTop(stack, scope.(expectTable := true));
        after := stack[depth := scope.(expectTable := true)];
      }
    case SemiColon =>
      after := [FRESH];
    case Word(value, quoted, kw) =>
      if !quoted && !scope.functionArgs {
        if IsIntroducer(kw) {
          scope := scope.(expectTable := true, fromActive := true);
          StackTop(stack, scope);
          after := stack[depth := scope];
          return;
        }
        if IsFiller(kw) && scope.expectTable {
          return;
        }
        if IsBoundary(kw) {
          scope := scope.(expectTable := false, fromActive := false);
          StackTop(stack, scope);
          after := stack[depth := scope];
          return;
        }
      }
      if scope.expectTable {
        scope := scope.(expectTable := false);
        StackTop(stack, scope);
        after := stack[depth := scope];
        qualifies := !IsPeriod(prev) && !IsPeriod(next) && value in tables && value !in ctes;
      }
    case _ =>
      scope := scope.(expectTable := false);
      StackTop(stack, scope);
      after := stack[depth := scope];
  }

  // ---- the splice --------------------------------------------------------------------------

  /** The characters at the given positions. */
  ghost function Places(sql: string, locs: seq<Location>): set<nat> {
    set i | 0 <= i < |sql| && LocationAt(sql, i) in locs
  }

  /** Every position is the position of some character. */
  ghost predicate AllInside(sql: string, locs: seq<Location>) {
    forall l :: l in locs ==> exists i :: 0 <= i < |sql| && LocationAt(sql, i) == l
  }

  ghost predicate OffsetsOf(sql: string, at: set<nat>, offsets: set<nat>) {
    && (forall p :: p in at ==> p < |sql| && Offset(sql, p) in offsets)
    && (forall o :: o in offsets ==> exists p :: p in at && p < |sql| && o == Offset(sql, p))
  }

  method OffsetsIn(sql: string, locs: seq<Location>) returns (r: Result<seq<nat>>)
    ensures r.Ok? <==> AllInside(sql, locs)
    ensures r.Ok? ==> OffsetsOf(sql, Places(sql, locs), Elements(r.value))
  {
    hide Offset, LocationAt, OffsetsOf, Places;
    var offsets: seq<nat> := [];
    NoOffsets(sql, locs);
    for n := 0 to |locs|
      invariant AllInside(sql, locs[..n])
      invariant OffsetsOf(sql, Places(sql, locs[..n]), Elements(offsets))
    {
      var off := ByteOffset(sql, locs[n]);
      if off.None? {
        assert locs[n] in locs;
        return Err("tokenizer location is outside the query text");
      }
      OffsetsSnoc(sql, locs, n, offsets, off.value);
      offsets := offsets + [off.value];
    }
    assert locs[..|locs|] == locs;
    return Ok(offsets);
  }

  lemma NoOffsets(sql: string, locs: seq<Location>)
    ensures OffsetsOf(sql, Places(sql, locs[..0]), Elements<nat>([]))
  {
  }

  lemma {:induction false} OffsetsSnoc(sql: string, locs: seq<Location>, n: nat, offsets: seq<nat>, off: nat)
    requires n < |locs|
    requires AllInside(sql, locs[..n]) && OffsetsOf(sql, Places(sql, locs[..n]), Elements(offsets))
    requires exists i :: 0 <= i < |sql| && LocationAt(sql, i) == locs[n] && off == Offset(sql, i)
    ensures AllInside(sql, locs[..n + 1])
    ensures OffsetsOf(sql, Places(sql, locs[..n + 1]), Elements(offsets + [off]))
  {
    hide Offset, LocationAt;
    var i :| 0 <= i < |sql| && LocationAt(sql, i) == locs[n] && off == Offset(sql, i);
    assert locs[..n + 1] == locs[..n] + [locs[n]];
    PlacesSnoc(sql, locs, n, i);
    assert Elements(offsets + [off]) == Elements(offsets) + {off};
  }

  lemma PlacesSnoc(sql: string, locs: seq<Location>, n: nat, i: nat)
    requires n < |locs| && i < |sql| && LocationAt(sql, i) == locs[n]
    ensures Places(sql, locs[..n + 1]) == Places(sql, locs[..n]) + {i}
  {
    hide LocationAt;
    assert locs[..n + 1] == locs[..n] + [locs[n]];
    forall j | 0 <= j < |sql| && LocationAt(sql, j) == locs[n] ensures j == i {
      if j < i { LocationsGrow(sql, j, i); } else if i < j { LocationsGrow(sql, i, j); }
    }
  }

  ghost function PlaceOf(sql: string, at: set<nat>, offsets: set<nat>, o: nat): (p: nat)
    requires OffsetsOf(sql, at, offsets) && o in offsets
    ensures p in at && p < |sql| && Offset(sql, p) == o
  {
    var p :| p in at && p < |sql| && o == Offset(sql, p);
    p
  }

  lemma OffsetOrder(sql: string, p: nat, q: nat)
    requires p < |sql| && q < |sql|
    ensures Offset(sql, p) < Offset(sql, q) <==> p < q
  {
    if p < q { OffsetGrows(sql, p, q); } else { OffsetGrows(sql, q, p); }
  }

  /** The buffer loop: with increasing offsets it inserts the prefix exactly at those characters. */
  method Splice(sql: string, offsets: seq<nat>, prefix: string, ghost at: set<nat>) returns (out: seq<Byte>)
    requires Increasing(offsets, (a: nat, b: nat) => a < b)
    requires OffsetsOf(sql, at, Elements(offsets))
    ensures out == Encode(Insert(sql, 0, |sql|, at, prefix))
  {
    hide Encode, Insert, OffsetsOf, Increasing;
    var bytes := Encode(sql);
    out := [];
    var last := 0;
    ghost var pos: nat := 0;
    OffsetOfStart(sql);
    for k := 0 to |offsets|
      invariant Reached(sql, offsets, at, k, pos) && last == Offset(sql, pos)
      invariant out == Written(sql, at, prefix, k, pos)
    {
      var off := offsets[k];
      ghost var q := Advance(sql, offsets, at, prefix, k, pos);
      out := out + bytes[last..off] + Encode(prefix);
      last := off;
      pos := q;
    }
    Finish(sql, offsets, at, prefix, pos);
    out := out + bytes[last..];
  }

  lemma OffsetOfStart(sql: string)
    ensures Offset(sql, 0) == 0
  {
  }

  /** `pos` is the insertion point the loop handled last. */
  ghost predicate Reached(sql: string, offsets: seq<nat>, at: set<nat>, k: nat, pos: nat)
    requires k <= |offsets|
  {
    if k == 0 then pos == 0 else pos < |sql| && pos in at && Offset(sql, pos) == offsets[k - 1]
  }

  ghost function Written(sql: string, at: set<nat>, prefix: string, k: nat, pos: nat): seq<Byte>
    requires pos <= |sql|
  {
    if k == 0 then [] else Encode(Insert(sql, 0, pos, at, prefix) + prefix)
  }

  lemma Advance(sql: string, offsets: seq<nat>, at: set<nat>, prefix: string, k: nat, pos: nat) returns (q: nat)
    requires Increasing(offsets, (a: nat, b: nat) => a < b) && OffsetsOf(sql, at, Elements(offsets))
    requires k < |offsets| && Reached(sql, offsets, at, k, pos)
    ensures Reached(sql, offsets, at, k + 1, q)
    ensures Offset(sql, pos) <= offsets[k] <= |Encode(sql)|
    ensures Written(sql, at, prefix, k + 1, q)
            == Written(sql, at, prefix, k, pos) + Encode(sql)[Offset(sql, pos)..offsets[k]] + Encode(prefix)
  {
    assert offsets[k] in Elements(offsets);
    q := PlaceOf(sql, at, Elements(offsets), offsets[k]);
    if k > 0 { OffsetOrder(sql, pos, q); }
    forall p | p in at && pos <= p < q ensures k > 0 && p == pos {
      NoneBetween(sql, offsets, at, k, pos, p, q);
    }
    OffsetGrows(sql, pos, q);
    Stretch(sql, at, prefix, k, pos, q);
    EncodeAppend(Insert(sql, 0, q, at, prefix), prefix);
  }

  lemma Finish(sql: string, offsets: seq<nat>, at: set<nat>, prefix: string, pos: nat)
    requires Increasing(offsets, (a: nat, b: nat) => a < b) && OffsetsOf(sql, at, Elements(offsets))
    requires Reached(sql, offsets, at, |offsets|, pos)
    ensures Offset(sql, pos) <= |Encode(sql)|
    ensures Encode(Insert(sql, 0, |sql|, at, prefix))
            == Written(sql, at, prefix, |offsets|, pos) + Encode(sql)[Offset(sql, pos)..]
  {
    forall p | p in at && pos <= p ensures |offsets| > 0 && p == pos {
      NoneAfter(sql, offsets, at, pos, p);
    }
    OffsetGrows(sql, pos, |sql|);
    assert sql[..|sql|] == sql;
    Stretch(sql, at, prefix, |offsets|, pos, |sql|);
  }

  lemma Stretch(sql: string, at: set<nat>, prefix: string, k: nat, pos: nat, q: nat)
    requires pos <= q <= |sql|
    requires forall p :: p in at && pos <= p < q ==> k > 0 && p == pos
    requires if k == 0 then pos == 0 else pos in at && pos < q
    ensures Encode(Insert(sql, 0, q, at, prefix)) == Written(sql, at, prefix, k, pos) + Encode(sql[pos..q])
  {
    if k == 0 {
      InsertNothing(sql, 0, q, at, prefix);
    } else {
      InsertStretch(sql, pos, q, at, prefix);
      EncodeAppend(Insert(sql, 0, pos, at, prefix) + prefix, sql[pos..q]);
    }
  }

  lemma IncreasingIndex(offsets: seq<nat>, i: nat, j: nat)
    requires Increasing(offsets, (a: nat, b: nat) => a < b) && i < |offsets| && j < |offsets|
    ensures offsets[i] < offsets[j] <==> i < j
  {
  }

  lemma NoneBetween(sql: string, offsets: seq<nat>, at: set<nat>, k: nat, pos: nat, p: nat, q: nat)
    requires Increasing(offsets, (a: nat, b: nat) => a < b) && OffsetsOf(sql, at, Elements(offsets))
    requires k < |offsets| && q < |sql| && offsets[k] == Offset(sql, q)
    requires if k == 0 then pos == 0 else pos < |sql| && Offset(sql, pos) == offsets[k - 1]
    requires p in at && pos <= p < q
    ensures k > 0 && p == pos
  {
    OffsetOrder(sql, p, q);
    var i :| 0 <= i < |offsets| && offsets[i] == Offset(sql, p);
    IncreasingIndex(offsets, i, k);
    if k > 0 {
      OffsetOrder(sql, p, pos);
      OffsetOrder(sql, pos, p);
      IncreasingIndex(offsets, i, k - 1);
    }
  }

  lemma NoneAfter(sql: string, offsets: seq<nat>, at: set<nat>, pos: nat, p: nat)
    requires Increasing(offsets, (a: nat, b: nat) => a < b) && OffsetsOf(sql, at, Elements(offsets))
    requires offsets == [] || (pos < |sql| && Offset(sql, pos) == offsets[|offsets| - 1])
    requires p in at && pos <= p
    ensures |offsets| > 0 && p == pos
  {
    var i :| 0 <= i < |offsets| && offsets[i] == Offset(sql, p);
    OffsetOrder(sql, p, pos);
    OffsetOrder(sql, pos, p);
    IncreasingIndex(offsets, i, |offsets| - 1);
  }

  /** `qualify_tables`: the input text, byte for byte, with `namespace.` in front of every token the
      scanner marks, and an error exactly when a marked position lies outside the text. */
  method Qualify(sql: string, lexemes: seq<Lexeme>, namespace: string,
                 tables: seq<string>) returns (r: Result<seq<Byte>>)
    ensures var tableSet := set t | t in tables :: Lower(t);
            var points := InsertionPoints(lexemes, tableSet);
            && (r.Ok? <==> AllInside(sql, points))
            && (r.Ok? ==> r.value == Encode(Insert(sql, 0, |sql|, Places(sql, points), namespace + ".")))
  {
    var tableSet := set t | t in tables :: Lower(t);
    var cteNames := CollectCteNames(lexemes);
    var sig: seq<Lexeme> := [];
    for n := 0 to |lexemes|
      invariant sig == Significant(lexemes[..n])
    {
      SignificantSnoc(lexemes, n);
      if !lexemes[n].token.Whitespace? {
        sig := sig + [Lexeme(Canon(lexemes[n].token), lexemes[n].start)];
      }
    }
    assert lexemes[..|lexemes|] == lexemes;
    var insertAt := FindInsertions(sig, tableSet, cteNames);
    if insertAt == [] {
      InsertNothing(sql, 0, |sql|, Places(sql, insertAt), namespace + ".");
      assert sql[0..|sql|] == sql;
      return Ok(Encode(sql));
    }
    var found := OffsetsIn(sql, insertAt);
    if found.Err? {
      return Err(found.error);
    }
    var offsets := SortDistinct(found.value, (a: nat, b: nat) => a < b);
    var out := Splice(sql, offsets, namespace + ".", Places(sql, insertAt));
    return Ok(out);
  }
}

/** The text the qualifier returns for a script. */
module QualifyScript {
  import opened Prelude
  import opened Scanner
  import opened SqlTree
  import opened Qualification
  import opened TextSplice
  import opened QualifyTables

  ghost predicate DistinctStarts(ls: seq<Lexeme>) {
    forall i, j :: 0 <= i < j < |ls| ==> ls[i].start != ls[j].start
  }

  lemma {:induction false} ChosenFrom(ls: seq<Lexeme>, marks: seq<bool>, p: Location)
    requires |ls| == |marks| && p in Chosen(ls, marks)
    ensures exists i :: 0 <= i < |ls| && ls[i].start == p
  {
    var n := |ls| - 1;
    if !marks[n] || p != ls[n].start {
      ChosenFrom(ls[..n], marks[..n], p);
      var i :| 0 <= i < n && ls[..n][i].start == p;
      assert ls[i].start == p;
    }
  }

  /** The chosen positions tell the marks. */
  lemma {:induction false} ChosenTellsMarks(ls: seq<Lexeme>, a: seq<bool>, b: seq<bool>)
    requires |ls| == |a| == |b| && DistinctStarts(ls) && Chosen(ls, a) == Chosen(ls, b)
    ensures a == b
  {
    if ls != [] {
      var n := |ls| - 1;
      if a[n] != b[n] {
        LastChosen(ls, if a[n] then b else a);
      } else {
        var c, d := Chosen(ls[..n], a[..n]), Chosen(ls[..n], b[..n]);
        var last := if a[n] then [ls[n].start] else [];
        assert Chosen(ls, a) == c + last && Chosen(ls, b) == d + last;
        assert c == (c + last)[..|c|] && d == (d + last)[..|d|];
        ChosenTellsMarks(ls[..n], a[..n], b[..n]);
        assert a == a[..n] + [a[n]] && b == b[..n] + [b[n]];
      }
    }
  }

  lemma {:induction false} LastChosen(ls: seq<Lexeme>, marks: seq<bool>)
    requires ls != [] && |ls| == |marks| && DistinctStarts(ls) && !marks[|ls| - 1]
    ensures ls[|ls| - 1].start !in Chosen(ls, marks)
  {
    var n := |ls| - 1;
    if ls[n].start in Chosen(ls, marks) {
      ChosenFrom(ls[..n], marks[..n], ls[n].start);
    }
  }

  /** When the significant tokens of a text are those of a script, `Qualify` inserts the namespace in
      front of exactly the base-table references -- if and only if the script is faithful. */
  lemma {:induction false} ScriptInsertions(s: Script, ls: seq<Lexeme>, tables: set<string>)
    requires ScriptOk(s, false) && FromSeq(Tokens(Significant(ls))) == Toks(PrintScript(s))
            && DistinctStarts(Significant(ls))
    ensures var l := PrintScript(s);
            && |Wanted(l, tables)| == |Significant(ls)|
            && (InsertionPoints(ls, tables) == Chosen(Significant(ls), Wanted(l, tables))
                <==> Faithful(l, NamesFor(s, tables)))
  {
    var wanted := Wanted(PrintScript(s), tables);
    var ts := Tokens(Significant(ls));
    MarksLength(Bottom(FRESH), None, ts, Names(tables, CteNames(START, FromSeq(ts))));
    ScannerAgreesWithTree(s, false, tables);
    if InsertionPoints(ls, tables) == Chosen(Significant(ls), wanted) {
      ChosenTellsMarks(Significant(ls), ScanMarks(FromSeq(ts), tables), wanted);
    }
  }
}
