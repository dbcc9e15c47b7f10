/** The order `Vec<Vec<String>>::sort` uses. */
module RowOrder {
  import opened TextOrder

  type Row = seq<string>

  predicate RowLe(a: Row, b: Row) {
    a == [] || (b != [] && if a[0] == b[0] then RowLe(a[1..], b[1..]) else TextLe(a[0], b[0]))
  }

  lemma {:induction false} RowTotal(a: Row, b: Row)
    ensures RowLe(a, b) || RowLe(b, a)
    ensures RowLe(a, b) && RowLe(b, a) ==> a == b
  {
    hide TextLe;
    if a != [] && b != [] {
      if a[0] == b[0] {
        RowTotal(a[1..], b[1..]);
        assert a == [a[0]] + a[1..] && b == [b[0]] + b[1..];
      } else {
        TextTotal(a[0], b[0]);
      }
    }
  }

  /** `b` goes on where `a` ends, or the first cell in which they differ comes first in `a`. */
  lemma {:induction false} FirstCell(a: Row, b: Row)
    ensures RowLe(a, b) <==>
            a <= b || exists k :: 0 <= k < |a| && k < |b| && a[..k] == b[..k] && a[k] != b[k] && TextLe(a[k], b[k])
  {
    hide TextLe;
    if a != [] && b != [] {
      if a[0] == b[0] {
        var x, y := a[1..], b[1..];
        FirstCell(x, y);
        assert a == [a[0]] + x && b == [b[0]] + y;
        if k :| 0 <= k < |x| && k < |y| && x[..k] == y[..k] && x[k] != y[k] && TextLe(x[k], y[k]) {
          assert a[..k + 1] == [a[0]] + x[..k] && b[..k + 1] == [b[0]] + y[..k] && a[k + 1] == x[k];
        }
        if k :| 0 <= k < |a| && k < |b| && a[..k] == b[..k] && a[k] != b[k] && TextLe(a[k], b[k]) {
          assert x[..k - 1] == a[..k][1..] && y[..k - 1] == b[..k][1..] && x[k - 1] == a[k];
        }
      } else {
        assert a[..0] == b[..0];
        forall k | 0 < k < |a| && k < |b| ensures a[..k] != b[..k] { assert a[..k][0] != b[..k][0]; }
      }
    }
  }

  lemma {:induction false} RowTransitive(a: Row, b: Row, c: Row)
    requires RowLe(a, b) && RowLe(b, c)
    ensures RowLe(a, c)
  {
    hide TextLe;
    if a != [] {
      if a[0] == b[0] == c[0] {
        RowTransitive(a[1..], b[1..], c[1..]);
      } else if a[0] != b[0] && b[0] != c[0] {
        TextTransitive(a[0], b[0], c[0]);
        TextTotal(a[0], b[0]);
      }
    }
  }

  ghost predicate Ascending(s: seq<Row>) {
    forall i, j :: 0 <= i < j < |s| ==> RowLe(s[i], s[j])
  }

  ghost predicate SortOf(s: seq<Row>, rows: seq<Row>) {
    Ascending(s) && multiset(s) == multiset(rows)
  }

  /** Taking one row out of a list. */
  lemma {:induction false} Without(s: seq<Row>, j: nat)
    requires j < |s|
    ensures multiset(s) == multiset(s[..j] + s[j + 1..]) + multiset{s[j]}
  {
    assert s == s[..j] + [s[j]] + s[j + 1..];
  }

  lemma {:induction false} Cancel(x: multiset<Row>, y: multiset<Row>, r: Row)
    requires x + multiset{r} == y + multiset{r}
    ensures x == y
  {
    forall k ensures x[k] == y[k] {
      assert (x + multiset{r})[k] == (y + multiset{r})[k];
    }
  }

  lemma {:induction false} SmallestIsFirst(s: seq<Row>, t: seq<Row>)
    requires Ascending(s) && Ascending(t) && multiset(s) == multiset(t) && s != []
    ensures t != [] && s[0] == t[0]
  {
    hide RowLe;
    assert s[0] in multiset(t);
    assert t[0] in multiset(s);
    var i :| 0 <= i < |t| && t[i] == s[0];
    var j :| 0 <= j < |s| && s[j] == t[0];
    RowTotal(s[0], t[0]);
  }

  lemma {:induction false} RestAscends(s: seq<Row>)
    requires Ascending(s) && s != []
    ensures Ascending(s[1..])
  {
    hide RowLe;
    var t := s[1..];
    forall i, j | 0 <= i < j < |t| ensures RowLe(t[i], t[j]) { assert t[i] == s[i + 1] && t[j] == s[j + 1]; }
  }

  lemma {:induction false} FirstAndRest(s: seq<Row>, r: Row, rest: seq<Row>)
    requires s != [] && r == s[0] && rest == s[1..]
    ensures s == [r] + rest && multiset(s) == multiset(rest) + multiset{r}
  {
    assert s == [r] + rest;
  }

  lemma {:induction false} RestOf(s: seq<Row>)
    requires Ascending(s) && s != []
    ensures Ascending(s[1..]) && multiset(s) == multiset(s[1..]) + multiset{s[0]} && s == [s[0]] + s[1..]
  {
    RestAscends(s);
    hide RowLe, Ascending;
    FirstAndRest(s, s[0], s[1..]);
  }

  /** There is only one way to sort. */
  lemma {:induction false} SortIsUnique(s: seq<Row>, t: seq<Row>)
    requires Ascending(s) && Ascending(t) && multiset(s) == multiset(t)
    ensures s == t
    decreases |s|
  {
    hide Ascending;
    if s == [] {
      assert |multiset(t)| == 0;
    } else {
      SmallestIsFirst(s, t);
      RestOf(s);
      RestOf(t);
      Cancel(multiset(s[1..]), multiset(t[1..]), s[0]);
      SortIsUnique(s[1..], t[1..]);
    }
  }

  lemma {:induction false} InsertRow(s: seq<Row>, p: nat, r: Row)
    requires Ascending(s) && p <= |s|
    requires forall i :: 0 <= i < p ==> RowLe(s[i], r)
    requires p < |s| ==> RowLe(r, s[p])
    ensures SortOf(s[..p] + [r] + s[p..], s + [r])
  {
    hide RowLe;
    InsertedAscends(s, p, r);
    assert s == s[..p] + s[p..];
  }

  lemma {:induction false} InsertedAscends(s: seq<Row>, p: nat, r: Row)
    requires Ascending(s) && p <= |s|
    requires forall i :: 0 <= i < p ==> RowLe(s[i], r)
    requires p < |s| ==> RowLe(r, s[p])
    ensures Ascending(s[..p] + [r] + s[p..])
  {
    hide RowLe;
    var z := s[..p] + [r] + s[p..];
    forall i, j | 0 <= i < j < |z| ensures RowLe(z[i], z[j]) {
      var x := if j < p then s[j] else if j == p then r else s[j - 1];
      assert z[j] == x;
      if i < p {
        assert z[i] == s[i];
      } else if i == p {
        assert z[i] == r;
        if j > p + 1 { RowTransitive(r, s[p], s[j - 1]); }
      } else {
        assert z[i] == s[i - 1];
      }
    }
  }

  /** `rows.sort()`. */
  method Sort(rows: seq<Row>) returns (s: seq<Row>)
    ensures SortOf(s, rows)
  {
    hide RowLe;
    s := [];
    for n := 0 to |rows|
      invariant SortOf(s, rows[..n])
    {
      var p := 0;
      while p < |s| && RowLe(s[p], rows[n])
        invariant p <= |s|
        invariant forall i :: 0 <= i < p ==> RowLe(s[i], rows[n])
      {
        p := p + 1;
      }
      if p < |s| { RowTotal(s[p], rows[n]); }
      InsertRow(s, p, rows[n]);
      assert rows[..n + 1] == rows[..n] + [rows[n]];
      s := s[..p] + [rows[n]] + s[p..];
    }
    assert rows[..|rows|] == rows;
  }

  /** Every list of rows can be sorted. */
  lemma {:induction false} SortExists(rows: seq<Row>) returns (s: seq<Row>)
    ensures SortOf(s, rows)
  {
    hide RowLe;
    if rows == [] {
      s := [];
    } else {
      var n := |rows| - 1;
      var t := SortExists(rows[..n]);
      var p := 0;
      while p < |t| && RowLe(t[p], rows[n])
        invariant p <= |t|
        invariant forall i :: 0 <= i < p ==> RowLe(t[i], rows[n])
      {
        p := p + 1;
      }
      if p < |t| { RowTotal(t[p], rows[n]); }
      InsertRow(t, p, rows[n]);
      assert rows == rows[..n] + [rows[n]];
      s := t[..p] + [rows[n]] + t[p..];
    }
  }
}

/** The comparison of query results with an expected file (crates/sqe-bench/src/status.rs). */
module Comparator {
  import opened Prelude
  import opened Trimming
  import opened RowOrder

  // ---- cells ---------------------------------------------------------------------------------

  function TrimFraction(s: string): string {
    if '.' in s then TrimEnd(TrimEnd(s, '0'), '.') else s
  }

  /** `parse` stands for `str::parse::<f64>`; the arithmetic on what it yields is exact. */
  datatype Numbers = Numbers(parse: string -> Option<real>, epsilon: real)

  function Abs(x: real): real { if x < 0.0 then -x else x }

  function Times(x: real, y: real): real { x * y }

  predicate Close(n: Numbers, av: real, ev: real) {
    var relative := Times(n.epsilon, Abs(ev));
    Abs(av - ev) <= if relative > n.epsilon then relative else n.epsilon
  }

  datatype Match = Same | Near | Off

  function CellMatch(a: string, e: string, numeric: bool, n: Numbers): Match {
    if a == e || TrimFraction(a) == TrimFraction(e) then Same
    else if numeric && n.parse(a).Some? && n.parse(e).Some? && Close(n, n.parse(a).value, n.parse(e).value) then Near
    else Off
  }

  function IsNumeric(numeric: seq<bool>, col: nat): bool {
    col < |numeric| && numeric[col]
  }

  // ---- results -------------------------------------------------------------------------------

  datatype Cell = Null | Text(text: string)

  /** A record batch: which of its columns are float or decimal, and its rows. */
  datatype Batch = Batch(numeric: seq<bool>, rows: seq<seq<Cell>>)

  function CellText(c: Cell): string {
    if c.Null? then "NULL" else c.text
  }

  function RowText(row: seq<Cell>): Row {
    seq(|row|, i requires 0 <= i < |row| => CellText(row[i]))
  }

  function RowTexts(rows: seq<seq<Cell>>): seq<Row> {
    seq(|rows|, i requires 0 <= i < |rows| => RowText(rows[i]))
  }

  function AllRows(batches: seq<Batch>): seq<Row> {
    if batches == [] then [] else AllRows(batches[..|batches| - 1]) + RowTexts(batches[|batches| - 1].rows)
  }

  /** The number of rows in the first `b` batches. */
  function RowsBefore(batches: seq<Batch>, b: nat): nat
    requires b <= |batches|
  {
    if b == 0 then 0 else RowsBefore(batches, b - 1) + |batches[b - 1].rows|
  }

  /** Row `r` of batch `b` comes behind all rows of the batches before, and each cell is its text, or NULL. */
  lemma {:induction false} RowsInOrder(batches: seq<Batch>, b: nat, r: nat)
    requires b < |batches| && r < |batches[b].rows|
    ensures |AllRows(batches)| == RowsBefore(batches, |batches|) && RowsBefore(batches, b) + r < |AllRows(batches)|
    ensures var cells, row := batches[b].rows[r], AllRows(batches)[RowsBefore(batches, b) + r];
            && |row| == |cells|
            && forall c :: 0 <= c < |row| ==> row[c] == match cells[c] { case Null => "NULL" case Text(text) => text }
    decreases |batches|
  {
    var n := |batches| - 1;
    var front := batches[..n];
    RowsCount(front);
    RowsPrefix(batches, n, n);
    RowsPrefix(batches, n, b);
    if b < n { RowsInOrder(front, b, r); }
  }

  lemma {:induction false} RowsCount(batches: seq<Batch>)
    ensures |AllRows(batches)| == RowsBefore(batches, |batches|)
    decreases |batches|
  {
    if batches != [] {
      var n := |batches| - 1;
      RowsCount(batches[..n]);
      RowsPrefix(batches, n, n);
    }
  }

  lemma {:induction false} RowsPrefix(batches: seq<Batch>, n: nat, b: nat)
    requires b <= n <= |batches|
    ensures RowsBefore(batches[..n], b) == RowsBefore(batches, b)
  {
    if b > 0 { RowsPrefix(batches, n, b - 1); }
  }

  /** `detect_float_columns`. */
  function NumericColumns(batches: seq<Batch>, headers: nat): seq<bool> {
    if batches == [] then seq(headers, _ => false) else batches[0].numeric
  }

  // ---- verdicts ------------------------------------------------------------------------------

  datatype Reason =
    | RowCount(got: nat, expected: nat)
    | ColumnCount(row: nat, columns: nat, expectedColumns: nat)
    | Value(row: nat, col: nat, cell: string, expectedCell: string)

  datatype Status = Pass | Diff | Fail(reason: Reason)

  ghost predicate RowAgrees(a: Row, e: Row, numeric: seq<bool>, n: Numbers) {
    |a| == |e| && forall j :: 0 <= j < |a| ==> CellMatch(a[j], e[j], IsNumeric(numeric, j), n) != Off
  }

  ghost predicate RowSame(a: Row, e: Row) {
    |a| == |e| && forall j :: 0 <= j < |a| ==> TrimFraction(a[j]) == TrimFraction(e[j])
  }

  ghost predicate AgreeUpTo(a: seq<Row>, e: seq<Row>, k: nat, numeric: seq<bool>, n: Numbers)
    requires k <= |a| == |e|
  {
    forall i :: 0 <= i < k ==> RowAgrees(a[i], e[i], numeric, n)
  }

  ghost predicate SameUpTo(a: seq<Row>, e: seq<Row>, k: nat)
    requires k <= |a| == |e|
  {
    forall i :: 0 <= i < k ==> RowSame(a[i], e[i])
  }

  /** What each status says about rows in sorted order: a failure names the first disagreement. */
  ghost predicate Judged(a: seq<Row>, e: seq<Row>, numeric: seq<bool>, n: Numbers, status: Status)
    requires |a| == |e|
  {
    match status
    case Pass => SameUpTo(a, e, |a|)
    case Diff => AgreeUpTo(a, e, |a|, numeric, n) && !SameUpTo(a, e, |a|)
    case Fail(RowCount(_, _)) => false
    case Fail(ColumnCount(r, x, y)) =>
      r < |a| && AgreeUpTo(a, e, r, numeric, n) && x == |a[r]| && y == |e[r]| && x != y
    case Fail(Value(r, c, x, y)) =>
      && r < |a| && AgreeUpTo(a, e, r, numeric, n) && |a[r]| == |e[r]| && c < |a[r]| && x == a[r][c] && y == e[r][c]
      && CellMatch(x, y, IsNumeric(numeric, c), n) == Off
      && forall j :: 0 <= j < c ==> CellMatch(a[r][j], e[r][j], IsNumeric(numeric, j), n) != Off
  }

  /** The verdict on a result, given the expected rows. */
  ghost predicate Verdict(rows: seq<Row>, expected: seq<Row>, numeric: seq<bool>, n: Numbers, status: Status) {
    if |rows| != |expected| then status == Fail(RowCount(|rows|, |expected|))
    else forall a, e :: SortOf(a, rows) && SortOf(e, expected) ==> |a| == |e| && Judged(a, e, numeric, n, status)
  }

  // ---- the program ---------------------------------------------------------------------------

  /** `batches_to_string_rows`. */
  method BatchesToStringRows(batches: seq<Batch>) returns (rows: seq<Row>)
    ensures rows == AllRows(batches)
  {
    rows := [];
    for b := 0 to |batches|
      invariant rows == AllRows(batches[..b])
    {
      ghost var before := rows;
      var batch := batches[b];
      for r := 0 to |batch.rows|
        invariant rows == before + RowTexts(batch.rows[..r])
      {
        assert RowTexts(batch.rows[..r + 1]) == RowTexts(batch.rows[..r]) + [RowText(batch.rows[r])];
        var row := [];
        for c := 0 to |batch.rows[r]|
          invariant row == RowText(batch.rows[r])[..c]
        {
          row := row + [CellText(batch.rows[r][c])];
        }
        assert row == RowText(batch.rows[r]);
        rows := rows + [row];
      }
      assert batch.rows[..|batch.rows|] == batch.rows;
      assert batches[..b + 1][..b] == batches[..b];
    }
    assert batches[..|batches|] == batches;
  }

  /** `compare_results`. */
  method CompareResults(batches: seq<Batch>, headers: nat, expected: seq<Row>, n: Numbers) returns (status: Status)
    ensures var numeric := if batches == [] then seq(headers, _ => false) else batches[0].numeric;
            Verdict(AllRows(batches), expected, numeric, n, status)
  {
    hide RowLe, CellMatch, TrimFraction, AllRows, Ascending;
    var rows := BatchesToStringRows(batches);
    if |rows| != |expected| {
      return Fail(RowCount(|rows|, |expected|));
    }
    var a := Sort(rows);
    var e := Sort(expected);
    SortLength(a, rows);
    SortLength(e, expected);
    status := CompareSorted(a, e, NumericColumns(batches, headers), n);
    forall s, t | SortOf(s, rows) && SortOf(t, expected)
      ensures |s| == |t| && Judged(s, t, NumericColumns(batches, headers), n, status)
    {
      OneSort(a, s, rows);
      OneSort(e, t, expected);
    }
  }

  lemma OneSort(s: seq<Row>, t: seq<Row>, rows: seq<Row>)
    requires SortOf(s, rows) && SortOf(t, rows)
    ensures s == t
  {
    SortIsUnique(s, t);
  }

  lemma SortLength(s: seq<Row>, rows: seq<Row>)
    requires SortOf(s, rows)
    ensures |s| == |rows|
  {
    assert |multiset(s)| == |s| && |multiset(rows)| == |rows|;
  }

  /** The comparison loop over the sorted rows. */
  method CompareSorted(a: seq<Row>, e: seq<Row>, numeric: seq<bool>, n: Numbers) returns (status: Status)
    requires |a| == |e|
    ensures Judged(a, e, numeric, n, status)
  {
    hide TrimFraction, Close;
    var anyDiff := false;
    for r := 0 to |a|
      invariant AgreeUpTo(a, e, r, numeric, n)
      invariant anyDiff <==> !SameUpTo(a, e, r)
    {
      if |a[r]| != |e[r]| {
        return Fail(ColumnCount(r, |a[r]|, |e[r]|));
      }
      ghost var before := anyDiff;
      for c := 0 to |a[r]|
        invariant forall j :: 0 <= j < c ==> CellMatch(a[r][j], e[r][j], IsNumeric(numeric, j), n) != Off
        invariant anyDiff <==> before || exists j :: 0 <= j < c && TrimFraction(a[r][j]) != TrimFraction(e[r][j])
      {
        if a[r][c] == e[r][c] || TrimFraction(a[r][c]) == TrimFraction(e[r][c]) { continue; }
        if IsNumeric(numeric, c) {
          var av, ev := n.parse(a[r][c]), n.parse(e[r][c]);
          if av.Some? && ev.Some? && Close(n, av.value, ev.value) {
            anyDiff := true;
          } else {
            return Fail(Value(r, c, a[r][c], e[r][c]));
          }
        } else {
          return Fail(Value(r, c, a[r][c], e[r][c]));
        }
      }
      assert RowSame(a[r], e[r]) <==> !exists j :: 0 <= j < |a[r]| && TrimFraction(a[r][j]) != TrimFraction(e[r][j]);
    }
    status := if anyDiff then Diff else Pass;
  }

  // ---- what a verdict means ------------------------------------------------------------------

  lemma {:induction false} VerdictIsDetermined(rows: seq<Row>, expected: seq<Row>, numeric: seq<bool>, n: Numbers,
                                        s: Status, t: Status)
    requires Verdict(rows, expected, numeric, n, s) && Verdict(rows, expected, numeric, n, t)
    ensures s == t
  {
    if |rows| == |expected| {
      var a := SortExists(rows);
      var e := SortExists(expected);
      hide SortOf;
      JudgedOnce(a, e, numeric, n, s, t);
    }
  }

  lemma {:induction false} SameAgrees(a: seq<Row>, e: seq<Row>, numeric: seq<bool>, n: Numbers)
    requires |a| == |e| && SameUpTo(a, e, |a|)
    ensures AgreeUpTo(a, e, |a|, numeric, n)
  {
    hide TrimFraction;
    forall i | 0 <= i < |a| ensures RowAgrees(a[i], e[i], numeric, n) {
      assert RowSame(a[i], e[i]);
    }
  }

  lemma {:induction false} JudgedOnce(a: seq<Row>, e: seq<Row>, numeric: seq<bool>, n: Numbers, s: Status, t: Status)
    requires |a| == |e| && Judged(a, e, numeric, n, s) && Judged(a, e, numeric, n, t)
    ensures s == t
  {
    hide CellMatch, RowSame;
    if s == Pass || t == Pass { SameAgrees(a, e, numeric, n); }
    if s.Fail? { assert !RowAgrees(a[FailRow(s)], e[FailRow(s)], numeric, n); }
    if t.Fail? { assert !RowAgrees(a[FailRow(t)], e[FailRow(t)], numeric, n); }
  }

  ghost function FailRow(s: Status): nat
    requires s.Fail?
  {
    match s.reason
    case RowCount(_, _) => 0
    case ColumnCount(r, _, _) => r
    case Value(r, _, _, _) => r
  }

  ghost predicate OneSchema(batches: seq<Batch>, numeric: seq<bool>) {
    forall b :: b in batches ==> b.numeric == numeric
  }

  /** The verdict does not depend on the order of the rows or on how they are cut into batches. */
  lemma {:induction false} OrderAndBatchesDoNotMatter(
      b1: seq<Batch>, b2: seq<Batch>, headers: nat, x1: seq<Row>, x2: seq<Row>, numeric: seq<bool>, n: Numbers,
          s: Status)
    requires OneSchema(b1, numeric) && OneSchema(b2, numeric)
    requires multiset(AllRows(b1)) == multiset(AllRows(b2)) && multiset(x1) == multiset(x2)
    requires Verdict(AllRows(b1), x1, NumericColumns(b1, headers), n, s)
    ensures Verdict(AllRows(b2), x2, NumericColumns(b2, headers), n, s)
  {
    hide Verdict, AllRows;
    var r1, r2 := AllRows(b1), AllRows(b2);
    assert |multiset(r1)| == |r1| && |multiset(r2)| == |r2|;
    VerdictPermutes(r1, r2, x1, x2, NumericColumns(b1, headers), n, s);
    if r1 == [] {
      NoRowsNoColumns(x2, NumericColumns(b1, headers), NumericColumns(b2, headers), n, s);
    } else {
      NoBatchNoRows(b1);
      NoBatchNoRows(b2);
      assert b1[0] in b1 && b2[0] in b2;
    }
  }

  lemma NoBatchNoRows(batches: seq<Batch>)
    ensures AllRows(batches) != [] ==> batches != []
  {
  }

  lemma {:induction false} NoRowsNoColumns(x: seq<Row>, f: seq<bool>, g: seq<bool>, n: Numbers, s: Status)
    requires Verdict([], x, f, n, s)
    ensures Verdict([], x, g, n, s)
  {
    if x == [] {
      NoRowsPass(f, n, s);
      NoRowsPass(g, n, s);
    }
  }

  lemma {:induction false} VerdictPermutes(
      r1: seq<Row>, r2: seq<Row>, x1: seq<Row>, x2: seq<Row>, numeric: seq<bool>, n: Numbers, s: Status)
    requires multiset(r1) == multiset(r2) && multiset(x1) == multiset(x2)
    requires Verdict(r1, x1, numeric, n, s)
    ensures Verdict(r2, x2, numeric, n, s)
  {
    hide Judged, SortOf;
    assert |multiset(r1)| == |r1| && |multiset(r2)| == |r2| && |multiset(x1)| == |x1| && |multiset(x2)| == |x2|;
    if |r1| == |x1| {
      forall a, e | SortOf(a, r2) && SortOf(e, x2) ensures |a| == |e| && Judged(a, e, numeric, n, s) {
        SortOfSame(a, r2, r1);
        SortOfSame(e, x2, x1);
      }
    }
  }

  lemma SortOfSame(a: seq<Row>, r: seq<Row>, q: seq<Row>)
    requires SortOf(a, r) && multiset(r) == multiset(q)
    ensures SortOf(a, q)
  {
  }

  lemma {:induction false} NoRowsPass(numeric: seq<bool>, n: Numbers, s: Status)
    ensures Verdict([], [], numeric, n, s) <==> s == Pass
  {
    assert SortOf([], []);
    forall a | SortOf(a, []) ensures a == [] {
      SortLength(a, []);
    }
  }

  lemma {:induction false} EqualRowsPass(rows: seq<Row>, expected: seq<Row>, numeric: seq<bool>, n: Numbers)
    requires multiset(rows) == multiset(expected)
    ensures Verdict(rows, expected, numeric, n, Pass)
  {
    assert |multiset(rows)| == |rows| && |multiset(expected)| == |expected|;
    forall a, e | SortOf(a, rows) && SortOf(e, expected)
      ensures |a| == |e| && Judged(a, e, numeric, n, Pass)
    {
      SortIsUnique(a, e);
    }
  }

  /** A one-to-one pairing of the rows with the expected rows. */
  ghost predicate Pairing(p: seq<(Row, Row)>, rows: seq<Row>, expected: seq<Row>) {
    && multiset(Firsts(p)) == multiset(rows)
    && multiset(Seconds(p)) == multiset(expected)
  }

  ghost function Firsts(p: seq<(Row, Row)>): seq<Row> {
    seq(|p|, i requires 0 <= i < |p| => p[i].0)
  }

  ghost function Seconds(p: seq<(Row, Row)>): seq<Row> {
    seq(|p|, i requires 0 <= i < |p| => p[i].1)
  }

  /** The difference is at most `epsilon`, or at most `epsilon` times the size of what was expected. */
  ghost predicate WithinTolerance(got: real, expected: real, epsilon: real) {
    var size := if expected < 0.0 then 0.0 - expected else expected;
    (expected - epsilon <= got <= expected + epsilon)
    || (expected - Times(epsilon, size) <= got <= expected + Times(epsilon, size))
  }

  /** Cells that agree: equal after trimming, or numbers of a numeric column within tolerance. */
  ghost predicate CellsAgree(a: string, e: string, numeric: bool, n: Numbers) {
    || TrimFraction(a) == TrimFraction(e)
    || (numeric && n.parse(a).Some? && n.parse(e).Some?
        && WithinTolerance(n.parse(a).value, n.parse(e).value, n.epsilon))
  }

  lemma {:induction false} MatchMeans(a: string, e: string, numeric: bool, n: Numbers)
    ensures CellMatch(a, e, numeric, n) != Off <==> CellsAgree(a, e, numeric, n)
  {
    hide TrimFraction;
    if n.parse(a).Some? && n.parse(e).Some? { CloseMeans(n, n.parse(a).value, n.parse(e).value); }
  }

  lemma {:induction false} CloseMeans(n: Numbers, av: real, ev: real)
    ensures Close(n, av, ev) <==> WithinTolerance(av, ev, n.epsilon)
  {
    var size := if ev < 0.0 then 0.0 - ev else ev;
    var relative := Times(n.epsilon, size);
    assert Abs(ev) == size;
    hide Times;
    Apart(av, ev, relative);
    Apart(av, ev, n.epsilon);
    hide Abs;
  }

  lemma {:induction false} Apart(x: real, y: real, d: real)
    ensures Abs(x - y) <= d <==> y - d <= x <= y + d
  {
  }

  /** A value that fails the comparison is at the named place on the sorted sides, and does not agree. */
  lemma {:induction false} FailureIsReal(rows: seq<Row>, expected: seq<Row>, numeric: seq<bool>, n: Numbers, f: Reason)
    requires f.Value? && Verdict(rows, expected, numeric, n, Fail(f))
    ensures !CellsAgree(f.cell, f.expectedCell, f.col < |numeric| && numeric[f.col], n)
    ensures forall a, e :: SortOf(a, rows) && SortOf(e, expected) ==>
              && f.row < |a| == |e| && f.col < |a[f.row]| == |e[f.row]|
              && a[f.row][f.col] == f.cell && e[f.row][f.col] == f.expectedCell
  {
    hide CellMatch, TrimFraction, SortOf, CellsAgree, AgreeUpTo;
    var a := SortExists(rows);
    var e := SortExists(expected);
    assert |a| == |e| && Judged(a, e, numeric, n, Fail(f));
    MatchMeans(f.cell, f.expectedCell, IsNumeric(numeric, f.col), n);
    forall b, d | SortOf(b, rows) && SortOf(d, expected)
      ensures f.row < |b| == |d| && f.col < |b[f.row]| == |d[f.row]|
      ensures b[f.row][f.col] == f.cell && d[f.row][f.col] == f.expectedCell
    {
      assert |b| == |d| && Judged(b, d, numeric, n, Fail(f));
    }
  }

  lemma {:induction false} VerdictRows(rows: seq<Row>, expected: seq<Row>, numeric: seq<bool>, n: Numbers, s: Status)
      returns (p: seq<(Row, Row)>)
    requires Verdict(rows, expected, numeric, n, s) && !s.Fail?
    ensures Pairing(p, rows, expected)
    ensures forall i :: 0 <= i < |p| ==> RowAgrees(p[i].0, p[i].1, numeric, n)
    ensures s == Pass <==> forall i :: 0 <= i < |p| ==> RowSame(p[i].0, p[i].1)
  {
    hide CellMatch, TrimFraction, RowLe;
    var a := SortExists(rows);
    var e := SortExists(expected);
    assert |a| == |e| && Judged(a, e, numeric, n, s);
    p := seq(|a|, i requires 0 <= i < |a| => (a[i], e[i]));
    assert Firsts(p) == a && Seconds(p) == e;
    if s == Pass { SameAgrees(a, e, numeric, n); }
  }

  /** Pass and Diff come with a pairing: equal after trimming, or at least within tolerance. */
  lemma {:induction false} VerdictPairs(rows: seq<Row>, expected: seq<Row>, numeric: seq<bool>, n: Numbers, s: Status)
      returns (p: seq<(Row, Row)>)
    requires Verdict(rows, expected, numeric, n, s) && !s.Fail?
    ensures Pairing(p, rows, expected)
    ensures forall i :: 0 <= i < |p| ==> CellsOfRowAgree(p[i].0, p[i].1, numeric, n)
    ensures s == Pass <==> forall i :: 0 <= i < |p| ==> RowSame(p[i].0, p[i].1)
  {
    hide Verdict, Pairing, RowAgrees, RowSame, CellsOfRowAgree;
    p := VerdictRows(rows, expected, numeric, n, s);
    forall i | 0 <= i < |p| ensures CellsOfRowAgree(p[i].0, p[i].1, numeric, n) {
      RowAgreesMeans(p[i].0, p[i].1, numeric, n);
    }
  }

  ghost predicate CellsOfRowAgree(a: Row, e: Row, numeric: seq<bool>, n: Numbers) {
    |a| == |e| && forall j :: 0 <= j < |a| ==> CellsAgree(a[j], e[j], j < |numeric| && numeric[j], n)
  }

  lemma {:induction false} RowAgreesMeans(a: Row, e: Row, numeric: seq<bool>, n: Numbers)
    ensures RowAgrees(a, e, numeric, n) <==> CellsOfRowAgree(a, e, numeric, n)
  {
    hide CellMatch, CellsAgree;
    if |a| == |e| {
      forall j | 0 <= j < |a|
        ensures CellMatch(a[j], e[j], IsNumeric(numeric, j), n) != Off
                <==> CellsAgree(a[j], e[j], j < |numeric| && numeric[j], n)
      {
        MatchMeans(a[j], e[j], IsNumeric(numeric, j), n);
      }
    }
  }

  // ---- when trimming and sorting agree ---------------------------------------------------------

  function Trimmed(r: Row): Row {
    seq(|r|, i requires 0 <= i < |r| => TrimFraction(r[i]))
  }

  function TrimmedRows(rows: seq<Row>): seq<Row> {
    seq(|rows|, i requires 0 <= i < |rows| => Trimmed(rows[i]))
  }

  /** Trimming the cells does not change the order of the rows. */
  ghost predicate OrderSurvivesTrimming(rows: seq<Row>) {
    forall s :: SortOf(s, rows) ==> Ascending(TrimmedRows(s))
  }

  lemma {:induction false} TrimWithout(b: seq<Row>, j: nat)
    requires j < |b|
    ensures multiset(TrimmedRows(b)) == multiset(TrimmedRows(b[..j] + b[j + 1..])) + multiset{Trimmed(b[j])}
  {
    hide TrimFraction;
    var t := TrimmedRows(b);
    Without(t, j);
    assert TrimmedRows(b[..j] + b[j + 1..]) == t[..j] + t[j + 1..];
  }

  lemma {:induction false} TrimmedMultiset(a: seq<Row>, b: seq<Row>)
    requires multiset(a) == multiset(b)
    ensures multiset(TrimmedRows(a)) == multiset(TrimmedRows(b))
    decreases |a|
  {
    hide Trimmed;
    assert |multiset(a)| == |a| && |multiset(b)| == |b|;
    if a != [] {
      var n := |a| - 1;
      assert a[n] in multiset(b);
      var j :| 0 <= j < |b| && b[j] == a[n];
      var d, c := a[..n] + a[n + 1..], b[..j] + b[j + 1..];
      Without(a, n);
      Without(b, j);
      Cancel(multiset(d), multiset(c), a[n]);
      TrimmedMultiset(d, c);
      TrimWithout(a, n);
      TrimWithout(b, j);
    } else {
      assert b == [];
    }
  }

  lemma {:induction false} SameIsTrimmedEqual(a: seq<Row>, e: seq<Row>)
    requires |a| == |e|
    ensures SameUpTo(a, e, |a|) <==> TrimmedRows(a) == TrimmedRows(e)
  {
    hide TrimFraction;
    if SameUpTo(a, e, |a|) {
      forall i | 0 <= i < |a| ensures Trimmed(a[i]) == Trimmed(e[i]) {
        assert RowSame(a[i], e[i]);
      }
    }
    if TrimmedRows(a) == TrimmedRows(e) {
      forall i | 0 <= i < |a| ensures RowSame(a[i], e[i]) {
        assert TrimmedRows(a)[i] == TrimmedRows(e)[i] && |Trimmed(a[i])| == |Trimmed(e[i])|;
        forall j | 0 <= j < |a[i]| ensures TrimFraction(a[i][j]) == TrimFraction(e[i][j]) {
          assert Trimmed(a[i])[j] == Trimmed(e[i])[j];
        }
      }
    }
  }

  /** Some pairing makes all rows equal after trimming. */
  ghost predicate CanBePaired(rows: seq<Row>, expected: seq<Row>) {
    exists p :: Pairing(p, rows, expected) && AllSame(p)
  }

  ghost predicate AllSame(p: seq<(Row, Row)>) {
    forall i :: 0 <= i < |p| ==> RowSame(p[i].0, p[i].1)
  }

  lemma {:induction false} PairedHaveEqualTrims(p: seq<(Row, Row)>, rows: seq<Row>, expected: seq<Row>)
    requires Pairing(p, rows, expected) && AllSame(p)
    ensures multiset(TrimmedRows(rows)) == multiset(TrimmedRows(expected))
  {
    hide TrimFraction;
    TrimmedMultiset(Firsts(p), rows);
    TrimmedMultiset(Seconds(p), expected);
    SameIsTrimmedEqual(Firsts(p), Seconds(p));
  }

  /** Where trimming keeps the order, the verdict is Pass exactly when the rows can be paired at all. */
  lemma {:induction false} PassIffPaired(rows: seq<Row>, expected: seq<Row>, numeric: seq<bool>, n: Numbers)
    requires OrderSurvivesTrimming(rows) && OrderSurvivesTrimming(expected)
    ensures Verdict(rows, expected, numeric, n, Pass) <==> CanBePaired(rows, expected)
  {
    hide CellMatch, TrimFraction, RowLe, Ascending, SameUpTo, RowSame, Pairing, SortOf, Verdict;
    if Verdict(rows, expected, numeric, n, Pass) {
      var p := VerdictPairs(rows, expected, numeric, n, Pass);
      assert AllSame(p);
    }
    if CanBePaired(rows, expected) {
      var p :| Pairing(p, rows, expected) && AllSame(p);
      PairedHaveEqualTrims(p, rows, expected);
      EqualTrimsPass(rows, expected, numeric, n);
    }
  }

  lemma {:induction false} EqualTrimsPass(rows: seq<Row>, expected: seq<Row>, numeric: seq<bool>, n: Numbers)
    requires OrderSurvivesTrimming(rows) && OrderSurvivesTrimming(expected)
    requires multiset(TrimmedRows(rows)) == multiset(TrimmedRows(expected))
    ensures Verdict(rows, expected, numeric, n, Pass)
  {
    hide CellMatch, TrimFraction, RowLe, Ascending, RowSame;
    assert |multiset(TrimmedRows(rows))| == |rows| && |multiset(TrimmedRows(expected))| == |expected|;
    forall a, e | SortOf(a, rows) && SortOf(e, expected)
      ensures |a| == |e| && Judged(a, e, numeric, n, Pass)
    {
      SortLength(a, rows);
      SortLength(e, expected);
      TrimmedMultiset(a, rows);
      TrimmedMultiset(e, expected);
      SortIsUnique(TrimmedRows(a), TrimmedRows(e));
      SameIsTrimmedEqual(a, e);
    }
  }

  /** Trimming the cells twice is trimming them once. */
  ghost predicate TrimsOnce(rows: seq<Row>) {
    forall i, j :: 0 <= i < |rows| && 0 <= j < |rows[i]|
        ==> TrimFraction(TrimFraction(rows[i][j])) == TrimFraction(rows[i][j])
  }

  ghost predicate IsTrimmed(r: Row) {
    Trimmed(r) == r
  }

  lemma {:induction false} TrimmedTwice(rows: seq<Row>)
    requires TrimsOnce(rows)
    ensures forall r :: r in TrimmedRows(rows) ==> IsTrimmed(r)
  {
    hide TrimFraction;
    var x := TrimmedRows(rows);
    forall i | 0 <= i < |x| ensures IsTrimmed(x[i]) {
      assert x[i] == Trimmed(rows[i]);
      forall j | 0 <= j < |x[i]| ensures TrimFraction(x[i][j]) == x[i][j] {
        assert x[i][j] == TrimFraction(rows[i][j]);
      }
    }
  }

  /** Rows that trimming leaves alone are sorted as they are. */
  lemma {:induction false} TrimmedRowsSurvive(x: seq<Row>)
    requires forall r :: r in x ==> IsTrimmed(r)
    ensures OrderSurvivesTrimming(x)
    ensures forall s :: SortOf(s, x) ==> TrimmedRows(s) == s
  {
    hide TrimFraction, RowLe;
    forall s | SortOf(s, x) ensures TrimmedRows(s) == s {
      forall i | 0 <= i < |s| ensures Trimmed(s[i]) == s[i] {
        assert s[i] in multiset(x);
        assert IsTrimmed(s[i]);
      }
    }
  }

  lemma {:induction false} PairsWithTrimmed(rows: seq<Row>)
    requires TrimsOnce(rows)
    ensures CanBePaired(rows, TrimmedRows(rows))
  {
    hide TrimFraction;
    var x := TrimmedRows(rows);
    var p := seq(|rows|, i requires 0 <= i < |rows| => (rows[i], x[i]));
    assert Firsts(p) == rows && Seconds(p) == x;
    forall i | 0 <= i < |p| ensures RowSame(p[i].0, p[i].1) {
      assert x[i] == Trimmed(rows[i]);
    }
    assert Pairing(p, rows, x) && AllSame(p);
  }

  lemma {:induction false} PairsWithItself(rows: seq<Row>)
    ensures CanBePaired(rows, rows)
  {
    hide TrimFraction;
    var p := seq(|rows|, i requires 0 <= i < |rows| => (rows[i], rows[i]));
    assert Firsts(p) == rows && Seconds(p) == rows;
    assert Pairing(p, rows, rows) && AllSame(p);
  }

  /** Rows that pass against rows of surviving order are sorted alike before and after trimming. */
  lemma {:induction false} PassKeepsOrder(rows: seq<Row>, x: seq<Row>, numeric: seq<bool>, n: Numbers)
    requires OrderSurvivesTrimming(x) && Verdict(rows, x, numeric, n, Pass)
    ensures OrderSurvivesTrimming(rows)
  {
    hide TrimFraction, RowLe, Ascending, CellMatch;
    var e := SortExists(x);
    forall a | SortOf(a, rows) ensures Ascending(TrimmedRows(a)) {
      assert |a| == |e| && Judged(a, e, numeric, n, Pass);
      SameIsTrimmedEqual(a, e);
    }
  }

  /** Rows of surviving order that `rows` can be paired with. */
  ghost predicate Meets(rows: seq<Row>, x: seq<Row>) {
    OrderSurvivesTrimming(x) && CanBePaired(rows, x)
  }

  /** Against such rows, the verdict is Pass if and only if trimming keeps the order of `rows` as well. */
  lemma {:induction false} PassIffOrderSurvives(rows: seq<Row>, x: seq<Row>, numeric: seq<bool>, n: Numbers)
    requires Meets(rows, x)
    ensures Verdict(rows, x, numeric, n, Pass) <==> OrderSurvivesTrimming(rows)
  {
    hide OrderSurvivesTrimming, CanBePaired, Verdict;
    if OrderSurvivesTrimming(rows) { PassIffPaired(rows, x, numeric, n); }
    if Verdict(rows, x, numeric, n, Pass) { PassKeepsOrder(rows, x, numeric, n); }
  }

  /** Trimming keeps the order of `rows` if and only if there are such rows and `rows` passes against all of
      them. There always are where trimming the cells twice is trimming them once. */
  lemma {:induction false} PassesAllItPairsWith(rows: seq<Row>, numeric: seq<bool>, n: Numbers)
    ensures OrderSurvivesTrimming(rows) <==>
            (exists x :: Meets(rows, x)) && forall x :: Meets(rows, x) ==> Verdict(rows, x, numeric, n, Pass)
    ensures TrimsOnce(rows) ==> exists x :: Meets(rows, x)
  {
    hide OrderSurvivesTrimming, CanBePaired, Verdict, TrimsOnce;
    forall x | Meets(rows, x) ensures Verdict(rows, x, numeric, n, Pass) <==> OrderSurvivesTrimming(rows) {
      PassIffOrderSurvives(rows, x, numeric, n);
    }
    if OrderSurvivesTrimming(rows) {
      PairsWithItself(rows);
      assert Meets(rows, rows);
    }
    if TrimsOnce(rows) {
      TrimmedTwice(rows);
      TrimmedRowsSurvive(TrimmedRows(rows));
      PairsWithTrimmed(rows);
      assert Meets(rows, TrimmedRows(rows));
    }
  }
}
