/** How far a Pass can be trusted, and two results on which the comparison goes wrong
    (crates/sqe-bench/src/status.rs). */
module ComparatorLimits {
  import opened Prelude
  import opened Trimming
  import opened TextOrder
  import opened RowOrder
  import opened Comparator
  import opened DecimalText

  ghost predicate EqualNumbers(a: string, e: string) {
    ValueOf(a).Some? && ValueOf(e).Some? && TrimIsSafe(a) && TrimIsSafe(e) ==> ValueOf(a) == ValueOf(e)
  }

  /** After a Pass, paired cells that are safe to trim denote the same number. */
  lemma {:induction false} PassMeansEqualNumbers(rows: seq<Row>, expected: seq<Row>, numeric: seq<bool>, n: Numbers)
      returns (p: seq<(Row, Row)>)
    requires Verdict(rows, expected, numeric, n, Pass)
    ensures Pairing(p, rows, expected)
    ensures forall i :: 0 <= i < |p| ==> |p[i].0| == |p[i].1|
    ensures forall i, j :: 0 <= i < |p| && 0 <= j < |p[i].0| ==> EqualNumbers(p[i].0[j], p[i].1[j])
  {
    hide Verdict, Pairing, TrimFraction, ValueOf, TrimIsSafe;
    p := VerdictPairs(rows, expected, numeric, n, Pass);
    forall i, j | 0 <= i < |p| && 0 <= j < |p[i].0| ensures EqualNumbers(p[i].0[j], p[i].1[j]) {
      var a, e := p[i].0[j], p[i].1[j];
      assert RowSame(p[i].0, p[i].1);
      assert TrimFraction(a) == TrimFraction(e);
      if ValueOf(a).Some? && ValueOf(e).Some? {
        TrimKeepsValue(a);
        TrimKeepsValue(e);
      }
    }
  }

  lemma {:induction false} SingleRow(r: Row, x: Row, numeric: seq<bool>, n: Numbers)
    requires RowSame(r, x)
    ensures Verdict([r], [x], numeric, n, Pass)
  {
    hide RowSame, RowLe;
    forall a, e | SortOf(a, [r]) && SortOf(e, [x]) ensures |a| == |e| && Judged(a, e, numeric, n, Pass) {
      assert SortOf([r], [r]) && SortOf([x], [x]);
      OneSort(a, [r], [r]);
      OneSort(e, [x], [x]);
    }
  }

  /** An exponent and the same exponent with a zero after it are taken for the same text. */
  lemma {:induction false} TrailingExponentZeroIsLost(m: string, x: string, numeric: seq<bool>, n: Numbers)
    requires '.' in m && Exponent(x).Some?
    ensures Verdict([[m + "e" + x]], [[m + "e" + x + "0"]], numeric, n, Pass)
  {
    hide Verdict, TrimFraction;
    var z := x + "0";
    LongerExponent(x);
    TrimScaled(m, 'e', x);
    TrimScaled(m, 'e', z);
    assert z[..|x|] == x;
    assert TrimEnd(z, '0') == TrimEnd(x, '0');
    assert m + "e" + x + "0" == m + "e" + z;
    SingleRow([m + "e" + x], [m + "e" + x + "0"], numeric, n);
  }

  lemma {:induction false} LongerExponent(x: string)
    requires Exponent(x).Some?
    ensures Exponent(x + "0").Some?
  {
    hide Digits;
    ExponentChars(x);
    var h := if IsSign(x[0]) then 1 else 0;
    assert (x + "0")[h..] == x[h..] + "0";
  }

  /** So fifteen passes for fifteen thousand million. */
  lemma {:induction false} DifferentNumbersPass(n: Numbers)
    ensures Verdict([["1.5e1"]], [["1.5e10"]], [true], n, Pass)
    ensures ValueOf("1.5e1").Some? && ValueOf("1.5e10").Some? && ValueOf("1.5e1") != ValueOf("1.5e10")
  {
    hide Verdict, ValueOf, Exponent, Mantissa, Shift, Pow10;
    Literals();
    assert "1.5"[1] == '.';
    TrailingExponentZeroIsLost("1.5", "1", [true], n);
    assert "1.5" + "e" + "1" == "1.5e1" && "1.5" + "e" + "1" + "0" == "1.5e10";
    OneAndAHalf();
    ScaledDiffers(Shift(15, -1), 1, 10);
  }

  lemma OneAndAHalf()
    ensures Shift(15, -1) == 1.5
  {
  }

  lemma {:induction false} SmallNumbers()
    ensures Exponent("1") == Some(1) && Exponent("10") == Some(10) && Mantissa("1.5") == Some(Shift(15, -1))
  {
    hide Shift;
    assert "1"[..0] == "" && Digits("") == 0 && Digits("1") == 1;
    assert "10"[..1] == "1" && Digits("10") == 10;
    assert "15"[..1] == "1" && Digits("15") == 15;
    assert "1" + "." + "5" == "1.5" && "1" + "5" == "15";
    MantissaOf("1", "5");
  }

  lemma {:induction false} Literals()
    ensures Exponent("1") == Some(1) && Exponent("10") == Some(10) && Mantissa("1.5") == Some(Shift(15, -1))
    ensures ValueOf("1.5e1") == Scale(Some(Shift(15, -1)), Some(1))
    ensures ValueOf("1.5e10") == Scale(Some(Shift(15, -1)), Some(10))
  {
    SmallNumbers();
    hide Scale, Shift, Digits, Mantissa, Exponent;
    NoE("1.5");
    EAt("1.5", 'e', "1");
    EAt("1.5", 'e', "10");
    assert "1.5" + ['e'] + "1" == "1.5e1" && "1.5" + ['e'] + "10" == "1.5e10";
  }

  // ---- rows that could be paired but are not ---------------------------------------------------

  const GOT: seq<Row> := [["1", "c"], ["1.0", "b"]]
  const WANTED: seq<Row> := [["1", "b"], ["1.0", "c"]]

  /** Sorting before trimming can keep equal rows apart. */
  lemma {:induction false} EqualRowsFail(n: Numbers)
    ensures CanBePaired(GOT, WANTED)
    ensures Verdict(GOT, WANTED, [false, false], n, Fail(Value(0, 1, "c", "b")))
  {
    hide Ascending, Judged, CanBePaired, Verdict;
    CrossPairing();
    InOrder();
    FirstCells(n);
    VerdictOnSorted(GOT, WANTED, [false, false], n, Fail(Value(0, 1, "c", "b")));
  }

  lemma {:induction false} CrossPairing()
    ensures CanBePaired(GOT, WANTED)
  {
    hide TrimFraction;
    Trims();
    var p := [(GOT[1], WANTED[0]), (GOT[0], WANTED[1])];
    assert Firsts(p) == [GOT[1], GOT[0]] && Seconds(p) == WANTED;
    assert Pairing(p, GOT, WANTED) && AllSame(p);
  }

  lemma {:induction false} InOrder()
    ensures Ascending(GOT) && Ascending(WANTED)
  {
    assert "1.0"[0] == "1"[0] && "1"[1..] == "";
    assert TextLe("1"[1..], "1.0"[1..]);
    assert TextLe("1", "1.0");
    assert RowLe(GOT[0], GOT[1]) && RowLe(WANTED[0], WANTED[1]);
  }

  /** Rows already in order are judged as they stand. */
  lemma {:induction false} VerdictOnSorted(r: seq<Row>, x: seq<Row>, numeric: seq<bool>, n: Numbers, s: Status)
    requires Ascending(r) && Ascending(x) && |r| == |x| && Judged(r, x, numeric, n, s)
    ensures Verdict(r, x, numeric, n, s)
  {
    hide Ascending, Judged;
    forall a, e | SortOf(a, r) && SortOf(e, x) ensures |a| == |e| && Judged(a, e, numeric, n, s) {
      OneSort(a, r, r);
      OneSort(e, x, x);
    }
  }

  lemma Trims()
    ensures TrimFraction("1") == "1" && TrimFraction("1.0") == "1" && TrimFraction("b") == "b"
            && TrimFraction("c") == "c"
  {
    assert "1.0"[..2] == "1." && "1."[..1] == "1";
    assert TrimEnd("1.0", '0') == TrimEnd("1.", '0') == "1.";
    assert TrimEnd("1.", '.') == TrimEnd("1", '.') == "1";
    assert "1.0"[1] == '.';
  }

  lemma {:induction false} FirstCells(n: Numbers)
    ensures Judged(GOT, WANTED, [false, false], n, Fail(Value(0, 1, "c", "b")))
  {
    Trims();
  }
}
