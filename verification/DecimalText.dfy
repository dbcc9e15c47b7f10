/** What trimming trailing zeros does to the value of a numeral (crates/sqe-bench/src/status.rs). */
module DecimalText {
  import opened Prelude
  import opened Trimming
  import opened Comparator

  // ---- numerals ------------------------------------------------------------------------------

  predicate IsDigit(c: char) { '0' <= c <= '9' }

  predicate AllDigits(s: string) {
    forall i :: 0 <= i < |s| ==> IsDigit(s[i])
  }

  function Digits(s: string): nat
    requires AllDigits(s)
  {
    if s == [] then 0 else 10 * Digits(s[..|s| - 1]) + (s[|s| - 1] as int - '0' as int)
  }

  function Pow10(e: int): real
    decreases if e < 0 then -e else e
  {
    if e == 0 then 1.0 else if e > 0 then 10.0 * Pow10(e - 1) else Pow10(e + 1) / 10.0
  }

  function Shift(m: nat, e: int): real {
    m as real * Pow10(e)
  }

  predicate IsSign(c: char) { c == '+' || c == '-' }

  predicate IsE(c: char) { c == 'e' || c == 'E' }

  function FirstE(s: string): (k: nat)
    ensures k <= |s| && (k < |s| ==> IsE(s[k])) && forall i :: 0 <= i < k ==> !IsE(s[i])
  {
    if s == [] || IsE(s[0]) then 0 else 1 + FirstE(s[1..])
  }

  function FirstDot(s: string): (k: nat)
    ensures k <= |s| && (k < |s| ==> s[k] == '.') && forall i :: 0 <= i < k ==> s[i] != '.'
  {
    if s == [] || s[0] == '.' then 0 else 1 + FirstDot(s[1..])
  }

  /** Digits with at most one point among them. */
  function Mantissa(s: string): Option<real> {
    var k := FirstDot(s);
    if k == |s| then
      if s != [] && AllDigits(s) then Some(Digits(s) as real) else None
    else
      var i, f := s[..k], s[k + 1..];
      if i + f != [] && AllDigits(i + f) then Some(Shift(Digits(i + f), 0 - |f|)) else None
  }

  function Exponent(s: string): Option<int> {
    var d := if s != [] && IsSign(s[0]) then s[1..] else s;
    if d == [] || !AllDigits(d) then None
    else if s[0] == '-' then Some(0 - Digits(d)) else Some(Digits(d))
  }

  function Scale(m: Option<real>, e: Option<int>): Option<real> {
    if m.Some? && e.Some? then Some(m.value * Pow10(e.value)) else None
  }

  function Unsigned(s: string): Option<real> {
    var k := FirstE(s);
    if k == |s| then Mantissa(s) else Scale(Mantissa(s[..k]), Exponent(s[k + 1..]))
  }

  function Magnitude(s: string): string {
    if s != [] && IsSign(s[0]) then s[1..] else s
  }

  /** The number a text denotes: a sign, a decimal and an exponent, as `f64::from_str` reads them. */
  function ValueOf(s: string): Option<real> {
    var u := Unsigned(Magnitude(s));
    if u.Some? && s != [] && s[0] == '-' then Some(-u.value) else u
  }

  // ---- trimming ------------------------------------------------------------------------------

  lemma {:induction false} ShiftTen(d: nat, e: int)
    ensures Shift(10 * d, e) == Shift(d, e + 1)
  {
    PowStep(e);
    hide Pow10;
    var q := Pow10(e);
    assert (10 * d) as real * q == d as real * (10.0 * q);
  }

  lemma {:induction false} ZeroDigit(s: string, z: nat)
    requires z <= |s| && AllDigits(s) && forall i :: z <= i < |s| ==> s[i] == '0'
    ensures AllDigits(s[..z]) && Shift(Digits(s), z - |s|) == Digits(s[..z]) as real
    decreases |s| - z
  {
    if z == |s| {
      assert s[..z] == s;
    } else {
      hide Shift;
      var n := |s| - 1;
      assert s[..n][..z] == s[..z];
      ZeroDigit(s[..n], z);
      ShiftTen(Digits(s[..n]), z - |s|);
    }
  }

  lemma {:induction false} PowAdd(a: int, b: nat)
    ensures Pow10(a - b) == Pow10(a) * Pow10(0 - b)
  {
    if b > 0 {
      PowAdd(a, b - 1);
      PowStep(a - b);
      PowStep(0 - b);
    }
  }

  lemma {:induction false} PowStep(e: int)
    ensures Pow10(e + 1) == 10.0 * Pow10(e)
  {
  }

  lemma {:induction false} PowGrows(a: int, b: int)
    requires a < b
    ensures 0.0 < Pow10(a) < Pow10(b)
    decreases b - a
  {
    PowPositive(a);
    PowStep(a);
    if a + 1 < b { PowGrows(a + 1, b); }
  }

  lemma {:induction false} PowPositive(e: int)
    ensures Pow10(e) > 0.0
    decreases if e < 0 then -e else e
  {
    if e > 0 { PowPositive(e - 1); } else if e < 0 { PowPositive(e + 1); }
  }

  // ---- a numeral without an exponent -----------------------------------------------------------

  /** No digit before the point and only zeros after it. */
  predicate BarePoint(u: string) {
    u != [] && u[0] == '.' && forall i :: 1 <= i < |u| ==> u[i] == '0'
  }

  lemma {:induction false} DotAt(i: string, f: string)
    requires AllDigits(i)
    ensures FirstDot(i + "." + f) == |i|
    ensures (i + "." + f)[..|i|] == i && (i + "." + f)[|i| + 1..] == f
  {
    var u := i + "." + f;
    assert u[|i|] == '.' && forall k :: 0 <= k < |i| ==> u[k] == i[k];
  }

  lemma {:induction false} NoE(u: string)
    requires forall i :: 0 <= i < |u| ==> IsDigit(u[i]) || u[i] == '.'
    ensures FirstE(u) == |u|
  {
  }

  lemma {:induction false} MantissaOf(i: string, f: string)
    requires i + f != [] && AllDigits(i + f)
    ensures Mantissa(i + "." + f) == Some(Shift(Digits(i + f), 0 - |f|))
  {
    hide Shift, Digits;
    assert i == (i + f)[..|i|];
    DotAt(i, f);
  }

  /** Zeros after the point do not count. */
  lemma {:induction false} FractionZeros(i: string, f: string, g: string)
    requires AllDigits(i + f) && g <= f && i + g != [] && forall k :: |g| <= k < |f| ==> f[k] == '0'
    ensures Mantissa(i + "." + g) == Mantissa(i + "." + f)
    ensures g == [] ==> Mantissa(i) == Mantissa(i + "." + f)
  {
    hide Pow10, Digits, Mantissa;
    var s := i + f;
    assert s[..|i + g|] == i + g;
    assert AllDigits(i + g);
    MantissaOf(i, f);
    MantissaOf(i, g);
    ZeroDigit(s, |i + g|);
    PowAdd(0 - |g|, |f| - |g|);
    var x, y, z := Digits(s) as real, Pow10(0 - |g|), Pow10(0 - (|f| - |g|));
    assert Pow10(0 - |f|) == y * z;
    assert Digits(i + g) as real == x * z;
    assert (x * z) * y == x * (y * z);
    assert Shift(Digits(i + g), 0 - |g|) == Shift(Digits(i + f), 0 - |f|);
    if g == [] {
      assert i + g == i;
      WholeNumber(i);
      PowZero();
    }
  }

  lemma WholeNumber(i: string)
    requires i != [] && AllDigits(i)
    ensures Mantissa(i) == Some(Digits(i) as real)
  {
  }

  lemma PowZero()
    ensures Pow10(0) == 1.0
  {
  }

  lemma {:induction false} PlainShape(u: string) returns (i: string, f: string)
    requires FirstE(u) == |u| && '.' in u && Mantissa(u).Some?
    ensures u == i + "." + f && AllDigits(i + f) && AllDigits(i) && AllDigits(f) && i + f != []
  {
    hide Pow10, Digits, AllDigits;
    var k := FirstDot(u);
    i, f := u[..k], u[k + 1..];
    DigitsOfParts(i, f);
  }

  lemma {:induction false} DigitsOfParts(i: string, f: string)
    requires AllDigits(i + f)
    ensures AllDigits(i) && AllDigits(f)
  {
    assert i == (i + f)[..|i|] && f == (i + f)[|i|..];
  }

  lemma {:induction false} TrimPlain(i: string, f: string)
    requires AllDigits(i) && AllDigits(f)
    ensures var g := TrimEnd(f, '0');
            TrimFraction(i + "." + f) == if g == [] then i else i + "." + g
  {
    var g := TrimEnd(f, '0');
    var u := i + "." + f;
    assert u[|i|] == '.';
    TrimEndShape(f, '0');
    TrimEndAppend(i + ".", f, '0');
    assert (i + ".")[|i|] == '.';
    if g == [] {
      assert (i + ".")[..|i|] == i;
      assert TrimEnd(i + ".", '.') == TrimEnd(i, '.') == i;
    } else {
      var t := i + "." + g;
      assert t[|t| - 1] == g[|g| - 1];
    }
  }

  lemma NothingIsNoNumber()
    ensures Mantissa("").None?
  {
  }

  lemma {:induction false} PlainTrim(u: string)
    requires FirstE(u) == |u| && '.' in u && Mantissa(u).Some?
    ensures Unsigned(TrimFraction(u)) == Unsigned(u) <==> !BarePoint(u)
  {
    hide Mantissa, TrimEnd, TrimFraction;
    var i, f := PlainShape(u);
    var g := TrimEnd(f, '0');
    TrimPlain(i, f);
    TrimEndShape(f, '0');
    if g == [] {
      NoE(i);
      if i == [] {
        NothingIsNoNumber();
        assert u == "." + f;
        assert forall k :: 1 <= k < |u| ==> u[k] == f[k - 1];
      } else {
        assert u[0] == i[0];
        FractionZeros(i, f, g);
      }
    } else {
      NoE(i + "." + g);
      FractionZeros(i, f, g);
      assert f[|g| - 1] != '0' && u[|i| + 1 + |g| - 1] == f[|g| - 1];
    }
  }

  // ---- a numeral with an exponent --------------------------------------------------------------

  lemma {:induction false} DigitsOfZeros(d: string, z: nat)
    requires z <= |d| && AllDigits(d) && forall i :: z <= i < |d| ==> d[i] == '0'
    requires z > 0 && d[z - 1] != '0'
    ensures AllDigits(d[..z]) && 0 < Digits(d[..z]) <= Digits(d)
    ensures z < |d| ==> Digits(d[..z]) < Digits(d)
    decreases |d|
  {
    if z < |d| {
      var n := |d| - 1;
      assert d[..n][..z] == d[..z];
      DigitsOfZeros(d[..n], z);
    } else {
      assert d[..z] == d;
    }
  }

  ghost predicate HasNonZero(x: string) {
    exists i :: 0 <= i < |x| && IsDigit(x[i]) && x[i] != '0'
  }

  lemma {:induction false} ExponentChars(x: string)
    requires Exponent(x).Some?
    ensures x != [] && '.' !in x && FirstE(x) == |x|
    ensures var h := if IsSign(x[0]) then 1 else 0; h < |x| && AllDigits(x[h..])
  {
    hide Digits;
    var h := if IsSign(x[0]) then 1 else 0;
    assert forall i :: h <= i < |x| ==> x[i] == x[h..][i - h];
  }

  lemma {:induction false} AllZeroExponent(x: string, y: string)
    requires Exponent(x).Some? && y <= x && forall i :: |y| <= i < |x| ==> x[i] == '0'
    requires y == [] || (|y| == 1 && IsSign(y[0]))
    ensures Exponent(y).None? && !HasNonZero(x)
  {
    hide Digits;
    assert forall i :: 0 <= i < |y| ==> x[i] == y[i];
  }

  lemma {:induction false} NonZeroExponent(x: string, y: string)
    requires Exponent(x).Some? && y <= x && forall i :: |y| <= i < |x| ==> x[i] == '0'
    requires y != [] && y[|y| - 1] != '0' && !IsSign(y[|y| - 1])
    ensures Exponent(y).Some? && HasNonZero(x) && (|y| < |x| ==> Exponent(y) != Exponent(x))
  {
    hide Digits;
    ExponentChars(x);
    var h := if IsSign(x[0]) then 1 else 0;
    var d, z := x[h..], |y| - h;
    assert y[0] == x[0] && x[|y| - 1] == y[|y| - 1];
    assert z > 0;
    assert d[..z] == y[h..] && d[z - 1] == y[|y| - 1];
    assert forall i :: z <= i < |d| ==> d[i] == x[i + h];
    DigitsOfZeros(d, z);
    assert IsDigit(d[z - 1]);
  }

  /** Taking zeros off an exponent leaves no exponent, or a different one. */
  lemma {:induction false} TrimExponent(x: string)
    requires Exponent(x).Some?
    ensures x != [] && '.' !in x && FirstE(x) == |x|
    ensures var y := TrimEnd(x, '0');
            && (x[|x| - 1] != '0' ==> y == x)
            && (x[|x| - 1] == '0' ==> Exponent(y) != Exponent(x))
            && (Exponent(y).Some? <==> HasNonZero(x))
            && (y != [] ==> y[|y| - 1] != '.')
  {
    hide Digits, Exponent, HasNonZero, FirstE;
    var y := TrimEnd(x, '0');
    TrimEndShape(x, '0');
    ExponentChars(x);
    assert y != [] ==> y[|y| - 1] in x;
    if y == [] {
      AllZeroExponent(x, y);
    } else if IsSign(y[|y| - 1]) {
      assert y[|y| - 1] == x[|y| - 1];
      SignIsFirst(x, |y| - 1);
      AllZeroExponent(x, y);
    } else {
      NonZeroExponent(x, y);
    }
  }

  lemma {:induction false} SignIsFirst(x: string, i: nat)
    requires Exponent(x).Some? && i < |x| && IsSign(x[i])
    ensures i == 0
  {
    hide Digits;
    ExponentChars(x);
    var h := if IsSign(x[0]) then 1 else 0;
    assert forall k :: h <= k < |x| ==> x[k] == x[h..][k - h];
  }

  ghost predicate SafeExponent(x: string, m: Option<real>) {
    x == [] || x[|x| - 1] != '0'
    || (m == Some(0.0) && HasNonZero(x))
  }

  lemma {:induction false} TrimScaled(m: string, e: char, x: string)
    requires IsE(e) && '.' in m && Exponent(x).Some?
    ensures TrimFraction(m + [e] + x) == m + [e] + TrimEnd(x, '0')
  {
    var u, y := m + [e] + x, TrimEnd(x, '0');
    var k :| 0 <= k < |m| && m[k] == '.';
    assert u[k] == '.';
    TrimExponent(x);
    TrimEndAppend(m + [e], x, '0');
    var t := m + [e] + y;
    assert t[|t| - 1] == if y == [] then e else y[|y| - 1];
    assert y == [] ==> t == m + [e];
  }

  lemma {:induction false} EAt(m: string, e: char, x: string)
    requires IsE(e) && FirstE(m) == |m|
    ensures var u := m + [e] + x; FirstE(u) == |m| && u[..|m|] == m && u[|m| + 1..] == x
  {
    var u := m + [e] + x;
    assert u[|m|] == e && forall k :: 0 <= k < |m| ==> u[k] == m[k];
  }

  lemma {:induction false} ScaledDiffers(m: real, a: int, b: int)
    requires a != b
    ensures m * Pow10(a) == m * Pow10(b) <==> m == 0.0
  {
    if a < b { PowGrows(a, b); } else { PowGrows(b, a); }
    var p, q := Pow10(a), Pow10(b);
    assert m * p - m * q == m * (p - q);
  }

  lemma {:induction false} ExponentTrim(u: string)
    requires FirstE(u) < |u| && '.' in u && Unsigned(u).Some?
    ensures Unsigned(TrimFraction(u)) == Unsigned(u) <==> SafeExponent(u[FirstE(u) + 1..], Mantissa(u[..FirstE(u)]))
  {
    hide Mantissa, Exponent, TrimEnd, TrimFraction, SafeExponent, Scale;
    var k := FirstE(u);
    var m, x := u[..k], u[k + 1..];
    var y := TrimEnd(x, '0');
    assert Mantissa(m).Some? && Exponent(x).Some? by { BothParts(Mantissa(m), Exponent(x)); }
    assert u == m + [u[k]] + x;
    TrimExponent(x);
    assert '.' in m by {
      assert '.' in m + [u[k]] + x;
    }
    assert FirstE(m) == |m|;
    TrimScaled(m, u[k], x);
    EAt(m, u[k], y);
    ScaledTrim(Mantissa(m), x);
  }

  lemma BothParts(m: Option<real>, e: Option<int>)
    ensures Scale(m, e).Some? <==> m.Some? && e.Some?
  {
  }

  lemma {:induction false} ScaledTrim(m: Option<real>, x: string)
    requires m.Some? && Exponent(x).Some?
    ensures Scale(m, Exponent(TrimEnd(x, '0'))) == Scale(m, Exponent(x)) <==> SafeExponent(x, m)
  {
    hide Exponent, TrimEnd, HasNonZero, Pow10;
    var y := TrimEnd(x, '0');
    TrimExponent(x);
    if Exponent(y).Some? && Exponent(y) != Exponent(x) {
      ScaledDiffers(m.value, Exponent(x).value, Exponent(y).value);
    }
  }

  // ---- the theorem -----------------------------------------------------------------------------

  /** Trimming leaves the value alone. */
  ghost predicate TrimIsSafe(s: string) {
    var u := Magnitude(s);
    var k := FirstE(u);
    '.' !in u || if k == |u| then !BarePoint(u) else SafeExponent(u[k + 1..], Mantissa(u[..k]))
  }

  lemma {:induction false} TrimSigned(s: string)
    requires s != [] && IsSign(s[0])
    ensures TrimFraction(s) == [s[0]] + TrimFraction(s[1..])
  {
    var u := s[1..];
    assert s == [s[0]] + u;
    assert '.' in s <==> '.' in u;
    if '.' in u {
      TrimEndAppend([s[0]], u, '0');
      TrimEndAppend([s[0]], TrimEnd(u, '0'), '.');
      assert TrimEnd([s[0]], '.') == [s[0]] && TrimEnd([s[0]], '0') == [s[0]];
    }
  }

  /** For every numeral: trimming keeps its value if and only if `TrimIsSafe`. */
  lemma {:induction false} TrimKeepsValue(s: string)
    requires ValueOf(s).Some?
    ensures ValueOf(TrimFraction(s)) == ValueOf(s) <==> TrimIsSafe(s)
  {
    hide TrimFraction, Unsigned, SafeExponent, BarePoint;
    var u := Magnitude(s);
    if s != [] && IsSign(s[0]) {
      TrimSigned(s);
      assert TrimFraction(s)[1..] == TrimFraction(u);
    }
    UnsignedTrim(u);
    if !(s != [] && IsSign(s[0])) { NoSign(s); }
  }

  lemma {:induction false} NoSign(s: string)
    requires s == [] || !IsSign(s[0])
    ensures TrimFraction(s) <= s
  {
    TrimEndShape(s, '0');
    TrimEndShape(TrimEnd(s, '0'), '.');
  }

  lemma {:induction false} UnsignedTrim(u: string)
    requires Unsigned(u).Some?
    ensures Unsigned(TrimFraction(u)) == Unsigned(u) <==>
            ('.' !in u || if FirstE(u) == |u| then !BarePoint(u)
                else SafeExponent(u[FirstE(u) + 1..], Mantissa(u[..FirstE(u)])))
  {
    hide Mantissa, Exponent, BarePoint, SafeExponent;
    if '.' in u {
      if FirstE(u) == |u| { PlainTrim(u); } else { ExponentTrim(u); }
    }
  }

  /** A text with at most one point is trimmed once and for all. */
  ghost predicate OnePoint(s: string) {
    forall i, j :: 0 <= i < j < |s| ==> s[i] != '.' || s[j] != '.'
  }

  lemma {:induction false} OnePointTrimsOnce(s: string)
    requires OnePoint(s)
    ensures TrimFraction(TrimFraction(s)) == TrimFraction(s)
  {
    if '.' in s {
      var z := TrimEnd(s, '0');
      var t := TrimEnd(z, '.');
      TrimEndShape(s, '0');
      TrimEndShape(z, '.');
      if t != z {
        assert z[|t|] == '.' && s[|t|] == '.';
        assert forall i :: 0 <= i < |t| ==> t[i] == s[i] && s[i] != '.';
      }
    }
  }

  /** Every numeral is such a text. */
  lemma {:induction false} NumeralTrimsOnce(s: string)
    requires ValueOf(s).Some?
    ensures TrimFraction(TrimFraction(s)) == TrimFraction(s)
  {
    hide Unsigned, Mantissa, TrimFraction, OnePoint, FirstE;
    var u := Magnitude(s);
    var k := FirstE(u);
    NumeralParts(u);
    MantissaPoint(u[..k]);
    PointBefore(u, k);
    if u != s { PointBehindSign(s); }
    OnePointTrimsOnce(s);
  }

  lemma {:induction false} PointBefore(u: string, k: nat)
    requires k <= |u| && OnePoint(u[..k]) && (k < |u| ==> u[k] != '.' && '.' !in u[k + 1..])
    ensures OnePoint(u)
  {
    assert forall i :: k < i < |u| ==> u[i] == u[k + 1..][i - k - 1];
    assert forall i :: 0 <= i < k ==> u[i] == u[..k][i];
  }

  lemma {:induction false} PointBehindSign(s: string)
    requires s != [] && s[0] != '.' && OnePoint(s[1..])
    ensures OnePoint(s)
  {
    assert forall i :: 0 < i < |s| ==> s[i] == s[1..][i - 1];
  }

  lemma {:induction false} NumeralParts(u: string)
    requires Unsigned(u).Some?
    ensures Mantissa(u[..FirstE(u)]).Some? && (FirstE(u) < |u| ==> '.' !in u[FirstE(u) + 1..])
  {
    var k := FirstE(u);
    if k == |u| {
      assert u[..k] == u;
    } else {
      ExponentChars(u[k + 1..]);
    }
  }

  lemma {:induction false} MantissaPoint(m: string)
    requires Mantissa(m).Some?
    ensures OnePoint(m)
  {
    hide Digits, Shift;
    var k := FirstDot(m);
    if k < |m| {
      var d := m[..k] + m[k + 1..];
      assert forall i :: k < i < |m| ==> m[i] == d[i - 1];
    }
  }
}
