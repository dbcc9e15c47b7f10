/** Taking copies of one character off an end of a text: `trim_end_matches`, `trim_start_matches`. */
module Trimming {
  function TrimEnd(s: string, c: char): string {
    if s != [] && s[|s| - 1] == c then TrimEnd(s[..|s| - 1], c) else s
  }

  function TrimStart(s: string, c: char): string {
    if s != [] && s[0] == c then TrimStart(s[1..], c) else s
  }

  lemma {:induction false} TrimStartShape(s: string, c: char)
    ensures var t := TrimStart(s, c);
            |t| <= |s| && t == s[|s| - |t|..] && (t != [] ==> t[0] != c) && forall i :: 0 <= i < |s| - |t| ==> s[i] == c
  {
    if s != [] && s[0] == c {
      TrimStartShape(s[1..], c);
      var t := TrimStart(s, c);
      assert forall i :: 1 <= i < |s| - |t| ==> s[i] == s[1..][i - 1];
      assert s[1..][|s| - 1 - |t|..] == s[|s| - |t|..];
    }
  }

  lemma {:induction false} TrimEndAppend(x: string, y: string, c: char)
    ensures TrimEnd(x + y, c) == if TrimEnd(y, c) == [] then TrimEnd(x, c) else x + TrimEnd(y, c)
    decreases |y|
  {
    if y == [] {
      assert x + y == x;
    } else if y[|y| - 1] == c {
      var n := |y| - 1;
      assert (x + y)[..|x + y| - 1] == x + y[..n];
      TrimEndAppend(x, y[..n], c);
    }
  }

  /** `TrimEnd` takes off copies of one character and nothing else. */
  lemma {:induction false} TrimEndShape(s: string, c: char)
    ensures var t := TrimEnd(s, c);
            t <= s && (t != [] ==> t[|t| - 1] != c) && forall i :: |t| <= i < |s| ==> s[i] == c
  {
    if s != [] && s[|s| - 1] == c { TrimEndShape(s[..|s| - 1], c); }
  }
}

/** Finding one text in another. */
module TextSearch {
  predicate OccursAt(s: string, n: string, k: nat) {
    k + |n| <= |s| && s[k..k + |n|] == n
  }

  predicate EndsWith(s: string, suffix: string) {
    |suffix| <= |s| && s[|s| - |suffix|..] == suffix
  }
}

/** The order of strings, character by character. */
module TextOrder {
  predicate TextLe(a: string, b: string) {
    a == [] || (b != [] && if a[0] == b[0] then TextLe(a[1..], b[1..]) else a[0] < b[0])
  }

  lemma {:induction false} TextTotal(a: string, b: string)
    ensures TextLe(a, b) || TextLe(b, a)
    ensures TextLe(a, b) && TextLe(b, a) ==> a == b
  {
    if a != [] && b != [] && a[0] == b[0] {
      TextTotal(a[1..], b[1..]);
      assert a == [a[0]] + a[1..] && b == [b[0]] + b[1..];
    }
  }

  /** `b` goes on where `a` ends, or the first character in which they differ is smaller in `a`. */
  lemma {:induction false} FirstDifference(a: string, b: string)
    ensures TextLe(a, b) <==> a <= b || exists k :: 0 <= k < |a| && k < |b| && a[..k] == b[..k] && a[k] < b[k]
  {
    if a != [] && b != [] {
      if a[0] == b[0] {
        var x, y := a[1..], b[1..];
        FirstDifference(x, y);
        assert a == [a[0]] + x && b == [b[0]] + y;
        if k :| 0 <= k < |x| && k < |y| && x[..k] == y[..k] && x[k] < y[k] {
          assert a[..k + 1] == [a[0]] + x[..k] && b[..k + 1] == [b[0]] + y[..k] && a[k + 1] < b[k + 1];
        }
        if k :| 0 <= k < |a| && k < |b| && a[..k] == b[..k] && a[k] < b[k] {
          assert x[..k - 1] == a[..k][1..] && y[..k - 1] == b[..k][1..] && x[k - 1] < y[k - 1];
        }
      } else if a[0] < b[0] {
        assert a[..0] == b[..0];
      } else {
        forall k | 0 < k < |a| && k < |b| ensures a[..k] != b[..k] { assert a[..k][0] != b[..k][0]; }
      }
    }
  }

  lemma {:induction false} TextTransitive(a: string, b: string, c: string)
    requires TextLe(a, b) && TextLe(b, c)
    ensures TextLe(a, c)
  {
    if a != [] && a[0] == b[0] == c[0] { TextTransitive(a[1..], b[1..], c[1..]); }
  }
}
