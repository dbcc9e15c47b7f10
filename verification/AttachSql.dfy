/** The golden catalog's ATTACH statement and its redaction for logs (crates/sqe-bench/src/profile.rs). */
module AttachSql {
  import opened Prelude
  import opened TextSearch

  const QUOTE: string := "'"
  const STARS: string := "***"

  // ---- literals ------------------------------------------------------------------------------

  /** `sql_escape`: every quote doubled. */
  function Escape(v: string): string {
    if v == [] then []
    else (if v[0] == '\'' then "''" else [v[0]]) + Escape(v[1..])
  }

  function Unescape(v: string): string {
    if v == [] then []
    else if v[0] == '\'' && |v| > 1 then ['\''] + Unescape(v[2..])
    else [v[0]] + Unescape(v[1..])
  }

  /** Where the value at the front of `s` ends: at the first quote that is not doubled. */
  function ValueEnd(s: string): (e: nat)
    ensures e <= |s|
  {
    if s == [] then 0
    else if s[0] != '\'' then 1 + ValueEnd(s[1..])
    else if |s| > 1 && s[1] == '\'' then 2 + ValueEnd(s[2..])
    else 0
  }

  /** Every quote of `v` belongs to a doubled pair. */
  predicate Paired(v: string) {
    v == [] || (if v[0] != '\'' then Paired(v[1..]) else |v| > 1 && v[1] == '\'' && Paired(v[2..]))
  }

  lemma {:induction false} EscapeIsPaired(v: string)
    ensures Paired(Escape(v)) && Unescape(Escape(v)) == v
  {
    if v != [] {
      EscapeIsPaired(v[1..]);
      var e := Escape(v);
      if v[0] == '\'' {
        assert e[0] == '\'' && e[1] == '\'' && e[2..] == Escape(v[1..]);
      } else {
        assert e[0] == v[0] && e[1..] == Escape(v[1..]);
      }
      assert v == [v[0]] + v[1..];
    }
  }

  /** The scan stops exactly at the closing quote, when no quote follows it. */
  lemma {:induction false} PairedEnd(v: string, z: string)
    requires Paired(v) && (z == [] || z[0] != '\'')
    ensures ValueEnd(v + QUOTE + z) == |v|
  {
    var s := v + QUOTE + z;
    if v != [] {
      if v[0] != '\'' {
        PairedEnd(v[1..], z);
        assert s[1..] == v[1..] + QUOTE + z;
      } else {
        PairedEnd(v[2..], z);
        assert s[2..] == v[2..] + QUOTE + z;
      }
    }
  }

  /** What the scan stops at: a lone quote behind a paired value, or the end. */
  lemma {:induction false} ValueEndStops(s: string)
    ensures var e := ValueEnd(s);
            e < |s| ==> s[e] == '\'' && Paired(s[..e]) && (e + 1 < |s| ==> s[e + 1] != '\'')
    decreases |s|
  {
    if s != [] && s[0] != '\'' {
      ValueEndStops(s[1..]);
      assert s[..ValueEnd(s)] == [s[0]] + s[1..][..ValueEnd(s) - 1];
    } else if |s| > 1 && s[1] == '\'' {
      ValueEndStops(s[2..]);
      assert s[..ValueEnd(s)][2..] == s[2..][..ValueEnd(s) - 2];
    }
  }

  /** Escaping then scanning gives back the value, whatever text without a quote in front follows. */
  lemma EscapeRoundTrip(v: string, z: string)
    requires z == [] || z[0] != '\''
    ensures var s := Escape(v) + QUOTE + z;
            ValueEnd(s) == |Escape(v)| && s[ValueEnd(s)] == '\'' && Unescape(s[..ValueEnd(s)]) == v
  {
    EscapeIsPaired(v);
    PairedEnd(Escape(v), z);
    var s := Escape(v) + QUOTE + z;
    assert s[..|Escape(v)|] == Escape(v);
  }

  // ---- redact_option -------------------------------------------------------------------------

  /** `str::find`. */
  function First(s: string, n: string): (r: Option<nat>)
    ensures r.Some? ==> OccursAt(s, n, r.value) && forall k :: 0 <= k < r.value ==> !OccursAt(s, n, k)
    ensures r.None? ==> forall k :: 0 <= k <= |s| ==> !OccursAt(s, n, k)
    decreases |s|
  {
    if |s| < |n| then None
    else if s[..|n|] == n then Some(0)
    else
      LaterOccurrences(s, n);
      var r := First(s[1..], n);
      if r.Some? then Some(r.value + 1) else None
  }

  /** Occurrences are unaffected by what stands in front of the text. */
  lemma {:induction false} ShiftOccurrence(x: string, s: string, n: string, k: nat)
    ensures OccursAt(x + s, n, |x| + k) <==> OccursAt(s, n, k)
  {
    if k + |n| <= |s| { assert (x + s)[|x| + k..|x| + k + |n|] == s[k..k + |n|]; }
  }

  lemma {:induction false} LaterOccurrences(s: string, n: string)
    requires s != []
    ensures forall k :: 0 < k <= |s| ==> (OccursAt(s, n, k) <==> OccursAt(s[1..], n, k - 1))
  {
    assert s == [s[0]] + s[1..];
    forall k | 0 < k <= |s| ensures OccursAt(s, n, k) <==> OccursAt(s[1..], n, k - 1) {
      ShiftOccurrence([s[0]], s[1..], n, k - 1);
    }
  }

  /** `redact_option`, where `b` is the option name and a space: each value behind `b'` becomes
      stars. */
  function Redact(s: string, b: string): string
    decreases |s|
  {
    match First(s, b + QUOTE)
    case None => s
    case Some(k) =>
      var start := k + |b| + 1;
      var end := start + ValueEnd(s[start..]);
      if end < |s| then s[..start] + STARS + QUOTE + Redact(s[end + 1..], b) else s[..start] + STARS
  }

  /** The inner loop: over doubled quotes to the lone one. */
  method ScanValue(s: string, start: nat) returns (end: nat)
    requires start <= |s|
    ensures end == start + ValueEnd(s[start..])
  {
    end := start;
    while end < |s| && (s[end] != '\'' || (end + 1 < |s| && s[end + 1] == '\''))
      invariant start <= end <= |s|
      invariant end + ValueEnd(s[end..]) == start + ValueEnd(s[start..])
    {
      if s[end] == '\'' {
        assert s[end..][2..] == s[end + 2..];
        end := end + 2;
      } else {
        assert s[end..][1..] == s[end + 1..];
        end := end + 1;
      }
    }
  }

  /** The loop of `redact_option`: it terminates and computes `Redact`. */
  method RedactOption(sql: string, opt: string) returns (out: string)
    ensures out == Redact(sql, opt + " ")
  {
    hide ValueEnd, First;
    var b := opt + " ";
    var rest := sql;
    out := [];
    while true
      invariant out + Redact(rest, b) == Redact(sql, b)
      decreases |rest|
    {
      var found := First(rest, b + QUOTE);
      if found.None? {
        out := out + rest;
        return;
      }
      var start := found.value + |b + QUOTE|;
      var end := ScanValue(rest, start);
      out := out + rest[..start] + STARS;
      if end == |rest| {
        return;
      }
      out := out + QUOTE;
      rest := rest[end + 1..];
    }
  }

  lemma {:induction false} PrefixOccurrence(s: string, t: string, n: string, k: nat)
    requires k + |n| <= |s|
    ensures OccursAt(s + t, n, k) <==> OccursAt(s, n, k)
  {
    assert (s + t)[k..k + |n|] == s[k..k + |n|];
  }

  ghost predicate IsFirst(s: string, n: string, k: nat) {
    OccursAt(s, n, k) && forall j :: 0 <= j < k ==> !OccursAt(s, n, j)
  }

  lemma {:induction false} FirstIs(s: string, n: string, k: nat)
    requires IsFirst(s, n, k)
    ensures First(s, n) == Some(k)
  {
  }

  /** Redaction keeps the first character, and keeps nothing empty. */
  lemma {:induction false} RedactKeepsHead(s: string, b: string)
    ensures Redact(s, b) == [] <==> s == []
    ensures s != [] ==> Redact(s, b)[0] == s[0]
  {
  }

  /** How redaction unfolds at its first occurrence: `p` up to the opening quote, value, rest. */
  lemma {:induction false} RedactAt(p: string, k: nat, v: string, z: string, b: string)
    requires |p| == k + |b| + 1 && IsFirst(p + (v + QUOTE + z), b + QUOTE, k)
    requires Paired(v) && (z == [] || z[0] != '\'')
    ensures Redact(p + (v + QUOTE + z), b) == p + (STARS + QUOTE + Redact(z, b))
  {
    hide First, ValueEnd, Paired, Redact;
    var s := p + (v + QUOTE + z);
    FirstIs(s, b + QUOTE, k);
    PairedEnd(v, z);
    assert s[|p|..] == v + QUOTE + z && s[..|p|] == p;
    assert s[|p| + |v| + 1..] == z;
    RedactUnfolds(s, b, k);
    assert p + STARS + QUOTE + Redact(z, b) == p + (STARS + QUOTE + Redact(z, b));
  }

  lemma {:induction false} RedactUnfolds(s: string, b: string, k: nat)
    requires First(s, b + QUOTE) == Some(k)
    ensures var start := k + |b| + 1;
            var end := start + ValueEnd(s[start..]);
            Redact(s, b) == if end < |s| then s[..start] + STARS + QUOTE + Redact(s[end + 1..], b)
                else s[..start] + STARS
  {
    hide First, ValueEnd;
  }

  /** The text up to and including the first needle survives, so the needle stays first. */
  lemma {:induction false} FirstSurvives(s: string, n: string, k: nat, t: string)
    requires IsFirst(s, n, k)
    ensures IsFirst(s[..k + |n|] + t, n, k)
  {
    var p := s[..k + |n|];
    assert s == p + s[k + |n|..];
    forall j | 0 <= j <= k ensures OccursAt(p + t, n, j) <==> OccursAt(s, n, j) {
      PrefixOccurrence(p, t, n, j);
      PrefixOccurrence(p, s[k + |n|..], n, j);
    }
  }

  /** Redacting twice is redacting once, for every option name. */
  lemma {:induction false} RedactIsIdempotent(s: string, b: string)
    ensures Redact(Redact(s, b), b) == Redact(s, b)
    decreases |s|
  {
    hide First, ValueEnd, Redact, Paired;
    var n := b + QUOTE;
    var r := First(s, n);
    if r.None? {
      NothingToRedact(s, b);
    } else {
      var start := r.value + |n|;
      var p := s[..start];
      var end := start + ValueEnd(s[start..]);
      RedactUnfolds(s, b, r.value);
      StarsArePaired();
      if end < |s| {
        var rest := s[end + 1..];
        var z := Redact(rest, b);
        RedactKeepsHead(rest, b);
        RedactIsIdempotent(rest, b);
        LoneQuote(s, start);
        FirstSurvives(s, n, r.value, STARS + QUOTE + z);
        RedactAt(p, r.value, STARS, z, b);
        assert p + STARS + QUOTE + z == p + (STARS + QUOTE + z);
      } else {
        FirstSurvives(s, n, r.value, STARS);
        UnterminatedStars(p, r.value, b);
      }
    }
  }

  lemma {:induction false} NothingToRedact(s: string, b: string)
    requires First(s, b + QUOTE).None?
    ensures Redact(s, b) == s
  {
  }

  lemma {:induction false} LoneQuote(s: string, start: nat)
    requires start <= |s|
    ensures var end := start + ValueEnd(s[start..]); end + 1 < |s| ==> s[end + 1..][0] != '\''
  {
    ValueEndStops(s[start..]);
  }

  lemma {:induction false} UnterminatedStars(p: string, k: nat, b: string)
    requires |p| == k + |b| + 1 && IsFirst(p + STARS, b + QUOTE, k)
    ensures Redact(p + STARS, b) == p + STARS
  {
    hide First, ValueEnd, Redact;
    var s := p + STARS;
    FirstIs(s, b + QUOTE, k);
    RedactUnfolds(s, b, k);
    StarsArePaired();
    assert s[|p|..] == STARS && s[..|p|] == p;
  }

  lemma {:induction false} PairedToTheEnd(v: string)
    requires Paired(v)
    ensures ValueEnd(v) == |v|
  {
    if v != [] { PairedToTheEnd(if v[0] != '\'' then v[1..] else v[2..]); }
  }

  /** A value that no lone quote closes is hidden to the end of the text. */
  lemma {:induction false} UnclosedValueIsHidden(p: string, v: string, b: string)
    requires Paired(v) && IsFirst(p + (b + QUOTE) + v, b + QUOTE, |p|)
    ensures Redact(p + (b + QUOTE) + v, b) == p + (b + QUOTE) + STARS
  {
    hide First, ValueEnd, Redact;
    var s := p + (b + QUOTE) + v;
    FirstIs(s, b + QUOTE, |p|);
    RedactUnfolds(s, b, |p|);
    PairedToTheEnd(v);
    assert s[|p| + |b| + 1..] == v && s[..|p| + |b| + 1] == p + (b + QUOTE);
  }

  lemma StarsArePaired()
    ensures Paired(STARS) && ValueEnd(STARS) == |STARS|
  {
  }
}
