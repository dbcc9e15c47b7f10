/** When the redacted ATTACH statement is the statement with stars for its three secrets. */
module AttachRedaction {
  import opened Prelude
  import opened TextSearch
  import opened AttachSql

  /** A quoted value and the text in front of its opening quote. */
  datatype Field = Field(intro: string, value: string)

  function Render(fs: List<Field>, tail: string): string {
    match fs
    case Nil => tail
    case Cons(f, rest) => f.intro + QUOTE + (f.value + QUOTE + Render(rest, tail))
  }

  predicate NoQuote(s: string) {
    forall i :: 0 <= i < |s| ==> s[i] != '\''
  }

  /** Text between values: no quote, and no star in front. */
  predicate Plain(s: string) {
    NoQuote(s) && (s != [] ==> s[0] != '*')
  }

  predicate Wf(fs: List<Field>) {
    fs.Cons? ==> Plain(fs.head.intro) && fs.head.intro != [] && Paired(fs.head.value) && Wf(fs.tail)
  }

  predicate Named(f: Field, b: string) {
    EndsWith(f.intro, b)
  }

  /** The needle `b'` occurs nowhere. */
  ghost predicate Free(x: string, b: string) {
    forall k :: 0 <= k <= |x| ==> !OccursAt(x, b + QUOTE, k)
  }

  /** A value, with its closing quote, that a search for `b'` would stop in. */
  ghost predicate Hides(v: string, b: string) {
    !Free(v + QUOTE, b)
  }

  ghost predicate NothingHidden(fs: List<Field>, b: string) {
    fs.Cons? ==> (Named(fs.head, b) || !Hides(fs.head.value, b)) && NothingHidden(fs.tail, b)
  }

  /** The fields with stars for the values of the named ones. */
  function Starred(fs: List<Field>, b: string): List<Field> {
    match fs
    case Nil => Nil
    case Cons(f, rest) => Cons(if Named(f, b) then f.(value := STARS) else f, Starred(rest, b))
  }

  predicate NameOk(b: string) {
    b != [] && NoQuote(b)
  }

  // ---- occurrences and quotes ----------------------------------------------------------------

  /** An occurrence ends at a quote and crosses none. */
  lemma {:induction false} EndsAtQuote(s: string, b: string, k: nat)
    requires OccursAt(s, b + QUOTE, k)
    ensures s[k + |b|] == '\'' && forall i :: k <= i < k + |b| ==> s[i] == b[i - k]
  {
    var n := b + QUOTE;
    assert s[k..k + |n|][|b|] == s[k + |b|] == n[|b|];
    forall i | k <= i < k + |b| ensures s[i] == b[i - k] {
      assert s[k..k + |n|][i - k] == n[i - k];
    }
  }

  lemma {:induction false} NoCrossing(x: string, y: string, b: string, k: nat)
    requires NameOk(b) && OccursAt(x + QUOTE + y, b + QUOTE, k)
    ensures k + |b| <= |x| || |x| + 1 <= k
  {
    EndsAtQuote(x + QUOTE + y, b, k);
    assert (x + QUOTE + y)[|x|] == '\'';
  }

  lemma {:induction false} FreeJoin(x: string, y: string, b: string)
    requires NameOk(b) && Free(x + QUOTE, b) && Free(y + QUOTE, b)
    ensures Free(x + QUOTE + y + QUOTE, b)
  {
    var s := x + QUOTE + y + QUOTE;
    assert s == x + QUOTE + (y + QUOTE);
    forall k | 0 <= k <= |s| ensures !OccursAt(s, b + QUOTE, k) {
      if OccursAt(s, b + QUOTE, k) {
        NoCrossing(x, y + QUOTE, b, k);
        if k + |b| <= |x| {
          PrefixOccurrence(x + QUOTE, y + QUOTE, b + QUOTE, k);
        } else {
          ShiftOccurrence(x + QUOTE, y + QUOTE, b + QUOTE, k - |x| - 1);
        }
      }
    }
  }

  lemma {:induction false} NamedIsFirst(intro: string, y: string, b: string)
    requires NoQuote(intro) && EndsWith(intro, b) && NameOk(b)
    ensures IsFirst(intro + QUOTE + y, b + QUOTE, |intro| - |b|)
  {
    var s, k := intro + QUOTE + y, |intro| - |b|;
    assert s[k..k + |b| + 1] == intro[k..] + QUOTE;
    forall j | 0 <= j < k ensures !OccursAt(s, b + QUOTE, j) {
      if OccursAt(s, b + QUOTE, j) {
        EndsAtQuote(s, b, j);
      }
    }
  }

  lemma {:induction false} OccurrenceNames(intro: string, b: string, k: nat)
    requires NoQuote(intro) && NameOk(b) && OccursAt(intro + QUOTE, b + QUOTE, k)
    ensures EndsWith(intro, b)
  {
    var s := intro + QUOTE;
    EndsAtQuote(s, b, k);
    assert k + |b| == |intro|;
    assert forall i :: k <= i < |intro| ==> intro[i] == s[i] == b[i - k];
  }

  lemma {:induction false} UnnamedIsFree(intro: string, b: string)
    requires NoQuote(intro) && !EndsWith(intro, b) && NameOk(b)
    ensures Free(intro + QUOTE, b)
  {
    forall k | 0 <= k <= |intro + QUOTE| ensures !OccursAt(intro + QUOTE, b + QUOTE, k) {
      if OccursAt(intro + QUOTE, b + QUOTE, k) { OccurrenceNames(intro, b, k); }
    }
  }

  /** Text that ends in a quote and holds no needle is passed over. */
  lemma {:induction false} SkipFree(x: string, y: string, b: string)
    requires NameOk(b) && Free(x + QUOTE, b)
    ensures Redact(x + QUOTE + y, b) == x + QUOTE + Redact(y, b)
  {
    hide First, ValueEnd, Redact;
    var n, s, p := b + QUOTE, x + QUOTE + y, x + QUOTE;
    forall k | 0 <= k < |p| ensures !OccursAt(s, n, k) {
      if OccursAt(s, n, k) {
        NoCrossing(x, y, b, k);
        PrefixOccurrence(p, y, n, k);
      }
    }
    forall k: nat ensures OccursAt(s, n, |p| + k) <==> OccursAt(y, n, k) { ShiftOccurrence(p, y, n, k); }
    var r := First(y, n);
    if r.None? {
      NothingToRedact(y, b);
      forall k | 0 <= k <= |s| ensures !OccursAt(s, n, k) {
        if k >= |p| { ShiftOccurrence(p, y, n, k - |p|); }
      }
      NothingToRedact(s, b);
    } else {
      var k := |p| + r.value;
      forall j | 0 <= j < k ensures !OccursAt(s, n, j) {
        if j >= |p| { assert OccursAt(s, n, |p| + (j - |p|)) <==> OccursAt(y, n, j - |p|); }
      }
      FirstIs(s, n, k);
      UnfoldBehind(p, y, b, r.value);
    }
  }

  lemma {:induction false} Behind(p: string, y: string, k: nat)
    requires k <= |y|
    ensures (p + y)[|p| + k..] == y[k..] && (p + y)[..|p| + k] == p + y[..k]
  {
  }

  lemma {:induction false} Regroup(p: string, a: string, z: string)
    ensures p + a + STARS + QUOTE + z == p + (a + STARS + QUOTE + z)
    ensures p + a + STARS == p + (a + STARS)
  {
  }

  lemma {:induction false} UnfoldBehind(p: string, y: string, b: string, k: nat)
    requires First(y, b + QUOTE) == Some(k) && First(p + y, b + QUOTE) == Some(|p| + k)
    ensures Redact(p + y, b) == p + Redact(y, b)
  {
    hide First, ValueEnd, Redact;
    RedactUnfolds(y, b, k);
    RedactUnfolds(p + y, b, |p| + k);
    var start := k + |b| + 1;
    Behind(p, y, start);
    var end := start + ValueEnd(y[start..]);
    if end < |y| {
      Behind(p, y, end + 1);
      Regroup(p, y[..start], Redact(y[end + 1..], b));
    } else {
      Regroup(p, y[..start], []);
    }
  }

  // ---- one option ----------------------------------------------------------------------------

  lemma RenderHead(fs: List<Field>, tail: string)
    requires Wf(fs) && Plain(tail)
    ensures var z := Render(fs, tail); z == [] || (z[0] != '\'' && z[0] != '*')
  {
  }

  lemma {:induction false} StarredIsWf(fs: List<Field>, b: string)
    requires Wf(fs)
    ensures Wf(Starred(fs, b))
  {
    StarsArePaired();
    if fs.Cons? { StarredIsWf(fs.tail, b); }
  }

  /** If no other value hides the option name, exactly the option's value becomes stars. */
  lemma {:induction false} RedactFields(fs: List<Field>, tail: string, b: string)
    requires Wf(fs) && Plain(tail) && NameOk(b) && NothingHidden(fs, b)
    ensures Redact(Render(fs, tail), b) == Render(Starred(fs, b), tail)
  {
    hide Redact, Free, Paired;
    match fs
    case Nil =>
      QuotelessIsFree(tail, b);
    case Cons(f, rest) =>
      var z := Render(rest, tail);
      RedactFields(rest, tail, b);
      RenderHead(rest, tail);
      if Named(f, b) {
        NamedIsFirst(f.intro, f.value + QUOTE + z, b);
        RedactAt(f.intro + QUOTE, |f.intro| - |b|, f.value, z, b);
      } else {
        UnnamedIsFree(f.intro, b);
        FreeJoin(f.intro, f.value, b);
        SkipFree(f.intro + QUOTE + f.value, z, b);
        assert f.intro + QUOTE + f.value + QUOTE + z == f.intro + QUOTE + (f.value + QUOTE + z);
        assert f.intro + QUOTE + f.value + QUOTE + Redact(z, b) == f.intro + QUOTE + (f.value + QUOTE + Redact(z, b));
      }
  }

  lemma {:induction false} QuotelessIsFree(s: string, b: string)
    requires NoQuote(s)
    ensures Redact(s, b) == s
  {
    var r := First(s, b + QUOTE);
    if r.Some? {
      EndsAtQuote(s, b, r.value);
    }
  }

  /** Every redacted text has its first needle where the text had it, followed by a star. */
  lemma {:induction false} RedactHits(x: string, b: string, k: nat)
    requires First(x, b + QUOTE) == Some(k)
    ensures IsFirst(Redact(x, b), b + QUOTE, k)
    ensures var start := k + |b| + 1;
            start < |Redact(x, b)| && Redact(x, b)[start] == '*' && Redact(x, b)[..start] == x[..start]
  {
    hide First, ValueEnd, Redact;
    var start := k + |b| + 1;
    var end := start + ValueEnd(x[start..]);
    RedactUnfolds(x, b, k);
    var t := if end < |x| then STARS + QUOTE + Redact(x[end + 1..], b) else STARS;
    assert Redact(x, b) == x[..start] + t;
    FirstSurvives(x, b + QUOTE, k, t);
  }

  lemma {:induction false} FirstIsUnique(s: string, n: string, j: nat, k: nat)
    requires IsFirst(s, n, j) && IsFirst(s, n, k)
    ensures j == k
  {
  }

  lemma {:induction false} PairedQuote(v: string, j: nat)
    requires Paired(v) && j < |v| && v[j] == '\'' && (j > 0 ==> v[j - 1] != '\'')
    ensures j + 1 < |v| && v[j + 1] == '\''
    decreases |v|
  {
    if v[0] != '\'' {
      PairedQuote(v[1..], j - 1);
    } else if j > 0 {
      PairedQuote(v[2..], j - 2);
    }
  }

  /** A hidden needle is followed by something other than a star. */
  lemma {:induction false} HiddenNeedle(v: string, z: string, b: string) returns (k: nat)
    requires Paired(v) && NameOk(b) && Hides(v, b) && (z == [] || z[0] != '*')
    ensures IsFirst(v + QUOTE, b + QUOTE, k)
    ensures var e := k + |b| + 1; e <= |v| + 1 && (e < |v + QUOTE + z| ==> (v + QUOTE + z)[e] != '*')
  {
    hide First, Paired;
    k := First(v + QUOTE, b + QUOTE).value;
    EndsAtQuote(v + QUOTE, b, k);
    var j := k + |b|;
    if j < |v| {
      assert (v + QUOTE)[j - 1] == b[|b| - 1];
      PairedQuote(v, j);
    }
  }

  /** A text whose redaction has a needle not followed by a star does not exist. */
  lemma {:induction false} NoHiddenNeedle(x: string, f: Field, z: string, b: string)
    requires NameOk(b) && Plain(f.intro) && Paired(f.value) && !Named(f, b) && (z == [] || z[0] != '*')
    requires Redact(x, b) == f.intro + QUOTE + (f.value + QUOTE + z)
    ensures !Hides(f.value, b)
  {
    hide First, Redact, Paired;
    if Hides(f.value, b) {
      var n, t, p := b + QUOTE, f.value + QUOTE + z, f.intro + QUOTE;
      var k := HiddenNeedle(f.value, z, b);
      UnnamedIsFree(f.intro, b);
      HiddenIsFirst(f.intro, f.value, z, b, k);
      if First(x, n).None? {
        NothingToRedact(x, b);
      } else {
        RedactHits(x, b, First(x, n).value);
      }
    }
  }

  lemma {:induction false} HiddenIsFirst(intro: string, v: string, z: string, b: string, k: nat)
    requires NameOk(b) && Free(intro + QUOTE, b) && IsFirst(v + QUOTE, b + QUOTE, k)
    ensures IsFirst(intro + QUOTE + (v + QUOTE + z), b + QUOTE, |intro| + 1 + k)
  {
    var n, t, p := b + QUOTE, v + QUOTE + z, intro + QUOTE;
    PrefixOccurrence(v + QUOTE, z, n, k);
    ShiftOccurrence(p, t, n, k);
    forall j | 0 <= j < |p| + k ensures !OccursAt(p + t, n, j) {
      if OccursAt(p + t, n, j) {
        NoCrossing(intro, t, b, j);
        if j < |p| {
          PrefixOccurrence(p, t, n, j);
        } else {
          ShiftOccurrence(p, t, n, j - |p|);
          PrefixOccurrence(v + QUOTE, z, n, j - |p|);
        }
      }
    }
  }

  lemma {:induction false} ValueIsStars(v: string, z: string, y: string)
    requires Paired(v) && v + QUOTE + z == STARS + QUOTE + y
    requires z == [] || z[0] != '\''
    requires y == [] || y[0] != '\''
    ensures v == STARS && z == y
  {
    StarsArePaired();
    PairedEnd(v, z);
    PairedEnd(STARS, y);
    assert v == (v + QUOTE + z)[..3] && z == (v + QUOTE + z)[4..];
    assert (STARS + QUOTE + y)[..3] == STARS && y == (STARS + QUOTE + y)[4..];
  }

  /** What redaction leaves as a rendered field list came from one: the same list but for the values
      of the named fields. None of the other values hides the name. */
  lemma {:induction false} Preimage(x: string, fs: List<Field>, tail: string, b: string) returns (gs: List<Field>)
    requires Wf(fs) && Plain(tail) && NameOk(b)
    requires Redact(x, b) == Render(fs, tail)
    ensures Wf(gs) && x == Render(gs, tail) && fs == Starred(gs, b) && NothingHidden(fs, b)
    decreases fs, 1
  {
    hide Redact, First, Free, Paired, ValueEnd;
    match fs
    case Nil =>
      gs := Nil;
      if First(x, b + QUOTE).Some? {
        RedactHits(x, b, First(x, b + QUOTE).value);
        EndsAtQuote(tail, b, First(x, b + QUOTE).value);
      } else {
        NothingToRedact(x, b);
      }
    case Cons(f, rest) =>
      if Named(f, b) {
        gs := NamedPreimage(x, f, rest, tail, b);
      } else {
        gs := UnnamedPreimage(x, f, rest, tail, b);
      }
  }

  lemma {:induction false} NamedPreimage(x: string, f: Field, rest: List<Field>, tail: string,
                                        b: string) returns (gs: List<Field>)
    requires Wf(Cons(f, rest)) && Plain(tail) && NameOk(b) && Named(f, b)
    requires Redact(x, b) == Render(Cons(f, rest), tail)
    ensures Wf(gs) && x == Render(gs, tail) && Cons(f, rest) == Starred(gs, b) && NothingHidden(Cons(f, rest), b)
    decreases Cons(f, rest), 0
  {
    hide Redact, Paired, Free;
    RenderHead(rest, tail);
    var w, r := NamedSplit(x, f, Render(rest, tail), b);
    var more := Preimage(r, rest, tail, b);
    gs := Cons(Field(f.intro, w), more);
  }

  /** Behind a named introduction, redaction put stars for some value `w` and redacted the rest. */
  lemma {:induction false} NamedSplit(x: string, f: Field, z: string, b: string) returns (w: string, r: string)
    requires Plain(f.intro) && Paired(f.value) && NameOk(b) && Named(f, b) && (z == [] || z[0] != '\'')
    requires Redact(x, b) == f.intro + QUOTE + (f.value + QUOTE + z)
    ensures x == f.intro + QUOTE + (w + QUOTE + r) && Paired(w)
    ensures f.value == STARS && z == Redact(r, b)
  {
    hide Redact, First, Free, Paired, ValueEnd, Plain, Named;
    var n, p, t := b + QUOTE, f.intro + QUOTE, f.value + QUOTE + z;
    var k := FirstBehindIntro(x, f, t, b);
    RedactUnfolds(x, b, k);
    var end := |p| + ValueEnd(x[|p|..]);
    if end < |x| {
      w, r := x[|p|..end], x[end + 1..];
      ValueEndStops(x[|p|..]);
      assert w == x[|p|..][..end - |p|];
      LoneQuote(x, |p|);
      RedactKeepsHead(r, b);
      assert p + (STARS + QUOTE + Redact(r, b)) == p + STARS + QUOTE + Redact(r, b);
      SameSuffix(p, STARS + QUOTE + Redact(r, b), t);
      ValueIsStars(f.value, z, Redact(r, b));
      assert x[end] == '\'';
      assert x == x[..|p|] + (x[|p|..end] + [x[end]] + x[end + 1..]);
    } else {
      SameSuffix(p, STARS, t);
      assert STARS[|f.value|] == t[|f.value|];
      w, r := [], [];
    }
  }

  lemma {:induction false} FirstBehindIntro(x: string, f: Field, t: string, b: string) returns (k: nat)
    requires Plain(f.intro) && NameOk(b) && Named(f, b) && Redact(x, b) == f.intro + QUOTE + t
    ensures First(x, b + QUOTE) == Some(k) && k + |b| == |f.intro| && x[..|f.intro| + 1] == f.intro + QUOTE
  {
    hide Redact, First, ValueEnd;
    var n, p := b + QUOTE, f.intro + QUOTE;
    NamedIsFirst(f.intro, t, b);
    k := |f.intro| - |b|;
    if First(x, n).None? {
      NothingToRedact(x, b);
    } else {
      RedactHits(x, b, First(x, n).value);
      FirstIsUnique(p + t, n, First(x, n).value, k);
      assert (p + t)[..|p|] == p;
    }
  }

  lemma {:induction false} SameSuffix(p: string, a: string, b: string)
    requires p + a == p + b
    ensures a == b
  {
    assert a == (p + a)[|p|..] && b == (p + b)[|p|..];
  }

  lemma {:induction false} UnnamedPreimage(x: string, f: Field, rest: List<Field>, tail: string,
                                        b: string) returns (gs: List<Field>)
    requires Wf(Cons(f, rest)) && Plain(tail) && NameOk(b) && !Named(f, b)
    requires Redact(x, b) == Render(Cons(f, rest), tail)
    ensures Wf(gs) && x == Render(gs, tail) && Cons(f, rest) == Starred(gs, b) && NothingHidden(Cons(f, rest), b)
    decreases Cons(f, rest), 0
  {
    hide Redact, First, Free, Paired, ValueEnd;
    var z := Render(rest, tail);
    RenderHead(rest, tail);
    NoHiddenNeedle(x, f, z, b);
    UnnamedIsFree(f.intro, b);
    FreeJoin(f.intro, f.value, b);
    var q := f.intro + QUOTE + f.value;
    assert Redact(x, b) == q + QUOTE + z;
    var y := BehindFree(x, q, z, b);
    SkipFree(q, y, b);
    SameSuffix(q + QUOTE, Redact(y, b), z);
    var more := Preimage(y, rest, tail, b);
    gs := Cons(f, more);
    assert x == f.intro + QUOTE + (f.value + QUOTE + y);
  }

  /** Text without needles in front of the redaction was in front of the original too. */
  lemma {:induction false} BehindFree(x: string, q: string, z: string, b: string) returns (y: string)
    requires NameOk(b) && Free(q + QUOTE, b) && Redact(x, b) == q + QUOTE + z
    ensures x == q + QUOTE + y
  {
    hide Redact, First, ValueEnd;
    var n, p := b + QUOTE, q + QUOTE;
    if First(x, n).None? {
      NothingToRedact(x, b);
      y := z;
    } else {
      var k := First(x, n).value;
      RedactHits(x, b, k);
      NoCrossing(q, z, b, k);
      if k < |p| { PrefixOccurrence(p, z, n, k); }
      assert x[..|p|] == x[..k + |b| + 1][..|p|] == (p + z)[..k + |b| + 1][..|p|] == p;
      y := x[|p|..];
    }
  }

  /** One option: the redaction is the statement with stars for that option if and only if no
      other value hides the option's name. */
  lemma RedactOneOption(fs: List<Field>, tail: string, b: string)
    requires Wf(fs) && Plain(tail) && NameOk(b)
    ensures Redact(Render(fs, tail), b) == Render(Starred(fs, b), tail) <==> NothingHidden(fs, b)
  {
    if NothingHidden(fs, b) { RedactFields(fs, tail, b); }
    if Redact(Render(fs, tail), b) == Render(Starred(fs, b), tail) {
      StarredIsWf(fs, b);
      var gs := Preimage(Render(fs, tail), Starred(fs, b), tail, b);
      HiddenInStarred(fs, b);
    }
  }

  lemma {:induction false} HiddenInStarred(fs: List<Field>, b: string)
    ensures NothingHidden(Starred(fs, b), b) <==> NothingHidden(fs, b)
  {
    if fs.Cons? { HiddenInStarred(fs.tail, b); }
  }

  // ---- three options -------------------------------------------------------------------------

  predicate SameIntros(fs: List<Field>, gs: List<Field>) {
    match (fs, gs)
    case (Nil, Nil) => true
    case (Cons(f, fr), Cons(g, gr)) => f.intro == g.intro && SameIntros(fr, gr)
    case _ => false
  }

  lemma {:induction false} StarredIntros(fs: List<Field>, b: string)
    ensures SameIntros(fs, Starred(fs, b)) && SameIntros(Starred(fs, b), fs)
  {
    if fs.Cons? { StarredIntros(fs.tail, b); }
  }

  lemma {:induction false} IntrosTransitive(a: List<Field>, b: List<Field>, c: List<Field>)
    requires SameIntros(a, b) && SameIntros(b, c)
    ensures SameIntros(a, c)
  {
    if a.Cons? { IntrosTransitive(a.tail, b.tail, c.tail); }
  }

  /** A rendered list can be read back: the scan finds where each value ends. */
  lemma {:induction false} RenderIsInjective(fs: List<Field>, gs: List<Field>, tail: string)
    requires Wf(fs) && Wf(gs) && Plain(tail) && SameIntros(fs, gs) && Render(fs, tail) == Render(gs, tail)
    ensures fs == gs
  {
    hide Paired, ValueEnd;
    if fs.Cons? {
      var f, g := fs.head, gs.head;
      var y, z := Render(fs.tail, tail), Render(gs.tail, tail);
      SameSuffix(f.intro + QUOTE, f.value + QUOTE + y, g.value + QUOTE + z);
      RenderHead(fs.tail, tail);
      RenderHead(gs.tail, tail);
      PairedEnd(f.value, y);
      PairedEnd(g.value, z);
      assert f.value == (f.value + QUOTE + y)[..|f.value|] && y == (f.value + QUOTE + y)[|f.value| + 1..];
      assert g.value == (g.value + QUOTE + z)[..|g.value|] && z == (g.value + QUOTE + z)[|g.value| + 1..];
      RenderIsInjective(fs.tail, gs.tail, tail);
    }
  }

  function RedactThree(s: string, b1: string, b2: string, b3: string): string {
    Redact(Redact(Redact(s, b1), b2), b3)
  }

  function StarredThree(fs: List<Field>, b1: string, b2: string, b3: string): List<Field> {
    Starred(Starred(Starred(fs, b1), b2), b3)
  }

  ghost predicate NothingHiddenThree(fs: List<Field>, b1: string, b2: string, b3: string) {
    && NothingHidden(fs, b1)
    && NothingHidden(Starred(fs, b1), b2)
    && NothingHidden(Starred(Starred(fs, b1), b2), b3)
  }

  /** Three options in turn, in both directions: nothing that an early pass damages is ever mended
      by a later one. */
  lemma RedactThreeOptions(fs: List<Field>, tail: string, b1: string, b2: string, b3: string)
    requires Wf(fs) && Plain(tail) && NameOk(b1) && NameOk(b2) && NameOk(b3)
    ensures RedactThree(Render(fs, tail), b1, b2, b3) == Render(StarredThree(fs, b1, b2, b3), tail)
            <==> NothingHiddenThree(fs, b1, b2, b3)
  {
    hide Redact, Starred, NothingHidden, Render, Wf, NameOk, Plain, SameIntros;
    var f1 := Starred(fs, b1);
    var f2 := Starred(f1, b2);
    StarredIsWf(fs, b1);
    StarredIsWf(f1, b2);
    StarredIsWf(f2, b3);
    if NothingHiddenThree(fs, b1, b2, b3) {
      RedactFields(fs, tail, b1);
      RedactFields(f1, tail, b2);
      RedactFields(f2, tail, b3);
    }
    if RedactThree(Render(fs, tail), b1, b2, b3) == Render(StarredThree(fs, b1, b2, b3), tail) {
      var x1 := Redact(Render(fs, tail), b1);
      var g3 := Preimage(Redact(x1, b2), Starred(f2, b3), tail, b3);
      var g2 := Preimage(x1, g3, tail, b2);
      var g1 := Preimage(Render(fs, tail), g2, tail, b1);
      IntrosOfThree(fs, g1, b1, b2, b3);
      RenderIsInjective(g1, fs, tail);
      HiddenInStarred(f2, b3);
      HiddenInStarred(f1, b2);
      HiddenInStarred(fs, b1);
    }
  }

  lemma {:induction false} IntrosOfThree(fs: List<Field>, gs: List<Field>, b1: string, b2: string, b3: string)
    requires StarredThree(fs, b1, b2, b3) == StarredThree(gs, b1, b2, b3)
    ensures SameIntros(gs, fs)
  {
    hide Starred;
    forall hs: List<Field> ensures SameIntros(hs, StarredThree(hs, b1, b2, b3))
        && SameIntros(StarredThree(hs, b1, b2, b3), hs) {
      ThreeKeepIntros(hs, b1, b2, b3);
    }
    IntrosTransitive(gs, StarredThree(gs, b1, b2, b3), fs);
  }

  lemma {:induction false} ThreeKeepIntros(fs: List<Field>, b1: string, b2: string, b3: string)
    ensures SameIntros(fs, StarredThree(fs, b1, b2, b3)) && SameIntros(StarredThree(fs, b1, b2, b3), fs)
  {
    hide Starred, SameIntros;
    var f1, f2, f3 := Starred(fs, b1), Starred(Starred(fs, b1), b2), StarredThree(fs, b1, b2, b3);
    StarredIntros(fs, b1);
    StarredIntros(f1, b2);
    StarredIntros(f2, b3);
    IntrosTransitive(fs, f1, f2);
    IntrosTransitive(fs, f2, f3);
    IntrosTransitive(f3, f2, f1);
    IntrosTransitive(f3, f1, fs);
  }

  // ---- what hides a name, before escaping ----------------------------------------------------

  /** The value holds the name and a quote, or ends with the name. */
  ghost predicate Mentions(v: string, b: string) {
    EndsWith(v, b) || exists k: nat :: OccursAt(v, b + QUOTE, k)
  }

  lemma {:induction false} EscapedFront(v: string, b: string)
    requires NoQuote(b)
    ensures b + QUOTE <= Escape(v) + QUOTE <==> b + QUOTE <= v || v == b
  {
    if b == [] {
      assert b + QUOTE == QUOTE;
      if v != [] { assert (Escape(v) + QUOTE)[0] == v[0]; }
      assert QUOTE <= v <==> v != [] && v[0] == '\'';
    } else if v != [] {
      var e := Escape(v) + QUOTE;
      assert e[0] == v[0];
      assert b == [b[0]] + b[1..] && v == [v[0]] + v[1..] && (b + QUOTE)[1..] == b[1..] + QUOTE;
      if v[0] == b[0] {
        EscapedFront(v[1..], b[1..]);
        assert e[1..] == Escape(v[1..]) + QUOTE;
        PrefixByHead(b + QUOTE, e);
        PrefixByHead(b + QUOTE, v);
      }
    }
  }

  lemma {:induction false} PrefixByHead(p: string, s: string)
    requires p != [] && s != []
    ensures p <= s <==> p[0] == s[0] && p[1..] <= s[1..]
  {
    assert p == [p[0]] + p[1..] && s == [s[0]] + s[1..];
  }

  lemma {:induction false} AtFront(s: string, n: string)
    ensures OccursAt(s, n, 0) <==> n <= s
  {
    if |n| <= |s| { assert s[0..|n|] == s[..|n|]; }
  }

  lemma {:induction false} FreeByHead(s: string, b: string)
    requires s != []
    ensures Free(s, b) <==> !(b + QUOTE <= s) && Free(s[1..], b)
  {
    LaterOccurrences(s, b + QUOTE);
    AtFront(s, b + QUOTE);
    if Free(s, b) {
      forall k | 0 <= k <= |s[1..]| ensures !OccursAt(s[1..], b + QUOTE, k) {
        assert OccursAt(s, b + QUOTE, k + 1) <==> OccursAt(s[1..], b + QUOTE, k + 1 - 1);
      }
    }
  }

  lemma {:induction false} MentionsByHead(v: string, b: string)
    requires v != [] && NameOk(b)
    ensures Mentions(v, b) <==> v == b || b + QUOTE <= v || Mentions(v[1..], b)
  {
    var n := b + QUOTE;
    LaterOccurrences(v, n);
    AtFront(v, n);
    assert EndsWith(v, b) <==> v == b || EndsWith(v[1..], b) by {
      if |b| < |v| { assert v[|v| - |b|..] == v[1..][|v[1..]| - |b|..]; }
    }
    if k: nat :| OccursAt(v[1..], n, k) { assert OccursAt(v, n, k + 1) <==> OccursAt(v[1..], n, k + 1 - 1); }
    if k: nat :| OccursAt(v, n, k) && k > 0 { assert OccursAt(v[1..], n, k - 1); }
  }

  /** An escaped value hides a name exactly when the value mentions it. */
  lemma {:induction false} HidesIfMentions(v: string, b: string)
    requires NameOk(b)
    ensures Hides(Escape(v), b) <==> Mentions(v, b)
  {
    hide Free, Mentions;
    var e := Escape(v) + QUOTE;
    if v == [] {
      NothingMentioned(b);
    } else {
      HidesIfMentions(v[1..], b);
      EscapedFront(v, b);
      FreeByHead(e, b);
      MentionsByHead(v, b);
      if v[0] == '\'' {
        assert e[1..] != [] && e[1..][0] == '\'' && e[1..][1..] == Escape(v[1..]) + QUOTE;
        FreeByHead(e[1..], b);
        assert (b + QUOTE)[0] == b[0];
      } else {
        assert e[1..] == Escape(v[1..]) + QUOTE;
      }
    }
  }

  lemma {:induction false} NothingMentioned(b: string)
    requires NameOk(b)
    ensures !Mentions([], b) && !Hides(Escape([]), b)
  {
    assert Escape([]) + QUOTE == QUOTE;
  }
}
