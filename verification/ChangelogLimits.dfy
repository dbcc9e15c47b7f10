/** What a release line in an entry does to the next fold (scripts/changelog-collect.py). */
module ChangelogLimits {
  import opened Prelude
  import opened ChangelogText
  import opened Changelog
  import opened ChangelogFold
  import opened ChangelogProgram

  // ---- every line of an entry is written -------------------------------------------------------

  lemma {:induction false} GlueHas(parts: seq<seq<string>>, i: nat, l: string)
    requires i < |parts| && l in parts[i]
    ensures l in Glue(parts)
    decreases |parts|
  {
    if i > 0 { GlueHas(parts[1..], i - 1, l); }
  }

  lemma {:induction false} EntryLinesHas(entries: seq<string>, e: string) returns (i: nat)
    requires e in entries
    ensures i < |EntryLines(entries)| && EntryLines(entries)[i] == SplitLines(e)
  {
    if entries[0] == e {
      i := 0;
    } else {
      i := EntryLinesHas(entries[1..], e);
      i := i + 1;
    }
  }

  lemma {:induction false} EmitHas(names: seq<string>, r: Reading, d: seq<Section>, n: string, l: string)
    requires n in names && l in Content(n, r, d)
    ensures l in Emit(names, r, d)
  {
    hide Glue, Parts, OldLines, Lookup;
    if names[0] != n { EmitHas(names[1..], r, d, n, l); }
  }

  lemma {:induction false} TextIsOrdered(r: Reading, body: seq<string>)
    requires forall n :: n in r.text ==> n in r.order
    ensures forall n :: n in Read(r, body).text ==> n in Read(r, body).order
    decreases |body|
  {
    if body != [] { TextIsOrdered(ReadLine(r, body[0]), body[1..]); }
  }

  lemma {:induction false} EntryIsWritten(body: seq<string>, d: seq<Section>, n: string, e: string, l: string)
    requires Has(d, n) && e in Lookup(d, n) && l in SplitLines(e)
    ensures l in NewBody(body, d)
  {
    hide Read, Emit, SortedFrom, Glue, NewNames, Rank, Heading, Has, Lookup, SplitLines;
    var r := Read(NOTHING, body);
    var all := r.order + NewNames(d, r.text);
    TextIsOrdered(NOTHING, body);
    NewMembers(d, r.text);
    SortedMembers(all, 0);
    var i := EntryLinesHas(Lookup(d, n), e);
    GlueHas(Parts(Lookup(d, n), OldLines(r, n)), i, l);
    EmitHas(SortedFrom(all, 0), r, d, n, l);
  }

  // ---- when a fold can be read back --------------------------------------------------------------

  /** All that `fold` may be given except that entries may hold release lines. */
  ghost predicate NearlyOk(d: seq<Section>) {
    && NamesOk(d)
    && forall i, e :: 0 <= i < |d| && e in d[i].entries ==> ShapeOk(e)
  }

  ghost predicate ShapeOk(e: string) {
    && e != [] && e[0] != '\n' && e[|e| - 1] != '\n'
    && forall l :: l in SplitLines(e) ==> Heading(l).None?
  }

  lemma {:induction false} LookupAt(d: seq<Section>, i: nat)
    requires NamesOk(d) && i < |d|
    ensures Has(d, d[i].name) && Lookup(d, d[i].name) == d[i].entries
  {
    if i > 0 {
      LookupAt(d[1..], i - 1);
      assert d[1..][i - 1] == d[i];
    }
  }

  /** The folded section ends where it should, so that the next fold finds all of it, if and only if no entry
      holds a release line. */
  lemma {:induction false} ReadsBackWhole(lines: seq<string>, d: seq<Section>)
    returns (before: seq<string>, body: seq<string>, rest: seq<string>)
    requires NearlyOk(d) && AllOneLine(lines) && FoldLines(lines, d).Some?
    ensures HasBody(lines, before, body, rest) && FoldLines(lines, d).value == before + NewBody(body, d) + rest
    ensures HasBody(FoldLines(lines, d).value, before, NewBody(body, d), rest) <==> DictOk(d)
  {
    hide FoldLines, NewBody, FindLine, SplitLines, Heading, Has, Lookup;
    before, body, rest := OutsideIsUntouched(lines, d);
    if DictOk(d) {
      var b1, y1, r1 := FoldKeepsOutside(lines, d);
      OneBody(lines, before, body, rest, b1, y1, r1);
    } else {
      NoDict(d);
      var i, e :| 0 <= i < |d| && e in d[i].entries && !EntryOk(e);
      assert ShapeOk(e);
      var l :| l in SplitLines(e) && IsRelease(l);
      LookupAt(d, i);
      EntryIsWritten(body, d, d[i].name, e, l);
    }
  }

  lemma {:induction false} NoDict(d: seq<Section>)
    requires NearlyOk(d) && !DictOk(d)
    ensures exists i, e :: 0 <= i < |d| && e in d[i].entries && !EntryOk(e)
  {
    hide EntryOk, ShapeOk;
  }

  /** A file has one body. */
  lemma {:induction false} OneBody(lines: seq<string>, b: seq<string>, y: seq<string>, r: seq<string>,
                                   b1: seq<string>, y1: seq<string>, r1: seq<string>)
    requires HasBody(lines, b, y, r) && HasBody(lines, b1, y1, r1)
    ensures b == b1 && y == y1 && r == r1
  {
    hide FindLine;
    FindReleaseBehind(y, r);
    FindReleaseBehind(y1, r1);
    assert b == lines[..|b|] == b1;
    assert lines[|b|..] == y + r == y1 + r1;
    assert y == (y + r)[..|y|] && r == (y + r)[|y|..];
    assert y1 == (y1 + r1)[..|y1|] && r1 == (y1 + r1)[|y1|..];
  }

  // ---- where the lines of a folded section come from ---------------------------------------------

  lemma {:induction false} GlueFrom(parts: seq<seq<string>>, l: string)
    requires l in Glue(parts) && l != ""
    ensures exists i :: 0 <= i < |parts| && l in parts[i]
    decreases |parts|
  {
    if |parts| > 1 && l !in parts[0] {
      GlueFrom(parts[1..], l);
      var i :| 0 <= i < |parts[1..]| && l in parts[1..][i];
      assert parts[i + 1] == parts[1..][i];
    }
  }

  lemma {:induction false} EntryLinesFrom(entries: seq<string>, i: nat)
    requires i < |EntryLines(entries)|
    ensures i < |entries| && EntryLines(entries)[i] == SplitLines(entries[i])
  {
    hide SplitLines;
    EntryLinesShape(entries);
  }

  lemma {:induction false} TrimFrom(ls: seq<string>, l: string)
    requires l in Trim(ls)
    ensures l in ls
  {
    hide DropFront, DropBack;
    DropFrontShape(ls);
    DropBackShape(DropFront(ls));
  }

  /** `l` is a line of an entry that `d` holds for `name`. */
  ghost predicate InEntry(d: seq<Section>, name: string, l: string) {
    exists e :: e in Lookup(d, name) && l in SplitLines(e)
  }

  lemma {:induction false} ContentFrom(name: string, r: Reading, d: seq<Section>, l: string)
    requires l in Content(name, r, d) && l != ""
    ensures InEntry(d, name, l) || (name in r.text && l in r.text[name])
  {
    hide Glue, Lookup, SplitLines, EntryLines, Trim;
    var entries, held := Lookup(d, name), OldLines(r, name);
    GlueFrom(Parts(entries, held), l);
    var i :| 0 <= i < |Parts(entries, held)| && l in Parts(entries, held)[i];
    if i < |EntryLines(entries)| {
      EntryLinesFrom(entries, i);
      assert entries[i] in entries;
    } else if name in r.text {
      TrimFrom(r.text[name], l);
    }
  }

  lemma {:induction false} EmitFrom(names: seq<string>, r: Reading, d: seq<Section>, l: string)
    requires l in Emit(names, r, d) && l != ""
    ensures exists n :: n in names && (l == "### " + n || l in Content(n, r, d))
  {
    hide Glue, Parts, OldLines, Lookup;
    var n := names[0];
    if l in Emit(names[1..], r, d) {
      EmitFrom(names[1..], r, d, l);
    } else {
      assert l in SectionLines(n, Content(n, r, d));
      assert n in names;
    }
  }

  lemma {:induction false} TextFrom(r: Reading, body: seq<string>, all: seq<string>)
    requires (forall l :: l in body ==> l in all) && forall n, l :: n in r.text && l in r.text[n] ==> l in all
    ensures forall n, l :: n in Read(r, body).text && l in Read(r, body).text[n] ==> l in all
    decreases |body|
  {
    hide Heading;
    if body != [] {
      assert body[0] in body;
      TextFrom(ReadLine(r, body[0]), body[1..], all);
    }
  }

  ghost predicate IsHeadingOf(names: seq<string>, l: string) {
    exists n :: n in names && l == "### " + n
  }

  ghost predicate InText(r: Reading, n: string, l: string) {
    n in r.text && l in r.text[n]
  }

  /** Every line of the new body is blank, a heading, a line of an entry or a line that was read. */
  lemma {:induction false} NewBodyFrom(body: seq<string>, d: seq<Section>, l: string)
    requires l in NewBody(body, d) && l != ""
    ensures var r := Read(NOTHING, body);
            || IsHeadingOf(r.order + NewNames(d, r.text), l)
            || (exists n :: InEntry(d, n, l))
            || (l in body && exists n :: InText(r, n, l))
  {
    hide Read, Emit, SortedFrom, Content, NewNames, Rank, InEntry;
    var r := Read(NOTHING, body);
    var all := r.order + NewNames(d, r.text);
    assert NewBody(body, d) == [""] + Emit(SortedFrom(all, 0), r, d);
    EmitFrom(SortedFrom(all, 0), r, d, l);
    SortedMembers(all, 0);
    var n :| n in SortedFrom(all, 0) && (l == "### " + n || l in Content(n, r, d));
    if l in Content(n, r, d) {
      ContentFrom(n, r, d, l);
      TextFrom(NOTHING, body, body);
      assert InEntry(d, n, l) || InText(r, n, l);
    }
  }

  lemma {:induction false} HeadingIsNoRelease(n: string)
    ensures !IsRelease("### " + n)
  {
    assert ("### " + n)[2] == '#' && "## ["[2] == ' ';
  }

  /** Entries without release lines write none, whatever else they hold. */
  lemma {:induction false} NewBodyHasNoRelease(body: seq<string>, d: seq<Section>)
    requires forall l :: l in body ==> !IsRelease(l)
    requires forall n, l :: InEntry(d, n, l) ==> !IsRelease(l)
    ensures forall l :: l in NewBody(body, d) ==> !IsRelease(l)
  {
    hide NewBody, InEntry, Read, NewNames;
    forall l | l in NewBody(body, d) ensures !IsRelease(l) {
      if l != "" {
        NewBodyFrom(body, d, l);
        var r := Read(NOTHING, body);
        if n :| n in r.order + NewNames(d, r.text) && l == "### " + n { HeadingIsNoRelease(n); }
      }
    }
  }

  lemma {:induction false} NewBodyIsOneLine(body: seq<string>, d: seq<Section>)
    requires NamesOk(d) && AllOneLine(body)
    ensures AllOneLine(NewBody(body, d))
  {
    hide NewBody, Read, NewNames, SplitLines, Lookup;
    var r, section := Read(NOTHING, body), NewBody(body, d);
    forall i | 0 <= i < |section| ensures OneLine(section[i]) {
      var l := section[i];
      assert l in section;
      if l != "" {
        NewBodyFrom(body, d, l);
        if n :| n in r.order + NewNames(d, r.text) && l == "### " + n {
          NameIsOneLine(body, d, n);
        } else if n, e :| e in Lookup(d, n) && l in SplitLines(e) {
          SplitIsOneLine(e);
        }
      }
    }
  }

  lemma {:induction false} NameIsOneLine(body: seq<string>, d: seq<Section>, n: string)
    requires NamesOk(d) && AllOneLine(body)
    requires var r := Read(NOTHING, body); n in r.order + NewNames(d, r.text)
    ensures OneLine("### " + n)
  {
    hide Read, NewNames, Has;
    var r := Read(NOTHING, body);
    NamesAreOneLine(NOTHING, body);
    NewMembers(d, r.text);
    if n !in r.order { SectionHasNoBreak(d, n); }
  }

  lemma {:induction false} SectionHasNoBreak(d: seq<Section>, n: string)
    requires NamesOk(d) && Has(d, n)
    ensures OneLine(n)
  {
  }

  // ---- composition and release lines -------------------------------------------------------------

  function Longest(ls: seq<string>): nat {
    if ls == [] then 0
    else if |ls[0]| > Longest(ls[1..]) then |ls[0]| else Longest(ls[1..])
  }

  /** A text longer than all these lines. */
  function Fresh(ls: seq<string>): string { seq(Longest(ls) + 1, _ => 'z') }

  lemma {:induction false} FreshIsNew(ls: seq<string>, l: string)
    requires l in ls
    ensures |l| <= Longest(ls)
  {
    if l != ls[0] { FreshIsNew(ls[1..], l); }
  }

  lemma {:induction false} SplitOne(s: string)
    requires s != [] && OneLine(s)
    ensures SplitLines(s) == [s]
  {
    if |s| == 1 {
      assert s[1..] == [] && SplitLines(s[1..]) == [] && s == [s[0]];
    } else {
      SplitOne(s[1..]);
      assert [s[0]] + s[1..] == s;
    }
  }

  lemma {:induction false} FreshIsEntry(ls: seq<string>)
    ensures var z := Fresh(ls); z !in ls && EntryOk(z) && SplitLines(z) == [z]
  {
    var z := Fresh(ls);
    if z in ls { FreshIsNew(ls, z); }
    assert z[0] == 'z';
    SplitOne(z);
    assert Heading(z).None? && !IsRelease(z);
  }

  /** One more entry, in front of those of `name`. */
  function Add(name: string, z: string): seq<Section> { [Section(name, [z])] }

  lemma {:induction false} AddLookup(name: string, z: string, n: string)
    ensures Lookup(Add(name, z), n) == (if n == name then [z] else []) && (Has(Add(name, z), n) <==> n == name)
  {
    var d := Add(name, z);
    assert d[1..] == [] && d[0].name == name;
  }

  lemma {:induction false} AddMerges(a: seq<Section>, k: nat, z: string)
    requires NamesOk(a) && k < |a|
    ensures var m := a[k := Section(a[k].name, [z] + a[k].entries)];
            NamesOk(m) && Merges(m, a, Add(a[k].name, z))
  {
    var m := a[k := Section(a[k].name, [z] + a[k].entries)];
    assert forall i :: 0 <= i < |a| ==> m[i].name == a[i].name;
    forall n ensures Lookup(m, n) == Lookup(Add(a[k].name, z), n) + Lookup(a, n)
             ensures Has(m, n) <==> Has(a, n) || Has(Add(a[k].name, z), n)
    {
      AddLookup(a[k].name, z, n);
      ChangedLookup(a, k, [z] + a[k].entries, n);
    }
  }

  lemma {:induction false} ChangedLookup(a: seq<Section>, k: nat, entries: seq<string>, n: string)
    requires NamesOk(a) && k < |a|
    ensures var m := a[k := Section(a[k].name, entries)];
            && Lookup(m, n) == (if n == a[k].name then entries else Lookup(a, n))
            && (Has(m, n) <==> Has(a, n))
    ensures n == a[k].name ==> Lookup(a, n) == a[k].entries && Has(a, n)
  {
    var m := a[k := Section(a[k].name, entries)];
    LookupAt(a, k);
    HasTail(a, n);
    HasTail(m, n);
    if k > 0 {
      ChangedLookup(a[1..], k - 1, entries, n);
      assert m[1..] == a[1..][k - 1 := Section(a[k].name, entries)];
    } else {
      assert m[1..] == a[1..];
    }
  }

  // ---- a heading that stands twice ---------------------------------------------------------------

  function Twice(n: string): seq<string> { ["### " + n, "### " + n] }

  lemma {:induction false} ReadTwice(n: string)
    requires IsName(n)
    ensures var r := Read(NOTHING, Twice(n)); r.order == [n, n] && n in r.text
  {
    hide Heading;
    HeadingReadsBack(n);
    var h := "### " + n;
    assert Twice(n)[1..] == [h] && [h][1..] == [];
    var r1 := ReadLine(NOTHING, h);
    assert r1.order == [n];
    assert ReadLine(r1, h).order == [n, n];
    assert Read(ReadLine(r1, h), []) == ReadLine(r1, h);
  }

  /** Names of one rank that stand twice stand on both sides of some cut. */
  lemma {:induction false} CutBetween(names: seq<string>, n: string) returns (k: nat)
    requires Rank(n) < 6 && |OfRank(names, Rank(n))| >= 2
    ensures k <= |names| && n in names[..k] && n in names[k..]
  {
    hide Rank;
    RankIsInjective(names[0], n);
    if Rank(names[0]) == Rank(n) {
      k := 1;
      OfRankMembers(names[1..], Rank(n));
      var other := OfRank(names[1..], Rank(n))[0];
      assert other in OfRank(names[1..], Rank(n));
      RankIsInjective(other, n);
      assert names[..1][0] == n;
    } else {
      k := CutBetween(names[1..], n);
      k := k + 1;
      assert names[1..][..k - 1] == names[1..k] && names[1..][k - 1..] == names[k..];
      assert names[..k] == [names[0]] + names[1..k];
    }
  }

  /** Both sections of that name hold all its entries, so a fold writes any one of their lines behind any
      other. */
  lemma {:induction false} WrittenBehind(n: string, m: seq<Section>, l: string, z: string)
    returns (p: seq<string>, q: seq<string>)
    requires n in SECTIONS && InEntry(m, n, l) && InEntry(m, n, z)
    ensures NewBody(Twice(n), m) == p + q && l in p && z in q
  {
    hide Read, Emit, SortedFrom, Content, NewNames, Rank, InEntry, OfRank, Twice;
    var r := Read(NOTHING, Twice(n));
    SectionIsName(n);
    ReadTwice(n);
    var more := NewNames(m, r.text);
    var all := r.order + more;
    var names := SortedFrom(all, 0);
    RankIsInjective(n, n);
    OfRankSorted(all, 0, Rank(n));
    OfRankAppend([n, n], more, Rank(n));
    PairOfRank(n);
    var k := CutBetween(names, n);
    EmitAppend(names[..k], names[k..], r, m);
    assert names[..k] + names[k..] == names;
    EntryInContent(n, r, m, l);
    EntryInContent(n, r, m, z);
    EmitHas(names[..k], r, m, n, l);
    EmitHas(names[k..], r, m, n, z);
    p, q := [""] + Emit(names[..k], r, m), Emit(names[k..], r, m);
    assert NewBody(Twice(n), m) == [""] + Emit(names, r, m) == p + q;
  }

  lemma {:induction false} PairOfRank(n: string)
    ensures |OfRank([n, n], Rank(n))| == 2
  {
    hide Rank;
    assert [n, n][1..] == [n];
    OfRankOne(n, Rank(n));
  }

  lemma {:induction false} EntryInContent(n: string, r: Reading, d: seq<Section>, l: string)
    requires InEntry(d, n, l)
    ensures l in Content(n, r, d)
  {
    hide Glue, Lookup, SplitLines, OldLines, EntryLines;
    var e :| e in Lookup(d, n) && l in SplitLines(e);
    var i := EntryLinesHas(Lookup(d, n), e);
    GlueHas(Parts(Lookup(d, n), OldLines(r, n)), i, l);
  }

  /** The first release line is no further than any other. */
  lemma {:induction false} TailHas(p: seq<string>, q: seq<string>, l: string, z: string)
    requires l in p && IsRelease(l) && z in q
    ensures z in (p + q)[FindRelease(p + q)..]
  {
    hide IsRelease, FindRelease;
    var i :| 0 <= i < |p| && p[i] == l;
    FirstRelease(p + q, i);
    var end := FindRelease(p + q);
    var j :| 0 <= j < |q| && q[j] == z;
    assert (p + q)[end..][|p| + j - end] == z;
  }

  lemma {:induction false} FirstRelease(lines: seq<string>, i: nat)
    requires i < |lines| && IsRelease(lines[i])
    ensures FindRelease(lines) <= i
  {
    if i > 0 { FirstRelease(lines[1..], i - 1); }
  }

  lemma {:induction false} TailsDiffer(y: seq<string>, rest: seq<string>, s: seq<string>, z: string)
    requires FindRelease(y + rest) == |y| && z !in rest && z in s[FindRelease(s)..]
    ensures [UNRELEASED] + y + rest != [UNRELEASED] + s
  {
    hide FindRelease;
    assert ([UNRELEASED] + y + rest)[1..] == y + rest && ([UNRELEASED] + s)[1..] == s;
    assert (y + rest)[|y|..] == rest;
  }

  lemma {:induction false} TwiceHasBody(n: string)
    ensures HasBody([UNRELEASED] + Twice(n), [UNRELEASED], Twice(n), [])
  {
    HeadingIsNoRelease(n);
    assert FindLine([UNRELEASED] + Twice(n), UNRELEASED) == Some(0);
    assert [UNRELEASED] + Twice(n) + [] == [UNRELEASED] + Twice(n);
  }

  /** What follows the first release line after a second fold was there before it. */
  lemma {:induction false} SecondTail(section: seq<string>, b: seq<Section>)
    returns (y: seq<string>, rest: seq<string>)
    requires forall n, l :: InEntry(b, n, l) ==> !IsRelease(l)
    ensures FoldLines([UNRELEASED] + section, b) == Some([UNRELEASED] + y + rest)
    ensures FindRelease(y + rest) == |y| && forall l :: l in rest ==> l in section
  {
    hide NewBody, FindLine, FindRelease, IsRelease, FoldLines, InEntry;
    var lines := [UNRELEASED] + section;
    StartsThere(section, b);
    var before, body, r := OutsideIsUntouched(lines, b);
    assert |before| == 1 && before == lines[..1] == [UNRELEASED];
    rest := r;
    y := NewBody(body, b);
    NewBodyHasNoRelease(body, b);
    FindReleaseBehind(y, rest);
    assert lines[1..] == section && lines[1..] == body + rest;
  }

  lemma {:induction false} StartsThere(section: seq<string>, b: seq<Section>)
    ensures var lines := [UNRELEASED] + section; FindLine(lines, UNRELEASED) == Some(0) && FoldLines(lines, b).Some?
  {
    hide NewBody;
  }

  lemma {:induction false} FoldOfTwice(n: string, d: seq<Section>)
    ensures FoldLines([UNRELEASED] + Twice(n), d) == Some([UNRELEASED] + NewBody(Twice(n), d))
  {
    hide NewBody, FindLine, FoldLines, Twice;
    TwiceHasBody(n);
    FoldAt([UNRELEASED] + Twice(n), [UNRELEASED], Twice(n), [], d);
    assert [UNRELEASED] + NewBody(Twice(n), d) + [] == [UNRELEASED] + NewBody(Twice(n), d);
  }

  /** With a release line in an entry of section `k` the second fold stops at it, and a new entry gets into one
      of two sections of that name only; the single fold writes it into both. */
  lemma {:induction false} CompositionFails(a: seq<Section>, k: nat, l: string)
    returns (lines: seq<string>, b: seq<Section>, m: seq<Section>)
    requires NamesOk(a) && k < |a| && InEntry(a, a[k].name, l) && IsRelease(l)
    ensures AllOneLine(lines) && DictOk(b) && NamesOk(m) && Merges(m, a, b)
    ensures lines == [UNRELEASED] + Twice(a[k].name)
    ensures FoldLines(lines, a).Some? && FoldLines(FoldLines(lines, a).value, b) != FoldLines(lines, m)
  {
    hide NewBody, FoldLines, IsRelease, Twice, FindRelease, EntryOk;
    var n := a[k].name;
    lines := [UNRELEASED] + Twice(n);
    var section := NewBody(Twice(n), a);
    var z := Fresh(section);
    FreshIsEntry(section);
    b := Add(n, z);
    m := a[k := Section(n, [z] + a[k].entries)];
    AddMerges(a, k, z);
    FoldOfTwice(n, a);
    FoldOfTwice(n, m);
    AddHoldsOne(n, z);
    TwiceIsOneLine(n);
    var y, rest := SecondTail(section, b);
    MergedHolds(a, k, z, l);
    var p, q := WrittenBehind(n, m, l, z);
    TailHas(p, q, l, z);
    TailsDiffer(y, rest, p + q, z);
  }

  lemma {:induction false} TwiceIsOneLine(n: string)
    requires n in SECTIONS
    ensures AllOneLine([UNRELEASED] + Twice(n))
  {
  }

  lemma {:induction false} AddHoldsOne(n: string, z: string)
    requires n in SECTIONS && EntryOk(z) && SplitLines(z) == [z]
    ensures DictOk(Add(n, z)) && forall i, l :: InEntry(Add(n, z), i, l) ==> !IsRelease(l)
  {
    hide SplitLines, Lookup;
    forall i, l | InEntry(Add(n, z), i, l) ensures !IsRelease(l) {
      AddLookup(n, z, i);
      assert z in [z] && l == z && l in SplitLines(z);
    }
  }

  lemma {:induction false} MergedHolds(a: seq<Section>, k: nat, z: string, l: string)
    requires NamesOk(a) && k < |a| && SplitLines(z) == [z] && InEntry(a, a[k].name, l)
    ensures var m := a[k := Section(a[k].name, [z] + a[k].entries)];
            InEntry(m, a[k].name, z) && InEntry(m, a[k].name, l)
  {
    hide SplitLines, Lookup;
    var n, entries := a[k].name, [z] + a[k].entries;
    ChangedLookup(a, k, entries, n);
    var e :| e in Lookup(a, n) && l in SplitLines(e);
    assert e in entries && z in entries;
  }

  // ---- the exact condition -----------------------------------------------------------------------

  /** Folding `a` and then any other is folding both, on every file. */
  ghost predicate Composes(a: seq<Section>) {
    forall lines, b, m :: AllOneLine(lines) && FoldLines(lines, a).Some? && NamesOk(b) && NamesOk(m) && Merges(m, a, b)
      ==> FoldLines(FoldLines(lines, a).value, b) == FoldLines(lines, m)
  }

  /** That is so if and only if no entry of `a` holds a release line. */
  lemma {:induction false} ComposesIffNoRelease(a: seq<Section>)
    requires NearlyOk(a)
    ensures Composes(a) <==> DictOk(a)
  {
    hide FoldLines, Merges, NamesOk, InEntry, IsRelease;
    if DictOk(a) {
      forall lines, b, m | AllOneLine(lines) && FoldLines(lines, a).Some? && NamesOk(b) && NamesOk(m) && Merges(m, a, b)
        ensures FoldLines(FoldLines(lines, a).value, b) == FoldLines(lines, m)
      {
        FoldTwice(lines, a, b, m);
      }
    } else {
      var k, l := ReleaseIn(a);
      var lines, b, m := CompositionFails(a, k, l);
      DictNames(b);
    }
  }

  // ---- the same on texts --------------------------------------------------------------------------

  lemma {:induction false} FoldIsOneLine(lines: seq<string>, d: seq<Section>)
    requires NamesOk(d) && AllOneLine(lines) && FoldLines(lines, d).Some?
    ensures FoldLines(lines, d).value != [] && AllOneLine(FoldLines(lines, d).value)
  {
    hide NewBody, FindLine, FoldLines, OneLine, NamesOk;
    var before, body, rest := OutsideIsUntouched(lines, d);
    assert before == lines[..|before|] && body == lines[|before|..][..|body|] && rest == lines[|before| + |body|..];
    NewBodyIsOneLine(body, d);
    ConcatOneLine(before, NewBody(body, d), rest);
  }

  lemma {:induction false} JoinsDiffer(x: seq<string>, y: seq<string>)
    requires x != [] && y != [] && AllOneLine(x) && AllOneLine(y) && x != y
    ensures Join(x) + NL != Join(y) + NL
  {
    hide Join, SplitLines;
    SplitJoin(x);
    SplitJoin(y);
  }

  /** Folding `a` and then any other is folding both, on every text. */
  ghost predicate ComposesOnTexts(a: seq<Section>) {
    forall changelog, b, m :: Folded(changelog, a).Some? && NamesOk(b) && NamesOk(m) && Merges(m, a, b)
      ==> Folded(Folded(changelog, a).value, b) == Folded(changelog, m)
  }

  lemma {:induction false} FoldedLines(lines: seq<string>, d: seq<Section>)
    requires lines != [] && AllOneLine(lines)
    ensures var t := FoldLines(lines, d);
            Folded(Join(lines) + NL, d) == if t.None? then None else Some(Join(t.value) + NL)
  {
    hide Join, SplitLines, FoldLines;
    SplitJoin(lines);
  }

  /** For the program's own texts: so it is if and only if no entry of `a` holds a release line. */
  lemma {:induction false} FoldComposesIffNoRelease(a: seq<Section>)
    requires NearlyOk(a)
    ensures ComposesOnTexts(a) <==> DictOk(a)
  {
    hide Folded, FoldLines, Merges, NamesOk, InEntry, IsRelease, Join, Twice;
    if DictOk(a) {
      forall changelog, b, m | Folded(changelog, a).Some? && NamesOk(b) && NamesOk(m) && Merges(m, a, b)
        ensures Folded(Folded(changelog, a).value, b) == Folded(changelog, m)
      {
        FoldComposes(changelog, a, b, m);
      }
    } else {
      var k, l := ReleaseIn(a);
      var lines, b, m := CompositionFails(a, k, l);
      DictNames(b);
      FoldIsOneLine(lines, a);
      var once := FoldLines(lines, a).value;
      FoldedLines(lines, a);
      FoldedLines(lines, m);
      FoldedLines(once, b);
      TextsDiffer(lines, once, a, b, m);
      assert Folded(Join(lines) + NL, a) == Some(Join(once) + NL);
      assert Folded(Folded(Join(lines) + NL, a).value, b) != Folded(Join(lines) + NL, m);
    }
  }

  lemma {:induction false} TextsDiffer(lines: seq<string>, once: seq<string>, a: seq<Section>, b: seq<Section>,
                                       m: seq<Section>)
    requires lines != [] && AllOneLine(lines) && once != [] && AllOneLine(once) && NamesOk(b) && NamesOk(m)
    requires FoldLines(once, b) != FoldLines(lines, m)
    ensures Folded(Join(once) + NL, b) != Folded(Join(lines) + NL, m)
  {
    hide Folded, FoldLines, NamesOk, Join;
    FoldedLines(lines, m);
    FoldedLines(once, b);
    if FoldLines(once, b).Some? && FoldLines(lines, m).Some? {
      FoldIsOneLine(once, b);
      FoldIsOneLine(lines, m);
      JoinsDiffer(FoldLines(once, b).value, FoldLines(lines, m).value);
    }
  }

  lemma {:induction false} DictNames(b: seq<Section>)
    requires DictOk(b)
    ensures NamesOk(b)
  {
  }

  lemma {:induction false} ReleaseIn(a: seq<Section>) returns (k: nat, l: string)
    requires NearlyOk(a) && !DictOk(a)
    ensures NamesOk(a) && k < |a| && InEntry(a, a[k].name, l) && IsRelease(l)
  {
    hide SplitLines, Heading, Has, Lookup;
    NoDict(a);
    var i, e :| 0 <= i < |a| && e in a[i].entries && !EntryOk(e);
    assert ShapeOk(e);
    k, l :| k == i && l in SplitLines(e) && IsRelease(l);
    LookupAt(a, k);
  }
}
