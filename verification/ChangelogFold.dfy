/** Folding in two goes, and the program itself (scripts/changelog-collect.py). */
module ChangelogFold {
  import opened Prelude
  import opened ChangelogText
  import opened Changelog

  /** `m` holds, for every section, the entries of `b` before those of `a`. */
  ghost predicate Merges(m: seq<Section>, a: seq<Section>, b: seq<Section>) {
    forall n :: Lookup(m, n) == Lookup(b, n) + Lookup(a, n) && (Has(m, n) <==> Has(a, n) || Has(b, n))
  }

  // ---- section names -------------------------------------------------------------------------

  lemma {:induction false} RankIsInjective(m: string, n: string)
    ensures Rank(m) == Rank(n) && Rank(m) < 6 ==> m == n
    ensures n in SECTIONS <==> Rank(n) < 6
  {
  }

  lemma {:induction false} HasTail(d: seq<Section>, name: string)
    requires d != []
    ensures Has(d, name) <==> d[0].name == name || Has(d[1..], name)
  {
    if Has(d, name) && d[0].name != name {
      var i :| 0 <= i < |d| && d[i].name == name;
      assert d[1..][i - 1].name == name;
    }
    if Has(d[1..], name) {
      var i :| 0 <= i < |d[1..]| && d[1..][i].name == name;
      assert d[i + 1].name == name;
    }
  }

  ghost predicate NamesOk(d: seq<Section>) {
    && (forall i :: 0 <= i < |d| ==> d[i].name in SECTIONS)
    && (forall i, j :: 0 <= i < j < |d| ==> d[i].name != d[j].name)
  }

  /** The new names of one rank: the section of that rank, if it is collected and not known. */
  lemma {:induction false} NewOfRank(d: seq<Section>, known: map<string, seq<string>>, name: string)
    requires NamesOk(d) && name in SECTIONS
    ensures OfRank(NewNames(d, known), Rank(name)) == if Has(d, name) && name !in known then [name] else []
  {
    hide Rank;
    if d != [] {
      NewOfRank(d[1..], known, name);
      HasTail(d, name);
      RankIsInjective(d[0].name, name);
      var head := if d[0].name in known then [] else [d[0].name];
      OfRankAppend(head, NewNames(d[1..], known), Rank(name));
      OfRankOne(d[0].name, Rank(name));
      assert d[0].name == name ==> !Has(d[1..], name);
    }
  }

  lemma {:induction false} OfRankOne(n: string, r: nat)
    ensures OfRank([n], r) == if Rank(n) == r then [n] else []
    ensures OfRank([], r) == []
  {
    assert [n][1..] == [];
  }

  lemma {:induction false} NewOfLastRank(d: seq<Section>, known: map<string, seq<string>>)
    requires NamesOk(d)
    ensures OfRank(NewNames(d, known), 6) == []
  {
    hide Rank;
    if d != [] {
      NewOfLastRank(d[1..], known);
      RankIsInjective(d[0].name, d[0].name);
      OfRankOne(d[0].name, 6);
      OfRankAppend(if d[0].name in known then [] else [d[0].name], NewNames(d[1..], known), 6);
    }
  }

  lemma {:induction false} NewMembers(d: seq<Section>, known: map<string, seq<string>>)
    ensures forall n :: n in NewNames(d, known) <==> Has(d, n) && n !in known
  {
    if d != [] {
      NewMembers(d[1..], known);
      forall n ensures Has(d, n) <==> d[0].name == n || Has(d[1..], n) { HasTail(d, n); }
    }
  }

  /** Names arrive in the same order in two goes as in one. */
  lemma {:induction false} SameNames(order: seq<string>, k1: map<string, seq<string>>, k2: map<string, seq<string>>,
                                     a: seq<Section>, b: seq<Section>, m: seq<Section>)
    requires NamesOk(a) && NamesOk(b) && NamesOk(m)
    requires forall n :: Has(m, n) <==> Has(a, n) || Has(b, n)
    requires forall n :: n in k2 <==> n in k1 || Has(a, n)
    ensures SortedFrom(SortedFrom(order + NewNames(a, k1), 0) + NewNames(b, k2), 0)
            == SortedFrom(order + NewNames(m, k1), 0)
  {
    hide Rank, SortedFrom, OfRank, NewNames;
    var n1 := order + NewNames(a, k1);
    var x, y := SortedFrom(n1, 0) + NewNames(b, k2), order + NewNames(m, k1);
    forall r: nat | r <= 6 ensures OfRank(x, r) == OfRank(y, r) {
      OfRankAppend(SortedFrom(n1, 0), NewNames(b, k2), r);
      OfRankSorted(n1, 0, r);
      OfRankAppend(order, NewNames(a, k1), r);
      OfRankAppend(order, NewNames(m, k1), r);
      if r < 6 {
        var name := SECTIONS[r];
        RankOfSection(r);
        NewOfRank(a, k1, name);
        NewOfRank(b, k2, name);
        NewOfRank(m, k1, name);
      } else {
        NewOfLastRank(a, k1);
        NewOfLastRank(b, k2);
        NewOfLastRank(m, k1);
      }
    }
    SortedByRanks(x, y, 0);
  }

  lemma RankOfSection(r: nat)
    requires r < 6
    ensures Rank(SECTIONS[r]) == r && SECTIONS[r] in SECTIONS
  {
  }

  // ---- section contents ----------------------------------------------------------------------

  lemma {:induction false} EntryLinesAppend(a: seq<string>, b: seq<string>)
    ensures EntryLines(a + b) == EntryLines(a) + EntryLines(b)
  {
    if a == [] {
      assert a + b == b;
    } else {
      EntryLinesAppend(a[1..], b);
      assert (a + b)[1..] == a[1..] + b;
    }
  }

  lemma {:induction false} TrimHeld(c: seq<string>)
    requires Tidy(c)
    ensures Trim(Held(c)) == c
  {
    if c == [] {
      assert Held(c) == [""] && [""][1..] == [];
    } else {
      TrimTidy(c);
      assert Held(c) == [""] + c + [""];
    }
  }

  /** One section: gluing `b` onto what folding `a` left is gluing both onto what was there. */
  lemma {:induction false} SameContent(ea: seq<string>, eb: seq<string>, held: seq<string>)
    requires PartsOk(Parts(ea, held))
    ensures Glue(Parts(eb, Glue(Parts(ea, held)))) == Glue(Parts(eb + ea, held))
  {
    var inner := Parts(ea, held);
    EntryLinesAppend(eb, ea);
    GlueIsTidy(inner);
    if inner == [] {
      assert EntryLines(ea) == [];
      assert Parts(eb + ea, held) == EntryLines(eb) == Parts(eb, []);
    } else {
      GlueNested(EntryLines(eb), inner);
      assert Parts(eb + ea, held) == EntryLines(eb) + inner;
    }
  }

  lemma {:induction false} EmitSame(names: seq<string>, r1: Reading, d1: seq<Section>, r2: Reading, d2: seq<Section>)
    requires forall n :: n in names ==> Content(n, r1, d1) == Content(n, r2, d2)
    ensures Emit(names, r1, d1) == Emit(names, r2, d2)
  {
    hide Glue, Parts, OldLines, Lookup, SectionLines;
    if names != [] {
      assert names[0] in names;
      EmitSame(names[1..], r1, d1, r2, d2);
    }
  }

  /** The reading of a freshly written body. */
  lemma {:induction false} ReadNewBody(body: seq<string>, a: seq<Section>)
    requires DictOk(a) && AllOneLine(body) && forall l :: l in body ==> !IsRelease(l)
    ensures var r, r' := Read(NOTHING, body), Read(NOTHING, NewBody(body, a));
            && ReadingOk(r)
            && r'.order == SortedFrom(r.order + NewNames(a, r.text), 0)
            && (forall n :: n in r'.text <==> n in r.text || Has(a, n))
            && (forall n :: OldLines(r', n) == Content(n, r, a))
  {
    hide Read, Emit, SortedFrom, Glue, Heading, DictOk, Rank, NewNames, EntryLines, Lookup, SplitLines;
    var r := Read(NOTHING, body);
    NothingIsOk();
    ReadingStaysOk(NOTHING, body);
    var names := SortedFrom(r.order + NewNames(a, r.text), 0);
    ContentIsOk(r, a);
    NamesAreNames(r, a);
    ReadBlank(Emit(names, r, a));
    ReadEmit(NOTHING, names, r, a);
    var r' := Read(NOTHING, NewBody(body, a));
    assert r'.order == [] + names == names;
    forall n ensures OldLines(r', n) == Content(n, r, a) {
      if n in names { TrimHeld(Content(n, r, a)); } else { UnknownIsEmpty(n, r, a); }
    }
  }

  lemma NothingIsOk()
    ensures ReadingOk(NOTHING)
  {
  }

  lemma {:induction false} ReadBlank(rest: seq<string>)
    ensures Read(NOTHING, [""] + rest) == Read(NOTHING, rest)
  {
    assert ([""] + rest)[1..] == rest;
    assert ReadLine(NOTHING, "") == NOTHING;
  }

  lemma {:induction false} NamesAreNames(r: Reading, a: seq<Section>)
    requires ReadingOk(r) && DictOk(a)
    ensures var names := SortedFrom(r.order + NewNames(a, r.text), 0);
            && (forall n :: n in names <==> n in r.text || Has(a, n))
            && (forall n :: n in names ==> IsName(n))
  {
    hide SortedFrom, NewNames, Rank;
    SortedMembers(r.order + NewNames(a, r.text), 0);
    NewMembers(a, r.text);
    forall n | Has(a, n) ensures IsName(n) { SectionIsName(n); }
  }

  lemma SectionIsName(n: string)
    requires n in SECTIONS
    ensures IsName(n)
  {
  }

  lemma {:induction false} UnknownIsEmpty(n: string, r: Reading, a: seq<Section>)
    requires n !in r.text && !Has(a, n)
    ensures Content(n, r, a) == []
  {
    LookupIn(a, n);
  }

  /** The body: folding `a` and then `b` is folding both at once. */
  lemma {:induction false} BodyTwice(body: seq<string>, a: seq<Section>, b: seq<Section>, m: seq<Section>)
    requires DictOk(a) && NamesOk(b) && NamesOk(m) && Merges(m, a, b)
    requires AllOneLine(body) && forall l :: l in body ==> !IsRelease(l)
    ensures NewBody(NewBody(body, a), b) == NewBody(body, m)
  {
    hide Read, Emit, SortedFrom, Glue, Parts, OldLines, Lookup, NewNames, Rank, Has;
    var r, r' := Read(NOTHING, body), Read(NOTHING, NewBody(body, a));
    ReadNewBody(body, a);
    SameNames(r.order, r.text, r'.text, a, b, m);
    var names := SortedFrom(r.order + NewNames(m, r.text), 0);
    forall n | n in names ensures Content(n, r', b) == Content(n, r, m) {
      PartsAreOk(n, r, a);
      SameContent(Lookup(a, n), Lookup(b, n), OldLines(r, n));
    }
    EmitSame(names, r', b, r, m);
  }

  // ---- the whole file ------------------------------------------------------------------------

  lemma {:induction false} FindLineShape(lines: seq<string>, line: string)
    ensures var f := FindLine(lines, line);
            f.Some? ==> f.value < |lines| && lines[f.value] == line && forall i :: 0 <= i < f.value ==> lines[i] != line
  {
    if lines != [] { FindLineShape(lines[1..], line); }
  }

  lemma {:induction false} FindLineAgain(lines: seq<string>, line: string, more: seq<string>)
    requires FindLine(lines, line).Some?
    ensures var n := FindLine(lines, line).value;
            n < |lines| && FindLine(lines[..n + 1] + more, line) == Some(n)
  {
    FindLineShape(lines, line);
    var n := FindLine(lines, line).value;
    if n > 0 {
      FindLineAgain(lines[1..], line, more);
      assert (lines[..n + 1] + more)[1..] == lines[1..][..n] + more;
    }
  }

  lemma {:induction false} FindReleaseShape(lines: seq<string>)
    ensures var n := FindRelease(lines);
            && (forall l :: l in lines[..n] ==> !IsRelease(l))
            && (n < |lines| ==> IsRelease(lines[n]))
  {
    if lines != [] && !IsRelease(lines[0]) {
      FindReleaseShape(lines[1..]);
      var n := FindRelease(lines);
      assert lines[..n] == [lines[0]] + lines[1..][..n - 1];
    }
  }

  lemma {:induction false} FindReleaseBehind(body: seq<string>, rest: seq<string>)
    requires (forall l :: l in body ==> !IsRelease(l)) && (rest != [] ==> IsRelease(rest[0]))
    ensures FindRelease(body + rest) == |body|
  {
    if body == [] {
      assert body + rest == rest;
    } else {
      assert body[0] in body;
      FindReleaseBehind(body[1..], rest);
      assert (body + rest)[1..] == body[1..] + rest;
    }
  }

  lemma {:induction false} EmitHasNoRelease(names: seq<string>, r: Reading, d: seq<Section>)
    requires ContentOk(r, d) && forall n :: n in names ==> IsName(n) && OneLine(n)
    requires forall n :: n in names ==> AllOneLine(Content(n, r, d))
    ensures AllOneLine(Emit(names, r, d)) && forall l :: l in Emit(names, r, d) ==> !IsRelease(l)
  {
    hide Glue, Parts, OldLines, Lookup;
    if names != [] {
      var n := names[0];
      assert n in names;
      EmitHasNoRelease(names[1..], r, d);
      HeadingReadsBack(n);
      BlankIsInner();
      var c := Content(n, r, d);
      var sec := SectionLines(n, c);
      SectionIsOneLine(n, c);
      assert Emit(names, r, d) == sec + Emit(names[1..], r, d);
      forall l | l in sec ensures !IsRelease(l) { assert l == "### " + n || l == "" || l in c; }
    }
  }

  lemma {:induction false} SectionIsOneLine(n: string, c: seq<string>)
    requires OneLine(n) && AllOneLine(c)
    ensures AllOneLine(SectionLines(n, c))
  {
    var sec := SectionLines(n, c);
    assert OneLine("### " + n);
    forall i | 0 <= i < |sec| ensures OneLine(sec[i]) {
      if 2 <= i < 2 + |c| { assert sec[i] == c[i - 2]; } else if i != 0 { assert sec[i] == ""; }
    }
  }

  /** Names read from one-line bodies are one-line. */
  lemma {:induction false} NamesAreOneLine(r: Reading, body: seq<string>)
    requires AllOneLine(body) && forall n :: n in r.order ==> OneLine(n)
    ensures forall n :: n in Read(r, body).order ==> OneLine(n)
    decreases |body|
  {
    if body != [] {
      HeadingIsOneLine(body[0]);
      NamesAreOneLine(ReadLine(r, body[0]), body[1..]);
    }
  }

  lemma {:induction false} HeadingIsOneLine(line: string)
    requires OneLine(line)
    ensures Heading(line).Some? ==> OneLine(Heading(line).value)
  {
    if Heading(line).Some? { TrimRightPrefix(line[4..]); }
  }

  lemma {:induction false} TrimRightPrefix(s: string)
    ensures TrimRight(s) <= s
  {
    if s != [] && IsSpace(s[|s| - 1]) { TrimRightPrefix(s[..|s| - 1]); }
  }

  lemma {:induction false} NewBodyIsClean(body: seq<string>, d: seq<Section>)
    requires DictOk(d) && AllOneLine(body) && forall l :: l in body ==> !IsRelease(l)
    ensures AllOneLine(NewBody(body, d)) && forall l :: l in NewBody(body, d) ==> !IsRelease(l)
  {
    hide Read, Emit, SortedFrom, Glue, Parts, OldLines, Lookup, NewNames, Rank, Heading, Has;
    var r := Read(NOTHING, body);
    NothingIsOk();
    ReadingStaysOk(NOTHING, body);
    NamesAreOneLine(NOTHING, body);
    var names := SortedFrom(r.order + NewNames(d, r.text), 0);
    ContentIsOk(r, d);
    NamesAreNames(r, d);
    forall n | n in names ensures OneLine(n) && AllOneLine(Content(n, r, d)) {
      PartsAreOk(n, r, d);
      GlueIsTidy(Parts(Lookup(d, n), OldLines(r, n)));
      if n !in r.text { HasIsSection(d, n); }
    }
    EmitHasNoRelease(names, r, d);
    BlankIsInner();
  }

  lemma {:induction false} HasIsSection(d: seq<Section>, n: string)
    requires DictOk(d) && Has(d, n)
    ensures OneLine(n) && n in SECTIONS
  {
  }

  /** Where a file has its `[Unreleased]` body. */
  ghost predicate HasBody(lines: seq<string>, before: seq<string>, body: seq<string>, rest: seq<string>) {
    && lines == before + body + rest
    && FindLine(lines, UNRELEASED).Some? && |before| == FindLine(lines, UNRELEASED).value + 1
    && (forall l :: l in body ==> !IsRelease(l))
    && (rest != [] ==> IsRelease(rest[0]))
  }

  /** Text outside `[Unreleased]` is untouched, whatever the entries hold. */
  lemma {:induction false} OutsideIsUntouched(lines: seq<string>, d: seq<Section>)
    returns (before: seq<string>, body: seq<string>, rest: seq<string>)
    requires FoldLines(lines, d).Some?
    ensures HasBody(lines, before, body, rest)
    ensures FoldLines(lines, d).value == before + NewBody(body, d) + rest
  {
    hide NewBody, FindLine, FindRelease, IsRelease;
    var start := FindLine(lines, UNRELEASED).value;
    FindLineShape(lines, UNRELEASED);
    before := lines[..start + 1];
    var behind := lines[start + 1..];
    var end := FindRelease(behind);
    FindReleaseShape(behind);
    body, rest := behind[..end], behind[end..];
    assert lines == before + body + rest;
  }

  /** The new body is where the old one was, and ends where it should. */
  lemma {:induction false} FoldKeepsOutside(lines: seq<string>, d: seq<Section>)
    returns (before: seq<string>, body: seq<string>, rest: seq<string>)
    requires DictOk(d) && AllOneLine(lines) && FoldLines(lines, d).Some?
    ensures HasBody(lines, before, body, rest)
    ensures HasBody(FoldLines(lines, d).value, before, NewBody(body, d), rest)
    ensures AllOneLine(body) && AllOneLine(FoldLines(lines, d).value)
  {
    hide NewBody, FindLine, FindRelease, DictOk, OneLine, IsRelease, FoldLines;
    before, body, rest := OutsideIsUntouched(lines, d);
    var out, more := FoldLines(lines, d).value, NewBody(body, d) + rest;
    FindLineShape(lines, UNRELEASED);
    assert lines[..|before|] == before && lines[|before|..|before| + |body|] == body
        && lines[|before| + |body|..] == rest;
    NewBodyIsClean(body, d);
    FindLineAgain(lines, UNRELEASED, more);
    assert out == before + more;
    ConcatOneLine(before, NewBody(body, d), rest);
  }

  lemma {:induction false} ConcatOneLine(a: seq<string>, b: seq<string>, c: seq<string>)
    requires AllOneLine(a) && AllOneLine(b) && AllOneLine(c)
    ensures AllOneLine(a + b + c)
  {
    hide OneLine;
  }

  lemma {:induction false} FoldAt(lines: seq<string>, before: seq<string>, body: seq<string>, rest: seq<string>,
                                  d: seq<Section>)
    requires HasBody(lines, before, body, rest)
    ensures FoldLines(lines, d) == Some(before + NewBody(body, d) + rest)
  {
    hide NewBody, FindLine, FindRelease;
    FindLineShape(lines, UNRELEASED);
    var behind := lines[|before|..];
    assert behind == body + rest && lines[..|before|] == before;
    FindReleaseBehind(body, rest);
    assert behind[..|body|] == body && behind[|body|..] == rest;
  }

  /** Folding `a` and then `b` gives the same lines as one fold that holds the entries of `b` before
      those of `a`. */
  lemma {:induction false} FoldTwice(lines: seq<string>, a: seq<Section>, b: seq<Section>, m: seq<Section>)
    requires DictOk(a) && NamesOk(b) && NamesOk(m) && Merges(m, a, b)
    requires AllOneLine(lines) && FoldLines(lines, a).Some?
    ensures FoldLines(FoldLines(lines, a).value, b) == FoldLines(lines, m)
  {
    hide NewBody, FindLine, FindRelease, DictOk, Merges;
    var before, body, rest := FoldKeepsOutside(lines, a);
    FoldAt(FoldLines(lines, a).value, before, NewBody(body, a), rest, b);
    FoldAt(lines, before, body, rest, m);
    BodyWithout(body, before, rest, lines);
    BodyTwice(body, a, b, m);
  }

  lemma BodyWithout(body: seq<string>, before: seq<string>, rest: seq<string>, lines: seq<string>)
    requires HasBody(lines, before, body, rest)
    ensures forall l :: l in body ==> !IsRelease(l)
  {
  }
}
