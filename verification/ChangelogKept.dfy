/** Which lines of the old section a fold keeps, and which fragments compose (scripts/changelog-collect.py). */
module ChangelogKept {
  import opened Prelude
  import opened ChangelogText
  import opened Changelog
  import opened ChangelogFold
  import opened ChangelogFragment
  import opened ChangelogLimits

  /** The name of the last heading. */
  function LastHeading(body: seq<string>): Option<string> {
    if body == [] then None
    else if Heading(body[|body| - 1]).Some? then Heading(body[|body| - 1])
    else LastHeading(body[..|body| - 1])
  }

  /** Line `i` stands under the heading `n`, and no later heading has that name. */
  ghost predicate Holds(body: seq<string>, i: nat, n: string) {
    && i < |body| && Heading(body[i]).None? && LastHeading(body[..i]) == Some(n)
    && forall k :: i < k < |body| ==> Heading(body[k]) != Some(n)
  }

  /** Such a line is kept; text before the first heading and the earlier text of a repeated heading are not. */
  ghost predicate Survives(body: seq<string>, i: nat) {
    exists n :: Holds(body, i, n)
  }

  // ---- the reading loop keeps these lines --------------------------------------------------------

  lemma {:induction false} HoldsSnoc(body: seq<string>, x: string, i: nat, n: string)
    ensures Holds(body + [x], i, n) <==>
            if i == |body| then Heading(x).None? && LastHeading(body) == Some(n)
            else Holds(body, i, n) && Heading(x) != Some(n)
  {
    hide Heading, LastHeading;
    var all := body + [x];
    if i < |body| {
      assert all[..i] == body[..i] && all[i] == body[i] && all[|body|] == x;
      assert forall k :: i < k < |body| ==> all[k] == body[k];
    } else if i == |body| {
      assert all[..i] == body && all[i] == x;
    }
  }

  ghost predicate HoldsLine(body: seq<string>, n: string, l: string) {
    exists i: nat :: i < |body| && Holds(body, i, n) && body[i] == l
  }

  lemma {:induction false} HoldsLineSnoc(body: seq<string>, x: string, n: string, l: string)
    ensures HoldsLine(body + [x], n, l) <==>
            || (HoldsLine(body, n, l) && Heading(x) != Some(n))
            || (Heading(x).None? && LastHeading(body) == Some(n) && x == l)
  {
    hide Heading, LastHeading, Holds;
    var all := body + [x];
    if i: nat :| i < |all| && Holds(all, i, n) && all[i] == l {
      HoldsSnoc(body, x, i, n);
      if i < |body| { assert body[i] == l; }
    }
    if i: nat :| i < |body| && Holds(body, i, n) && body[i] == l {
      HoldsSnoc(body, x, i, n);
      if Heading(x) != Some(n) { assert all[i] == l; }
    }
    HoldsSnoc(body, x, |body|, n);
    assert all[|body|] == x;
  }

  ghost predicate ReadsAs(r: Reading, body: seq<string>) {
    && r.current == LastHeading(body)
    && (r.current.Some? ==> r.current.value in r.text)
    && forall n, l :: InText(r, n, l) <==> HoldsLine(body, n, l)
  }

  lemma {:induction false} LineReadsAs(r: Reading, body: seq<string>, x: string)
    requires ReadsAs(r, body)
    ensures ReadsAs(ReadLine(r, x), body + [x])
  {
    hide Heading, HoldsLine;
    var all := body + [x];
    assert all[|all| - 1] == x && all[..|all| - 1] == body;
    forall n, l ensures InText(ReadLine(r, x), n, l) <==> HoldsLine(all, n, l) {
      HoldsLineSnoc(body, x, n, l);
      assert InText(r, n, l) <==> HoldsLine(body, n, l);
    }
  }

  lemma {:induction false} BodyReadsAs(body: seq<string>)
    ensures ReadsAs(Read(NOTHING, body), body)
    decreases |body|
  {
    hide Heading;
    if body != [] {
      hide ReadLine;
      var front, x := body[..|body| - 1], body[|body| - 1];
      BodyReadsAs(front);
      LineReadsAs(Read(NOTHING, front), front, x);
      ReadAppend(NOTHING, front, [x]);
      assert front + [x] == body && [x][1..] == [];
      assert Read(Read(NOTHING, front), [x]) == ReadLine(Read(NOTHING, front), x);
    }
  }

  // ---- what the fold keeps -----------------------------------------------------------------------

  lemma {:induction false} DropFrontHas(ls: seq<string>, l: string)
    requires l in ls && l != ""
    ensures l in DropFront(ls)
  {
    if ls[0] == "" { DropFrontHas(ls[1..], l); }
  }

  lemma {:induction false} DropBackHas(ls: seq<string>, l: string)
    requires l in ls && l != ""
    ensures l in DropBack(ls)
  {
    var n := |ls| - 1;
    if ls[n] == "" {
      assert ls == ls[..n] + [ls[n]];
      DropBackHas(ls[..n], l);
    }
  }

  lemma {:induction false} TextIsWritten(body: seq<string>, d: seq<Section>, n: string, l: string)
    requires InText(Read(NOTHING, body), n, l) && l != ""
    ensures l in NewBody(body, d)
  {
    hide Read, Emit, SortedFrom, Glue, NewNames, Rank, Lookup, EntryLines, DropFront, DropBack;
    var r := Read(NOTHING, body);
    var all := r.order + NewNames(d, r.text);
    TextIsOrdered(NOTHING, body);
    SortedMembers(all, 0);
    DropFrontHas(r.text[n], l);
    DropBackHas(DropFront(r.text[n]), l);
    var parts := Parts(Lookup(d, n), OldLines(r, n));
    assert parts[|parts| - 1] == OldLines(r, n);
    GlueHas(parts, |parts| - 1, l);
    EmitHas(SortedFrom(all, 0), r, d, n, l);
  }

  lemma {:induction false} NamesAreGood(r: Reading, body: seq<string>)
    requires forall n :: n in r.order ==> IsName(n)
    ensures forall n :: n in Read(r, body).order ==> IsName(n)
    decreases |body|
  {
    if body != [] {
      HeadingYieldsName(body[0]);
      NamesAreGood(ReadLine(r, body[0]), body[1..]);
    }
  }

  lemma {:induction false} WrittenHeading(body: seq<string>, d: seq<Section>, l: string)
    requires NamesOk(d)
    requires var r := Read(NOTHING, body); IsHeadingOf(r.order + NewNames(d, r.text), l)
    ensures Heading(l).Some?
  {
    hide Read, NewNames, Has, Heading;
    var r := Read(NOTHING, body);
    var n :| n in r.order + NewNames(d, r.text) && l == "### " + n;
    NamesAreGood(NOTHING, body);
    NewMembers(d, r.text);
    if n !in r.order { SectionOf(d, n); }
    HeadingReadsBack(n);
  }

  lemma {:induction false} SectionOf(d: seq<Section>, n: string)
    requires NamesOk(d) && Has(d, n)
    ensures IsName(n)
  {
    SectionIsName(n);
  }

  /** For every body and all entries: a text line of the new section is a line of an entry or one that survives,
      and all of these are there. */
  lemma {:induction false} KeptExactly(body: seq<string>, d: seq<Section>, l: string)
    requires NamesOk(d) && l != "" && Heading(l).None?
    ensures l in NewBody(body, d) <==>
            (exists n :: InEntry(d, n, l)) || exists i: nat :: i < |body| && Survives(body, i) && body[i] == l
  {
    hide NewBody, Read, Heading, NewNames, Holds, NamesOk, Lookup, SplitLines;
    var r := Read(NOTHING, body);
    BodyReadsAs(body);
    if l in NewBody(body, d) {
      NewBodyFrom(body, d, l);
      if IsHeadingOf(r.order + NewNames(d, r.text), l) { WrittenHeading(body, d, l); }
      if n :| InText(r, n, l) { HeldSurvives(body, n, l); }
    }
    if n :| InEntry(d, n, l) {
      var e :| e in Lookup(d, n) && l in SplitLines(e);
      LookupIn(d, n);
      EntryIsWritten(body, d, n, e, l);
    }
    if i: nat :| i < |body| && Survives(body, i) && body[i] == l {
      var n :| Holds(body, i, n);
      assert HoldsLine(body, n, l);
      TextIsWritten(body, d, n, l);
    }
  }

  lemma {:induction false} HeldSurvives(body: seq<string>, n: string, l: string)
    requires HoldsLine(body, n, l)
    ensures exists i: nat :: i < |body| && Survives(body, i) && body[i] == l
  {
    hide Holds;
    var i: nat :| i < |body| && Holds(body, i, n) && body[i] == l;
    assert Survives(body, i);
  }

  predicate IsText(l: string) { l != "" && Heading(l).None? }

  /** Line `j` is the heading above line `i`. */
  ghost predicate Above(body: seq<string>, j: nat, i: nat) {
    j < i < |body| && Heading(body[j]).Some? && forall o :: j < o <= i ==> Heading(body[o]).None?
  }

  lemma {:induction false} LastIsAbove(body: seq<string>, i: nat)
    requires i < |body| && Heading(body[i]).None?
    ensures LastHeading(body[..i]).Some? <==> exists j: nat :: Above(body, j, i)
    ensures forall j: nat :: Above(body, j, i) ==> LastHeading(body[..i]) == Heading(body[j])
  {
    hide Heading;
    if i > 0 {
      assert body[..i][..i - 1] == body[..i - 1] && body[..i][i - 1] == body[i - 1];
      if Heading(body[i - 1]).Some? {
        assert Above(body, i - 1, i);
      } else {
        LastIsAbove(body, i - 1);
        var last := i - 1;
        if j: nat :| Above(body, j, last) { assert Above(body, j, i); }
        forall j: nat | Above(body, j, i) ensures Above(body, j, i - 1) {
          assert j != i - 1;
        }
      }
    }
  }

  /** No text line is lost if and only if each has a heading above it, and that heading does not come again. */
  lemma {:induction false} NothingIsLost(body: seq<string>)
    ensures (forall i: nat :: i < |body| && IsText(body[i]) ==> Survives(body, i)) <==>
            && (forall i: nat :: i < |body| && IsText(body[i]) ==> exists j: nat :: Above(body, j, i))
            && (forall i: nat, j: nat, k: nat :: i < k < |body| && IsText(body[i]) && j < i && Above(body, j, i) ==>
                  Heading(body[k]) != Heading(body[j]))
  {
    forall j: nat, i: nat | Above(body, j, i) ensures j < i {}
    hide Heading, LastHeading, Above;
    forall i: nat | i < |body| && IsText(body[i])
      ensures Survives(body, i) <==>
              && (exists j: nat :: Above(body, j, i))
              && (forall j: nat, k: nat :: i < k < |body| && Above(body, j, i) ==>
                    Heading(body[k]) != LastHeading(body[..i]))
      ensures forall j: nat :: j < |body| && Above(body, j, i) ==> LastHeading(body[..i]) == Heading(body[j])
    {
      LastIsAbove(body, i);
      SurvivesIf(body, i);
    }
  }

  lemma {:induction false} SurvivesIf(body: seq<string>, i: nat)
    requires i < |body| && IsText(body[i])
    ensures Survives(body, i) <==>
            LastHeading(body[..i]).Some? && forall k :: i < k < |body| ==> Heading(body[k]) != LastHeading(body[..i])
  {
    hide Heading, LastHeading;
    if LastHeading(body[..i]).Some? && forall k :: i < k < |body| ==> Heading(body[k]) != LastHeading(body[..i]) {
      assert Holds(body, i, LastHeading(body[..i]).value);
    }
  }

  // ---- the entries of an accepted fragment -------------------------------------------------------

  ghost predicate IsParse(text: string, d: seq<Section>) {
    var r := Read(NOTHING, SplitLines(text));
    && FragmentOk(SplitLines(text)) && |d| == |r.order|
    && forall i :: 0 <= i < |r.order| ==> EntryFor(r, r.order[i], d[i])
  }

  /** The lines of a parsed entry are lines of the fragment, and no headings. */
  lemma {:induction false} ParsedEntry(text: string, n: string, e: string)
    requires var r := Read(NOTHING, SplitLines(text));
             n in r.text && Trim(r.text[n]) != [] && e == Join(Trim(r.text[n]))
    ensures ShapeOk(e) && SplitLines(e) == Trim(Read(NOTHING, SplitLines(text)).text[n])
    ensures forall l :: l in SplitLines(e) ==> l in SplitLines(text)
  {
    hide Read, Join, SplitLines, Heading, Trim;
    var lines := SplitLines(text);
    var r := Read(NOTHING, lines);
    var held := r.text[n];
    BodyReadsAs(lines);
    SplitIsOneLine(text);
    forall l | l in held ensures Heading(l).None? && l in lines && OneLine(l) {
      assert InText(r, n, l);
      var i: nat :| i < |lines| && Holds(lines, i, n) && lines[i] == l;
    }
    assert forall i :: 0 <= i < |held| ==> held[i] in held;
    StripJoin(held);
    TrimmedSplits(Trim(held));
  }

  lemma {:induction false} QuietHasHeading(lines: seq<string>, i: nat)
    requires QuietStart(lines) && i < |lines| && IsText(lines[i]) && !Blank(lines[i])
    ensures exists j :: 0 <= j < i && Heading(lines[j]).Some?
  {
    if Heading(lines[0]).None? {
      QuietHasHeading(lines[1..], i - 1);
      var j :| 0 <= j < i - 1 && Heading(lines[1..][j]).Some?;
      assert lines[j + 1] == lines[1..][j];
    }
  }

  lemma {:induction false} SomeHeading(body: seq<string>, j: nat)
    requires j < |body| && Heading(body[j]).Some?
    ensures LastHeading(body).Some?
  {
    hide Heading;
    if Heading(body[|body| - 1]).None? { SomeHeading(body[..|body| - 1], j); }
  }

  lemma {:induction false} OrderPrefix(lines: seq<string>, i: nat, k: nat)
    requires i <= k <= |lines|
    ensures Read(NOTHING, lines[..i]).order <= Read(NOTHING, lines[..k]).order
  {
    hide Read;
    ReadOn(lines[..k], i);
    assert lines[..k][..i] == lines[..i];
    OrderGrows(Read(NOTHING, lines[..i]), lines[..k][i..]);
  }

  lemma {:induction false} HeadingIsRead(lines: seq<string>, k: nat, n: string)
    requires k < |lines| && Heading(lines[k]) == Some(n)
    ensures Read(NOTHING, lines[..k + 1]).order == Read(NOTHING, lines[..k]).order + [n]
  {
    hide Heading;
    ReadAppend(NOTHING, lines[..k], [lines[k]]);
    assert lines[..k + 1] == lines[..k] + [lines[k]] && [lines[k]][1..] == [];
    var r := Read(NOTHING, lines[..k]);
    assert Read(r, [lines[k]]) == ReadLine(r, lines[k]);
  }

  /** Where headings do not repeat, every text line behind the first one survives. */
  lemma {:induction false} DistinctKeeps(lines: seq<string>, i: nat, n: string)
    requires Distinct(Read(NOTHING, lines).order) && i < |lines| && Heading(lines[i]).None?
    requires LastHeading(lines[..i]) == Some(n)
    ensures Holds(lines, i, n)
  {
    hide Read, Heading, LastHeading;
    var order := Read(NOTHING, lines[..i]).order;
    BodyReadsAs(lines[..i]);
    TextIsOrdered(NOTHING, lines[..i]);
    var p :| 0 <= p < |order| && order[p] == n;
    forall k | i < k < |lines| ensures Heading(lines[k]) != Some(n) {
      if Heading(lines[k]) == Some(n) {
        OrderPrefix(lines, i, k);
        HeadingIsRead(lines, k, n);
        OrderPrefix(lines, k + 1, |lines|);
        Repeated(lines, p, |Read(NOTHING, lines[..k]).order|, n);
      }
    }
  }

  lemma {:induction false} Repeated(lines: seq<string>, p: nat, q: nat, n: string)
    requires p < q < |Read(NOTHING, lines[..|lines|]).order|
    requires Read(NOTHING, lines[..|lines|]).order[p] == n == Read(NOTHING, lines[..|lines|]).order[q]
    ensures !Distinct(Read(NOTHING, lines).order)
  {
    hide Read;
    assert lines[..|lines|] == lines;
  }

  lemma {:induction false} ReleaseIsText(l: string)
    requires IsRelease(l)
    ensures IsText(l) && !Blank(l)
  {
    assert l[0] == '#' && l[2] == ' ' && "### "[2] == '#';
    if |l| >= 5 { assert l[..4][2] == ' '; }
  }

  /** A release line of an accepted fragment gets into an entry. */
  lemma {:induction false} ReleaseIsParsed(text: string, d: seq<Section>, i: nat) returns (k: nat)
    requires IsParse(text, d) && i < |SplitLines(text)| && IsRelease(SplitLines(text)[i])
    ensures k < |d| && |d[k].entries| == 1 && SplitLines(text)[i] in SplitLines(d[k].entries[0])
  {
    hide Read, Join, SplitLines, Heading, LastHeading, IsRelease, Blank, ShapeOk;
    var lines := SplitLines(text);
    var r, l := Read(NOTHING, lines), lines[i];
    ReleaseIsText(l);
    QuietHasHeading(lines, i);
    var j :| 0 <= j < i && Heading(lines[j]).Some?;
    assert lines[..i][j] == lines[j];
    SomeHeading(lines[..i], j);
    var n := LastHeading(lines[..i]).value;
    DistinctKeeps(lines, i, n);
    BodyReadsAs(lines);
    assert HoldsLine(lines, n, l) && InText(r, n, l);
    TextIsOrdered(NOTHING, lines);
    k :| 0 <= k < |r.order| && r.order[k] == n;
    assert EntryFor(r, r.order[k], d[k]);
    ParsedEntry(text, n, d[k].entries[0]);
    TrimHas(r.text[n], l);
  }

  lemma {:induction false} TrimHas(ls: seq<string>, l: string)
    requires l in ls && l != ""
    ensures l in Trim(ls)
  {
    hide DropFront, DropBack;
    DropFrontHas(ls, l);
    DropBackHas(DropFront(ls), l);
  }

  /** What an accepted fragment yields is all that `fold` asks for, but for release lines: and it holds one if and
      only if the fragment does. */
  lemma {:induction false} AcceptedFragmentFolds(text: string, d: seq<Section>)
    requires IsParse(text, d)
    ensures NearlyOk(d)
    ensures DictOk(d) <==> forall l :: l in SplitLines(text) ==> !IsRelease(l)
  {
    hide Read, Trim, Join, SplitLines, Heading, IsRelease;
    var r := Read(NOTHING, SplitLines(text));
    forall i | 0 <= i < |d| ensures d[i].name in SECTIONS && d[i].name == r.order[i] {
      assert EntryFor(r, r.order[i], d[i]) && r.order[i] in r.order;
    }
    forall i, e | 0 <= i < |d| && e in d[i].entries
      ensures ShapeOk(e) && forall l :: l in SplitLines(e) ==> l in SplitLines(text)
    {
      assert EntryFor(r, r.order[i], d[i]) && r.order[i] in r.order;
      ParsedEntry(text, r.order[i], e);
    }
    if l :| l in SplitLines(text) && IsRelease(l) {
      var i :| 0 <= i < |SplitLines(text)| && SplitLines(text)[i] == l;
      var k := ReleaseIsParsed(text, d, i);
      var e := d[k].entries[0];
      assert e in d[k].entries && !Inner(l) && !EntryOk(e);
    } else {
      forall i, e | 0 <= i < |d| && e in d[i].entries ensures EntryOk(e) {
        assert ShapeOk(e);
      }
    }
  }

  /** A fragment composes with all others on every changelog if and only if it holds no release line. */
  lemma {:induction false} FragmentComposes(text: string, d: seq<Section>)
    requires IsParse(text, d)
    ensures ComposesOnTexts(d) <==> forall l :: l in SplitLines(text) ==> !IsRelease(l)
  {
    hide IsParse, ComposesOnTexts, NearlyOk, DictOk, IsRelease, SplitLines;
    AcceptedFragmentFolds(text, d);
    FoldComposesIffNoRelease(d);
  }
}
