/** Where each line of a folded section stands (scripts/changelog-collect.py). */
module ChangelogLayout {
  import opened Prelude
  import opened ChangelogText
  import opened Changelog
  import opened ChangelogFold
  import opened ChangelogProgram
  import opened ChangelogLimits

  // ---- parts with one blank line between them ----------------------------------------------------

  /** The index at which part `i` begins: behind the parts before it and one line for each of them. */
  function Begins(parts: seq<seq<string>>, i: nat): nat
    requires i <= |parts|
  {
    if i == 0 then 0 else Begins(parts, i - 1) + |parts[i - 1]| + 1
  }

  /** Part `i` stands at its index, and a blank line is before it unless it is the first. */
  ghost predicate StandsIn(c: seq<string>, parts: seq<seq<string>>, i: nat)
    requires i < |parts|
  {
    var at := Begins(parts, i);
    at + |parts[i]| <= |c| && c[at..at + |parts[i]|] == parts[i] && (i > 0 ==> c[at - 1] == "")
  }

  /** `c` holds the parts in their order with one blank line between two of them, and nothing else. */
  ghost predicate Stacked(c: seq<string>, parts: seq<seq<string>>) {
    && |c| == (if parts == [] then 0 else Begins(parts, |parts|) - 1)
    && forall i: nat :: i < |parts| ==> StandsIn(c, parts, i)
  }

  lemma {:induction false} BeginsTail(parts: seq<seq<string>>, i: nat)
    requires parts != [] && i < |parts|
    ensures Begins(parts, i + 1) == |parts[0]| + 1 + Begins(parts[1..], i)
  {
    if i > 0 { BeginsTail(parts, i - 1); }
  }

  lemma {:induction false} GlueStacks(parts: seq<seq<string>>)
    ensures Stacked(Glue(parts), parts)
  {
    if |parts| > 1 {
      var tail, c := parts[1..], Glue(parts);
      GlueStacks(tail);
      BeginsTail(parts, |tail|);
      assert c == parts[0] + [""] + Glue(tail);
      forall i: nat | i < |parts| ensures StandsIn(c, parts, i) {
        if i == 0 {
          assert c[..|parts[0]|] == parts[0];
        } else {
          TailStands(parts, Glue(tail), i);
        }
      }
    } else if |parts| == 1 {
      assert Begins(parts, 1) == |parts[0]| + 1;
      assert parts[0][0..|parts[0]|] == parts[0];
    }
  }

  lemma {:induction false} TailStands(parts: seq<seq<string>>, rest: seq<string>, i: nat)
    requires 0 < i < |parts| && StandsIn(rest, parts[1..], i - 1)
    ensures StandsIn(parts[0] + [""] + rest, parts, i)
  {
    BeginsTail(parts, i - 1);
    var c, at, n := parts[0] + [""] + rest, Begins(parts[1..], i - 1), |parts[0]| + 1;
    assert Begins(parts, i) == n + at && parts[1..][i - 1] == parts[i];
    assert c[n + at..n + at + |parts[i]|] == rest[at..at + |parts[i]|];
    if i > 1 { assert c[n + at - 1] == rest[at - 1]; }
  }

  // ---- the old text of a section -----------------------------------------------------------------

  /** The names of the headings, in order. */
  function HeadingsOf(body: seq<string>): seq<string> {
    if body == [] then []
    else
      var h := Heading(body[0]);
      (if h.Some? then [h.value] else []) + HeadingsOf(body[1..])
  }

  /** Lines `j + 1` to `e` stand under heading `j`, the last one named `n`. */
  ghost predicate LastUnder(body: seq<string>, n: string, j: nat, e: nat) {
    && j < e <= |body| && Heading(body[j]) == Some(n)
    && (forall k :: j < k < e ==> Heading(body[k]).None?) && (e < |body| ==> Heading(body[e]).Some?)
    && (forall k :: j < k < |body| ==> Heading(body[k]) != Some(n))
  }

  /** `kept` is `ls` without the blank lines at its ends. */
  ghost predicate IsTrim(kept: seq<string>, ls: seq<string>) {
    && Tidy(kept)
    && exists a: nat, b: nat :: a <= b <= |ls| && Between(kept, ls, a, b)
  }

  ghost predicate Between(kept: seq<string>, ls: seq<string>, a: nat, b: nat)
    requires a <= b <= |ls|
  {
    && kept == ls[a..b]
    && (forall i :: 0 <= i < a ==> ls[i] == "") && (forall i :: b <= i < |ls| ==> ls[i] == "")
  }

  /** `kept` is the text under the last heading of that name; nothing where there is none. */
  ghost predicate IsOldText(body: seq<string>, n: string, kept: seq<string>) {
    if n in HeadingsOf(body) then exists j: nat, e: nat :: LastUnder(body, n, j, e) && IsTrim(kept, body[j + 1..e])
    else kept == []
  }

  lemma {:induction false} ReadsHeadings(r: Reading, body: seq<string>)
    ensures Read(r, body).order == r.order + HeadingsOf(body)
    decreases |body|
  {
    hide Heading, ReadLine;
    if body == [] {
      assert r.order + [] == r.order;
    } else {
      ReadsHeading(r, body[0]);
      ReadsHeadings(ReadLine(r, body[0]), body[1..]);
      var h := if Heading(body[0]).Some? then [Heading(body[0]).value] else [];
      assert r.order + h + HeadingsOf(body[1..]) == r.order + (h + HeadingsOf(body[1..]));
    }
  }

  lemma {:induction false} ReadsHeading(r: Reading, line: string)
    ensures ReadLine(r, line).order == r.order + if Heading(line).Some? then [Heading(line).value] else []
  {
    hide Heading;
  }

  lemma {:induction false} TextStays(r: Reading, body: seq<string>, n: string)
    requires n in r.text && r.current != Some(n) && forall k :: 0 <= k < |body| ==> Heading(body[k]) != Some(n)
    ensures n in Read(r, body).text && Read(r, body).text[n] == r.text[n]
    decreases |body|
  {
    hide Heading;
    if body != [] {
      assert forall k :: 0 <= k < |body[1..]| ==> body[1..][k] == body[k + 1];
      TextStays(ReadLine(r, body[0]), body[1..], n);
    }
  }

  /** Behind a heading, its text. */
  lemma {:induction false} ReadsText(r0: Reading, heading: string, text: seq<string>, n: string)
    requires Heading(heading) == Some(n) && forall l :: l in text ==> Heading(l).None?
    ensures var r := Read(r0, [heading] + text); n in r.text && r.text[n] == text
  {
    ReadOne(r0, heading);
    ReadAppend(r0, [heading], text);
    hide Read, Heading;
    var r1 := ReadLine(r0, heading);
    ReadInner(r1, n, text);
    assert [] + text == text;
  }

  /** What follows begins with another heading. */
  lemma {:induction false} ReadsOn(r: Reading, rest: seq<string>, n: string)
    requires n in r.text && forall k :: 0 <= k < |rest| ==> Heading(rest[k]) != Some(n)
    requires rest != [] ==> Heading(rest[0]).Some?
    ensures n in Read(r, rest).text && Read(r, rest).text[n] == r.text[n]
  {
    hide Heading;
    if rest == [] {
      ReadNothing(r);
    } else {
      ReadFirst(r, rest);
      assert forall k :: 0 <= k < |rest[1..]| ==> rest[1..][k] == rest[k + 1];
      TextStays(ReadLine(r, rest[0]), rest[1..], n);
    }
  }

  lemma {:induction false} ReadsLast(body: seq<string>, n: string, j: nat, e: nat)
    requires LastUnder(body, n, j, e)
    ensures var r := Read(NOTHING, body); n in r.text && r.text[n] == body[j + 1..e]
  {
    hide Read, Heading;
    var front, text, rest := body[..j], body[j + 1..e], body[e..];
    forall l | l in text ensures Heading(l).None? {
      var k :| 0 <= k < |text| && text[k] == l;
      assert body[j + 1 + k] == l;
    }
    ReadsText(Read(NOTHING, front), body[j], text, n);
    ReadAppend(NOTHING, front, [body[j]] + text);
    var r := Read(NOTHING, front + ([body[j]] + text));
    ReadAppend(NOTHING, front + ([body[j]] + text), rest);
    assert front + ([body[j]] + text) + rest == body;
    assert forall k :: 0 <= k < |rest| ==> rest[k] == body[e + k];
    ReadsOn(r, rest, n);
  }

  lemma {:induction false} ReadOne(r: Reading, line: string)
    ensures Read(r, [line]) == ReadLine(r, line)
  {
    assert [line][1..] == [];
  }

  lemma {:induction false} ReadFirst(r: Reading, body: seq<string>)
    requires body != []
    ensures Read(r, body) == Read(ReadLine(r, body[0]), body[1..])
  {
  }

  /** The last heading of a name and where its text ends. */
  lemma {:induction false} FindLast(body: seq<string>, n: string) returns (j: nat, e: nat)
    requires n in HeadingsOf(body)
    ensures LastUnder(body, n, j, e)
    decreases |body|
  {
    hide Heading;
    var tail := body[1..];
    if n in HeadingsOf(tail) {
      j, e := FindLast(tail, n);
      j, e := j + 1, e + 1;
      assert forall k :: 0 <= k < |tail| ==> tail[k] == body[k + 1];
      LastShifts(body, n, j, e);
    } else {
      j := 0;
      e := 1;
      while e < |body| && Heading(body[e]).None?
        invariant 1 <= e <= |body|
        invariant forall k :: 1 <= k < e ==> Heading(body[k]).None?
      {
        e := e + 1;
      }
      NotLater(tail, n);
      assert forall k :: 0 < k < |body| ==> body[k] == tail[k - 1];
    }
  }

  lemma {:induction false} LastShifts(body: seq<string>, n: string, j: nat, e: nat)
    requires body != [] && j > 0 && e > 0 && LastUnder(body[1..], n, j - 1, e - 1)
    ensures LastUnder(body, n, j, e)
  {
    hide Heading;
    assert forall k :: 0 < k < |body| ==> body[k] == body[1..][k - 1];
  }

  lemma {:induction false} NotLater(body: seq<string>, n: string)
    requires n !in HeadingsOf(body)
    ensures forall k :: 0 <= k < |body| ==> Heading(body[k]) != Some(n)
  {
    hide Heading;
    if body != [] {
      NotLater(body[1..], n);
      assert forall k :: 0 < k < |body| ==> body[k] == body[1..][k - 1];
    }
  }

  lemma {:induction false} DropFrontBlank(ls: seq<string>)
    ensures var d := DropFront(ls);
            |d| <= |ls| && d == ls[|ls| - |d|..] && forall i :: 0 <= i < |ls| - |d| ==> ls[i] == ""
  {
    if ls != [] && ls[0] == "" {
      DropFrontBlank(ls[1..]);
      var d := DropFront(ls);
      assert ls[1..][|ls| - 1 - |d|..] == ls[|ls| - |d|..];
      assert forall i :: 0 < i < |ls| ==> ls[i] == ls[1..][i - 1];
    }
  }

  lemma {:induction false} DropBackBlank(ls: seq<string>)
    ensures var d := DropBack(ls); |d| <= |ls| && d == ls[..|d|] && forall i :: |d| <= i < |ls| ==> ls[i] == ""
  {
    if ls != [] && ls[|ls| - 1] == "" { DropBackBlank(ls[..|ls| - 1]); }
  }

  lemma {:induction false} TrimIsTrim(ls: seq<string>)
    ensures IsTrim(Trim(ls), ls)
  {
    hide DropFront, DropBack;
    var front := DropFront(ls);
    var kept := DropBack(front);
    DropFrontShape(ls);
    DropFrontBlank(ls);
    DropBackShape(front);
    DropBackBlank(front);
    var a := |ls| - |front|;
    var b := a + |kept|;
    assert kept == ls[a..b];
    assert forall i :: b <= i < |ls| ==> ls[i] == front[i - a];
    assert Between(kept, ls, a, b);
  }

  lemma {:induction false} OldLinesAre(body: seq<string>, n: string)
    ensures IsOldText(body, n, OldLines(Read(NOTHING, body), n))
  {
    hide Read, Trim, IsTrim, LastUnder;
    var r := Read(NOTHING, body);
    ReadsHeadings(NOTHING, body);
    assert r.order == [] + HeadingsOf(body) == HeadingsOf(body);
    if n in HeadingsOf(body) {
      var j, e := FindLast(body, n);
      ReadsLast(body, n, j, e);
      LastInside(body, n, j, e);
      TrimIsTrim(r.text[n]);
    } else {
      TextIsOrdered(NOTHING, body);
    }
  }

  lemma {:induction false} LastInside(body: seq<string>, n: string, j: nat, e: nat)
    requires LastUnder(body, n, j, e)
    ensures j < e <= |body|
  {
  }

  // ---- one section -------------------------------------------------------------------------------

  /** The lines of the collected entries in their order, then the old text where there is any. */
  function PartsOf(entries: seq<string>, kept: seq<string>): seq<seq<string>> {
    seq(|entries|, i requires 0 <= i < |entries| => SplitLines(entries[i])) + if kept == [] then [] else [kept]
  }

  /** A section: its heading, a blank line, and its parts with a blank line behind them. */
  ghost predicate IsSection(sec: seq<string>, n: string, entries: seq<string>, kept: seq<string>) {
    exists content: seq<string> :: Stacked(content, PartsOf(entries, kept))
        && sec == ["### " + n, ""] + content + if content == [] then [] else [""]
  }

  lemma {:induction false} WrittenSection(n: string, r: Reading, d: seq<Section>)
    ensures IsSection(SectionLines(n, Content(n, r, d)), n, Lookup(d, n), OldLines(r, n))
  {
    hide Lookup, OldLines, SplitLines, Glue, Stacked;
    var entries, kept := Lookup(d, n), OldLines(r, n);
    var content := Content(n, r, d);
    EntryLinesShape(entries);
    assert Parts(entries, kept) == PartsOf(entries, kept);
    GlueStacks(Parts(entries, kept));
    assert SectionLines(n, content) == ["### " + n, ""] + content + if content == [] then [] else [""];
  }

  // ---- the whole section -------------------------------------------------------------------------

  function Concat(secs: seq<seq<string>>): seq<string> {
    if secs == [] then [] else secs[0] + Concat(secs[1..])
  }

  /** What `[Unreleased]` holds: a section for each name, with its entries above what it held before. */
  ghost predicate IsLayout(body: seq<string>, d: seq<Section>, names: seq<string>, secs: seq<seq<string>>) {
    |secs| == |names| && forall k :: 0 <= k < |names| ==> IsSectionOf(body, d, names[k], secs[k])
  }

  ghost predicate IsSectionOf(body: seq<string>, d: seq<Section>, n: string, sec: seq<string>) {
    exists kept :: IsOldText(body, n, kept) && IsSection(sec, n, Lookup(d, n), kept)
  }

  /** The known sections, in the order they are written. */
  const KNOWN: seq<string> := ["Added", "Changed", "Deprecated", "Removed", "Fixed", "Security"]

  ghost predicate KnownFirst(names: seq<string>) {
    && (forall i, j :: 0 <= i < j < |names| && names[j] in KNOWN ==> names[i] in KNOWN)
    && (forall i, j, p, q ::
          0 <= i < j < |names| && 0 <= p < 6 && 0 <= q < 6 && names[i] == KNOWN[p] && names[j] == KNOWN[q] ==> p <= q)
  }

  function Unknown(names: seq<string>): seq<string> {
    if names == [] then [] else (if names[0] in KNOWN then [] else [names[0]]) + Unknown(names[1..])
  }

  lemma {:induction false} RankIsPlace(n: string)
    ensures Rank(n) < 6 <==> n in KNOWN
    ensures forall p :: 0 <= p < 6 && n == KNOWN[p] ==> Rank(n) == p
  {
  }

  lemma {:induction false} GrowingIsKnownFirst(names: seq<string>)
    requires RanksGrow(names)
    ensures KnownFirst(names)
  {
    forall n ensures Rank(n) < 6 <==> n in KNOWN
             ensures forall p :: 0 <= p < 6 && n == KNOWN[p] ==> Rank(n) == p
    {
      RankIsPlace(n);
    }
    hide Rank;
  }

  lemma {:induction false} LastRankIsUnknown(names: seq<string>)
    ensures OfRank(names, 6) == Unknown(names)
  {
    if names != [] {
      LastRankIsUnknown(names[1..]);
      RankIsPlace(names[0]);
      RankIsSmall(names[0]);
      hide Rank;
    }
  }

  /** The names in their order: known sections by rank, unknown ones behind them as they were; one for each old
      heading and one for each section that is new. */
  ghost predicate IsOrder(body: seq<string>, d: seq<Section>, names: seq<string>) {
    && KnownFirst(names) && Unknown(names) == Unknown(HeadingsOf(body))
    && forall n :: multiset(names)[n]
         == if n in HeadingsOf(body) then multiset(HeadingsOf(body))[n] else if Has(d, n) then 1 else 0
  }

  lemma {:induction false} EmitLayout(names: seq<string>, body: seq<string>, d: seq<Section>)
    returns (secs: seq<seq<string>>)
    ensures Emit(names, Read(NOTHING, body), d) == Concat(secs) && IsLayout(body, d, names, secs)
    decreases |names|
  {
    hide Read, IsOldText, IsSection, Content, Lookup, SectionLines;
    var r := Read(NOTHING, body);
    if names == [] {
      secs := [];
    } else {
      var rest := EmitLayout(names[1..], body, d);
      var sec := SectionLines(names[0], Content(names[0], r, d));
      secs := [sec] + rest;
      assert secs[1..] == rest;
      OldLinesAre(body, names[0]);
      WrittenSection(names[0], r, d);
      EmitFirst(names, r, d);
      assert IsSectionOf(body, d, names[0], sec);
      forall k | 0 <= k < |names| ensures IsSectionOf(body, d, names[k], secs[k]) {
        if k > 0 { assert names[k] == names[1..][k - 1] && secs[k] == rest[k - 1]; }
      }
    }
  }

  lemma {:induction false} EmitFirst(names: seq<string>, r: Reading, d: seq<Section>)
    requires names != []
    ensures Emit(names, r, d) == SectionLines(names[0], Content(names[0], r, d)) + Emit(names[1..], r, d)
  {
    hide SectionLines, Glue, Parts;
  }

  lemma {:induction false} OfRankCount(names: seq<string>, r: nat, n: string)
    ensures multiset(OfRank(names, r))[n] == if Rank(n) == r then multiset(names)[n] else 0
  {
    hide Rank;
    if names != [] {
      OfRankCount(names[1..], r, n);
      assert names == [names[0]] + names[1..];
    }
  }

  lemma {:induction false} SortedCount(names: seq<string>, q: nat, n: string)
    ensures multiset(SortedFrom(names, q))[n] == if Rank(n) >= q then multiset(names)[n] else 0
    decreases 7 - q
  {
    RankIsSmall(n);
    hide Rank, OfRank;
    if q <= 6 {
      OfRankCount(names, q, n);
      SortedCount(names, q + 1, n);
    }
  }

  lemma {:induction false} RankIsSmall(n: string)
    ensures Rank(n) <= 6
  {
  }

  lemma {:induction false} NewCount(d: seq<Section>, known: map<string, seq<string>>, n: string)
    requires NamesOk(d)
    ensures multiset(NewNames(d, known))[n] == if Has(d, n) && n !in known then 1 else 0
  {
    if d != [] {
      NewCount(d[1..], known, n);
      HasTail(d, n);
      assert d[0].name == n ==> !Has(d[1..], n);
    }
  }

  lemma {:induction false} NamesInOrder(body: seq<string>, d: seq<Section>)
    requires NamesOk(d)
    ensures var r := Read(NOTHING, body); IsOrder(body, d, SortedFrom(r.order + NewNames(d, r.text), 0))
  {
    hide Read, Rank, NewNames, SortedFrom, OfRank, HeadingsOf, Has, NamesOk, RanksGrow, KnownFirst, Unknown;
    var r := Read(NOTHING, body);
    var more := NewNames(d, r.text);
    var all := r.order + more;
    ReadsHeadings(NOTHING, body);
    assert r.order == [] + HeadingsOf(body) == HeadingsOf(body);
    SortedIsSorted(all, 0);
    GrowingIsKnownFirst(SortedFrom(all, 0));
    LastRankIsUnknown(SortedFrom(all, 0));
    LastRankIsUnknown(HeadingsOf(body));
    OfRankSorted(all, 0, 6);
    OfRankAppend(r.order, more, 6);
    NewOfLastRank(d, r.text);
    assert OfRank(r.order, 6) + [] == OfRank(r.order, 6);
    forall n
      ensures multiset(SortedFrom(all, 0))[n]
              == if n in HeadingsOf(body) then multiset(HeadingsOf(body))[n] else if Has(d, n) then 1 else 0
    {
      SortedCount(all, 0, n);
      NewCount(d, r.text, n);
      TextIffHeading(body, n);
    }
  }

  lemma {:induction false} TextIffHeading(body: seq<string>, n: string)
    ensures n in Read(NOTHING, body).text <==> n in HeadingsOf(body)
  {
    hide Read, HeadingsOf, Heading;
    ReadsHeadings(NOTHING, body);
    assert NOTHING.order + HeadingsOf(body) == HeadingsOf(body);
    TextIsOrdered(NOTHING, body);
    if n in HeadingsOf(body) {
      var j, e := FindLast(body, n);
      ReadsLast(body, n, j, e);
    }
  }

  /** The new section, line by line. */
  lemma {:induction false} NewBodyLayout(body: seq<string>, d: seq<Section>)
    returns (names: seq<string>, secs: seq<seq<string>>)
    requires NamesOk(d)
    ensures NewBody(body, d) == [""] + Concat(secs) && IsLayout(body, d, names, secs) && IsOrder(body, d, names)
  {
    hide Read, SortedFrom, NewNames, Emit, IsLayout, IsOrder;
    var r := Read(NOTHING, body);
    names := SortedFrom(r.order + NewNames(d, r.text), 0);
    secs := EmitLayout(names, body, d);
    NamesInOrder(body, d);
  }

  /** The lines of the text that `fold` returns: everything outside the section as it was, and in the section the
      new entries of each name above what it held before, one blank line between any two of them. */
  lemma {:induction false} FoldedLayout(changelog: string, d: seq<Section>)
    returns (before: seq<string>, body: seq<string>, rest: seq<string>, names: seq<string>, secs: seq<seq<string>>)
    requires NamesOk(d) && Folded(changelog, d).Some?
    ensures SplitLines(changelog) == before + body + rest
    ensures before != [] && before[|before| - 1] == "## [Unreleased]" && "## [Unreleased]" !in before[..|before| - 1]
    ensures (forall l :: l in body ==> !("## [" <= l)) && (rest != [] ==> "## [" <= rest[0])
    ensures SplitLines(Folded(changelog, d).value) == before + ([""] + Concat(secs)) + rest
    ensures IsLayout(body, d, names, secs) && IsOrder(body, d, names)
  {
    hide SplitLines, FoldLines, NewBody, IsLayout, IsOrder, NamesOk, Join, FindLine;
    var lines := SplitLines(changelog);
    SplitIsOneLine(changelog);
    before, body, rest := OutsideIsUntouched(lines, d);
    FindLineShape(lines, UNRELEASED);
    assert forall i :: 0 <= i < |before| ==> before[i] == lines[i];
    FoldIsOneLine(lines, d);
    SplitJoin(FoldLines(lines, d).value);
    names, secs := NewBodyLayout(body, d);
  }
}
