/** Folding changelog fragments into the `[Unreleased]` section (scripts/changelog-collect.py). */
module Changelog {
  import opened Prelude
  import opened ChangelogText

  const UNRELEASED: string := "## [Unreleased]"
  const SECTIONS: seq<string> := ["Added", "Changed", "Deprecated", "Removed", "Fixed", "Security"]

  predicate IsSpace(c: char) { c == ' ' || c == '\t' || c == '\r' }

  function TrimRight(s: string): string {
    if s != [] && IsSpace(s[|s| - 1]) then TrimRight(s[..|s| - 1]) else s
  }

  /** The heading pattern `^### (.+?)\s*$`: the shortest name behind which only space follows. */
  function Heading(line: string): Option<string> {
    if |line| < 5 || line[..4] != "### " then None
    else
      var name := TrimRight(line[4..]);
      Some(if name == [] then line[4..5] else name)
  }

  /** A name the pattern can yield. */
  predicate IsName(n: string) {
    |n| == 1 || (n != [] && !IsSpace(n[|n| - 1]))
  }

  predicate IsRelease(line: string) {
    "## [" <= line
  }

  /** A line that stays inside a section. */
  predicate Inner(line: string) {
    Heading(line).None? && !IsRelease(line)
  }

  /** What `fold` collects for one section; the whole is a dictionary in insertion order. */
  datatype Section = Section(name: string, entries: seq<string>)

  function Lookup(d: seq<Section>, name: string): seq<string> {
    if d == [] then [] else if d[0].name == name then d[0].entries else Lookup(d[1..], name)
  }

  predicate Has(d: seq<Section>, name: string) {
    exists i :: 0 <= i < |d| && d[i].name == name
  }

  /** An entry of a fragment: not empty, no blank line at either end, and no heading in it. */
  ghost predicate EntryOk(e: string) {
    && e != [] && e[0] != '\n' && e[|e| - 1] != '\n'
    && forall l :: l in SplitLines(e) ==> Inner(l)
  }

  ghost predicate DictOk(d: seq<Section>) {
    && (forall i :: 0 <= i < |d| ==> d[i].name in SECTIONS)
    && (forall i, j :: 0 <= i < j < |d| ==> d[i].name != d[j].name)
    && (forall i, e :: 0 <= i < |d| && e in d[i].entries ==> EntryOk(e))
  }

  // ---- reading the body ----------------------------------------------------------------------

  /** `existing`, `order` and `current` of the reading loop. */
  datatype Reading = Reading(order: seq<string>, text: map<string, seq<string>>, current: Option<string>)

  const NOTHING := Reading([], map[], None)

  function ReadLine(r: Reading, line: string): Reading {
    match Heading(line)
    case Some(name) => Reading(r.order + [name], r.text[name := []], Some(name))
    case None =>
      if r.current.Some? && r.current.value in r.text then
        r.(text := r.text[r.current.value := r.text[r.current.value] + [line]])
      else r
  }

  function Read(r: Reading, body: seq<string>): Reading
    decreases |body|
  {
    if body == [] then r else Read(ReadLine(r, body[0]), body[1..])
  }

  // ---- ordering ------------------------------------------------------------------------------

  /** Position in the fixed section list; unknown sections come last. */
  function Rank(name: string): nat {
    if name == "Added" then 0 else if name == "Changed" then 1 else if name == "Deprecated" then 2
    else if name == "Removed" then 3 else if name == "Fixed" then 4 else if name == "Security" then 5 else 6
  }

  function OfRank(names: seq<string>, r: nat): seq<string> {
    if names == [] then [] else (if Rank(names[0]) == r then [names[0]] else []) + OfRank(names[1..], r)
  }

  /** `order.sort(key=...)`: a stable sort by rank. */
  function SortedFrom(names: seq<string>, r: nat): seq<string>
    decreases 7 - r
  {
    if r > 6 then [] else OfRank(names, r) + SortedFrom(names, r + 1)
  }

  /** The names of `d` that `order` lacks, in the order of `d`. */
  function NewNames(d: seq<Section>, known: map<string, seq<string>>): seq<string> {
    if d == [] then [] else (if d[0].name in known then [] else [d[0].name]) + NewNames(d[1..], known)
  }

  // ---- writing -------------------------------------------------------------------------------

  function EntryLines(entries: seq<string>): seq<seq<string>> {
    if entries == [] then [] else [SplitLines(entries[0])] + EntryLines(entries[1..])
  }

  /** The parts of a section: the collected entries, then what it held before. */
  function Parts(entries: seq<string>, held: seq<string>): seq<seq<string>> {
    EntryLines(entries) + if held == [] then [] else [held]
  }

  function OldLines(r: Reading, name: string): seq<string> {
    if name in r.text then Trim(r.text[name]) else []
  }

  function SectionLines(name: string, content: seq<string>): seq<string> {
    ["### " + name, ""] + if content == [] then [] else content + [""]
  }

  function Emit(names: seq<string>, r: Reading, d: seq<Section>): seq<string> {
    if names == [] then []
    else SectionLines(names[0], Glue(Parts(Lookup(d, names[0]), OldLines(r, names[0])))) + Emit(names[1..], r, d)
  }

  /** The new `[Unreleased]` body. */
  function NewBody(body: seq<string>, d: seq<Section>): seq<string> {
    var r := Read(NOTHING, body);
    [""] + Emit(SortedFrom(r.order + NewNames(d, r.text), 0), r, d)
  }

  function FindLine(lines: seq<string>, line: string): Option<nat> {
    if lines == [] then None
    else if lines[0] == line then Some(0)
    else
      var r := FindLine(lines[1..], line);
      if r.Some? then Some(r.value + 1) else None
  }

  function FindRelease(lines: seq<string>): (n: nat)
    ensures n <= |lines|
  {
    if lines == [] || IsRelease(lines[0]) then 0 else 1 + FindRelease(lines[1..])
  }

  /** `fold` on lines: everything up to the `[Unreleased]` heading, the new body, everything from the
      next release on. */
  function FoldLines(lines: seq<string>, d: seq<Section>): Option<seq<string>> {
    match FindLine(lines, UNRELEASED)
    case None => None
    case Some(start) =>
      if start >= |lines| then None
      else
        var rest := lines[start + 1..];
        var end := FindRelease(rest);
        Some(lines[..start + 1] + NewBody(rest[..end], d) + rest[end..])
  }

  // ---- headings ------------------------------------------------------------------------------

  lemma {:induction false} TrimRightEnds(s: string)
    ensures var t := TrimRight(s); t != [] ==> !IsSpace(t[|t| - 1])
  {
    if s != [] && IsSpace(s[|s| - 1]) { TrimRightEnds(s[..|s| - 1]); }
  }

  lemma {:induction false} HeadingYieldsName(line: string)
    ensures Heading(line).Some? ==> IsName(Heading(line).value)
  {
    if Heading(line).Some? { TrimRightEnds(line[4..]); }
  }

  /** A printed heading is read back as itself, and is no release line. */
  lemma {:induction false} HeadingReadsBack(name: string)
    requires IsName(name)
    ensures Heading("### " + name) == Some(name) && !IsRelease("### " + name)
  {
    var line := "### " + name;
    assert line[4..] == name && line[..4] == "### ";
    assert line[2] == '#' && "## ["[2] == ' ';
    if IsSpace(name[|name| - 1]) {
      assert name[..0] == [] && TrimRight(name) == TrimRight([]);
      assert line[4..5] == name;
    }
  }

  // ---- reading back what was written ---------------------------------------------------------

  lemma {:induction false} ReadAppend(r: Reading, a: seq<string>, b: seq<string>)
    ensures Read(r, a + b) == Read(Read(r, a), b)
    decreases |a|
  {
    if a == [] {
      assert a + b == b;
    } else {
      ReadAppend(ReadLine(r, a[0]), a[1..], b);
      assert (a + b)[1..] == a[1..] + b;
    }
  }

  lemma {:induction false} ReadInner(r: Reading, name: string, ls: seq<string>)
    requires r.current == Some(name) && name in r.text
    requires forall l :: l in ls ==> Heading(l).None?
    ensures Read(r, ls) == r.(text := r.text[name := r.text[name] + ls])
    decreases |ls|
  {
    if ls == [] {
      assert r.text[name] + [] == r.text[name];
      assert r.text[name := r.text[name] + []] == r.text;
    } else {
      var r1 := ReadLine(r, ls[0]);
      assert ls[0] in ls;
      ReadInner(r1, name, ls[1..]);
      assert r1.text[name := r1.text[name] + ls[1..]] == r.text[name := r.text[name] + ls] by {
        assert r.text[name] + [ls[0]] + ls[1..] == r.text[name] + ls;
      }
    }
  }

  /** What a section is read as: its content between blank lines. */
  function Held(content: seq<string>): seq<string> {
    [""] + if content == [] then [] else content + [""]
  }

  lemma {:induction false} BlankIsInner()
    ensures Inner("")
  {
  }

  lemma {:induction false} ReadSection(r: Reading, name: string, content: seq<string>)
    requires IsName(name) && forall l :: l in content ==> Inner(l)
    ensures Read(r, SectionLines(name, content)) == Reading(r.order + [name], r.text[name := Held(content)], Some(name))
  {
    HeadingReadsBack(name);
    BlankIsInner();
    var ls := SectionLines(name, content);
    var r1 := ReadLine(r, ls[0]);
    assert ls[1..] == Held(content);
    ReadInner(r1, name, Held(content));
    assert r1.text[name := r1.text[name] + Held(content)] == r.text[name := Held(content)] by {
      assert [] + Held(content) == Held(content);
    }
  }

  function Content(name: string, r: Reading, d: seq<Section>): seq<string> {
    Glue(Parts(Lookup(d, name), OldLines(r, name)))
  }

  ghost predicate ContentOk(r: Reading, d: seq<Section>) {
    forall name :: Tidy(Content(name, r, d)) && forall l :: l in Content(name, r, d) ==> Inner(l)
  }

  /** The reading after some sections were written: every written section holds its content. */
  lemma {:induction false} ReadEmit(s: Reading, names: seq<string>, r: Reading, d: seq<Section>)
    requires ContentOk(r, d) && forall n :: n in names ==> IsName(n)
    ensures var t := Read(s, Emit(names, r, d));
            && t.order == s.order + names
            && (forall n :: n in t.text <==> n in s.text || n in names)
            && (forall n :: n in names ==> t.text[n] == Held(Content(n, r, d)))
            && (forall n :: n in s.text && n !in names ==> t.text[n] == s.text[n])
    decreases |names|
  {
    hide Glue, Parts, OldLines, Held, SectionLines, ReadLine, Read, Inner;
    if names == [] {
      assert s.order + [] == s.order;
      ReadNothing(s);
    } else {
      var n, rest := names[0], names[1..];
      var sec := SectionLines(n, Content(n, r, d));
      assert n in names;
      ReadSection(s, n, Content(n, r, d));
      ReadAppend(s, sec, Emit(rest, r, d));
      assert forall m :: m in rest ==> m in names;
      ReadEmit(Read(s, sec), rest, r, d);
      assert names == [n] + rest;
      assert s.order + [n] + rest == s.order + names;
    }
  }

  lemma {:induction false} ReadNothing(s: Reading)
    ensures Read(s, []) == s
  {
  }

  // ---- what a body without release lines reads as ------------------------------------------

  ghost predicate ReadingOk(r: Reading) {
    && (forall n :: n in r.text <==> n in r.order)
    && (forall n :: n in r.order ==> IsName(n))
    && (r.current.Some? ==> r.current.value in r.text)
    && (forall n, l :: n in r.text && l in r.text[n] ==> Inner(l) && OneLine(l))
  }

  lemma {:induction false} ReadingStaysOk(r: Reading, body: seq<string>)
    requires ReadingOk(r) && AllOneLine(body) && forall l :: l in body ==> !IsRelease(l)
    ensures ReadingOk(Read(r, body))
    decreases |body|
  {
    if body != [] {
      assert body[0] in body;
      HeadingYieldsName(body[0]);
      ReadingStaysOk(ReadLine(r, body[0]), body[1..]);
    }
  }

  lemma {:induction false} EntryIsTidy(e: string)
    requires EntryOk(e)
    ensures var ls := SplitLines(e); ls != [] && Tidy(ls) && AllOneLine(ls) && Join(ls) == e
  {
    JoinSplit(e);
    SplitIsOneLine(e);
    FirstLine(e);
    LastLine(e);
  }

  lemma {:induction false} FirstLine(e: string)
    requires e != [] && e[0] != '\n'
    ensures SplitLines(e) != [] && SplitLines(e)[0] != ""
  {
  }

  lemma {:induction false} LastLine(e: string)
    requires e != [] && e[|e| - 1] != '\n'
    ensures SplitLines(e) != [] && SplitLines(e)[|SplitLines(e)| - 1] != ""
  {
    if |e| > 1 {
      LastLine(e[1..]);
    } else {
      assert SplitLines(e[1..]) == [];
    }
  }

  lemma {:induction false} EntryLinesShape(entries: seq<string>)
    ensures |EntryLines(entries)| == |entries|
    ensures forall i :: 0 <= i < |entries| ==> EntryLines(entries)[i] == SplitLines(entries[i])
  {
    if entries != [] { EntryLinesShape(entries[1..]); }
  }

  /** Parts that may be glued: tidy, not empty, lines that stay inside a section. */
  ghost predicate PartsOk(parts: seq<seq<string>>) {
    forall i :: 0 <= i < |parts| ==>
      parts[i] != [] && Tidy(parts[i]) && AllOneLine(parts[i]) && forall l :: l in parts[i] ==> Inner(l)
  }

  lemma {:induction false} GlueIsTidy(parts: seq<seq<string>>)
    requires PartsOk(parts)
    ensures var g := Glue(parts);
            (parts != [] ==> g != []) && Tidy(g) && AllOneLine(g) && forall l :: l in g ==> Inner(l)
  {
    BlankIsInner();
    if |parts| > 1 {
      GlueIsTidy(parts[1..]);
      var g, rest := Glue(parts), Glue(parts[1..]);
      assert g == parts[0] + [""] + rest;
      assert g[0] == parts[0][0] && g[|g| - 1] == rest[|rest| - 1];
      forall l | l in g ensures Inner(l) { assert l in parts[0] || l == "" || l in rest; }
      forall i | 0 <= i < |g| ensures OneLine(g[i]) {
        assert g[i] == if i < |parts[0]| then parts[0][i] else if i == |parts[0]| then "" else rest[i - |parts[0]| - 1];
      }
    }
  }

  lemma {:induction false} LookupIn(d: seq<Section>, name: string)
    ensures if Has(d, name) then exists i :: 0 <= i < |d| && d[i].name == name && Lookup(d, name) == d[i].entries
            else Lookup(d, name) == []
  {
    if d != [] {
      LookupIn(d[1..], name);
      if d[0].name != name {
        assert Has(d, name) <==> Has(d[1..], name) by {
          if Has(d, name) {
            var i :| 0 <= i < |d| && d[i].name == name;
            assert d[1..][i - 1].name == name;
          }
        }
        if Has(d[1..], name) {
          var i :| 0 <= i < |d[1..]| && d[1..][i].name == name && Lookup(d[1..], name) == d[1..][i].entries;
          assert d[i + 1] == d[1..][i];
        }
      }
    }
  }

  lemma {:induction false} PartsAreOk(name: string, r: Reading, d: seq<Section>)
    requires ReadingOk(r) && DictOk(d)
    ensures PartsOk(Parts(Lookup(d, name), OldLines(r, name)))
  {
    var entries, held := Lookup(d, name), OldLines(r, name);
    var parts := Parts(entries, held);
    LookupIn(d, name);
    EntryLinesShape(entries);
    if name in r.text {
      assert forall i :: 0 <= i < |r.text[name]| ==> r.text[name][i] in r.text[name];
      StripJoin(r.text[name]);
    }
    forall i | 0 <= i < |parts|
      ensures parts[i] != [] && Tidy(parts[i]) && AllOneLine(parts[i]) && forall l :: l in parts[i] ==> Inner(l)
    {
      if i < |entries| {
        assert entries[i] in entries;
        EntryIsTidy(entries[i]);
      }
    }
  }

  lemma {:induction false} ContentIsOk(r: Reading, d: seq<Section>)
    requires ReadingOk(r) && DictOk(d)
    ensures ContentOk(r, d)
  {
    forall name ensures Tidy(Content(name, r, d)) && forall l :: l in Content(name, r, d) ==> Inner(l) {
      PartsAreOk(name, r, d);
      GlueIsTidy(Parts(Lookup(d, name), OldLines(r, name)));
    }
  }

  // ---- the stable sort -----------------------------------------------------------------------

  lemma Regrouped(x: string, y: seq<string>, z: seq<string>)
    ensures [x] + (y + z) == [x] + y + z
  {
  }

  lemma {:induction false} OfRankFirst(a: seq<string>, r: nat)
    ensures OfRank(a, r) == if a == [] then [] else if Rank(a[0]) == r then [a[0]] + OfRank(a[1..], r)
            else OfRank(a[1..], r)
  {
    hide Rank;
  }

  lemma {:induction false} OfRankAppend(a: seq<string>, b: seq<string>, r: nat)
    ensures OfRank(a + b, r) == OfRank(a, r) + OfRank(b, r)
  {
    hide OfRank, Rank;
    OfRankFirst(a, r);
    OfRankFirst(a + b, r);
    if a == [] {
      assert a + b == b;
    } else {
      OfRankAppend(a[1..], b, r);
      assert (a + b)[0] == a[0] && (a + b)[1..] == a[1..] + b;
      Regrouped(a[0], OfRank(a[1..], r), OfRank(b, r));
    }
  }

  lemma {:induction false} OfRankTwice(names: seq<string>, q: nat, r: nat)
    ensures OfRank(OfRank(names, q), r) == if q == r then OfRank(names, r) else []
  {
    if names != [] {
      OfRankTwice(names[1..], q, r);
      if Rank(names[0]) == q {
        assert ([names[0]] + OfRank(names[1..], q))[1..] == OfRank(names[1..], q);
      } else {
        assert [] + OfRank(names[1..], q) == OfRank(names[1..], q);
      }
    }
  }

  /** Sorting keeps the names of each rank, in their order. */
  lemma {:induction false} OfRankSorted(names: seq<string>, q: nat, r: nat)
    requires r <= 6
    ensures OfRank(SortedFrom(names, q), r) == if q <= r then OfRank(names, r) else []
    decreases 7 - q
  {
    if q <= 6 {
      OfRankSorted(names, q + 1, r);
      OfRankAppend(OfRank(names, q), SortedFrom(names, q + 1), r);
      OfRankTwice(names, q, r);
    }
  }

  lemma {:induction false} SortedByRanks(a: seq<string>, b: seq<string>, q: nat)
    requires forall r: nat :: r <= 6 ==> OfRank(a, r) == OfRank(b, r)
    ensures SortedFrom(a, q) == SortedFrom(b, q)
    decreases 7 - q
  {
    if q <= 6 { SortedByRanks(a, b, q + 1); }
  }

  lemma {:induction false} OfRankMembers(names: seq<string>, r: nat)
    ensures forall n :: n in OfRank(names, r) <==> n in names && Rank(n) == r
  {
    if names != [] { OfRankMembers(names[1..], r); assert names == [names[0]] + names[1..]; }
  }

  lemma {:induction false} SortedMembers(names: seq<string>, q: nat)
    ensures forall n :: n in SortedFrom(names, q) <==> n in names && Rank(n) >= q
    decreases 7 - q
  {
    if q <= 6 {
      SortedMembers(names, q + 1);
      OfRankMembers(names, q);
    }
  }

  ghost predicate RanksGrow(s: seq<string>) {
    forall i, j :: 0 <= i < j < |s| ==> Rank(s[i]) <= Rank(s[j])
  }

  lemma {:induction false} SortedFirst(names: seq<string>, q: nat)
    requires q <= 6
    ensures SortedFrom(names, q) == OfRank(names, q) + SortedFrom(names, q + 1)
  {
  }

  lemma {:induction false} RanksGrowOn(a: seq<string>, b: seq<string>, q: nat)
    requires (forall n :: n in a ==> Rank(n) == q) && (forall n :: n in b ==> Rank(n) > q) && RanksGrow(b)
    ensures RanksGrow(a + b)
  {
    hide Rank;
    forall i, j | 0 <= i < j < |a + b| ensures Rank((a + b)[i]) <= Rank((a + b)[j]) {
      if i < |a| {
        assert (a + b)[i] in a;
        if j < |a| { assert (a + b)[j] in a; } else { assert (a + b)[j] in b; }
      }
    }
  }

  /** The sort is one: ranks never fall, and no name appears or disappears. */
  lemma {:induction false} SortedIsSorted(names: seq<string>, q: nat)
    ensures RanksGrow(SortedFrom(names, q))
    decreases 7 - q
  {
    hide Rank, OfRank, SortedFrom, RanksGrow;
    if q <= 6 {
      SortedIsSorted(names, q + 1);
      OfRankMembers(names, q);
      SortedMembers(names, q + 1);
      SortedFirst(names, q);
      RanksGrowOn(OfRank(names, q), SortedFrom(names, q + 1), q);
    } else {
      SortedPast(names, q);
    }
  }

  lemma {:induction false} SortedPast(names: seq<string>, q: nat)
    requires q > 6
    ensures RanksGrow(SortedFrom(names, q))
  {
  }
}
