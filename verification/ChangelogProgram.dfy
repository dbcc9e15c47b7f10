/** `fold` as it runs (scripts/changelog-collect.py). */
module ChangelogProgram {
  import opened Prelude
  import opened ChangelogText
  import opened Changelog
  import opened ChangelogFold

  // ---- fold ----------------------------------------------------------------------------------

  /** The text `fold` returns. */
  function Folded(changelog: string, d: seq<Section>): Option<string> {
    var lines := FoldLines(SplitLines(changelog), d);
    if lines.None? then None else Some(Join(lines.value) + NL)
  }

  /** Entries as texts: not empty and not ending in a newline. */
  ghost predicate EntriesClosed(d: seq<Section>) {
    forall i, e :: 0 <= i < |d| && e in d[i].entries ==> e != [] && e[|e| - 1] != '\n'
  }

  function HeldText(r: Reading, name: string): string {
    if name in r.text then Strip(Join(r.text[name])) else []
  }

  function PartTexts(entries: seq<string>, held: string): seq<string> {
    entries + if held == [] then [] else [held]
  }

  function SectionText(name: string, parts: seq<string>): seq<string> {
    ["### " + name, ""] + if parts == [] then [] else [JoinParts(parts), ""]
  }

  /** The elements `fold` appends to `out`; a part may hold several lines. */
  function EmitText(names: seq<string>, r: Reading, d: seq<Section>): seq<string> {
    if names == [] then []
    else
      var n := |names| - 1;
      EmitText(names[..n], r, d) + SectionText(names[n], PartTexts(Lookup(d, names[n]), HeldText(r, names[n])))
  }

  lemma {:induction false} EmitAppend(a: seq<string>, b: seq<string>, r: Reading, d: seq<Section>)
    ensures Emit(a + b, r, d) == Emit(a, r, d) + Emit(b, r, d)
  {
    hide Glue, Parts, OldLines, Lookup, SectionLines;
    if a == [] {
      assert a + b == b;
    } else {
      EmitAppend(a[1..], b, r, d);
      assert (a + b)[1..] == a[1..] + b;
    }
  }

  lemma {:induction false} TextsOfEntries(entries: seq<string>)
    requires forall e :: e in entries ==> e != [] && e[|e| - 1] != '\n'
    ensures Texts(EntryLines(entries)) == entries && NonEmptyParts(EntryLines(entries))
  {
    hide SplitLines, Join;
    if entries != [] {
      assert entries[0] in entries;
      JoinSplit(entries[0]);
      TextsOfEntries(entries[1..]);
      assert EntryLines(entries)[1..] == EntryLines(entries[1..]);
      assert entries == [entries[0]] + entries[1..];
    }
  }

  /** The parts of a section as texts are the texts of its parts. */
  lemma {:induction false} PartTextsAreTexts(name: string, r: Reading, d: seq<Section>)
    requires EntriesClosed(d) && (name in r.text ==> AllOneLine(r.text[name]))
    ensures var parts := Parts(Lookup(d, name), OldLines(r, name));
            Texts(parts) == PartTexts(Lookup(d, name), HeldText(r, name)) && NonEmptyParts(parts)
  {
    hide SplitLines, Join, Trim, Strip;
    var entries, held := Lookup(d, name), OldLines(r, name);
    LookupIn(d, name);
    TextsOfEntries(entries);
    if name in r.text {
      StripJoin(r.text[name]);
      TidyText(held);
    }
    if held != [] {
      TextsAppend(EntryLines(entries), [held]);
      OneText(held);
    } else {
      assert EntryLines(entries) + [] == EntryLines(entries) && entries + [] == entries;
      EmptyText();
    }
  }

  lemma {:induction false} OneText(ls: seq<string>)
    ensures Texts([ls]) == [Join(ls)]
  {
    assert [ls][1..] == [] && Texts([]) == [];
  }

  lemma {:induction false} EmptyText()
    ensures Join([]) == []
  {
  }

  lemma {:induction false} TidyText(ls: seq<string>)
    requires Tidy(ls)
    ensures Join(ls) == [] <==> ls == []
  {
  }

  lemma {:induction false} SectionJoins(x: seq<string>, name: string, parts: seq<seq<string>>, y: seq<string>)
    requires NonEmptyParts(parts)
    ensures Join(x + SectionText(name, Texts(parts)) + y) == Join(x + SectionLines(name, Glue(parts)) + y)
  {
    hide Join, Glue, JoinParts, Texts;
    var head := ["### " + name, ""];
    TextsEmpty(parts);
    if parts == [] {
      GlueEmpty();
    } else {
      GlueIsNonEmpty(parts);
      JoinGlue(parts);
      JoinInline(x + head, Glue(parts), [""] + y);
      assert x + SectionText(name, Texts(parts)) + y == x + head + [Join(Glue(parts))] + ([""] + y);
      assert x + SectionLines(name, Glue(parts)) + y == x + head + Glue(parts) + ([""] + y);
    }
  }

  lemma {:induction false} TextsEmpty(parts: seq<seq<string>>)
    ensures Texts(parts) == [] <==> parts == []
  {
  }

  lemma {:induction false} GlueEmpty()
    ensures Glue([]) == []
  {
  }

  /** Joining the written elements is joining their lines. */
  lemma {:induction false} EmitJoins(x: seq<string>, names: seq<string>, y: seq<string>, r: Reading, d: seq<Section>)
    requires EntriesClosed(d) && forall n :: n in r.text ==> AllOneLine(r.text[n])
    ensures Join(x + EmitText(names, r, d) + y) == Join(x + Emit(names, r, d) + y)
    decreases |names|
  {
    hide Join, Glue, Parts, OldLines, Lookup, SectionLines, SectionText, PartTexts, HeldText;
    if names != [] {
      var n := |names| - 1;
      var front, name := names[..n], names[n];
      var parts := Parts(Lookup(d, name), OldLines(r, name));
      var text, lines := SectionText(name, Texts(parts)), SectionLines(name, Glue(parts));
      PartTextsAreTexts(name, r, d);
      EmitJoins(x, front, text + y, r, d);
      SectionJoins(x + Emit(front, r, d), name, parts, y);
      EmitAppend(front, [name], r, d);
      EmitOne(name, r, d);
      assert names == front + [name];
      assert x + EmitText(names, r, d) + y == x + EmitText(front, r, d) + (text + y);
      assert x + Emit(front, r, d) + text + y == x + Emit(front, r, d) + (text + y);
      assert x + Emit(front, r, d) + lines + y == x + Emit(names, r, d) + y;
    }
  }

  lemma {:induction false} EmitOne(name: string, r: Reading, d: seq<Section>)
    ensures Emit([name], r, d) == SectionLines(name, Glue(Parts(Lookup(d, name), OldLines(r, name))))
  {
    assert [name][1..] == [];
  }

  /** Reading keeps lines as they are. */
  lemma {:induction false} ReadKeepsOneLine(r: Reading, body: seq<string>)
    requires AllOneLine(body) && forall n :: n in r.text ==> AllOneLine(r.text[n])
    ensures forall n :: n in Read(r, body).text ==> AllOneLine(Read(r, body).text[n])
    decreases |body|
  {
    hide Heading;
    if body != [] { ReadKeepsOneLine(ReadLine(r, body[0]), body[1..]); }
  }

  lemma {:induction false} ReadSnoc(body: seq<string>, k: nat)
    requires k < |body|
    ensures Read(NOTHING, body[..k + 1]) == ReadLine(Read(NOTHING, body[..k]), body[k])
  {
    ReadAppend(NOTHING, body[..k], [body[k]]);
    assert body[..k + 1] == body[..k] + [body[k]];
    assert [body[k]][1..] == [];
  }

  lemma {:induction false} NewNamesSnoc(d: seq<Section>, k: nat, known: map<string, seq<string>>)
    requires k < |d|
    ensures NewNames(d[..k + 1], known) == NewNames(d[..k], known) + if d[k].name in known then [] else [d[k].name]
  {
    if k == 0 {
      assert d[..1][1..] == [] && d[..0] == [];
    } else {
      NewNamesSnoc(d[1..], k - 1, known);
      assert d[..k + 1][1..] == d[1..][..k] && d[..k][1..] == d[1..][..k - 1];
    }
  }

  method ReadBody(body: seq<string>) returns (r: Reading)
    ensures r == Read(NOTHING, body)
  {
    hide Read, Heading;
    var order: seq<string>, existing: map<string, seq<string>>, current: Option<string> := [], map[], None;
    ReadEmpty(body);
    for k := 0 to |body|
      invariant Reading(order, existing, current) == Read(NOTHING, body[..k])
      invariant current.Some? ==> current.value in existing
    {
      ReadSnoc(body, k);
      var m := Heading(body[k]);
      if m.Some? {
        current := m;
        order := order + [m.value];
        existing := existing[m.value := []];
      } else if current.Some? {
        existing := existing[current.value := existing[current.value] + [body[k]]];
      }
    }
    assert body[..|body|] == body;
    r := Reading(order, existing, current);
  }

  lemma ReadEmpty(body: seq<string>)
    ensures Read(NOTHING, body[..0]) == NOTHING
  {
  }

  /** `fold`. Entries come from fragments, so they are not empty and do not end in a newline. */
  method Fold(changelog: string, collected: seq<Section>) returns (result: Result<string>)
    requires NamesOk(collected) && EntriesClosed(collected)
    ensures match Folded(changelog, collected)
            case None => result.Err?
            case Some(text) => result == Ok(text)
  {
    hide SplitLines, Join, Read, Emit, SortedFrom, FindRelease, FindLine, EmitText, NewNames, Lookup, Rank, Glue;
    var lines := SplitLines(changelog);
    var start := FindLine(lines, UNRELEASED);
    FindLineShape(lines, UNRELEASED);
    if start.None? { return Err("CHANGELOG.md has no '## [Unreleased]' heading"); }
    var behind := lines[start.value + 1..];
    var end := FindRelease(behind);
    var r := ReadBody(behind[..end]);
    var order := AddNames(r, collected);
    order := SortedFrom(order, 0);
    var out := WriteSections(order, r, collected);
    ghost var x, y := lines[..start.value + 1] + [""], behind[end..];
    SplitIsOneLine(changelog);
    ReadKeepsOneLine(NOTHING, behind[..end]);
    EmitJoins(x, order, y, r, collected);
    assert lines[..start.value + 1] + out + behind[end..] == x + EmitText(order, r, collected) + y;
    assert lines[..start.value + 1] + ([""] + Emit(order, r, collected)) + behind[end..]
        == x + Emit(order, r, collected) + y;
    return Ok(Join(lines[..start.value + 1] + out + behind[end..]) + NL);
  }

  method AddNames(r: Reading, collected: seq<Section>) returns (order: seq<string>)
    requires NamesOk(collected)
    ensures order == r.order + NewNames(collected, r.text)
  {
    hide NewNames, NamesOk;
    order := r.order;
    ghost var known := r.text;
    var existing := r.text;
    NoNewNames(collected, known);
    for k := 0 to |collected|
      invariant order == r.order + NewNames(collected[..k], known)
      invariant forall n :: n in existing <==> n in known || exists i :: 0 <= i < k && collected[i].name == n
    {
      NewNamesSnoc(collected, k, known);
      NameIsNew(collected, k);
      var name := collected[k].name;
      if name !in existing {
        existing := existing[name := []];
        order := order + [name];
      }
    }
    assert collected[..|collected|] == collected;
  }

  lemma NoNewNames(d: seq<Section>, known: map<string, seq<string>>)
    ensures NewNames(d[..0], known) == []
  {
  }

  lemma NameIsNew(d: seq<Section>, k: nat)
    requires NamesOk(d) && k < |d|
    ensures forall i :: 0 <= i < k ==> d[i].name != d[k].name
  {
  }

  method WriteSections(order: seq<string>, r: Reading, collected: seq<Section>) returns (out: seq<string>)
    ensures out == [""] + EmitText(order, r, collected)
  {
    hide Join, Strip, JoinParts, Lookup, EmitText, PartTexts, HeldText, SectionText;
    out := [""];
    EmitNothing(order, r, collected);
    for k := 0 to |order|
      invariant out == [""] + EmitText(order[..k], r, collected)
    {
      EmitSnoc(order, k, r, collected);
      var name := order[k];
      var held := if name in r.text then Strip(Join(r.text[name])) else [];
      var parts := Lookup(collected, name) + if held != [] then [held] else [];
      out := out + ["### " + name, ""];
      if parts != [] { out := out + [JoinParts(parts), ""]; }
      SectionPieces(name, held, Lookup(collected, name), r);
    }
    assert order[..|order|] == order;
  }

  lemma EmitNothing(order: seq<string>, r: Reading, d: seq<Section>)
    ensures EmitText(order[..0], r, d) == []
  {
  }

  lemma {:induction false} EmitSnoc(order: seq<string>, k: nat, r: Reading, d: seq<Section>)
    requires k < |order|
    ensures EmitText(order[..k + 1], r, d)
            == EmitText(order[..k], r, d) + SectionText(order[k], PartTexts(Lookup(d, order[k]), HeldText(r, order[k])))
  {
    assert order[..k + 1][..k] == order[..k];
  }

  lemma SectionPieces(name: string, held: string, entries: seq<string>, r: Reading)
    requires held == if name in r.text then Strip(Join(r.text[name])) else []
    ensures var parts := entries + if held != [] then [held] else [];
            SectionText(name, PartTexts(entries, HeldText(r, name)))
            == ["### " + name, ""] + if parts == [] then [] else [JoinParts(parts), ""]
  {
  }

  /** Folding fragments `a` and then fragments `b` gives the same text as folding them together. */
  lemma {:induction false} FoldComposes(changelog: string, a: seq<Section>, b: seq<Section>, m: seq<Section>)
    requires DictOk(a) && NamesOk(b) && NamesOk(m) && Merges(m, a, b)
    requires Folded(changelog, a).Some?
    ensures Folded(Folded(changelog, a).value, b) == Folded(changelog, m)
  {
    hide SplitLines, Join, FoldLines, DictOk, Merges;
    var lines := SplitLines(changelog);
    SplitIsOneLine(changelog);
    var before, body, rest := FoldKeepsOutside(lines, a);
    var out := FoldLines(lines, a).value;
    assert out != [];
    SplitJoin(out);
    FoldTwice(lines, a, b, m);
  }
}
