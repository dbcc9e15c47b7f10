/** `parse_fragment` as it runs (scripts/changelog-collect.py). */
module ChangelogFragment {
  import opened Prelude
  import opened ChangelogText
  import opened Changelog
  import opened ChangelogProgram

  predicate Blank(line: string) {
    forall i :: 0 <= i < |line| ==> IsSpace(line[i])
  }

  /** Only blank lines in front of the first heading. */
  predicate QuietStart(lines: seq<string>) {
    lines == [] || Heading(lines[0]).Some? || (Blank(lines[0]) && QuietStart(lines[1..]))
  }

  ghost predicate Distinct(names: seq<string>) {
    forall i, j :: 0 <= i < j < |names| ==> names[i] != names[j]
  }

  /** A fragment that is accepted: known sections, each once and with an entry, nothing before them. */
  ghost predicate FragmentOk(lines: seq<string>) {
    var r := Read(NOTHING, lines);
    && QuietStart(lines) && r.order != [] && Distinct(r.order)
    && (forall n :: n in r.order ==> n in SECTIONS && n in r.text && Trim(r.text[n]) != [])
  }

  /** Reading on never takes a heading back. */
  lemma {:induction false} OrderGrows(r: Reading, body: seq<string>)
    ensures r.order <= Read(r, body).order
    decreases |body|
  {
    hide Heading;
    if body != [] { OrderGrows(ReadLine(r, body[0]), body[1..]); }
  }

  /** Nor does it touch a section that is over and not repeated. */
  lemma {:induction false} ClosedSectionStays(r: Reading, body: seq<string>, n: string)
    requires n in r.text && r.current != Some(n) && r.order <= Read(r, body).order
    requires n !in Read(r, body).order[|r.order|..]
    ensures var t := Read(r, body); n in t.text && t.text[n] == r.text[n]
    decreases |body|
  {
    hide Heading;
    if body != [] {
      var r1, t := ReadLine(r, body[0]), Read(r, body);
      OrderGrows(r1, body[1..]);
      assert t.order[|r1.order|..] == t.order[|r.order|..][|r1.order| - |r.order|..];
      if Heading(body[0]).Some? { assert t.order[|r.order|..][0] == r1.order[|r.order|]; }
      ClosedSectionStays(r1, body[1..], n);
    }
  }

  lemma {:induction false} ReadOn(lines: seq<string>, k: nat)
    requires k <= |lines|
    ensures Read(NOTHING, lines) == Read(Read(NOTHING, lines[..k]), lines[k..])
  {
    ReadAppend(NOTHING, lines[..k], lines[k..]);
    assert lines == lines[..k] + lines[k..];
  }

  /** A repeated or unknown heading cannot be made good by what follows. */
  lemma {:induction false} BadHeadingIsFinal(lines: seq<string>, k: nat)
    requires k <= |lines|
    requires var o := Read(NOTHING, lines[..k]).order; !Distinct(o) || exists n :: n in o && n !in SECTIONS
    ensures !FragmentOk(lines)
  {
    hide Heading, Read;
    var r, t := Read(NOTHING, lines[..k]), Read(NOTHING, lines);
    ReadOn(lines, k);
    OrderGrows(r, lines[k..]);
    if Distinct(t.order) {
      forall i, j | 0 <= i < j < |r.order| ensures r.order[i] != r.order[j] {
        assert r.order[i] == t.order[i] && r.order[j] == t.order[j];
      }
    }
    if n :| n in r.order && n !in SECTIONS {
      var i :| 0 <= i < |r.order| && r.order[i] == n;
      assert t.order[i] == n;
    }
  }

  /** Nor can a section that ended without an entry. */
  lemma {:induction false} EmptyEntryIsFinal(lines: seq<string>, k: nat, n: string)
    requires k <= |lines|
    requires var r := Read(NOTHING, lines[..k]);
             n in r.order && n in r.text && Trim(r.text[n]) == [] && (r.current != Some(n) || k == |lines|)
    ensures !FragmentOk(lines)
  {
    hide Heading, Read, Trim;
    var r, t := Read(NOTHING, lines[..k]), Read(NOTHING, lines);
    ReadOn(lines, k);
    OrderGrows(r, lines[k..]);
    var i :| 0 <= i < |r.order| && r.order[i] == n;
    assert t.order[i] == n;
    if k == |lines| {
      assert lines[..k] == lines;
    } else if n in t.order[|r.order|..] {
      var j :| 0 <= j < |t.order[|r.order|..]| && t.order[|r.order|..][j] == n;
      assert t.order[|r.order| + j] == n;
    } else {
      ClosedSectionStays(r, lines[k..], n);
    }
  }

  /** The fragment as read so far: `entries` are the sections that are over, `lines` the last one. */
  ghost predicate Parsed(r: Reading, entries: seq<Section>, section: Option<string>, acc: seq<string>) {
    && section == r.current
    && Distinct(r.order) && (forall n :: n in r.order ==> n in SECTIONS && n in r.text)
    && |r.order| == |entries| + (if section.Some? then 1 else 0)
    && (section.None? ==> entries == [])
    && (section.Some? ==>
          r.order[|entries|] == section.value && section.value in r.text && r.text[section.value] == acc)
    && forall i :: 0 <= i < |entries| ==> EntryFor(r, r.order[i], entries[i])
  }

  ghost predicate EntryFor(r: Reading, name: string, s: Section) {
    name in r.text && Trim(r.text[name]) != [] && s == Section(name, [Join(Trim(r.text[name]))])
  }

  /** `flush`: the open section becomes an entry. */
  method Flush(entries: seq<Section>, section: string, acc: seq<string>) returns (ok: bool, after: seq<Section>)
    requires AllOneLine(acc)
    ensures ok <==> Trim(acc) != []
    ensures ok ==> after == entries + [Section(section, [Join(Trim(acc))])]
  {
    hide Join, Trim, Strip;
    var text := Strip(Join(acc));
    StripJoin(acc);
    TidyText(Trim(acc));
    return text != [], entries + [Section(section, [text])];
  }

  /** `parse_fragment`: accepts exactly the well-formed fragments, and returns each section's text. */
  method ParseFragment(text: string) returns (result: Result<seq<Section>>)
    ensures result.Ok? <==> FragmentOk(SplitLines(text))
    ensures result.Ok? ==>
              var r := Read(NOTHING, SplitLines(text));
              |result.value| == |r.order| && forall i :: 0 <= i < |r.order| ==> EntryFor(r, r.order[i], result.value[i])
  {
    hide Read, Heading, Trim, Join, SplitLines, FragmentOk;
    var lines := SplitLines(text);
    SplitIsOneLine(text);
    var entries: seq<Section>, section: Option<string>, acc: seq<string> := [], None, [];
    ReadEmpty(lines);
    assert lines[0..] == lines;
    for k := 0 to |lines|
      invariant Parsed(Read(NOTHING, lines[..k]), entries, section, acc)
      invariant AllOneLine(acc)
      invariant if section.None? then QuietStart(lines[k..]) == QuietStart(lines) else QuietStart(lines)
    {
      ghost var r := Read(NOTHING, lines[..k]);
      ReadSnoc(lines, k);
      assert lines[k..][0] == lines[k] && lines[k..][1..] == lines[k + 1..];
      var m := Heading(lines[k]);
      if m.Some? {
        var flushed := entries;
        if section.Some? {
          var ok;
          ok, flushed := Flush(entries, section.value, acc);
          if !ok {
            AfterHeading(r, entries, section.value, acc, m.value, lines[k]);
            EmptyOrRepeated(lines, k + 1, section.value);
            return Err("section has no entry");
          }
        }
        if m.value !in SECTIONS || Has(flushed, m.value) {
          FlushedNames(r, entries, section, acc, flushed);
          HeadingIsBad(r, m.value, lines[k]);
          BadHeadingIsFinal(lines, k + 1);
          return Err("unknown section, or a section twice");
        }
        FlushedNames(r, entries, section, acc, flushed);
        HeadingIsGood(r, entries, section, acc, flushed, m.value, lines[k]);
        entries, section, acc := flushed, m, [];
      } else if section.None? {
        if !Blank(lines[k]) {
          NotQuiet(lines);
          return Err("text before the first heading");
        }
      } else {
        InnerLine(r, entries, section.value, acc, lines[k]);
        acc := acc + [lines[k]];
      }
    }
    assert lines[..|lines|] == lines && lines[|lines|..] == [];
    if section.None? {
      NoHeading(lines);
      return Err("no heading");
    }
    var ok, flushed := Flush(entries, section.value, acc);
    if !ok {
      EmptyEntryIsFinal(lines, |lines|, section.value);
      return Err("section has no entry");
    }
    AllFlushed(lines, entries, section.value, acc, flushed);
    return Ok(flushed);
  }

  lemma {:induction false} AfterHeading(r: Reading, entries: seq<Section>, section: string, acc: seq<string>,
                                        name: string, line: string)
    requires Parsed(r, entries, Some(section), acc) && Trim(acc) == [] && Heading(line) == Some(name)
    ensures var r1 := ReadLine(r, line);
            if name == section then !Distinct(r1.order)
            else section in r1.order && section in r1.text && r1.text[section] == acc && r1.current != Some(section)
  {
    var r1 := ReadLine(r, line);
    assert r1.order[|entries|] == section && r1.order[|r.order|] == name;
  }

  lemma {:induction false} EmptyOrRepeated(lines: seq<string>, k: nat, section: string)
    requires k <= |lines|
    requires var r := Read(NOTHING, lines[..k]);
             !Distinct(r.order)
             || (section in r.order && section in r.text && Trim(r.text[section]) == [] && r.current != Some(section))
    ensures !FragmentOk(lines)
  {
    if Distinct(Read(NOTHING, lines[..k]).order) {
      EmptyEntryIsFinal(lines, k, section);
    } else {
      BadHeadingIsFinal(lines, k);
    }
  }

  /** The sections flushed so far are the headings read so far. */
  lemma {:induction false} FlushedNames(r: Reading, entries: seq<Section>, section: Option<string>, acc: seq<string>,
                                        flushed: seq<Section>)
    requires Parsed(r, entries, section, acc)
    requires if section.Some? then Trim(acc) != [] && flushed == entries + [Section(section.value, [Join(Trim(acc))])]
             else flushed == entries
    ensures forall n :: Has(flushed, n) <==> n in r.order
  {
    hide Trim, Join;
    assert |flushed| == |r.order|;
    forall i | 0 <= i < |flushed| ensures flushed[i].name == r.order[i] {
      if i < |entries| { assert EntryFor(r, r.order[i], entries[i]); }
    }
    forall n ensures Has(flushed, n) <==> n in r.order {
      if n in r.order {
        var i :| 0 <= i < |r.order| && r.order[i] == n;
        assert flushed[i].name == n;
      }
    }
  }

  lemma {:induction false} HeadingIsBad(r: Reading, name: string, line: string)
    requires Heading(line) == Some(name) && (name !in SECTIONS || name in r.order)
    ensures var o := ReadLine(r, line).order; !Distinct(o) || exists n :: n in o && n !in SECTIONS
  {
    var o := ReadLine(r, line).order;
    assert o[|r.order|] == name;
    if name in r.order {
      var i :| 0 <= i < |r.order| && r.order[i] == name;
      assert o[i] == name;
    } else {
      assert name in o;
    }
  }

  lemma {:induction false} HeadingIsGood(r: Reading, entries: seq<Section>, section: Option<string>, acc: seq<string>,
                                         flushed: seq<Section>, name: string, line: string)
    requires Parsed(r, entries, section, acc) && Heading(line) == Some(name) && name in SECTIONS && name !in r.order
    requires if section.Some? then Trim(acc) != [] && flushed == entries + [Section(section.value, [Join(Trim(acc))])]
             else flushed == entries
    ensures Parsed(ReadLine(r, line), flushed, Some(name), [])
  {
    hide Trim, Join;
    var r1 := ReadLine(r, line);
    forall i | 0 <= i < |flushed| ensures EntryFor(r1, r1.order[i], flushed[i]) {
      assert r1.order[i] == r.order[i] && r.order[i] in r.order;
      if i < |entries| { assert EntryFor(r, r.order[i], entries[i]); }
    }
  }

  lemma {:induction false} InnerLine(r: Reading, entries: seq<Section>, section: string, acc: seq<string>, line: string)
    requires Parsed(r, entries, Some(section), acc) && Heading(line).None?
    ensures Parsed(ReadLine(r, line), entries, Some(section), acc + [line])
  {
    hide Trim, Join;
    var r1 := ReadLine(r, line);
    forall i | 0 <= i < |entries| ensures EntryFor(r1, r1.order[i], entries[i]) {
      assert EntryFor(r, r.order[i], entries[i]) && r.order[i] != r.order[|entries|];
    }
  }

  lemma NotQuiet(lines: seq<string>)
    requires !QuietStart(lines)
    ensures !FragmentOk(lines)
  {
  }

  lemma NoHeading(lines: seq<string>)
    requires Read(NOTHING, lines).order == []
    ensures !FragmentOk(lines)
  {
  }

  lemma {:induction false} AllFlushed(lines: seq<string>, entries: seq<Section>, section: string, acc: seq<string>,
                                      flushed: seq<Section>)
    requires QuietStart(lines) && Parsed(Read(NOTHING, lines), entries, Some(section), acc)
    requires Trim(acc) != [] && flushed == entries + [Section(section, [Join(Trim(acc))])]
    ensures var r := Read(NOTHING, lines);
            && FragmentOk(lines) && |flushed| == |r.order|
            && forall i :: 0 <= i < |r.order| ==> EntryFor(r, r.order[i], flushed[i])
  {
    hide Trim, Join, Read;
    var r := Read(NOTHING, lines);
    forall i | 0 <= i < |r.order| ensures EntryFor(r, r.order[i], flushed[i]) {
      if i < |entries| { assert EntryFor(r, r.order[i], entries[i]); }
    }
    forall n | n in r.order ensures n in SECTIONS && n in r.text && Trim(r.text[n]) != [] {
      var i :| 0 <= i < |r.order| && r.order[i] == n;
      assert EntryFor(r, r.order[i], flushed[i]);
    }
  }

  /** Stripped lines are the lines of the entry made of them. */
  lemma {:induction false} TrimmedSplits(ls: seq<string>)
    requires ls != [] && Tidy(ls) && AllOneLine(ls)
    ensures var e := Join(ls); e != [] && e[0] != '\n' && e[|e| - 1] != '\n' && SplitLines(e) == ls
  {
    var e := Join(ls);
    assert ls[0] != "" && ls[|ls| - 1] != "";
    EndsOfJoin(ls);
    SplitJoin(ls);
    SplitWithout(e);
  }

  lemma {:induction false} EndsOfJoin(ls: seq<string>)
    requires ls != [] && AllOneLine(ls) && ls[0] != "" && ls[|ls| - 1] != ""
    ensures var e := Join(ls); e != [] && e[0] != '\n' && e[|e| - 1] != '\n'
  {
    var n := |ls| - 1;
    assert ls == ls[..n] + [ls[n]];
    if n > 0 { JoinAppend(ls[..n], [ls[n]]); }
    assert OneLine(ls[0]) && OneLine(ls[n]);
    assert Join(ls)[|Join(ls)| - 1] == ls[n][|ls[n]| - 1];
    assert Join(ls)[0] == ls[0][0];
  }

  /** A closing newline adds no line. */
  lemma {:induction false} SplitWithout(e: string)
    requires e != [] && e[|e| - 1] != '\n'
    ensures SplitLines(e + NL) == SplitLines(e)
  {
    var t := e + NL;
    assert t[0] == e[0] && t[1..] == e[1..] + NL;
    if |e| > 1 {
      SplitWithout(e[1..]);
    } else {
      assert t[1..] == NL && NL[1..] == [] && e[1..] == [];
      assert SplitLines([]) == [] && SplitLines(NL) == [""];
      assert e == [e[0]] && SplitLines(e) == [e];
      assert [e[0]] + "" == e && SplitLines(t) == [e];
    }
  }
}
