/** Lines and texts, as `splitlines` and `join` relate them (scripts/changelog-collect.py). Only `\n`
    separates lines here. */
module ChangelogText {
  const NL: string := "\n"

  predicate OneLine(s: string) {
    forall i :: 0 <= i < |s| ==> s[i] != '\n'
  }

  ghost predicate AllOneLine(ls: seq<string>) {
    forall i :: 0 <= i < |ls| ==> OneLine(ls[i])
  }

  /** `text.splitlines()`. */
  function SplitLines(t: string): seq<string> {
    if t == [] then []
    else
      var rest := SplitLines(t[1..]);
      if t[0] == '\n' then [""] + rest
      else if rest == [] then [[t[0]]]
      else [[t[0]] + rest[0]] + rest[1..]
  }

  /** `"\n".join(ls)`. */
  function Join(ls: seq<string>): string {
    if ls == [] then [] else if |ls| == 1 then ls[0] else ls[0] + NL + Join(ls[1..])
  }

  lemma {:induction false} SplitIsOneLine(t: string)
    ensures AllOneLine(SplitLines(t))
  {
    if t != [] { SplitIsOneLine(t[1..]); }
  }

  lemma {:induction false} SplitFirst(line: string, rest: string)
    requires OneLine(line)
    ensures SplitLines(line + NL + rest) == [line] + SplitLines(rest)
  {
    var t := line + NL + rest;
    if line == [] {
      assert t[0] == '\n' && t[1..] == rest;
    } else {
      SplitFirst(line[1..], rest);
      assert t[0] == line[0] && t[1..] == line[1..] + NL + rest;
      assert line == [line[0]] + line[1..];
    }
  }

  lemma SplitNothing()
    ensures SplitLines([]) == []
  {
  }

  /** Splitting undoes joining. */
  lemma {:induction false} SplitJoin(ls: seq<string>)
    requires ls != [] && AllOneLine(ls)
    ensures SplitLines(Join(ls) + NL) == ls
  {
    SplitNothing();
    hide SplitLines, OneLine;
    if |ls| == 1 {
      SplitFirst(ls[0], []);
      assert ls[0] + NL + [] == Join(ls) + NL;
    } else {
      SplitJoin(ls[1..]);
      SplitFirst(ls[0], Join(ls[1..]) + NL);
      assert ls[0] + NL + (Join(ls[1..]) + NL) == Join(ls) + NL;
    }
  }

  /** Joining undoes splitting, for a text that does not end in a newline. */
  lemma {:induction false} JoinSplit(t: string)
    requires t != [] && t[|t| - 1] != '\n'
    ensures SplitLines(t) != [] && Join(SplitLines(t)) == t
  {
    if |t| > 1 {
      JoinSplit(t[1..]);
      var rest := SplitLines(t[1..]);
      assert t == [t[0]] + t[1..];
      if t[0] == '\n' {
        assert SplitLines(t)[1..] == rest;
      } else if |rest| > 1 {
        assert SplitLines(t)[1..] == rest[1..];
      }
    } else {
      assert SplitLines(t[1..]) == [];
    }
  }

  /** A text in a list of lines is as good as its own lines. */
  lemma {:induction false} JoinInline(x: seq<string>, ls: seq<string>, y: seq<string>)
    requires ls != []
    ensures Join(x + [Join(ls)] + y) == Join(x + ls + y)
  {
    if x != [] {
      JoinInline(x[1..], ls, y);
      assert (x + [Join(ls)] + y)[1..] == x[1..] + [Join(ls)] + y;
      assert (x + ls + y)[1..] == x[1..] + ls + y;
    } else {
      assert x + [Join(ls)] + y == [Join(ls)] + y && x + ls + y == ls + y;
      JoinAppend(ls, y);
      assert ([Join(ls)] + y)[1..] == y;
      if y == [] { assert [Join(ls)] + y == [Join(ls)]; }
    }
  }

  lemma {:induction false} JoinAppend(a: seq<string>, b: seq<string>)
    requires a != []
    ensures Join(a + b) == if b == [] then Join(a) else Join(a) + NL + Join(b)
  {
    if b == [] {
      assert a + b == a;
    } else if |a| == 1 {
      assert (a + b)[1..] == b;
    } else {
      JoinAppend(a[1..], b);
      assert (a + b)[1..] == a[1..] + b;
      assert a[0] + NL + (Join(a[1..]) + NL + Join(b)) == a[0] + NL + Join(a[1..]) + NL + Join(b);
    }
  }

  // ---- parts ---------------------------------------------------------------------------------

  /** The lines of several parts, a blank line between each two. */
  function Glue(parts: seq<seq<string>>): seq<string> {
    if parts == [] then [] else if |parts| == 1 then parts[0] else parts[0] + [""] + Glue(parts[1..])
  }

  /** `"\n\n".join(parts)`. */
  function JoinParts(parts: seq<string>): string {
    if parts == [] then [] else if |parts| == 1 then parts[0] else parts[0] + NL + NL + JoinParts(parts[1..])
  }

  function Texts(parts: seq<seq<string>>): seq<string> {
    if parts == [] then [] else [Join(parts[0])] + Texts(parts[1..])
  }

  ghost predicate NonEmptyParts(parts: seq<seq<string>>) {
    forall i :: 0 <= i < |parts| ==> parts[i] != []
  }

  lemma {:induction false} GlueIsNonEmpty(parts: seq<seq<string>>)
    requires parts != [] && NonEmptyParts(parts)
    ensures Glue(parts) != []
  {
  }

  lemma {:induction false} JoinTwo(a: seq<string>, b: seq<string>)
    requires a != [] && b != []
    ensures Join(a + [""] + b) == Join(a) + NL + NL + Join(b)
  {
    assert a + [""] + b == a + ([""] + b);
    JoinAppend(a, [""] + b);
    JoinAppend([""], b);
    OneBlank();
    hide Join;
    assert [] + NL + Join(b) == NL + Join(b);
    assert Join(a) + NL + (NL + Join(b)) == Join(a) + NL + NL + Join(b);
  }

  lemma OneBlank()
    ensures Join([""]) == [] && Join([]) == []
  {
  }

  lemma {:induction false} JoinGlue(parts: seq<seq<string>>)
    requires NonEmptyParts(parts)
    ensures JoinParts(Texts(parts)) == Join(Glue(parts))
  {
    hide Join;
    OneBlank();
    if |parts| == 1 {
      assert Texts(parts) == [Join(parts[0])] + Texts(parts[1..]) == [Join(parts[0])];
    } else if |parts| > 1 {
      var rest := parts[1..];
      JoinGlue(rest);
      GlueIsNonEmpty(rest);
      assert Texts(parts)[1..] == Texts(rest) && |Texts(rest)| >= 1;
      JoinTwo(parts[0], Glue(rest));
    }
  }

  lemma {:induction false} TextsAppend(a: seq<seq<string>>, b: seq<seq<string>>)
    ensures Texts(a + b) == Texts(a) + Texts(b)
  {
    if a == [] {
      assert a + b == b;
    } else {
      TextsAppend(a[1..], b);
      assert (a + b)[1..] == a[1..] + b;
    }
  }

  /** Gluing parts in two goes is gluing them in one. */
  lemma {:induction false} GlueNested(xs: seq<seq<string>>, ys: seq<seq<string>>)
    requires ys != []
    ensures Glue(xs + [Glue(ys)]) == Glue(xs + ys)
  {
    if xs == [] {
      assert xs + [Glue(ys)] == [Glue(ys)] && xs + ys == ys;
    } else {
      GlueNested(xs[1..], ys);
      assert (xs + [Glue(ys)])[1..] == xs[1..] + [Glue(ys)];
      assert (xs + ys)[1..] == xs[1..] + ys;
    }
  }

  // ---- blank lines at the ends ---------------------------------------------------------------

  function DropFront(ls: seq<string>): seq<string> {
    if ls != [] && ls[0] == "" then DropFront(ls[1..]) else ls
  }

  function DropBack(ls: seq<string>): seq<string> {
    if ls != [] && ls[|ls| - 1] == "" then DropBack(ls[..|ls| - 1]) else ls
  }

  /** Without the blank lines at both ends. */
  function Trim(ls: seq<string>): seq<string> {
    DropBack(DropFront(ls))
  }

  /** No blank line at either end. */
  ghost predicate Tidy(ls: seq<string>) {
    ls != [] ==> ls[0] != "" && ls[|ls| - 1] != ""
  }

  /** `text.strip("\n")`. */
  function StripFront(t: string): string {
    if t != [] && t[0] == '\n' then StripFront(t[1..]) else t
  }

  function StripBack(t: string): string {
    if t != [] && t[|t| - 1] == '\n' then StripBack(t[..|t| - 1]) else t
  }

  function Strip(t: string): string {
    StripBack(StripFront(t))
  }

  lemma {:induction false} StripFrontJoin(ls: seq<string>)
    requires AllOneLine(ls)
    ensures StripFront(Join(ls)) == Join(DropFront(ls))
  {
    if ls != [] && ls[0] == "" {
      StripFrontJoin(ls[1..]);
      if |ls| > 1 {
        assert Join(ls) == NL + Join(ls[1..]);
        assert Join(ls)[1..] == Join(ls[1..]);
      }
    } else if ls != [] {
      assert Join(ls)[0] == ls[0][0];
    }
  }

  lemma {:induction false} StripBackJoin(ls: seq<string>)
    requires AllOneLine(ls)
    ensures StripBack(Join(ls)) == Join(DropBack(ls))
  {
    if ls != [] {
      var n := |ls| - 1;
      assert ls == ls[..n] + [ls[n]];
      if n > 0 { JoinAppend(ls[..n], [ls[n]]); }
      if ls[n] == "" {
        StripBackJoin(ls[..n]);
        if n > 0 { assert Join(ls)[..|Join(ls)| - 1] == Join(ls[..n]); }
      } else {
        assert Join(ls)[|Join(ls)| - 1] == ls[n][|ls[n]| - 1];
      }
    }
  }

  lemma {:induction false} DropFrontShape(ls: seq<string>)
    ensures var d := DropFront(ls);
            (d != [] ==> d[0] != "") && |d| <= |ls| && d == ls[|ls| - |d|..]
  {
    if ls != [] && ls[0] == "" {
      DropFrontShape(ls[1..]);
      var d := DropFront(ls);
      assert ls[1..][|ls| - 1 - |d|..] == ls[|ls| - |d|..];
    }
  }

  lemma {:induction false} DropBackShape(ls: seq<string>)
    ensures var d := DropBack(ls);
            (d != [] ==> d[|d| - 1] != "") && |d| <= |ls| && d == ls[..|d|]
  {
    if ls != [] && ls[|ls| - 1] == "" { DropBackShape(ls[..|ls| - 1]); }
  }

  /** Stripping newlines off a text is trimming blank lines off its lines. */
  lemma {:induction false} StripJoin(ls: seq<string>)
    requires AllOneLine(ls)
    ensures Strip(Join(ls)) == Join(Trim(ls)) && Tidy(Trim(ls)) && AllOneLine(Trim(ls))
    ensures forall l :: l in Trim(ls) ==> l in ls
  {
    hide Join, DropFront, DropBack, StripFront, StripBack, OneLine;
    DropFrontShape(ls);
    StripFrontJoin(ls);
    StripBackJoin(DropFront(ls));
    DropBackShape(DropFront(ls));
  }

  /** Blank lines around tidy lines are all that trimming removes. */
  lemma {:induction false} TrimTidy(ls: seq<string>)
    requires ls != [] && Tidy(ls)
    ensures Trim([""] + ls + [""]) == ls
  {
    var t := [""] + ls + [""];
    assert t[1..] == ls + [""];
    assert DropFront(t) == DropFront(ls + [""]) == ls + [""];
    assert (ls + [""])[..|ls|] == ls;
    assert DropBack(ls + [""]) == DropBack(ls) == ls;
  }
}
