/** Text positions, UTF-8 offsets and the splicing of insertions (crates/sqe-bench/src/query.rs). */
module TextSplice {
  import opened Prelude

  type Byte = b: int | 0 <= b < 256

  /** A tokenizer position: 1-based line and 1-based column, counted in characters. */
  datatype Location = Location(line: nat, column: nat)

  /** RFC 3629, section 3. */
  function Utf8(c: char): (b: seq<Byte>)
    ensures 1 <= |b| <= 4
  {
    var n := c as int;
    if n < 0x80 then [n]
    else if n < 0x800 then [0xC0 + n / 0x40, 0x80 + n % 0x40]
    else if n < 0x1_0000 then [0xE0 + n / 0x1000, 0x80 + n / 0x40 % 0x40, 0x80 + n % 0x40]
    else [0xF0 + n / 0x4_0000, 0x80 + n / 0x1000 % 0x40, 0x80 + n / 0x40 % 0x40, 0x80 + n % 0x40]
  }

  /** What a byte adds to a character: its value above the mark of its kind. */
  function Above(b: Byte, mark: int): int { b - mark }

  /** The bytes carry the character, in the fewest that can. */
  lemma {:induction false} Utf8Carries(c: char)
    ensures var b, n := Utf8(c), c as int;
            && (forall i :: 1 <= i < |b| ==> 0x80 <= b[i] < 0xC0)
            && (|b| == 1 ==> b[0] < 0x80 && n == b[0])
            && (|b| == 2 ==> 0xC0 <= b[0] < 0xE0 && n >= 0x80 && n == 0x40 * Above(b[0], 0xC0) + Above(b[1], 0x80))
            && (|b| == 3 ==>
                  && 0xE0 <= b[0] < 0xF0 && n >= 0x800
                  && n == 0x1000 * Above(b[0], 0xE0) + 0x40 * Above(b[1], 0x80) + Above(b[2], 0x80))
            && (|b| == 4 ==>
                  && 0xF0 <= b[0] < 0xF8 && n >= 0x1_0000
                  && n == 0x4_0000 * Above(b[0], 0xF0) + 0x1000 * Above(b[1], 0x80) + 0x40 * Above(b[2], 0x80)
                          + Above(b[3], 0x80))
  {
    var n := c as int;
    CodePoint(c);
    SixBits(n);
    SixBits(n / 0x40);
    SixBits(n / 0x1000);
    Shifts(n);
  }

  lemma {:induction false} CodePoint(c: char)
    ensures 0 <= c as int < 0x11_0000
  {
  }

  lemma {:induction false} SixBits(n: int)
    requires n >= 0
    ensures n == 0x40 * (n / 0x40) + n % 0x40 && 0 <= n % 0x40 < 0x40
  {
  }

  lemma {:induction false} Shifts(n: int)
    requires n >= 0
    ensures n / 0x1000 == n / 0x40 / 0x40 && n / 0x4_0000 == n / 0x1000 / 0x40
  {
  }

  function Encode(s: string): seq<Byte> {
    if s == [] then [] else Utf8(s[0]) + Encode(s[1..])
  }

  lemma EncodeCons(s: string)
    ensures Encode([]) == [] && (s != [] ==> Encode(s) == Utf8(s[0]) + Encode(s[1..]))
  {
  }

  lemma {:induction false} EncodeAppend(s: string, t: string)
    ensures Encode(s + t) == Encode(s) + Encode(t)
  {
    hide Utf8, Encode;
    EncodeCons(s);
    EncodeCons(s + t);
    if s == [] {
      assert s + t == t;
    } else {
      EncodeAppend(s[1..], t);
      assert (s + t)[0] == s[0] && (s + t)[1..] == s[1..] + t;
      assert Utf8(s[0]) + (Encode(s[1..]) + Encode(t)) == (Utf8(s[0]) + Encode(s[1..])) + Encode(t);
    }
  }

  /** Byte offset of character `i`. */
  function Offset(s: string, i: nat): nat
    requires i <= |s|
  {
    |Encode(s[..i])|
  }

  lemma OffsetGrows(s: string, i: nat, j: nat)
    requires i <= j <= |s|
    ensures Offset(s, j) == Offset(s, i) + |Encode(s[i..j])|
    ensures i < j ==> Offset(s, i) < Offset(s, j)
    ensures Offset(s, j) <= |Encode(s)|
    ensures Encode(s)[Offset(s, i)..Offset(s, j)] == Encode(s[i..j])
  {
    assert s[..j] == s[..i] + s[i..j];
    EncodeAppend(s[..i], s[i..j]);
    assert s == s[..j] + s[j..];
    EncodeAppend(s[..j], s[j..]);
  }

  /** The position the tokenizer gives to character `i`. */
  function LocationAt(s: string, i: nat): Location
    requires i <= |s|
  {
    if i == 0 then Location(1, 1)
    else
      var l := LocationAt(s, i - 1);
      if s[i - 1] == '\n' then Location(l.line + 1, 1) else Location(l.line, l.column + 1)
  }

  ghost predicate Before(a: Location, b: Location) {
    a.line < b.line || (a.line == b.line && a.column < b.column)
  }

  /** Positions grow with the characters, so no two characters share one. */
  lemma {:induction false} LocationsGrow(s: string, i: nat, j: nat)
    requires i < j <= |s|
    ensures Before(LocationAt(s, i), LocationAt(s, j))
  {
    if i < j - 1 {
      LocationsGrow(s, i, j - 1);
    }
  }

  /** Inside one line the column counts the characters. */
  lemma {:induction false} SameLine(s: string, i: nat, j: nat)
    requires i <= j <= |s|
    requires forall k :: i <= k < j ==> s[k] != '\n'
    ensures LocationAt(s, j) == Location(LocationAt(s, i).line, LocationAt(s, i).column + (j - i))
  {
    if i < j {
      SameLine(s, i, j - 1);
    }
  }

  lemma OffsetStart(s: string)
    ensures Offset(s, 0) == 0
  {
  }

  /** `byte_offset`: the byte offset of the character at a position, for every character of every
      text, and nothing for a position no character has. */
  method ByteOffset(sql: string, loc: Location) returns (off: Option<nat>)
    ensures forall i :: 0 <= i < |sql| && LocationAt(sql, i) == loc ==> off == Some(Offset(sql, i))
    ensures off.Some? ==> exists i :: 0 <= i < |sql| && LocationAt(sql, i) == loc && off.value == Offset(sql, i)
  {
    hide Encode, Utf8;
    if loc.line == 0 || loc.column == 0 {
      forall i | 0 <= i < |sql| ensures LocationAt(sql, i) != loc { LocationPositive(sql, i); }
      return None;
    }
    var lineIdx, colIdx := loc.line - 1, loc.column - 1;
    var n, lineStart, pos := 0, 0, 0;
    OffsetStart(sql);
    while pos < |sql|
      invariant 0 <= pos <= |sql| && n <= lineIdx
      invariant pos < |sql| ==> LocationAt(sql, pos) == Location(n + 1, 1)
      invariant lineStart == Offset(sql, pos)
      invariant forall i :: 0 <= i < pos ==> LocationAt(sql, i).line < loc.line
      decreases |sql| - pos
    {
      var end := LineEnd(sql, pos);
      forall i | pos <= i < end ensures LocationAt(sql, i) == Location(n + 1, 1 + i - pos) { SameLine(sql, pos, i); }
      OffsetGrows(sql, pos, end);
      if n == lineIdx {
        forall i | end <= i < |sql| ensures LocationAt(sql, i) != loc { LineIsOver(sql, end, i); }
        if colIdx < end - pos {
          OffsetGrows(sql, pos, pos + colIdx);
          return Some(lineStart + |Encode(sql[pos..pos + colIdx])|);
        }
        return None;
      }
      lineStart := lineStart + |Encode(sql[pos..end])|;
      pos := end;
      n := n + 1;
    }
    return None;
  }

  lemma LocationPositive(s: string, i: nat)
    requires i <= |s|
    ensures LocationAt(s, i).line >= 1 && LocationAt(s, i).column >= 1
  {
  }

  /** A character behind the newline that ends a line is on a later line. */
  lemma LineIsOver(s: string, end: nat, i: nat)
    requires 0 < end <= i < |s| && s[end - 1] == '\n'
    ensures LocationAt(s, i).line > LocationAt(s, end - 1).line
  {
    if end < i { LocationsGrow(s, end, i); }
  }

  /** The end of the line that starts at `pos`, newline included. */
  method LineEnd(s: string, pos: nat) returns (end: nat)
    requires pos < |s|
    ensures pos < end <= |s|
    ensures forall k :: pos <= k < end - 1 ==> s[k] != '\n'
    ensures end < |s| ==> s[end - 1] == '\n'
  {
    end := pos;
    while end < |s| && s[end] != '\n'
      invariant pos <= end <= |s|
      invariant forall k :: pos <= k < end ==> s[k] != '\n'
    {
      end := end + 1;
    }
    if end < |s| { end := end + 1; }
  }

  // ---- insertions --------------------------------------------------------------------------

  /** Characters `i..j` of `s` with `prefix` before each character whose index is in `at`. */
  function Insert(s: string, i: nat, j: nat, at: set<nat>, prefix: string): string
    requires i <= j <= |s|
    decreases j - i
  {
    if i == j then []
    else Insert(s, i, j - 1, at, prefix) + (if j - 1 in at then prefix else []) + [s[j - 1]]
  }

  /** The same text with the insertions taken out again. */
  function Delete(t: string, j: nat, at: set<nat>, width: nat): string
    decreases j
  {
    if j == 0 || t == [] then []
    else
      var drop := if j - 1 in at then width else 0;
      var front := t[..|t| - 1];
      Delete(front[..if |front| < drop then 0 else |front| - drop], j - 1, at, width) + [t[|t| - 1]]
  }

  /** The last character goes over, and the prefix before it is dropped. */
  lemma {:induction false} DeleteLast(before: string, gap: string, c: char, j: nat, at: set<nat>, width: nat)
    requires j > 0 && |gap| == if j - 1 in at then width else 0
    ensures Delete(before + gap + [c], j, at, width) == Delete(before, j - 1, at, width) + [c]
  {
    var t := before + gap + [c];
    var front := t[..|t| - 1];
    assert front == before + gap;
    assert front[..|front| - |gap|] == before;
  }

  lemma {:induction false} InsertLast(s: string, j: nat, at: set<nat>, prefix: string)
    requires 0 < j <= |s|
    ensures Insert(s, 0, j, at, prefix)
            == Insert(s, 0, j - 1, at, prefix) + (if j - 1 in at then prefix else []) + [s[j - 1]]
  {
  }

  lemma {:induction false} TakeOneMore(s: string, j: nat)
    requires 0 < j <= |s|
    ensures s[..j] == s[..j - 1] + [s[j - 1]]
  {
  }

  lemma {:induction false} DeleteNothing(t: string, at: set<nat>, width: nat)
    ensures Delete(t, 0, at, width) == []
  {
  }

  /** Deleting the inserted prefixes restores the text. */
  lemma {:induction false} DeleteUndoesInsert(s: string, j: nat, at: set<nat>, prefix: string)
    requires j <= |s|
    ensures Delete(Insert(s, 0, j, at, prefix), j, at, |prefix|) == s[..j]
  {
    if j == 0 {
      DeleteNothing(Insert(s, 0, j, at, prefix), at, |prefix|);
    } else {
      hide Delete, Insert;
      var before: string, gap: string := Insert(s, 0, j - 1, at, prefix), if j - 1 in at then prefix else [];
      DeleteUndoesInsert(s, j - 1, at, prefix);
      InsertLast(s, j, at, prefix);
      DeleteLast(before, gap, s[j - 1], j, at, |prefix|);
      TakeOneMore(s, j);
    }
  }

  /** The text grows by one prefix for each insertion. */
  lemma {:induction false} InsertLength(s: string, j: nat, at: set<nat>, prefix: string)
    requires j <= |s| && forall p :: p in at ==> p < j
    ensures |Insert(s, 0, j, at, prefix)| == j + |at| * |prefix|
  {
    if j == 0 {
      assert at == {};
    } else {
      var fewer := at - {j - 1};
      InsertSame(s, 0, j - 1, at, fewer, prefix);
      InsertLength(s, j - 1, fewer, prefix);
      if j - 1 in at {
        assert |at| == |fewer| + 1;
        assert |at| * |prefix| == |fewer| * |prefix| + |prefix|;
      } else {
        assert fewer == at;
      }
    }
  }

  lemma {:induction false} InsertSame(s: string, i: nat, j: nat, a: set<nat>, b: set<nat>, prefix: string)
    requires i <= j <= |s|
    requires forall p :: i <= p < j ==> (p in a <==> p in b)
    ensures Insert(s, i, j, a, prefix) == Insert(s, i, j, b, prefix)
    decreases j - i
  {
    if i < j { InsertSame(s, i, j - 1, a, b, prefix); }
  }

  lemma {:induction false} InsertNothing(s: string, i: nat, j: nat, at: set<nat>, prefix: string)
    requires i <= j <= |s| && forall p :: i <= p < j ==> p !in at
    ensures Insert(s, i, j, at, prefix) == s[i..j]
    decreases j - i
  {
    if i < j {
      InsertNothing(s, i, j - 1, at, prefix);
      assert s[i..j] == s[i..j - 1] + [s[j - 1]];
    }
  }

  lemma {:induction false} InsertSplit(s: string, i: nat, m: nat, j: nat, at: set<nat>, prefix: string)
    requires i <= m <= j <= |s|
    ensures Insert(s, i, j, at, prefix) == Insert(s, i, m, at, prefix) + Insert(s, m, j, at, prefix)
    decreases j - m
  {
    if m < j { InsertSplit(s, i, m, j - 1, at, prefix); }
  }

  lemma InsertOne(s: string, pos: nat, at: set<nat>, prefix: string)
    requires pos < |s| && pos in at
    ensures Insert(s, pos, pos + 1, at, prefix) == prefix + [s[pos]]
  {
    assert Insert(s, pos, pos, at, prefix) == [];
  }

  lemma {:induction false} Regroup(a: string, b: string, c: string, d: string)
    ensures a + ((b + c) + d) == a + b + (c + d)
  {
  }

  /** The stretch from one insertion point to the next. */
  lemma {:induction false} InsertStretch(s: string, pos: nat, j: nat, at: set<nat>, prefix: string)
    requires pos < j <= |s| && pos in at
    requires forall p :: pos < p < j ==> p !in at
    ensures Insert(s, 0, j, at, prefix) == Insert(s, 0, pos, at, prefix) + prefix + s[pos..j]
  {
    hide Insert;
    InsertSplit(s, 0, pos, j, at, prefix);
    InsertSplit(s, pos, pos + 1, j, at, prefix);
    InsertNothing(s, pos + 1, j, at, prefix);
    InsertOne(s, pos, at, prefix);
    var before := Insert(s, 0, pos, at, prefix);
    assert s[pos..j] == [s[pos]] + s[pos + 1..j];
    Regroup(before, prefix, [s[pos]], s[pos + 1..j]);
  }
}
