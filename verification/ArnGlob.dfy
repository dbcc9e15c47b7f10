/** Role resolution for AWS identities (crates/sqe-auth/src/aws_iam.rs). */
module ArnGlob {
  import opened Prelude
  import opened Sorted
  import opened TextOrder
  import opened TextSearch

  /** What a pattern means: `*` stands for any sequence of characters, every other character for
      itself. */
  ghost predicate Matches(p: string, s: string)
    decreases |p|
  {
    if p == [] then s == []
    else if p[0] == '*' then exists k :: 0 <= k <= |s| && Matches(p[1..], s[k..])
    else s != [] && s[0] == p[0] && Matches(p[1..], s[1..])
  }

  /** `pattern.split('*')`. */
  function Split(p: string): (parts: seq<string>)
    ensures parts != []
  {
    if p == [] then [[]]
    else
      var rest := Split(p[1..]);
      if p[0] == '*' then [[]] + rest else [[p[0]] + rest[0]] + rest[1..]
  }

  /** The pattern that part `i` and everything behind it stand for, each part behind a star. */
  ghost function Stars(parts: seq<string>, i: nat): string
    requires i <= |parts|
    decreases |parts| - i
  {
    if i == |parts| then [] else "*" + parts[i] + Stars(parts, i + 1)
  }

  ghost predicate Literal(s: string) {
    forall k :: 0 <= k < |s| ==> s[k] != '*'
  }

  lemma {:induction false} StarsShift(a: seq<string>, b: seq<string>, i: nat, j: nat)
    requires i <= |a| && j <= |b| && a[i..] == b[j..]
    ensures Stars(a, i) == Stars(b, j)
    decreases |a| - i
  {
    if i < |a| {
      assert a[i] == a[i..][0] && b[j] == b[j..][0];
      assert a[i + 1..] == a[i..][1..] && b[j + 1..] == b[j..][1..];
      StarsShift(a, b, i + 1, j + 1);
    }
  }

  lemma {:induction false} SplitJoins(p: string)
    ensures p == Split(p)[0] + Stars(Split(p), 1)
    ensures forall i :: 0 <= i < |Split(p)| ==> Literal(Split(p)[i])
  {
    if p != [] {
      var rest, parts := Split(p[1..]), Split(p);
      SplitJoins(p[1..]);
      if p[0] == '*' {
        StarsShift(parts, rest, 2, 1);
        assert parts[1] == rest[0];
        assert Stars(parts, 1) == "*" + parts[1] + Stars(parts, 2);
        assert p == ['*'] + p[1..];
      } else {
        StarsShift(parts, rest, 1, 1);
        assert p == [p[0]] + p[1..];
      }
    }
  }

  /** A literal in front of a pattern must be a prefix. */
  lemma {:induction false} LiteralFirst(lit: string, q: string, s: string)
    requires Literal(lit)
    ensures Matches(lit + q, s) <==> lit <= s && Matches(q, s[|lit|..])
  {
    if lit == [] {
      assert lit + q == q;
    } else {
      assert (lit + q)[0] == lit[0] && (lit + q)[1..] == lit[1..] + q;
      if s != [] {
        LiteralFirst(lit[1..], q, s[1..]);
        assert lit <= s <==> lit[0] == s[0] && lit[1..] <= s[1..] by {
          assert lit == [lit[0]] + lit[1..] && s == [s[0]] + s[1..];
        }
        if lit <= s { assert s[1..][|lit| - 1..] == s[|lit|..]; }
      }
    }
  }

  /** A pattern that begins with a star also matches whatever is put in front. */
  lemma StarAbsorbs(q: string, s: string, k: nat)
    requires q != [] && q[0] == '*' && k <= |s| && Matches(q, s[k..])
    ensures Matches(q, s)
  {
    var j :| 0 <= j <= |s[k..]| && Matches(q[1..], s[k..][j..]);
    assert s[k..][j..] == s[k + j..];
  }

  lemma {:induction false} MatchOccurs(mid: string, q: string, s: string, k: nat)
    requires Literal(mid) && k <= |s| && Matches(mid + q, s[k..])
    ensures OccursAt(s, mid, k)
  {
    hide Matches;
    LiteralFirst(mid, q, s[k..]);
    assert s[k..k + |mid|] == s[k..][..|mid|];
  }

  lemma {:induction false} LaterMatch(mid: string, q: string, s: string, first: nat, k: nat)
    requires Literal(mid) && q != [] && q[0] == '*'
    requires OccursAt(s, mid, first) && first <= k <= |s| && Matches(mid + q, s[k..])
    ensures Matches(q, s[first + |mid|..])
  {
    LiteralFirst(mid, q, s[k..]);
    hide Matches;
    assert s[k..][|mid|..] == s[first + |mid|..][k - first..];
    StarAbsorbs(q, s[first + |mid|..], k - first);
  }

  lemma {:induction false} MatchAt(mid: string, q: string, s: string, k: nat)
    requires Literal(mid) && OccursAt(s, mid, k) && Matches(q, s[k + |mid|..])
    ensures Matches(mid + q, s[k..])
  {
    hide Matches;
    LiteralFirst(mid, q, s[k..]);
    assert mid <= s[k..];
    assert s[k..][|mid|..] == s[k + |mid|..];
  }

  /** A middle part may be matched at its first occurrence: any later match leaves less behind. */
  lemma {:induction false} Leftmost(mid: string, q: string, s: string, first: nat)
    requires Literal(mid) && q != [] && q[0] == '*'
    requires OccursAt(s, mid, first) && forall k :: 0 <= k < first ==> !OccursAt(s, mid, k)
    ensures Matches("*" + mid + q, s) <==> Matches(q, s[first + |mid|..])
  {
    var p := "*" + mid + q;
    assert p[1..] == mid + q;
    if Matches(p, s) {
      var k :| 0 <= k <= |s| && Matches(p[1..], s[k..]);
      MatchOccurs(mid, q, s, k);
      LaterMatch(mid, q, s, first, k);
    }
    if Matches(q, s[first + |mid|..]) {
      MatchAt(mid, q, s, first);
      assert Matches(p[1..], s[first..]);
    }
  }

  lemma {:induction false} NoOccurrence(mid: string, q: string, s: string)
    requires Literal(mid) && forall k :: 0 <= k <= |s| ==> !OccursAt(s, mid, k)
    ensures !Matches("*" + mid + q, s)
  {
    hide OccursAt;
    var p := "*" + mid + q;
    assert p[1..] == mid + q;
    if k :| 0 <= k <= |s| && Matches(p[1..], s[k..]) {
      MatchOccurs(mid, q, s, k);
    }
  }

  /** The last part must be a suffix. */
  lemma LastPart(last: string, s: string)
    requires Literal(last)
    ensures Matches("*" + last, s) <==> EndsWith(s, last)
  {
    var p := "*" + last;
    assert p[1..] == last == last + [];
    forall k | 0 <= k <= |s| ensures Matches(last, s[k..]) <==> s[k..] == last {
      LiteralFirst(last, [], s[k..]);
      if last <= s[k..] { assert s[k..][|last|..] == [] <==> s[k..] == last; }
    }
    if EndsWith(s, last) { assert Matches(p[1..], s[|s| - |last|..]); }
  }

  /** `str::find`: the first occurrence. */
  method Find(hay: string, needle: string) returns (r: Option<nat>)
    ensures r.Some? ==> OccursAt(hay, needle, r.value) && forall k :: 0 <= k < r.value ==> !OccursAt(hay, needle, k)
    ensures r.None? ==> forall k :: 0 <= k <= |hay| ==> !OccursAt(hay, needle, k)
  {
    var k := 0;
    while k + |needle| <= |hay|
      invariant 0 <= k <= |hay| + 1
      invariant forall j :: 0 <= j < k ==> !OccursAt(hay, needle, j)
    {
      if hay[k..k + |needle|] == needle { return Some(k); }
      k := k + 1;
    }
    return None;
  }

  lemma {:induction false} EmptyOccurs(s: string)
    ensures OccursAt(s, [], 0)
  {
  }

  lemma {:induction false} NoStar(p: string, s: string)
    requires Literal(p)
    ensures Matches(p, s) <==> p == s
  {
    LiteralFirst(p, [], s);
    assert p + [] == p;
  }

  /** `arn_glob_matches`: the greedy matcher decides exactly the meaning of the pattern. */
  method ArnGlobMatches(pattern: string, input: string) returns (matched: bool)
    ensures matched <==> Matches(pattern, input)
  {
    hide Matches, Split, OccursAt;
    var parts := Split(pattern);
    SplitJoins(pattern);
    if |parts| == 1 {
      assert pattern == parts[0] + [] == parts[0];
      NoStar(pattern, input);
      return pattern == input;
    }
    var pos := 0;
    for i := 0 to |parts|
      invariant 0 <= pos <= |input|
      invariant i == 0 ==> pos == 0
      invariant 0 < i < |parts| ==> (Matches(pattern, input) <==> Matches(Stars(parts, i), input[pos..]))
      invariant i == |parts| ==> Matches(pattern, input)
    {
      var part := parts[i];
      assert i > 0 ==> Stars(parts, i) == "*" + part + Stars(parts, i + 1);
      if i == 0 {
        LiteralFirst(part, Stars(parts, 1), input);
        if part != [] {
          if !(part <= input) { return false; }
          pos := |part|;
        }
      } else if i == |parts| - 1 {
        assert Stars(parts, i) == "*" + part;
        LastPart(part, input[pos..]);
        if part != [] && !EndsWith(input[pos..], part) { return false; }
      } else {
        var behind := Stars(parts, i + 1);
        assert behind[0] == '*';
        if part == [] {
          EmptyOccurs(input[pos..]);
          Leftmost(part, behind, input[pos..], 0);
        } else {
          var found := Find(input[pos..], part);
          match found
          case Some(k) =>
            Leftmost(part, behind, input[pos..], k);
            assert input[pos..][k + |part|..] == input[pos + k + |part|..];
            pos := pos + k + |part|;
          case None =>
            NoOccurrence(part, behind, input[pos..]);
            return false;
        }
      }
    }
    return true;
  }

  // ---- roles ---------------------------------------------------------------------------------

  predicate Less(a: string, b: string) {
    a != b && TextLe(a, b)
  }

  lemma {:induction false} LessIsStrictOrder()
    ensures StrictOrder(Less)
  {
    forall a, b, c | Less(a, b) && Less(b, c) ensures Less(a, c) {
      TextTransitive(a, b, c);
      TextTotal(a, b);
    }
    forall a, b ensures a != b ==> Less(a, b) || Less(b, a) { TextTotal(a, b); }
  }

  /** The roles an identity has: those of every pattern that matches it. */
  ghost predicate Granted(mappings: map<string, seq<string>>, arn: string, role: string) {
    exists p :: p in mappings && Matches(p, arn) && role in mappings[p]
  }

  /** `resolve_roles`: the granted roles, each once, in increasing order. The loop visits the
      patterns in any order. */
  method ResolveRoles(mappings: map<string, seq<string>>, arn: string) returns (roles: seq<string>)
    ensures forall r :: r in roles <==> Granted(mappings, arn, r)
    ensures Increasing(roles, Less)
  {
    var all: seq<string> := [];
    var todo := mappings.Keys;
    while todo != {}
      invariant todo <= mappings.Keys
      invariant forall r :: r in all <==> exists p :: p in mappings.Keys - todo && Matches(p, arn) && r in mappings[p]
      decreases |todo|
    {
      var pattern :| pattern in todo;
      ghost var seen := mappings.Keys - todo;
      var matched := ArnGlobMatches(pattern, arn);
      ghost var before := all;
      if matched { all := all + mappings[pattern]; }
      todo := todo - {pattern};
      assert mappings.Keys - todo == seen + {pattern};
      assert forall r :: r in all <==> r in before || (matched && r in mappings[pattern]);
    }
    LessIsStrictOrder();
    roles := SortDistinct(all, Less);
    forall r ensures r in roles <==> Granted(mappings, arn, r) {
      assert r in roles <==> r in Elements(roles);
      assert r in all <==> r in Elements(all);
    }
  }

  /** The order of the visit cannot be seen in the result. */
  lemma RolesAreDetermined(mappings: map<string, seq<string>>, arn: string, a: seq<string>, b: seq<string>)
    requires forall r :: r in a <==> Granted(mappings, arn, r)
    requires forall r :: r in b <==> Granted(mappings, arn, r)
    requires Increasing(a, Less) && Increasing(b, Less)
    ensures a == b
  {
    LessIsStrictOrder();
    assert Elements(a) == Elements(b) by {
      forall r ensures r in Elements(a) <==> r in Elements(b) { assert r in a <==> r in b; }
    }
    IncreasingIsUnique(a, b, Less);
  }
}
