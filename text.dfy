/**
  The Python `str` operations the pipeline relies on, over `seq<char>`:
  `strip`, `in`, `split(sep)`, `sep.join`, `replace` (all occurrences),
  `split(c, 1)` and an ASCII `lower`.
 */
module Text {

  /** Python's `str.isspace()` for a single character. */
  predicate IsSpace(c: char)
  {
    || c == ' ' || '\t' <= c <= '\r' || '\U{1C}' <= c <= '\U{1F}'
    || c == '\U{85}' || c == '\U{A0}' || c == '\U{1680}' || '\U{2000}' <= c <= '\U{200A}'
    || c == '\U{2028}' || c == '\U{2029}' || c == '\U{202F}' || c == '\U{205F}' || c == '\U{3000}'
  }

  predicate AllSpace(s: string)
  {
    forall i :: 0 <= i < |s| ==> IsSpace(s[i])
  }

  /** `s.lstrip()`: drops the leading whitespace and nothing else. */
  function TrimStart(s: string): (r: string)
    ensures |r| <= |s| && r == s[|s| - |r|..]
    ensures AllSpace(s[..|s| - |r|])
    ensures r != [] ==> !IsSpace(r[0])
    decreases |s|
  {
    if s != [] && IsSpace(s[0]) then
      var r := TrimStart(s[1..]);
      var k := |s| - |r|;
      assert r == s[k..] by { assert s[1..][k - 1..] == s[k..]; }
      assert AllSpace(s[..k]) by {
        forall i | 0 <= i < k
          ensures IsSpace(s[..k][i])
        {
          if i > 0 {
            assert s[..k][i] == s[1..][..k - 1][i - 1];
          }
        }
      }
      r
    else s
  }

  /** `s.rstrip()`: drops the trailing whitespace and nothing else. */
  function TrimEnd(s: string): (r: string)
    ensures |r| <= |s| && r == s[..|r|]
    ensures AllSpace(s[|r|..])
    ensures r != [] ==> !IsSpace(r[|r| - 1])
    decreases |s|
  {
    if s != [] && IsSpace(s[|s| - 1]) then
      var r := TrimEnd(s[..|s| - 1]);
      assert s[|r|..] == s[..|s| - 1][|r|..] + [s[|s| - 1]];
      r
    else s
  }

  /** `s.strip()`. */
  function Strip(s: string): (r: string)
    ensures r != [] ==> !IsSpace(r[0]) && !IsSpace(r[|r| - 1])
  {
    TrimEnd(TrimStart(s))
  }

  lemma {:induction false} TrimStartSkips(front: string, rest: string)
    requires AllSpace(front)
    requires rest == [] || !IsSpace(rest[0])
    ensures TrimStart(front + rest) == rest
    decreases |front|
  {
    if front != [] {
      assert (front + rest)[1..] == front[1..] + rest;
      TrimStartSkips(front[1..], rest);
    } else {
      assert front + rest == rest;
    }
  }

  lemma {:induction false} TrimEndSkips(rest: string, back: string)
    requires AllSpace(back)
    requires rest == [] || !IsSpace(rest[|rest| - 1])
    ensures TrimEnd(rest + back) == rest
    decreases |back|
  {
    if back != [] {
      assert (rest + back)[..|rest + back| - 1] == rest + back[..|back| - 1];
      TrimEndSkips(rest, back[..|back| - 1]);
    } else {
      assert rest + back == rest;
    }
  }

  /** A string with no whitespace at either end, padded by whitespace, strips back to itself. */
  lemma StripPadded(front: string, core: string, back: string)
    requires AllSpace(front) && AllSpace(back)
    requires core != [] ==> !IsSpace(core[0]) && !IsSpace(core[|core| - 1])
    ensures Strip(front + core + back) == core
  {
    if core == [] {
      assert AllSpace(front + back);
      TrimStartSkips(front + back, []);
      assert front + core + back == (front + back) + [];
    } else {
      assert front + core + back == front + (core + back);
      TrimStartSkips(front, core + back);
      TrimEndSkips(core, back);
    }
  }

  lemma AllSpaceConcat(a: string, b: string)
    requires AllSpace(a) && AllSpace(b)
    ensures AllSpace(a + b)
  {
    forall i | 0 <= i < |a + b|
      ensures IsSpace((a + b)[i])
    {
      if i < |a| {
        assert (a + b)[i] == a[i];
      } else {
        assert (a + b)[i] == b[i - |a|];
      }
    }
  }

  /** Every string is its stripped form with whitespace on both sides. */
  lemma StripSplits(s: string) returns (lead: string, trail: string)
    ensures AllSpace(lead) && AllSpace(trail)
    ensures s == lead + Strip(s) + trail
  {
    lead := TrimStartSplits(s);
    trail := TrimEndSplits(TrimStart(s));
    Regroup(s, lead, TrimStart(s), Strip(s), trail);
  }

  lemma Regroup<T>(s: seq<T>, a: seq<T>, t: seq<T>, r: seq<T>, b: seq<T>)
    requires s == a + t && t == r + b
    ensures s == a + r + b
  {
  }

  lemma TrimStartSplits(s: string) returns (lead: string)
    ensures AllSpace(lead) && s == lead + TrimStart(s)
  {
    lead := s[..|s| - |TrimStart(s)|];
  }

  lemma TrimEndSplits(s: string) returns (trail: string)
    ensures AllSpace(trail) && s == TrimEnd(s) + trail
  {
    trail := s[|TrimEnd(s)|..];
  }

  /** Whitespace added around a string does not change what it strips to. */
  lemma StripAbsorbsPadding(front: string, s: string, back: string)
    requires AllSpace(front) && AllSpace(back)
    ensures Strip(front + s + back) == Strip(s)
  {
    var lead, trail := StripSplits(s);
    StripRegrouped(front, lead, Strip(s), trail, back);
  }

  lemma StripRegrouped(front: string, lead: string, core: string, trail: string, back: string)
    requires AllSpace(front) && AllSpace(lead) && AllSpace(trail) && AllSpace(back)
    requires core != [] ==> !IsSpace(core[0]) && !IsSpace(core[|core| - 1])
    ensures Strip(front + (lead + core + trail) + back) == core
  {
    AllSpaceConcat(front, lead);
    AllSpaceConcat(trail, back);
    assert front + (lead + core + trail) + back == (front + lead) + core + (trail + back);
    StripPadded(front + lead, core, trail + back);
  }
  /** Stripping twice is stripping once. */
  lemma StripIdempotent(s: string)
    ensures Strip(Strip(s)) == Strip(s)
  {
    var r := Strip(s);
    StripPadded([], r, []);
    assert [] + r + [] == r;
  }

  /** Python's `p in s` for a non-empty `p`. */
  predicate Contains(s: string, p: string)
    requires p != []
    decreases |s|
  {
    |s| >= |p| && (s[..|p|] == p || Contains(s[1..], p))
  }

  lemma {:induction false} ContainsAt(s: string, p: string, i: nat)
    requires p != [] && i + |p| <= |s| && s[i..i + |p|] == p
    ensures Contains(s, p)
    decreases i
  {
    if i > 0 {
      assert s[1..][i - 1..i - 1 + |p|] == s[i..i + |p|];
      ContainsAt(s[1..], p, i - 1);
    }
  }

  lemma {:induction false} ContainsWitness(s: string, p: string) returns (i: nat)
    requires p != [] && Contains(s, p)
    ensures i + |p| <= |s| && s[i..i + |p|] == p
    decreases |s|
  {
    if s[..|p|] == p {
      i := 0;
    } else {
      var j := ContainsWitness(s[1..], p);
      assert s[1..][j..j + |p|] == s[j + 1..j + 1 + |p|];
      i := j + 1;
    }
  }

  /** An occurrence inside `x` is an occurrence inside any string around `x`. */
  lemma ContainsInfix(a: string, x: string, b: string, p: string)
    requires p != [] && Contains(x, p)
    ensures Contains(a + x + b, p)
  {
    var i := ContainsWitness(x, p);
    assert (a + x + b)[|a| + i..|a| + i + |p|] == x[i..i + |p|];
    ContainsAt(a + x + b, p, |a| + i);
  }

  /** A non-empty string occurs inside any string built around it. */
  lemma ContainsMiddle(a: string, x: string, b: string)
    requires x != []
    ensures Contains(a + x + b, x)
  {
    assert x[0..|x|] == x;
    ContainsAt(x, x, 0);
    ContainsInfix(a, x, b, x);
  }

  /** Every character of an occurring pattern is a character of the string. */
  lemma ContainsChars(s: string, p: string)
    requires p != [] && Contains(s, p)
    ensures forall c :: c in p ==> c in s
  {
    var i := ContainsWitness(s, p);
    forall c | c in p
      ensures c in s
    {
      var k :| 0 <= k < |p| && p[k] == c;
      assert s[i + k] == s[i..i + |p|][k];
    }
  }

  /** Python's `sep.join(xs)`. */
  function Join(xs: seq<string>, sep: string): string
    decreases |xs|
  {
    if |xs| == 0 then []
    else if |xs| == 1 then xs[0]
    else xs[0] + sep + Join(xs[1..], sep)
  }

  /** A character found in no element and not in the separator is not in the joined string. */
  lemma {:induction false} JoinAvoids(xs: seq<string>, sep: string, c: char)
    requires c !in sep
    requires forall x :: x in xs ==> c !in x
    ensures c !in Join(xs, sep)
    decreases |xs|
  {
    if |xs| > 1 {
      assert xs[0] in xs;
      forall x | x in xs[1..]
        ensures c !in x
      {
        assert x in xs;
      }
      JoinAvoids(xs[1..], sep, c);
    } else if |xs| == 1 {
      assert xs[0] in xs;
    }
  }

  /** Python's `s.split(p)`: the pieces between the non-overlapping occurrences of `p`, found left to right. */
  function SplitOn(s: string, p: string): (r: seq<string>)
    requires p != []
    ensures |r| >= 1
    decreases |s|
  {
    if |s| < |p| then [s]
    else if s[..|p|] == p then [[]] + SplitOn(s[|p|..], p)
    else
      var rest := SplitOn(s[1..], p);
      [[s[0]] + rest[0]] + rest[1..]
  }

  /** Joining the pieces of a split with the separator gives back the original string. */
  lemma {:induction false} SplitJoin(s: string, p: string)
    requires p != []
    ensures Join(SplitOn(s, p), p) == s
    decreases |s|
  {
    if |s| < |p| {
    } else if s[..|p|] == p {
      var rest := SplitOn(s[|p|..], p);
      assert SplitOn(s, p) == [[]] + rest;
      SplitJoin(s[|p|..], p);
      JoinPrepend([], rest, p);
      assert s == s[..|p|] + s[|p|..];
    } else {
      var rest := SplitOn(s[1..], p);
      assert SplitOn(s, p) == [[s[0]] + rest[0]] + rest[1..];
      SplitJoin(s[1..], p);
      JoinExtendsHead(s[0], rest, p);
      assert s == [s[0]] + s[1..];
    }
  }

  /** Joining a list with one more element in front. */
  lemma JoinPrepend(x: string, xs: seq<string>, sep: string)
    requires |xs| >= 1
    ensures Join([x] + xs, sep) == x + sep + Join(xs, sep)
  {
    assert ([x] + xs)[1..] == xs;
  }

  /** Putting a character in front of the first piece puts it in front of the joined string. */
  lemma JoinExtendsHead(c: char, xs: seq<string>, sep: string)
    requires |xs| >= 1
    ensures Join([[c] + xs[0]] + xs[1..], sep) == [c] + Join(xs, sep)
  {
    var ys := [[c] + xs[0]] + xs[1..];
    assert ys[1..] == xs[1..];
    if |xs| > 1 {
      assert [c] + xs[0] + sep + Join(xs[1..], sep) == [c] + (xs[0] + sep + Join(xs[1..], sep));
    }
  }

  lemma {:induction false} SplitFirstIsPrefix(s: string, p: string)
    requires p != []
    ensures |SplitOn(s, p)[0]| <= |s| && SplitOn(s, p)[0] == s[..|SplitOn(s, p)[0]|]
    decreases |s|
  {
    if |s| >= |p| && s[..|p|] != p {
      SplitFirstIsPrefix(s[1..], p);
    }
  }

  /** No piece of a split contains the separator. */
  lemma {:induction false} SplitPiecesFree(s: string, p: string)
    requires p != []
    ensures forall k :: 0 <= k < |SplitOn(s, p)| ==> !Contains(SplitOn(s, p)[k], p)
    decreases |s|
  {
    var r := SplitOn(s, p);
    if |s| < |p| {
    } else if s[..|p|] == p {
      SplitPiecesFree(s[|p|..], p);
      assert r == [[]] + SplitOn(s[|p|..], p);
      forall k | 0 <= k < |r|
        ensures !Contains(r[k], p)
      {
        if k > 0 {
          assert r[k] == SplitOn(s[|p|..], p)[k - 1];
        }
      }
    } else {
      var rest := SplitOn(s[1..], p);
      SplitPiecesFree(s[1..], p);
      SplitFirstIsPrefix(s[1..], p);
      var head := [s[0]] + rest[0];
      assert r == [head] + rest[1..];
      assert head[1..] == rest[0];
      if |head| >= |p| {
        assert head[..|p|] == s[..|p|];
      }
      assert !Contains(head, p);
      forall k | 0 <= k < |r|
        ensures !Contains(r[k], p)
      {
        if k > 0 {
          assert r[k] == rest[k];
        }
      }
    }
  }

  /** Python's `s.replace(p, v)` for a non-empty `p`: every non-overlapping occurrence, left to right. */
  function Replace(s: string, p: string, v: string): string
    requires p != []
    decreases |s|
  {
    if |s| < |p| then s
    else if s[..|p|] == p then v + Replace(s[|p|..], p, v)
    else [s[0]] + Replace(s[1..], p, v)
  }

  /** Replacing is splitting on the pattern and joining the pieces with the replacement. */
  lemma {:induction false} ReplaceIsSplitJoin(s: string, p: string, v: string)
    requires p != []
    ensures Replace(s, p, v) == Join(SplitOn(s, p), v)
    decreases |s|
  {
    if |s| < |p| {
    } else if s[..|p|] == p {
      ReplaceIsSplitJoin(s[|p|..], p, v);
    } else {
      var rest := SplitOn(s[1..], p);
      ReplaceIsSplitJoin(s[1..], p, v);
      var r := [[s[0]] + rest[0]] + rest[1..];
      assert r[1..] == rest[1..];
    }
  }

  /** A pattern that does not occur leaves the string unchanged. */
  lemma {:induction false} ReplaceAbsent(s: string, p: string, v: string)
    requires p != [] && !Contains(s, p)
    ensures Replace(s, p, v) == s
    decreases |s|
  {
    if |s| >= |p| {
      ReplaceAbsent(s[1..], p, v);
      assert s == [s[0]] + s[1..];
    }
  }

  /** Every character of the result comes from the original string or from the replacement. */
  lemma {:induction false} ReplaceChars(s: string, p: string, v: string, c: char)
    requires p != [] && c !in s && c !in v
    ensures c !in Replace(s, p, v)
    decreases |s|
  {
    if |s| < |p| {
    } else if s[..|p|] == p {
      ReplaceChars(s[|p|..], p, v, c);
    } else {
      ReplaceChars(s[1..], p, v, c);
    }
  }

  /**
    Replacing a pattern does not remove it for good: when the replacement
    itself contains the pattern, the result still contains it.
   */
  lemma {:induction false} ReplaceValueSurvives(s: string, p: string, v: string)
    requires p != [] && Contains(s, p) && Contains(v, p)
    ensures Contains(Replace(s, p, v), p)
    decreases |s|
  {
    if s[..|p|] == p {
      ContainsInfix([], v, Replace(s[|p|..], p, v), p);
      assert [] + v + Replace(s[|p|..], p, v) == Replace(s, p, v);
    } else {
      ReplaceValueSurvives(s[1..], p, v);
      ContainsInfix([s[0]], Replace(s[1..], p, v), [], p);
      assert [s[0]] + Replace(s[1..], p, v) + [] == Replace(s, p, v);
    }
  }

  /** A pattern with a character the string lacks does not occur in it. */
  lemma {:induction false} AbsentCharBlocks(s: string, p: string, k: nat)
    requires k < |p| && p[k] !in s
    ensures !Contains(s, p)
    decreases |s|
  {
    if |s| >= |p| {
      assert s[..|p|][k] == s[k];
      assert s[k] in s;
      assert p[k] !in s[1..];
      AbsentCharBlocks(s[1..], p, k);
    }
  }

  /** An occurrence at the very start is replaced, and the scan resumes after it. */
  lemma ReplaceLeading(p: string, s: string, v: string)
    requires p != []
    ensures Replace(p + s, p, v) == v + Replace(s, p, v)
  {
    assert (p + s)[..|p|] == p;
    assert (p + s)[|p|..] == s;
  }

  /** `s` with every `c` dropped. */
  function Without(s: string, c: char): (r: string)
    ensures c !in r && |r| <= |s|
    ensures forall d :: d in r ==> d in s
    decreases |s|
  {
    if s == [] then []
    else if s[0] == c then Without(s[1..], c)
    else [s[0]] + Without(s[1..], c)
  }

  /** Python's `s.replace(c, '')` for one character is the filter that drops `c`. */
  lemma {:induction false} RemoveCharIsWithout(s: string, c: char)
    ensures Replace(s, [c], []) == Without(s, c)
    decreases |s|
  {
    if s != [] {
      assert s[..1] == [s[0]];
      RemoveCharIsWithout(s[1..], c);
    }
  }

  /** `s.replace('"', '')`. */
  function RemoveQuotes(s: string): (r: string)
    ensures '"' !in r
    ensures forall d :: d in r ==> d in s
    ensures r == Without(s, '"')
  {
    RemoveCharIsWithout(s, '"');
    Replace(s, "\"", "")
  }

  /** Python's `line.split(c, 1)` on a line that contains `c`: the text before the first `c` and the text after it. */
  function SplitAtFirst(s: string, c: char): (r: (string, string))
    requires c in s
    ensures c !in r.0
    ensures r.0 + [c] + r.1 == s
  {
    if s[0] == c then ([], s[1..])
    else
      var rest := SplitAtFirst(s[1..], c);
      assert s == [s[0]] + s[1..];
      ([s[0]] + rest.0, rest.1)
  }

  /** The split at the first `c` is the only split whose left part has no `c`. */
  lemma {:induction false} SplitAtFirstUnique(a: string, c: char, b: string)
    requires c !in a
    ensures c in a + [c] + b
    ensures SplitAtFirst(a + [c] + b, c) == (a, b)
    decreases |a|
  {
    var s := a + [c] + b;
    assert s[|a|] == c;
    if a != [] {
      assert s[1..] == a[1..] + [c] + b;
      assert a[0] in a;
      SplitAtFirstUnique(a[1..], c, b);
      assert [a[0]] + a[1..] == a;
    } else {
      assert s[1..] == b;
    }
  }

  predicate IsUpper(c: char)
  {
    'A' <= c <= 'Z'
  }

  /** `s.lower()` on ASCII letters; every other character is kept. */
  function Lower(s: string): (r: string)
    ensures |r| == |s|
    ensures forall i :: 0 <= i < |s| ==> !IsUpper(r[i])
    ensures forall i :: 0 <= i < |s| && !IsUpper(s[i]) ==> r[i] == s[i]
    ensures forall i :: 0 <= i < |s| && IsUpper(s[i]) ==> r[i] as int == s[i] as int + 32
  {
    if s == [] then []
    else
      var c := if IsUpper(s[0]) then (s[0] as int + 32) as char else s[0];
      [c] + Lower(s[1..])
  }

  /** Python's `s.count(c)` for a single character. */
  function Count(s: string, c: char): nat
    decreases |s|
  {
    if s == [] then 0 else (if s[0] == c then 1 else 0) + Count(s[1..], c)
  }

  /** Counting over a concatenation adds the counts of the parts. */
  lemma {:induction false} CountConcat(a: string, b: string, c: char)
    ensures Count(a + b, c) == Count(a, c) + Count(b, c)
    decreases |a|
  {
    if a == [] {
      assert a + b == b;
    } else {
      assert (a + b)[0] == a[0] && (a + b)[1..] == a[1..] + b;
      CountConcat(a[1..], b, c);
    }
  }

  /** A character that does not occur is counted zero times. */
  lemma {:induction false} CountAbsent(s: string, c: char)
    requires c !in s
    ensures Count(s, c) == 0
    decreases |s|
  {
    if s != [] {
      assert c !in s[1..];
      CountAbsent(s[1..], c);
    }
  }

  /**
    Replacing a pattern without `c` by a value without `c` keeps the number
    of `c`s: the replacement neither adds nor removes one.
   */
  lemma {:induction false} ReplaceKeepsCount(s: string, p: string, v: string, c: char)
    requires p != [] && c !in p && c !in v
    ensures Count(Replace(s, p, v), c) == Count(s, c)
    decreases |s|
  {
    if |s| < |p| {
    } else if s[..|p|] == p {
      ReplaceKeepsCount(s[|p|..], p, v, c);
      CountConcat(v, Replace(s[|p|..], p, v), c);
      CountAbsent(v, c);
      CountAbsent(p, c);
      CountConcat(s[..|p|], s[|p|..], c);
      assert s == s[..|p|] + s[|p|..];
    } else {
      ReplaceKeepsCount(s[1..], p, v, c);
      CountConcat([s[0]], Replace(s[1..], p, v), c);
    }
  }

  /** A string that contains `a + b` contains `a`. */
  lemma {:induction false} ContainsPrefixOf(s: string, a: string, b: string)
    requires a != [] && Contains(s, a + b)
    ensures Contains(s, a)
    decreases |s|
  {
    if s[..|a + b|] == a + b {
      assert s[..|a|] == (a + b)[..|a|] == a;
    } else {
      ContainsPrefixOf(s[1..], a, b);
    }
  }

  /** Replacing an occurring pattern puts the replacement into the result. */
  lemma {:induction false} ReplaceInserts(s: string, p: string, v: string)
    requires p != [] && v != [] && Contains(s, p)
    ensures Contains(Replace(s, p, v), v)
    decreases |s|
  {
    if s[..|p|] == p {
      ContainsMiddle([], v, Replace(s[|p|..], p, v));
      assert [] + v + Replace(s[|p|..], p, v) == Replace(s, p, v);
    } else {
      ReplaceInserts(s[1..], p, v);
      ContainsInfix([s[0]], Replace(s[1..], p, v), [], v);
      assert [s[0]] + Replace(s[1..], p, v) + [] == Replace(s, p, v);
    }
  }

  /** A string without double quotes is left as it is by `RemoveQuotes`. */
  lemma RemoveQuotesKeeps(s: string)
    requires '"' !in s
    ensures RemoveQuotes(s) == s
  {
    AbsentCharBlocks(s, "\"", 0);
    ReplaceAbsent(s, "\"", "");
  }
}
