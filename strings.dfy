/**
 * The handful of Python `str` operations the text readers use, on strings
 * as sequences of Unicode code points: whitespace and digit classes,
 * substring search, counting, `split` on a one-character separator, `join`,
 * `replace(old, "")` and `strip()`.
 */
module Strings {

  /** `str.isspace()` for one character (the class `\s` also denotes). */
  predicate IsSpace(c: char)
  {
    || ('\U{0009}' <= c <= '\U{000D}') || ('\U{001C}' <= c <= '\U{0020}')
    || c == '\U{0085}' || c == '\U{00A0}' || c == '\U{1680}' || ('\U{2000}' <= c <= '\U{200A}')
    || c == '\U{2028}' || c == '\U{2029}' || c == '\U{202F}' || c == '\U{205F}' || c == '\U{3000}'
  }

  /** An ASCII decimal digit. */
  predicate IsDigit(c: char)
  {
    '0' <= c <= '9'
  }

  /** `sub` occurs in `s` starting at index `i`. */
  predicate OccursAt(s: string, sub: string, i: int)
  {
    0 <= i && i + |sub| <= |s| && s[i..i + |sub|] == sub
  }

  /** `sub in s`: `sub` occurs somewhere in `s`. */
  predicate Contains(s: string, sub: string)
  {
    exists i :: 0 <= i <= |s| && OccursAt(s, sub, i)
  }

  /** A pattern whose first character never occurs is nowhere in the string. */
  lemma FirstCharAbsent(s: string, sub: string)
    requires sub != [] && sub[0] !in s
    ensures !Contains(s, sub)
  {
    forall i | 0 <= i <= |s| && i + |sub| <= |s|
      ensures !OccursAt(s, sub, i)
    {
      assert s[i..i + |sub|][0] == s[i] && s[i] in s;
    }
  }

  /** An occurrence inside one part of a concatenation is an occurrence in the whole. */
  lemma ContainsConcat(a: string, b: string, sub: string)
    ensures Contains(a, sub) || Contains(b, sub) ==> Contains(a + b, sub)
  {
    if Contains(a, sub) {
      var i :| 0 <= i <= |a| && OccursAt(a, sub, i);
      assert (a + b)[i..i + |sub|] == a[i..i + |sub|];
      assert OccursAt(a + b, sub, i);
    } else if Contains(b, sub) {
      var i :| 0 <= i <= |b| && OccursAt(b, sub, i);
      assert (a + b)[|a| + i..|a| + i + |sub|] == b[i..i + |sub|];
      assert OccursAt(a + b, sub, |a| + i);
    }
  }

  /** `s.count(c)` for a one-character `c`. */
  function Count(s: string, c: char): (n: nat)
    ensures n <= |s|
    ensures n == 0 <==> c !in s
  {
    if s == [] then 0 else (if s[0] == c then 1 else 0) + Count(s[1..], c)
  }

  /** Counting in a concatenation adds the counts of its parts. */
  lemma {:induction false} CountConcat(a: string, b: string, c: char)
    ensures Count(a + b, c) == Count(a, c) + Count(b, c)
  {
    if a == [] {
      assert a + b == b;
    } else {
      assert (a + b)[1..] == a[1..] + b;
      CountConcat(a[1..], b, c);
    }
  }

  /** `sep.join(parts)`. */
  function Join(parts: seq<string>, sep: string): string
  {
    if parts == [] then ""
    else if |parts| == 1 then parts[0]
    else parts[0] + sep + Join(parts[1..], sep)
  }

  /** Joining a first part onto the rest. */
  lemma JoinCons(first: string, rest: seq<string>, sep: string)
    ensures Join([first] + rest, sep) == if rest == [] then first else first + sep + Join(rest, sep)
  {
    if rest != [] {
      assert ([first] + rest)[1..] == rest;
    }
  }

  /**
   * `s.split(c)` for a one-character separator: the pieces between
   * separators, empty ones included, so one more piece than separators.
   */
  function Split(s: string, c: char): (parts: seq<string>)
    ensures |parts| == Count(s, c) + 1
    ensures forall k :: 0 <= k < |parts| ==> c !in parts[k]
  {
    if s == [] then [""]
    else
      var rest := Split(s[1..], c);
      if s[0] == c then [""] + rest
      else [[s[0]] + rest[0]] + rest[1..]
  }

  /** Splitting on `c` and joining with `c` gives the string back. */
  lemma {:induction false} JoinSplit(s: string, c: char)
    ensures Join(Split(s, c), [c]) == s
  {
    if s != [] {
      JoinSplit(s[1..], c);
      JoinSplitStep(s, c);
    }
  }

  /** The round trip for `s` from the round trip for its tail. */
  lemma JoinSplitStep(s: string, c: char)
    requires s != [] && Join(Split(s[1..], c), [c]) == s[1..]
    ensures Join(Split(s, c), [c]) == s
  {
    if s[0] == c {
      JoinSplitAtSeparator(s, c, Split(s[1..], c));
    } else {
      JoinSplitInPart(s, c, Split(s[1..], c));
    }
  }

  /** A leading separator starts an empty first part. */
  lemma JoinSplitAtSeparator(s: string, c: char, rest: seq<string>)
    requires s != [] && s[0] == c && rest == Split(s[1..], c) && Join(rest, [c]) == s[1..]
    ensures Join(Split(s, c), [c]) == s
  {
    assert Split(s, c) == [""] + rest;
    JoinCons("", rest, [c]);
    assert "" + [c] + s[1..] == s;
  }

  /** Any other leading character goes in front of the first part. */
  lemma JoinSplitInPart(s: string, c: char, rest: seq<string>)
    requires s != [] && s[0] != c && rest == Split(s[1..], c) && Join(rest, [c]) == s[1..]
    ensures Join(Split(s, c), [c]) == s
  {
    assert Split(s, c) == [[s[0]] + rest[0]] + rest[1..];
    JoinPrepend([s[0]], rest, [c]);
    assert [s[0]] + s[1..] == s;
  }

  /** Text put in front of the first part comes out in front of the join. */
  lemma JoinPrepend(x: string, parts: seq<string>, sep: string)
    requires parts != []
    ensures Join([x + parts[0]] + parts[1..], sep) == x + Join(parts, sep)
  {
    var rest := parts[1..];
    assert parts == [parts[0]] + rest;
    JoinCons(x + parts[0], rest, sep);
    JoinCons(parts[0], rest, sep);
    if rest != [] {
      assert (x + parts[0]) + sep + Join(rest, sep) == x + (parts[0] + sep + Join(rest, sep));
    }
  }

  /**
   * `s.replace(pat, "")` for a non-empty `pat`: occurrences are found from
   * the left and removed without overlapping; the text they leave behind is
   * not searched again.
   */
  function RemoveAll(s: string, pat: string): (r: string)
    requires pat != ""
    ensures |r| <= |s|
    decreases |s|
  {
    if |s| < |pat| then s
    else if s[..|pat|] == pat then RemoveAll(s[|pat|..], pat)
    else [s[0]] + RemoveAll(s[1..], pat)
  }

  /** A string without the pattern is left as it is. */
  lemma {:induction false} RemoveAllAbsent(s: string, pat: string)
    requires pat != "" && !Contains(s, pat)
    ensures RemoveAll(s, pat) == s
    decreases |s|
  {
    if |s| >= |pat| {
      assert !OccursAt(s, pat, 0);
      if Contains(s[1..], pat) {
        var i :| 0 <= i <= |s[1..]| && OccursAt(s[1..], pat, i);
        assert s[i + 1..i + 1 + |pat|] == s[1..][i..i + |pat|];
        assert OccursAt(s, pat, i + 1);
      }
      RemoveAllAbsent(s[1..], pat);
      assert [s[0]] + s[1..] == s;
    }
  }

  /** Removing a one-character pattern removes every occurrence of that character. */
  lemma {:induction false} RemoveAllChar(s: string, c: char)
    ensures c !in RemoveAll(s, [c])
    ensures forall d :: d != c ==> multiset(RemoveAll(s, [c]))[d] == multiset(s)[d]
    decreases |s|
  {
    if s != [] {
      RemoveAllChar(s[1..], c);
      assert s == [s[0]] + s[1..];
      assert s[..1] == [s[0]];
    }
  }

  /** `s.lstrip()`: leading whitespace removed. */
  function StripLeft(s: string): (r: string)
    ensures |r| <= |s| && r == s[|s| - |r|..]
    ensures r == [] || !IsSpace(r[0])
    ensures forall k :: 0 <= k < |s| - |r| ==> IsSpace(s[k])
  {
    if s != [] && IsSpace(s[0]) then StripLeft(s[1..]) else s
  }

  /** `s.rstrip()`: trailing whitespace removed. */
  function StripRight(s: string): (r: string)
    ensures |r| <= |s| && r == s[..|r|]
    ensures r == [] || !IsSpace(r[|r| - 1])
    ensures forall k :: |r| <= k < |s| ==> IsSpace(s[k])
  {
    if s != [] && IsSpace(s[|s| - 1]) then StripRight(s[..|s| - 1]) else s
  }

  /**
   * `r` is the stretch of `s` from index `i` on, and everything in `s`
   * before and after it is whitespace.
   */
  predicate Trimmed(s: string, r: string, i: int)
  {
    && 0 <= i <= |s| - |r| && r == s[i..i + |r|]
    && (forall k :: 0 <= k < i ==> IsSpace(s[k]))
    && (forall k :: i + |r| <= k < |s| ==> IsSpace(s[k]))
  }

  /** `s.strip()`: a stretch of `s` that neither starts nor ends with whitespace. */
  function Strip(s: string): (r: string)
    ensures exists i :: 0 <= i <= |s| && Trimmed(s, r, i)
    ensures r == [] || (!IsSpace(r[0]) && !IsSpace(r[|r| - 1]))
  {
    var l := StripLeft(s);
    var r := StripRight(l);
    StripTrimmed(s, l, r);
    r
  }

  /** Stripping the left, then the right, leaves a stretch with whitespace around it. */
  lemma StripTrimmed(s: string, l: string, r: string)
    requires |l| <= |s| && l == s[|s| - |l|..] && forall k :: 0 <= k < |s| - |l| ==> IsSpace(s[k])
    requires |r| <= |l| && r == l[..|r|] && forall k :: |r| <= k < |l| ==> IsSpace(l[k])
    ensures Trimmed(s, r, |s| - |l|)
  {
    var i := |s| - |l|;
    assert r == s[i..i + |r|];
    forall k | i + |r| <= k < |s| ensures IsSpace(s[k]) {
      assert s[k] == l[k - i];
    }
  }
}
