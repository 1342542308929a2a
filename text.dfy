/**
 * String helpers with the semantics of the JavaScript string methods the
 * generators use (ASCII case mapping only).
 */
module Text {

  predicate IsAsciiUpper(c: char) { 'A' <= c <= 'Z' }
  predicate IsAsciiLower(c: char) { 'a' <= c <= 'z' }
  predicate IsDigit(c: char) { '0' <= c <= '9' }

  /** The regular-expression class `\w`: `[A-Za-z0-9_]`. */
  predicate IsWordChar(c: char) { IsAsciiUpper(c) || IsAsciiLower(c) || IsDigit(c) || c == '_' }

  function LowerChar(c: char): char
  {
    if IsAsciiUpper(c) then (c as int + 32) as char else c
  }

  function UpperChar(c: char): char
  {
    if IsAsciiLower(c) then (c as int - 32) as char else c
  }

  /** `toLowerCase()` restricted to ASCII letters. */
  function Lower(s: string): (r: string)
    ensures |r| == |s|
    ensures forall i :: 0 <= i < |s| ==> r[i] == LowerChar(s[i])
  {
    seq(|s|, i requires 0 <= i < |s| => LowerChar(s[i]))
  }

  /** `toUpperCase()` restricted to ASCII letters. */
  function Upper(s: string): (r: string)
    ensures |r| == |s|
    ensures forall i :: 0 <= i < |s| ==> r[i] == UpperChar(s[i])
  {
    seq(|s|, i requires 0 <= i < |s| => UpperChar(s[i]))
  }

  /** `s.charAt(0).toUpperCase() + s.slice(1)`. */
  function Capitalize(s: string): (r: string)
    ensures |r| == |s|
    ensures r != "" ==> r[0] == UpperChar(s[0]) && !IsAsciiLower(r[0]) && r[1..] == s[1..]
  {
    if s == "" then "" else [UpperChar(s[0])] + s[1..]
  }

  predicate StartsWith(s: string, p: string) { |p| <= |s| && s[..|p|] == p }

  predicate EndsWith(s: string, p: string) { |p| <= |s| && s[|s| - |p|..] == p }

  /** `p` occurs in `s` at position `i`. */
  predicate OccursAt(s: string, p: string, i: int)
  {
    0 <= i && i + |p| <= |s| && s[i..i + |p|] == p
  }

  /** `s.includes(p)`. */
  predicate Contains(s: string, p: string)
  {
    exists i :: 0 <= i <= |s| - |p| && OccursAt(s, p, i)
  }

  /** `s.indexOf(p, from)`: the first occurrence at or after `from`, or -1. */
  function IndexFrom(s: string, p: string, from: nat): (r: int)
    requires from <= |s|
    ensures r == -1 || (from <= r && OccursAt(s, p, r))
    ensures r == -1 ==> forall k :: from <= k <= |s| - |p| ==> !OccursAt(s, p, k)
    ensures r != -1 ==> forall k :: from <= k < r ==> !OccursAt(s, p, k)
    decreases |s| - from
  {
    if from + |p| > |s| then -1
    else if s[from..from + |p|] == p then from
    else if from == |s| then -1
    else IndexFrom(s, p, from + 1)
  }

  /** `s.indexOf(p)`. */
  function IndexOf(s: string, p: string): (r: int)
    ensures r == -1 <==> !Contains(s, p)
    ensures r != -1 ==> OccursAt(s, p, r) && forall k :: 0 <= k < r ==> !OccursAt(s, p, k)
  {
    IndexFrom(s, p, 0)
  }

  /** `s.replace(p, rep)` with a string pattern: only the first occurrence is replaced. */
  function ReplaceFirst(s: string, p: string, rep: string): string
  {
    var i := IndexOf(s, p);
    if i < 0 then s else s[..i] + rep + s[i + |p|..]
  }

  /** Only the first occurrence is replaced; without one nothing changes. */
  lemma ReplaceFirstSpec(s: string, p: string, rep: string)
    ensures !Contains(s, p) ==> ReplaceFirst(s, p, rep) == s
    ensures Contains(s, p) ==>
      exists i :: (0 <= i <= |s| - |p| && OccursAt(s, p, i)
        && (forall k :: 0 <= k < i ==> !OccursAt(s, p, k)) && ReplaceFirst(s, p, rep) == s[..i] + rep + s[i + |p|..])
  {
    var i := IndexOf(s, p);
    if i >= 0 {
      assert 0 <= i <= |s| - |p| && OccursAt(s, p, i);
    }
  }

  /** The pieces of `s.split(c)` for a one-character separator. */
  function Split(s: string, c: char): (r: seq<string>)
    ensures |r| >= 1
    ensures forall k :: 0 <= k < |r| ==> c !in r[k]
    decreases |s|
  {
    if c !in s then [s]
    else
      var i := FirstIndex(s, c);
      [s[..i]] + Split(s[i + 1..], c)
  }

  /** Index of the first `c` in `s`. */
  function FirstIndex(s: string, c: char): (i: nat)
    requires c in s
    ensures i < |s| && s[i] == c && c !in s[..i]
  {
    if s[0] == c then 0 else 1 + FirstIndex(s[1..], c)
  }

  /** `xs.join(sep)`. */
  function Join(xs: seq<string>, sep: string): string
  {
    if xs == [] then "" else if |xs| == 1 then xs[0] else xs[0] + sep + Join(xs[1..], sep)
  }

  /** The text after the last `/`: `s.split('/').pop()`. */
  function LastSegment(s: string): (r: string)
    ensures '/' !in r
    decreases |s|
  {
    if '/' !in s then s
    else
      var i := FirstIndex(s, '/');
      LastSegment(s[i + 1..])
  }

  /** The last segment of `a/b` is `b` when `b` has no slash. */
  lemma {:induction false} LastSegmentAfter(a: string, b: string)
    requires '/' !in b
    ensures LastSegment(a + "/" + b) == b
    decreases |a|
  {
    var s := a + "/" + b;
    assert s[|a|] == '/';
    if '/' !in a {
      FirstIndexAfterFree(a, '/', b);
      assert s[|a| + 1..] == b;
    } else {
      var i := FirstIndex(a, '/');
      FirstIndexIn(a, "/" + b, '/');
      assert s == a + ("/" + b);
      assert s[i + 1..] == a[i + 1..] + "/" + b;
      LastSegmentAfter(a[i + 1..], b);
    }
  }

  /** The last segment is the last piece of `s.split('/')`. */
  lemma {:induction false} LastSegmentSplit(s: string)
    ensures var parts := Split(s, '/'); LastSegment(s) == parts[|parts| - 1]
    decreases |s|
  {
    if '/' in s {
      var i := FirstIndex(s, '/');
      LastSegmentSplit(s[i + 1..]);
      assert Split(s, '/') == [s[..i]] + Split(s[i + 1..], '/');
    }
  }

  /** The last segment ends `s`, right after a `/` when `s` has one. */
  lemma {:induction false} LastSegmentSuffix(s: string)
    ensures var r := LastSegment(s);
      EndsWith(s, r) && ('/' in s ==> |r| < |s| && s[|s| - |r| - 1] == '/')
    decreases |s|
  {
    if '/' in s {
      var i := FirstIndex(s, '/');
      var t := s[i + 1..];
      LastSegmentSuffix(t);
      var r := LastSegment(t);
      var k := |t| - |r|;
      assert |s| - |r| == i + 1 + k;
      assert s[i + 1 + k..] == t[k..];
      if '/' in t {
        assert s[i + k] == t[k - 1];
      } else {
        assert k == 0;
      }
    }
  }

  /** The first `c` of `a + b` is the first of `a` when `a` has one. */
  lemma {:induction false} FirstIndexIn(a: string, b: string, c: char)
    requires c in a
    ensures c in a + b && FirstIndex(a + b, c) == FirstIndex(a, c)
  {
    assert (a + b)[FirstIndex(a, c)] == c;
    if a[0] != c {
      assert (a + b)[1..] == a[1..] + b;
      FirstIndexIn(a[1..], b, c);
    }
  }

  /** A pattern longer than the text never occurs in it. */
  lemma NotContainsLonger(s: string, p: string)
    requires |p| > |s|
    ensures !Contains(s, p)
  {
  }

  /** `s.substring(0, n)`. */
  function Take(s: string, n: nat): (r: string)
    ensures |r| <= n && StartsWith(s, r)
    ensures |s| <= n ==> r == s
    ensures |s| > n ==> |r| == n
  {
    if |s| <= n then s else s[..n]
  }

  /** `s.repeat(n)`. */
  function Repeat(s: string, n: nat): (r: string)
    ensures |r| == n * |s|
  {
    if n == 0 then "" else s + Repeat(s, n - 1)
  }

  /** The characters of `s` other than `c`: `s.replace(/c/g, '')`. */
  function RemoveChar(s: string, c: char): (r: string)
    ensures c !in r
    ensures |r| <= |s|
    ensures c !in s ==> r == s
  {
    if s == "" then "" else (if s[0] == c then "" else [s[0]]) + RemoveChar(s[1..], c)
  }

  /** One character is kept exactly when it is not `c`. */
  lemma RemoveCharOne(x: char, c: char)
    ensures RemoveChar([x], c) == if x == c then "" else [x]
  {
    assert [x][1..] == "";
  }

  /** Removing `c` distributes over concatenation, so the other characters stay, in order. */
  lemma {:induction false} RemoveCharAppend(a: string, b: string, c: char)
    ensures RemoveChar(a + b, c) == RemoveChar(a, c) + RemoveChar(b, c)
  {
    if a == "" {
      assert a + b == b;
    } else {
      assert (a + b)[0] == a[0];
      assert (a + b)[1..] == a[1..] + b;
      RemoveCharAppend(a[1..], b, c);
    }
  }

  /** The number a string of decimal digits denotes. */
  function DigitsValue(s: string): nat
  {
    if s == [] then 0
    else
      var c := s[|s| - 1];
      DigitsValue(s[..|s| - 1]) * 10 + (if IsDigit(c) then c as int - '0' as int else 0)
  }

  /**
   * Decimal text of a natural number: digits only, without a leading zero
   * unless it is `0` itself, denoting `n`.
   */
  function NatToString(n: nat): (r: string)
    ensures |r| >= 1 && forall k :: 0 <= k < |r| ==> IsDigit(r[k])
    ensures r[0] == '0' ==> r == "0"
    ensures DigitsValue(r) == n
  {
    var d := ['0' + (n % 10) as char];
    if n < 10 then d
    else
      var r := NatToString(n / 10) + d;
      assert r[..|r| - 1] == NatToString(n / 10);
      r
  }

  /** Different numbers have different decimal texts. */
  lemma NatToStringInjective(m: nat, n: nat)
    requires NatToString(m) == NatToString(n)
    ensures m == n
  {
    assert DigitsValue(NatToString(m)) == m;
  }

  /** JavaScript's decimal text of an integer. */
  function IntToString(n: int): string
  {
    if n < 0 then "-" + NatToString(-n) else NatToString(n)
  }

  /** The concatenation of a sequence of sequences (`flatMap` / `flat()`). */
  function Concat<T>(ss: seq<seq<T>>): seq<T>
  {
    if ss == [] then [] else ss[0] + Concat(ss[1..])
  }

  lemma {:induction false} ConcatAppend<T>(ss: seq<seq<T>>, tt: seq<seq<T>>)
    ensures Concat(ss + tt) == Concat(ss) + Concat(tt)
  {
    if ss != [] {
      assert (ss + tt)[1..] == ss[1..] + tt;
      ConcatAppend(ss[1..], tt);
    } else {
      assert ss + tt == tt;
    }
  }

  /** Every element of a concatenation comes from one of its parts. */
  lemma {:induction false} ConcatMember<T>(ss: seq<seq<T>>, x: T)
    requires x in Concat(ss)
    ensures exists k, m :: 0 <= k < |ss| && 0 <= m < |ss[k]| && ss[k][m] == x
  {
    if x in ss[0] {
      var m :| 0 <= m < |ss[0]| && ss[0][m] == x;
      assert ss[0][m] == x;
    } else {
      ConcatMember(ss[1..], x);
      var k, m :| 0 <= k < |ss[1..]| && 0 <= m < |ss[1..][k]| && ss[1..][k][m] == x;
      assert ss[k + 1][m] == x;
    }
  }

  // ---------------------------------------------------------------- lemmas

  lemma {:induction false} JoinSplit(s: string, c: char)
    ensures Join(Split(s, c), [c]) == s
    decreases |s|
  {
    if c in s {
      var i := FirstIndex(s, c);
      var rest := Split(s[i + 1..], c);
      var xs := [s[..i]] + rest;
      assert Split(s, c) == xs;
      assert xs[1..] == rest;
      assert Join(xs, [c]) == s[..i] + [c] + Join(rest, [c]);
      JoinSplit(s[i + 1..], c);
      assert s == s[..i] + [c] + s[i + 1..];
    }
  }

  /** Splitting a join of separator-free pieces gives the pieces back. */
  lemma {:induction false} SplitJoin(xs: seq<string>, c: char)
    requires |xs| >= 1
    requires forall k :: 0 <= k < |xs| ==> c !in xs[k]
    ensures Split(Join(xs, [c]), c) == xs
  {
    if |xs| == 1 {
    } else {
      var rest := Join(xs[1..], [c]);
      var s := xs[0] + [c] + rest;
      assert c in s by { assert s[|xs[0]|] == c; }
      FirstIndexAfterFree(xs[0], c, rest);
      var i := FirstIndex(s, c);
      assert s[..i] == xs[0];
      assert s[i + 1..] == rest;
      SplitJoin(xs[1..], c);
    }
  }

  lemma FirstIndexAfterFree(a: string, c: char, b: string)
    requires c !in a
    ensures c in a + [c] + b && FirstIndex(a + [c] + b, c) == |a|
  {
    var s := a + [c] + b;
    assert s[|a|] == c;
    assert s[..|a|] == a;
  }

  lemma {:induction false} JoinAppend(xs: seq<string>, x: string, sep: string)
    requires xs != []
    ensures Join(xs + [x], sep) == Join(xs, sep) + sep + x
  {
    if |xs| == 1 {
      assert xs + [x] == [xs[0], x];
    } else {
      assert (xs + [x])[1..] == xs[1..] + [x];
      JoinAppend(xs[1..], x, sep);
    }
  }

  lemma {:induction false} JoinConcat(xs: seq<string>, ys: seq<string>, sep: string)
    requires xs != [] && ys != []
    ensures Join(xs + ys, sep) == Join(xs, sep) + sep + Join(ys, sep)
  {
    if |xs| == 1 {
      assert (xs + ys)[1..] == ys;
    } else {
      assert (xs + ys)[1..] == xs[1..] + ys;
      JoinConcat(xs[1..], ys, sep);
    }
  }

  /** A string `p` that occurs at position `i` of `a` also occurs in every extension of `a`. */
  lemma OccursInContext(a: string, p: string, b: string, i: int)
    requires OccursAt(a, p, i)
    ensures OccursAt(b + a, p, |b| + i) && Contains(b + a, p)
  {
    assert (b + a)[|b| + i..|b| + i + |p|] == a[i..i + |p|];
    assert OccursAt(b + a, p, |b| + i);
  }

  lemma OccursInPrefix(a: string, p: string, b: string, i: int)
    requires OccursAt(a, p, i)
    ensures OccursAt(a + b, p, i) && Contains(a + b, p)
  {
    assert (a + b)[i..i + |p|] == a[i..i + |p|];
    assert OccursAt(a + b, p, i);
  }

  /** An occurrence of `a + b` is an occurrence of `a` followed by one of `b`. */
  lemma OccursSplit(s: string, a: string, b: string, i: int)
    requires OccursAt(s, a + b, i)
    ensures OccursAt(s, a, i) && OccursAt(s, b, i + |a|)
  {
    assert s[i..i + |a|] == (a + b)[..|a|];
    assert s[i + |a|..i + |a| + |b|] == (a + b)[|a|..];
  }

  /** Text kept around an occurrence keeps the occurrence. */
  lemma ContainsWithin(a: string, p: string, b: string, c: string)
    requires Contains(a, p)
    ensures Contains(b + a + c, p)
  {
    var i :| 0 <= i <= |a| - |p| && OccursAt(a, p, i);
    OccursInPrefix(a, p, c, i);
    OccursInContext(a + c, p, b, i);
    assert b + (a + c) == b + a + c;
  }

  /** Appending keeps an occurrence. */
  lemma ContainsAppend(a: string, p: string, b: string)
    requires Contains(a, p)
    ensures Contains(a + b, p)
  {
    var i :| 0 <= i <= |a| - |p| && OccursAt(a, p, i);
    OccursInPrefix(a, p, b, i);
  }

  /** A text holds its own prefix. */
  lemma ContainsPrefix(a: string, b: string)
    ensures Contains(a + b, a)
  {
    assert (a + b)[0..|a|] == a;
    assert OccursAt(a + b, a, 0);
  }

  /** Three pieces after an occurrence keep it. */
  lemma ContainsAmong(a: string, p: string, b: string, c: string, d: string)
    requires Contains(a, p)
    ensures Contains(b + a + c + d, p)
  {
    ContainsWithin(a, p, b, c + d);
    assert b + a + (c + d) == b + a + c + d;
  }

  /**
   * Replacing the first `p` by a `q` that shares the prefix `key` with it
   * keeps an occurrence of `key`.
   */
  lemma ReplaceKeeps(s: string, p: string, q: string, key: string)
    requires StartsWith(p, key) && StartsWith(q, key) && Contains(s, key)
    ensures Contains(ReplaceFirst(s, p, q), key)
  {
    var i := IndexOf(s, p);
    if i >= 0 {
      assert OccursAt(q, key, 0) by {
        assert q[0..|key|] == q[..|key|];
      }
      ContainsWithin(q, key, s[..i], s[i + |p|..]);
    }
  }

  /** The last character of `p` occurs nowhere else in it. */
  predicate LastUnique(p: string)
  {
    |p| > 0 && forall j :: 0 <= j < |p| - 1 ==> p[j] != p[|p| - 1]
  }

  /**
   * A pattern whose last character occurs nowhere else in it does not occur
   * in `pre + p + post` before the `p` placed there, when `pre` does not hold it.
   */
  lemma NoEarlierOccurrence(pre: string, p: string, post: string, k: int)
    requires LastUnique(p)
    requires !Contains(pre, p) && 0 <= k < |pre|
    ensures !OccursAt(pre + p + post, p, k)
  {
    var s := pre + p + post;
    if k + |p| <= |pre| {
      assert s[k..k + |p|] == pre[k..k + |p|];
      assert !OccursAt(pre, p, k);
    } else if k + |p| <= |s| {
      var t := k + |p| - 1;
      assert s[t] == p[t - |pre|];
      assert s[k..k + |p|][|p| - 1] == s[t];
    }
  }

  /** Such a pattern is first found where it is placed. */
  lemma ReplaceFirstAt(pre: string, p: string, post: string, rep: string)
    requires LastUnique(p)
    requires !Contains(pre, p)
    ensures ReplaceFirst(pre + p + post, p, rep) == pre + rep + post
  {
    var s := pre + p + post;
    assert OccursAt(s, p, |pre|) by {
      assert s[|pre|..|pre| + |p|] == p;
    }
    forall k | 0 <= k < |pre|
      ensures !OccursAt(s, p, k)
    {
      NoEarlierOccurrence(pre, p, post, k);
    }
    var i := IndexOf(s, p);
    assert i == |pre|;
    assert s[..i] == pre;
    assert s[i + |p|..] == post;
  }
}
