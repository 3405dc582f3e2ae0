/** The handful of Python string operations the handler relies on:
    `str.split(sep)` with a one-character separator, `sep.join(parts)`,
    `str.replace(old, "")`, `str.lower()` and `str.endswith(suffix)`. */
module Text {

  /** `s.split(sep)`: the maximal runs between separators, always at least
      one (possibly empty) part, none of which holds the separator. */
  function Split(s: string, sep: char): (parts: seq<string>)
    ensures |parts| >= 1
    ensures |parts| == 1 <==> sep !in s
    ensures forall k :: 0 <= k < |parts| ==> sep !in parts[k]
    ensures forall k, c :: 0 <= k < |parts| && c in parts[k] ==> c in s
    decreases |s|
  {
    if |s| == 0 then [""]
    else
      var rest := Split(s[1..], sep);
      assert forall c :: c in s[1..] ==> c in s;
      if s[0] == sep then [""] + rest
      else [[s[0]] + rest[0]] + rest[1..]
  }

  /** The first part is the text up to the first separator; when there is
      one, the remaining parts are the split of the text after it. */
  lemma {:induction false} SplitHead(s: string, sep: char)
    ensures var parts := Split(s, sep);
      && |parts[0]| <= |s| && s[..|parts[0]|] == parts[0]
      && (|parts| == 1 <==> |parts[0]| == |s|)
      && (|parts| > 1 ==> s[|parts[0]|] == sep && Split(s[|parts[0]| + 1..], sep) == parts[1..])
    decreases |s|
  {
    if |s| > 0 {
      var parts := Split(s, sep);
      var rest := Split(s[1..], sep);
      SplitHead(s[1..], sep);
      if s[0] == sep {
        assert parts == [""] + rest;
        assert parts[1..] == rest;
      } else {
        var n := |rest[0]|;
        assert parts == [[s[0]] + rest[0]] + rest[1..];
        assert parts[0] == [s[0]] + rest[0] && parts[1..] == rest[1..];
        TakeCons(s, n);
        if |rest| > 1 {
          assert s[1..][n + 1..] == s[n + 2..];
        }
      }
    }
  }

  /** A prefix of non-empty text is its first character and a prefix of
      the rest. */
  lemma TakeCons(s: string, n: nat)
    requires n < |s|
    ensures s[..n + 1] == [s[0]] + s[1..][..n]
  {
    assert s[..n + 1] == [s[0]] + s[1..][..n];
  }

  /** Text that splits into exactly two parts is the first, the separator
      and the second. */
  lemma SplitPair(s: string, sep: char)
    requires |Split(s, sep)| == 2
    ensures var parts := Split(s, sep);
      s == parts[0] + [sep] + parts[1]
  {
    var parts := Split(s, sep);
    SplitHead(s, sep);
    var rest := s[|parts[0]| + 1..];
    SplitHead(rest, sep);
    assert s == s[..|parts[0]|] + [s[|parts[0]|]] + rest;
  }

  /** With at least two parts, the text begins with the first part, the
      separator and the second part, followed by the end or another
      separator. */
  lemma SplitFirstTwo(s: string, sep: char)
    requires |Split(s, sep)| >= 2
    ensures var parts := Split(s, sep);
      var n := |parts[0]| + 1 + |parts[1]|;
      && n <= |s| && s[..n] == parts[0] + [sep] + parts[1]
      && (n < |s| ==> s[n] == sep)
  {
    var parts := Split(s, sep);
    SplitHead(s, sep);
    var rest := s[|parts[0]| + 1..];
    SplitHead(rest, sep);
    var n := |parts[0]| + 1 + |parts[1]|;
    PrefixAcross(s, |parts[0]|, |parts[1]|);
    if n < |s| {
      assert s[n] == rest[|parts[1]|];
    }
  }

  /** A prefix reaching past position `i` is the text before `i`, the
      character at `i`, and a prefix of the text after it. */
  lemma PrefixAcross(s: string, i: nat, j: nat)
    requires i + 1 + j <= |s|
    ensures s[..i + 1 + j] == s[..i] + [s[i]] + s[i + 1..][..j]
  {
    var lhs := s[..i + 1 + j];
    var rhs := s[..i] + [s[i]] + s[i + 1..][..j];
    assert |lhs| == |rhs|;
    forall k | 0 <= k < |lhs| ensures lhs[k] == rhs[k] {
      if k > i {
        assert rhs[k] == s[i + 1..][..j][k - i - 1];
      }
    }
  }

  /** Splitting on `a` and then the second part on `b`: the text begins
      with the first part, `a`, and the first two parts of the second
      joined by `b`, followed by the end, an `a` or a `b`. */
  lemma SplitNested(s: string, a: char, b: char)
    requires |Split(s, a)| >= 2 && |Split(Split(s, a)[1], b)| >= 2
    ensures var p := Split(s, a);
      var q := Split(p[1], b);
      var t := p[0] + [a] + (q[0] + [b] + q[1]);
      && |t| <= |s| && s[..|t|] == t
      && (|t| < |s| ==> s[|t|] == a || s[|t|] == b)
  {
    var p := Split(s, a);
    SplitFirstTwo(s, a);
    SplitFirstTwo(p[1], b);
    var q := Split(p[1], b);
    NestedPrefix(s, p[0], a, p[1], q[0], b, q[1]);
  }

  /** `s` begins with `x`, `a`, `y` and then the end or `a`; `y` begins with
      `u`, `b`, `v` and then the end or `b`. So `s` begins with `x`, `a`,
      `u`, `b`, `v` and then the end, `a` or `b`. */
  lemma NestedPrefix(s: string, x: string, a: char, y: string, u: string, b: char, v: string)
    requires |x| + 1 + |y| <= |s| && s[..|x| + 1 + |y|] == x + [a] + y
    requires |x| + 1 + |y| < |s| ==> s[|x| + 1 + |y|] == a
    requires |u| + 1 + |v| <= |y| && y[..|u| + 1 + |v|] == u + [b] + v
    requires |u| + 1 + |v| < |y| ==> y[|u| + 1 + |v|] == b
    ensures var t := x + [a] + (u + [b] + v);
      && |t| <= |s| && s[..|t|] == t
      && (|t| < |s| ==> s[|t|] == a || s[|t|] == b)
  {
    var inner := u + [b] + v;
    var m := |x| + 1;
    var t := x + [a] + inner;
    TakeTake(s, m + |y|, |t|);
    TakeAppend(x + [a], y, |inner|);
    if |t| < |s| && |inner| < |y| {
      var pre := s[..m + |y|];
      assert s[|t|] == pre[|t|];
      assert pre[|t|] == y[|inner|];
    }
  }

  /** A prefix of a prefix. */
  lemma TakeTake(s: string, i: nat, j: nat)
    requires j <= i <= |s|
    ensures s[..i][..j] == s[..j]
  {
  }

  /** A prefix reaching into the second of two texts. */
  lemma TakeAppend(x: string, y: string, k: nat)
    requires k <= |y|
    ensures (x + y)[..|x| + k] == x + y[..k]
  {
    assert (x + y)[..|x| + k] == x + y[..k];
  }

  /** Regrouping text around two separators. */
  lemma Regroup(a: string, s1: char, b: string, s2: char, d: string)
    ensures (a + [s1] + b) + [s2] + d == a + [s1] + (b + [s2] + d)
  {
  }

  /** `sep.join(parts)`. */
  function Join(parts: seq<string>, sep: char): string
    decreases |parts|
  {
    if |parts| == 0 then ""
    else if |parts| == 1 then parts[0]
    else parts[0] + [sep] + Join(parts[1..], sep)
  }

  /** Joining with a separator undoes splitting on it: `sep.join(s.split(sep)) == s`. */
  lemma {:induction false} JoinSplit(s: string, sep: char)
    ensures Join(Split(s, sep), sep) == s
    decreases |s|
  {
    if |s| > 0 {
      var rest := Split(s[1..], sep);
      JoinSplit(s[1..], sep);
      if s[0] == sep {
        JoinCons("", rest, sep);
      } else {
        JoinExtendHead(s[0], rest, sep);
      }
      assert s == [s[0]] + s[1..];
    }
  }

  /** Prefixing the first part prefixes the joined text. */
  lemma JoinExtendHead(c: char, parts: seq<string>, sep: char)
    requires |parts| >= 1
    ensures Join([[c] + parts[0]] + parts[1..], sep) == [c] + Join(parts, sep)
  {
    var ext := [[c] + parts[0]] + parts[1..];
    if |parts| > 1 {
      assert ext[1..] == parts[1..];
    }
  }

  /** Splitting text without the separator yields the text itself. */
  lemma {:induction false} SplitWithoutSep(s: string, sep: char)
    requires sep !in s
    ensures Split(s, sep) == [s]
    decreases |s|
  {
    if |s| > 0 {
      SplitWithoutSep(s[1..], sep);
      assert s == [s[0]] + s[1..];
    }
  }

  /** A separator after a separator-free head starts the next part:
      `(a + sep + b).split(sep) == [a] + b.split(sep)`. */
  lemma {:induction false} SplitAfterHead(a: string, sep: char, b: string)
    requires sep !in a
    ensures Split(a + [sep] + b, sep) == [a] + Split(b, sep)
    decreases |a|
  {
    if |a| == 0 {
      assert a + [sep] + b == [sep] + b;
      assert ([sep] + b)[1..] == b;
    } else {
      var s := a + [sep] + b;
      assert s[0] == a[0] && s[1..] == a[1..] + [sep] + b;
      SplitAfterHead(a[1..], sep, b);
      var rest := Split(s[1..], sep);
      assert rest[0] == a[1..] && rest[1..] == Split(b, sep);
      assert [a[0]] + rest[0] == a;
    }
  }

  /** `sep.join([first] + rest)` puts one separator after `first`. */
  lemma JoinCons(first: string, rest: seq<string>, sep: char)
    requires |rest| >= 1
    ensures Join([first] + rest, sep) == first + [sep] + Join(rest, sep)
  {
    assert ([first] + rest)[1..] == rest;
  }

  /** `pat` occurs in `s` starting at index `i`. */
  predicate OccursAt(s: string, pat: string, i: int)
  {
    0 <= i && i + |pat| <= |s| && s[i..i + |pat|] == pat
  }

  /** `s.replace(pat, "")`: scanning left to right, every non-overlapping
      occurrence of `pat` is dropped. */
  function RemoveAll(s: string, pat: string): (r: string)
    requires |pat| > 0
    ensures |r| <= |s|
    decreases |s|
  {
    if |s| == 0 then ""
    else if pat <= s then RemoveAll(s[|pat|..], pat)
    else [s[0]] + RemoveAll(s[1..], pat)
  }

  /** Replacing a pattern that does not occur leaves the text unchanged. */
  lemma {:induction false} RemoveAllAbsent(s: string, pat: string)
    requires |pat| > 0
    requires forall i :: !OccursAt(s, pat, i)
    ensures RemoveAll(s, pat) == s
    decreases |s|
  {
    if |s| > 0 {
      assert !OccursAt(s, pat, 0);
      forall i ensures !OccursAt(s[1..], pat, i) {
        if OccursAt(s[1..], pat, i) {
          assert s[1..][i..i + |pat|] == s[i + 1..i + 1 + |pat|];
          assert OccursAt(s, pat, i + 1);
        }
      }
      RemoveAllAbsent(s[1..], pat);
      assert s == [s[0]] + s[1..];
    }
  }

  /** A leading occurrence is dropped: `(pat + t).replace(pat, "")` is
      `t.replace(pat, "")`. */
  lemma RemoveAllLeading(pat: string, t: string)
    requires |pat| > 0
    ensures RemoveAll(pat + t, pat) == RemoveAll(t, pat)
  {
    assert pat <= pat + t;
    assert (pat + t)[|pat|..] == t;
  }

  /** The ASCII part of `str.lower()`. */
  function LowerChar(c: char): char
  {
    if 'A' <= c <= 'Z' then (c as int + 32) as char else c
  }

  /** `s.lower()`, character by character. */
  function Lower(s: string): (r: string)
    ensures |r| == |s|
    ensures forall k {:trigger r[k]} :: 0 <= k < |s| ==> r[k] == LowerChar(s[k]) && !('A' <= r[k] <= 'Z')
    decreases |s|
  {
    if |s| == 0 then "" else [LowerChar(s[0])] + Lower(s[1..])
  }

  /** Lowering is idempotent: a lowered name lowers to itself. */
  lemma LowerIdempotent(s: string)
    ensures Lower(Lower(s)) == Lower(s)
  {
    var once := Lower(s);
    assert forall k :: 0 <= k < |s| ==> Lower(once)[k] == once[k];
  }

  /** `s.endswith(suffix)`. */
  predicate EndsWith(s: string, suffix: string)
  {
    |suffix| <= |s| && s[|s| - |suffix|..] == suffix
  }
}
