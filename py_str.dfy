/** The few Python `str` operations the response normaliser relies on:
    `find`, `split`, `join`, `replace`, ASCII `lower` and slicing `[:n]`. */
module PyStr {

  predicate StartsWith(s: string, p: string) {
    |p| <= |s| && s[..|p|] == p
  }

  lemma StartsWithConcat(a: string, b: string)
    ensures StartsWith(a + b, a)
  {
    assert (a + b)[..|a|] == a;
  }

  /** A string that differs from `p` at some index of `p` does not start with `p`. */
  lemma DiffersAt(s: string, p: string, k: int)
    requires 0 <= k < |p| && k < |s| && s[k] != p[k]
    ensures !StartsWith(s, p)
  {
    if |p| <= |s| {
      assert s[..|p|][k] == s[k];
    }
  }

  /** `b` occurs in `a + b + c` right after `a`. */
  lemma OccursInConcat(a: string, b: string, c: string)
    ensures OccursAt(a + b + c, b, |a|)
  {
    assert (a + b + c)[|a|..|a| + |b|] == b;
  }

  /** `p` occurs in `s` starting at index `i`. */
  predicate OccursAt(s: string, p: string, i: int) {
    0 <= i && i + |p| <= |s| && s[i..i + |p|] == p
  }

  lemma OccursAtShift(s: string, p: string, j: int)
    requires s != [] && 0 <= j
    ensures OccursAt(s, p, j + 1) <==> OccursAt(s[1..], p, j)
  {
    if j + 1 + |p| <= |s| {
      assert s[j + 1..j + 1 + |p|] == s[1..][j..j + |p|];
    }
  }

  /** Python's `s.find(p)`: the lowest index at which `p` occurs in `s`, or -1. */
  function Find(s: string, p: string): (r: int)
    ensures -1 <= r <= |s|
    ensures r >= 0 ==> OccursAt(s, p, r) && forall j :: 0 <= j < r ==> !OccursAt(s, p, j)
    ensures r < 0 ==> forall j :: 0 <= j <= |s| ==> !OccursAt(s, p, j)
    decreases |s|
  {
    if StartsWith(s, p) then
      assert s[0..|p|] == s[..|p|];
      0
    else if s == [] then
      -1
    else
      var k := Find(s[1..], p);
      assert !OccursAt(s, p, 0) by {
        if |p| <= |s| { assert s[0..|p|] == s[..|p|]; }
      }
      if k < 0 then
        assert forall j :: 1 <= j <= |s| ==> !OccursAt(s, p, j) by {
          forall j | 1 <= j <= |s| ensures !OccursAt(s, p, j) { OccursAtShift(s, p, j - 1); }
        }
        -1
      else
        assert OccursAt(s, p, k + 1) by { OccursAtShift(s, p, k); }
        assert forall j :: 1 <= j <= k ==> !OccursAt(s, p, j) by {
          forall j | 1 <= j <= k ensures !OccursAt(s, p, j) { OccursAtShift(s, p, j - 1); }
        }
        k + 1
  }

  /** Python's `s.split(p)` for a non-empty separator: scanning from the left,
      each occurrence of `p` ends a piece and scanning resumes after it. */
  function Split(s: string, p: string): (parts: seq<string>)
    requires p != []
    ensures |parts| >= 1
    decreases |s|
  {
    if s == [] then [[]]
    else if StartsWith(s, p) then [[]] + Split(s[|p|..], p)
    else
      var r := Split(s[1..], p);
      [[s[0]] + r[0]] + r[1..]
  }

  /** Python's `sep.join(parts)`. */
  function Join(parts: seq<string>, sep: string): string {
    if parts == [] then []
    else if |parts| == 1 then parts[0]
    else parts[0] + sep + Join(parts[1..], sep)
  }

  /** Python's `s.replace(pat, rep)` for a non-empty `pat`: scanning from the
      left, each occurrence of `pat` is replaced and scanning resumes after it. */
  function Replace(s: string, pat: string, rep: string): string
    requires pat != []
    decreases |s|
  {
    if s == [] then []
    else if StartsWith(s, pat) then rep + Replace(s[|pat|..], pat, rep)
    else [s[0]] + Replace(s[1..], pat, rep)
  }

  lemma JoinCons(a: string, tail: seq<string>, sep: string)
    requires tail != []
    ensures Join([a] + tail, sep) == a + sep + Join(tail, sep)
  {
    assert ([a] + tail)[1..] == tail;
  }

  lemma JoinConsHead(c: char, parts: seq<string>, sep: string)
    requires parts != []
    ensures Join([[c] + parts[0]] + parts[1..], sep) == [c] + Join(parts, sep)
  {
    var q := [[c] + parts[0]] + parts[1..];
    if |parts| > 1 {
      assert q[1..] == parts[1..];
    }
  }

  /** Joining the pieces of a split with the separator gives back the string. */
  lemma {:induction false} SplitJoinRoundTrip(s: string, p: string)
    requires p != []
    ensures Join(Split(s, p), p) == s
    decreases |s|
  {
    if s == [] {
    } else if StartsWith(s, p) {
      var rest := s[|p|..];
      SplitJoinRoundTrip(rest, p);
      assert Split(s, p) == [[]] + Split(rest, p);
      JoinCons([], Split(rest, p), p);
      assert s == p + rest;
    } else {
      var t := s[1..];
      SplitJoinRoundTrip(t, p);
      var r := Split(t, p);
      assert Split(s, p) == [[s[0]] + r[0]] + r[1..];
      JoinConsHead(s[0], r, p);
      assert s == [s[0]] + t;
    }
  }

  /** The first piece of a split is a prefix of the string. */
  lemma {:induction false} SplitFirstIsPrefix(s: string, p: string)
    requires p != []
    ensures StartsWith(s, Split(s, p)[0])
    decreases |s|
  {
    if s != [] && !StartsWith(s, p) {
      var t := s[1..];
      SplitFirstIsPrefix(t, p);
      var q := Split(t, p)[0];
      assert s[..|q| + 1] == [s[0]] + t[..|q|];
    }
  }

  /** A character the separator does not start at, put before a prefix of the
      tail that does not contain the separator, gives a piece without it. */
  lemma ConsPieceFree(s: string, p: string, q: string)
    requires p != [] && s != [] && !StartsWith(s, p)
    requires StartsWith(s[1..], q) && forall j :: !OccursAt(q, p, j)
    ensures forall j :: !OccursAt([s[0]] + q, p, j)
  {
    var first := [s[0]] + q;
    assert s[..|first|] == first;
    if |p| <= |first| {
      assert first[..|p|] == s[..|p|];
    }
    assert first[1..] == q;
    forall j | j > 0 ensures !OccursAt(first, p, j) {
      OccursAtShift(first, p, j - 1);
    }
  }

  /** No piece of a split contains the separator. */
  lemma {:induction false} SplitPiecesFree(s: string, p: string)
    requires p != []
    ensures forall k, j :: 0 <= k < |Split(s, p)| ==> !OccursAt(Split(s, p)[k], p, j)
    decreases |s|
  {
    if s == [] {
    } else if StartsWith(s, p) {
      var rest := s[|p|..];
      SplitPiecesFree(rest, p);
      var parts := Split(s, p);
      forall k, j | 0 <= k < |parts| ensures !OccursAt(parts[k], p, j) {
        if k > 0 {
          assert parts[k] == Split(rest, p)[k - 1];
        }
      }
    } else {
      var t := s[1..];
      SplitPiecesFree(t, p);
      SplitFirstIsPrefix(t, p);
      var r := Split(t, p);
      ConsPieceFree(s, p, r[0]);
      var parts := Split(s, p);
      assert parts == [[s[0]] + r[0]] + r[1..];
      forall k, j | 0 <= k < |parts| ensures !OccursAt(parts[k], p, j) {
        if k > 0 {
          assert parts[k] == r[k];
        }
      }
    }
  }

  /** `replace` is `join` of `split`: Python's identity
      `s.replace(pat, rep) == rep.join(s.split(pat))`. */
  lemma {:induction false} ReplaceIsSplitJoin(s: string, pat: string, rep: string)
    requires pat != []
    ensures Replace(s, pat, rep) == Join(Split(s, pat), rep)
    decreases |s|
  {
    if s == [] {
    } else if StartsWith(s, pat) {
      var rest := s[|pat|..];
      ReplaceIsSplitJoin(rest, pat, rep);
      JoinCons([], Split(rest, pat), rep);
    } else {
      var t := s[1..];
      ReplaceIsSplitJoin(t, pat, rep);
      JoinConsHead(s[0], Split(t, pat), rep);
    }
  }

  /** `replace` keeps a first character at which the pattern does not occur. */
  lemma ReplaceCons(c: char, t: string, pat: string, rep: string)
    requires pat != [] && !StartsWith([c] + t, pat)
    ensures Replace([c] + t, pat, rep) == [c] + Replace(t, pat, rep)
  {
    assert ([c] + t)[1..] == t;
  }

  /** `replace` keeps three leading characters at none of which the pattern occurs. */
  lemma ReplaceCons3(a: char, b: char, c: char, x: string, pat: string, rep: string)
    requires pat != []
    requires !StartsWith([c] + x, pat) && !StartsWith([b] + ([c] + x), pat) && !StartsWith([a] + ([b] + ([c] + x)), pat)
    ensures Replace([a, b, c] + x, pat, rep) == [a, b, c] + Replace(x, pat, rep)
  {
    ReplaceCons(c, x, pat, rep);
    ReplaceCons(b, [c] + x, pat, rep);
    ReplaceCons(a, [b] + ([c] + x), pat, rep);
    assert [a, b, c] + x == [a] + ([b] + ([c] + x));
    var r := Replace(x, pat, rep);
    assert [a, b, c] + r == [a] + ([b] + ([c] + r));
  }

  /** A string none of whose characters is the first character of `pat` is left unchanged by `replace`. */
  lemma {:induction false} ReplaceWithoutFirstChar(s: string, pat: string, rep: string)
    requires pat != []
    requires forall i :: 0 <= i < |s| ==> s[i] != pat[0]
    ensures Replace(s, pat, rep) == s
    decreases |s|
  {
    if s != [] {
      ReplaceWithoutFirstChar(s[1..], pat, rep);
      assert [s[0]] + s[1..] == s;
    }
  }

  /** A string shorter than `pat` is left unchanged by `replace`. */
  lemma {:induction false} ReplaceShorter(s: string, pat: string, rep: string)
    requires pat != [] && |s| < |pat|
    ensures Replace(s, pat, rep) == s
    decreases |s|
  {
    if s != [] {
      ReplaceShorter(s[1..], pat, rep);
      assert [s[0]] + s[1..] == s;
    }
  }

  predicate IsUpperAscii(c: char) {
    'A' <= c <= 'Z'
  }

  predicate NoUpperAscii(s: string) {
    forall i :: 0 <= i < |s| ==> !IsUpperAscii(s[i])
  }

  function LowerChar(c: char): (d: char)
    ensures !IsUpperAscii(d)
    ensures !IsUpperAscii(c) ==> d == c
  {
    if IsUpperAscii(c) then (c as int + 32) as char else c
  }

  /** Python's `s.lower()`, on the ASCII letters. */
  function LowerAscii(s: string): (r: string)
    ensures |r| == |s|
    ensures forall i :: 0 <= i < |s| ==> r[i] == LowerChar(s[i])
    ensures NoUpperAscii(r)
  {
    if s == [] then [] else [LowerChar(s[0])] + LowerAscii(s[1..])
  }

  lemma LowerAsciiIdentity(s: string)
    requires NoUpperAscii(s)
    ensures LowerAscii(s) == s
  {
  }

  /** `lower()` is determined character by character. */
  lemma LowerOf(s: string, r: string)
    requires |s| == |r| && forall i :: 0 <= i < |s| ==> LowerChar(s[i]) == r[i]
    ensures LowerAscii(s) == r
  {
  }

  /** Python's `s[:n]` for `n >= 0`. */
  function Truncate(s: string, n: nat): (r: string)
    ensures |r| == (if |s| <= n then |s| else n) && StartsWith(s, r)
    ensures |s| <= n ==> r == s
  {
    if |s| <= n then s else s[..n]
  }
}
