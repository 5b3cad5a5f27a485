/**
 * String operations the scaffold code relies on: Rust's `str::contains`,
 * `str::replace` and `str::trim`, with the facts about them that the entry-file
 * patcher needs (what a replacement can and cannot create or destroy).
 */
module Text {

  /** `sub` occurs in `s` starting at index `i`. */
  predicate OccursAt(s: string, sub: string, i: int)
  {
    0 <= i && i + |sub| <= |s| && s[i..i + |sub|] == sub
  }

  /** `sub` occurs somewhere in `s`. */
  ghost predicate HasOcc(s: string, sub: string)
  {
    exists i :: OccursAt(s, sub, i)
  }

  /** `s` begins with `w`. */
  predicate StartsWith(s: string, w: string)
  {
    |w| <= |s| && s[..|w|] == w
  }

  /** `a` and `b` disagree at some index both have, so neither is a prefix of the other. */
  ghost predicate Clash(a: string, b: string)
  {
    exists j :: 0 <= j < |a| && j < |b| && a[j] != b[j]
  }

  /**
   * No occurrence of `l` can overlap an occurrence of `p`: every suffix of one
   * clashes with the whole of the other.
   */
  ghost predicate NoOverlap(l: string, p: string)
  {
    && (forall d :: 0 <= d < |p| ==> Clash(p[d..], l))
    && (forall e :: 0 <= e < |l| ==> Clash(l[e..], p))
  }

  /** Rust's `s.contains(sub)`: a naive left-to-right substring search. */
  function Contains(s: string, sub: string): bool
    decreases |s|
  {
    |sub| <= |s| && (s[..|sub|] == sub || Contains(s[1..], sub))
  }

  /** Occurrences in a suffix are occurrences in the whole string, shifted. */
  lemma OccursShift(s: string, k: nat, sub: string, i: int)
    requires k <= |s| && 0 <= i
    ensures OccursAt(s[k..], sub, i) <==> OccursAt(s, sub, k + i)
  {
    if 0 <= i && i + |sub| <= |s| - k {
      assert s[k..][i..i + |sub|] == s[k + i..k + i + |sub|];
    }
  }

  /** When `sub` does not start `s`, it occurs in `s` exactly when it occurs in `s[1..]`. */
  lemma HasOccTail(s: string, sub: string)
    requires |s| > 0 && !OccursAt(s, sub, 0)
    ensures HasOcc(s, sub) <==> HasOcc(s[1..], sub)
  {
    if HasOcc(s[1..], sub) {
      var i :| OccursAt(s[1..], sub, i);
      OccursShift(s, 1, sub, i);
    }
    if HasOcc(s, sub) {
      var i :| OccursAt(s, sub, i);
      assert i != 0;
      OccursShift(s, 1, sub, i - 1);
    }
  }

  /** The executable search agrees with the definition of an occurrence. */
  lemma {:induction false} ContainsIff(s: string, sub: string)
    ensures Contains(s, sub) <==> HasOcc(s, sub)
    decreases |s|
  {
    if |sub| <= |s| {
      if s[..|sub|] == sub {
        assert OccursAt(s, sub, 0);
      } else {
        ContainsIff(s[1..], sub);
        HasOccTail(s, sub);
      }
    }
  }

  /** An occurrence in one part of a concatenation is an occurrence in the whole. */
  lemma OccursInConcat(a: string, b: string, sub: string)
    ensures HasOcc(a, sub) ==> HasOcc(a + b, sub)
    ensures HasOcc(b, sub) ==> HasOcc(a + b, sub)
  {
    if HasOcc(a, sub) {
      var i :| OccursAt(a, sub, i);
      assert (a + b)[i..i + |sub|] == a[i..i + |sub|];
      assert OccursAt(a + b, sub, i);
    }
    if HasOcc(b, sub) {
      var i :| OccursAt(b, sub, i);
      assert (a + b)[|a| + i..|a| + i + |sub|] == b[i..i + |sub|];
      assert OccursAt(a + b, sub, |a| + i);
    }
  }

  /** A string occurs in itself. */
  lemma OccursInSelf(s: string)
    ensures HasOcc(s, s)
  {
    assert OccursAt(s, s, 0);
  }

  /** A string occurs in any string built around it. */
  lemma OccursBetween(a: string, m: string, b: string)
    ensures HasOcc(a + m + b, m)
  {
    assert (a + m + b)[|a|..|a| + |m|] == m;
    assert OccursAt(a + m + b, m, |a|);
  }

  /** An occurrence of an occurrence is an occurrence. */
  lemma OccursTrans(a: string, b: string, x: string)
    requires HasOcc(a, b) && HasOcc(b, x)
    ensures HasOcc(a, x)
  {
    var i :| OccursAt(a, b, i);
    var j :| OccursAt(b, x, j);
    forall m | 0 <= m < |x| ensures a[i + j + m] == x[m] {
      assert a[i..i + |b|][j + m] == b[j + m];
      assert b[j..j + |x|][m] == x[m];
    }
    assert a[i + j..i + j + |x|] == x;
    assert OccursAt(a, x, i + j);
  }

  /** A string lacking one of the characters of `q` cannot contain `q`. */
  lemma MissingChar(s: string, q: string, k: nat)
    requires k < |q|
    requires forall j :: 0 <= j < |s| ==> s[j] != q[k]
    ensures !HasOcc(s, q)
  {
    forall i ensures !OccursAt(s, q, i) {
      if 0 <= i && i + |q| <= |s| {
        assert s[i..i + |q|][k] == s[i + k] != q[k];
      }
    }
  }

  /**
   * Appending a string that contains no occurrence of `q` and starts with a
   * character foreign to `q` creates no occurrence of `q`.
   */
  lemma AppendLeavesNo(a: string, b: string, q: string)
    requires !HasOcc(a, q) && !HasOcc(b, q)
    requires |b| > 0 && forall j :: 0 <= j < |q| ==> q[j] != b[0]
    ensures !HasOcc(a + b, q)
  {
    forall i ensures !OccursAt(a + b, q, i) {
      if 0 <= i && i + |q| <= |a| {
        assert (a + b)[i..i + |q|] == a[i..i + |q|];
        assert !OccursAt(a, q, i);
      } else if i >= |a| {
        OccursShift(a + b, |a|, q, i - |a|);
        assert (a + b)[|a|..] == b;
        assert !OccursAt(b, q, i - |a|);
      } else if 0 <= i < |a| < i + |q| <= |a + b| {
        assert (a + b)[i..i + |q|][|a| - i] == (a + b)[|a|] == b[0] != q[|a| - i];
      }
    }
  }

  /** A string that clashes with `w` cannot be extended to one that begins with `w`. */
  lemma ClashNotPrefix(a: string, x: string, w: string)
    requires Clash(a, w)
    ensures !StartsWith(a + x, w)
  {
    var j :| 0 <= j < |a| && j < |w| && a[j] != w[j];
    assert (a + x)[j] == a[j];
  }

  /** No string begins with two strings that clash. */
  lemma NoCommonStart(s: string, a: string, b: string)
    requires Clash(a, b)
    ensures !(StartsWith(s, a) && StartsWith(s, b))
  {
    var j :| 0 <= j < |a| && j < |b| && a[j] != b[j];
    if StartsWith(s, a) {
      assert s[j] == a[j];
    }
  }

  /**
   * Rust's `s.replace(p, r)`: every occurrence of `p` found scanning left to
   * right, without overlaps, is replaced by `r`. The source only passes
   * non-empty literal patterns.
   */
  function ReplaceAll(s: string, p: string, r: string): string
    requires |p| > 0
    decreases |s|
  {
    if |s| < |p| then s
    else if s[..|p|] == p then r + ReplaceAll(s[|p|..], p, r)
    else [s[0]] + ReplaceAll(s[1..], p, r)
  }

  /** Without an occurrence of the pattern, replacing changes nothing. */
  lemma {:induction false} ReplaceAbsent(s: string, p: string, r: string)
    requires |p| > 0
    requires !HasOcc(s, p)
    ensures ReplaceAll(s, p, r) == s
    decreases |s|
  {
    if |s| >= |p| {
      assert !OccursAt(s, p, 0);
      HasOccTail(s, p);
      ReplaceAbsent(s[1..], p, r);
    }
  }

  /** Where the pattern occurs, the replacement text appears in the result. */
  lemma {:induction false} ReplaceIntroduces(s: string, p: string, r: string)
    requires |p| > 0
    requires HasOcc(s, p)
    ensures HasOcc(ReplaceAll(s, p, r), r)
    decreases |s|
  {
    if s[..|p|] == p {
      OccursInSelf(r);
      OccursInConcat(r, ReplaceAll(s[|p|..], p, r), r);
    } else {
      HasOccTail(s, p);
      ReplaceIntroduces(s[1..], p, r);
      OccursInConcat([s[0]], ReplaceAll(s[1..], p, r), r);
    }
  }

  /** Every suffix of `w` clashes with `r`. */
  ghost predicate ClashesWithSuffixes(r: string, w: string)
  {
    forall k :: 0 <= k < |w| ==> Clash(r, w[k..])
  }

  /** The suffixes of a suffix are suffixes. */
  lemma ClashesWithTail(r: string, w: string, k: nat)
    requires k <= |w|
    requires ClashesWithSuffixes(r, w)
    ensures ClashesWithSuffixes(r, w[k..])
  {
    forall j | 0 <= j < |w[k..]| ensures Clash(r, w[k..][j..]) {
      assert w[k..][j..] == w[k + j..];
    }
  }

  /**
   * If the result of a replacement begins with `w`, and the replacement text
   * clashes with every suffix of `w`, then the input began with `w` too, and
   * `w` cannot contain the pattern (had it, the pattern would have been
   * replaced there).
   */
  lemma {:induction false} ReplacePrefixBack(t: string, p: string, r: string, w: string)
    requires |p| > 0
    requires ClashesWithSuffixes(r, w)
    ensures StartsWith(ReplaceAll(t, p, r), w) ==> StartsWith(t, w) && !HasOcc(w, p)
    decreases |t|
  {
    if |w| == 0 || |t| < |p| {
      // `w` is then no longer than `t`, itself shorter than the pattern
    } else if t[..|p|] == p {
      assert w[0..] == w;
      ClashNotPrefix(r, ReplaceAll(t[|p|..], p, r), w);
    } else {
      var o := ReplaceAll(t[1..], p, r);
      assert ReplaceAll(t, p, r) == [t[0]] + o;
      ClashesWithTail(r, w, 1);
      ReplacePrefixBack(t[1..], p, r, w[1..]);
      if StartsWith([t[0]] + o, w) {
        assert o[..|w| - 1] == ([t[0]] + o)[1..|w|];
        assert t[..|w|] == [t[0]] + t[1..][..|w| - 1];
        assert !OccursAt(w, p, 0) by {
          if |p| <= |w| {
            assert w[..|p|] == t[..|p|];
          }
        }
        HasOccTail(w, p);
      }
    }
  }

  /** A suffix of `s` lacks `q` when `s` does. */
  lemma SuffixLacks(s: string, k: nat, q: string)
    requires k <= |s|
    requires !HasOcc(s, q)
    ensures !HasOcc(s[k..], q)
  {
    forall i | 0 <= i ensures !OccursAt(s[k..], q, i) {
      OccursShift(s, k, q, i);
    }
  }

  /**
   * The conditions under which inserting `r` in place of `p` cannot create an
   * occurrence of `q`: `r` does not contain `q`, clashes with every proper
   * suffix of `q`, and wherever an end of `r` could begin `q`, the rest of `q`
   * would contain the pattern (which the replacement never leaves in place).
   */
  ghost predicate CannotCreate(p: string, r: string, q: string)
  {
    && |q| > 0
    && !HasOcc(r, q)
    && ClashesWithSuffixes(r, q[1..])
    && (forall k :: 0 < k < |q| && k <= |r| && r[|r| - k..] == q[..k] ==> HasOcc(q[k..], p))
  }

  /** An occurrence of `q` straddling the end of `r` splits into a suffix of `r` and a prefix of `o`. */
  lemma StraddleParts(r: string, o: string, q: string, i: int)
    requires 0 <= i < |r| < i + |q|
    requires OccursAt(r + o, q, i)
    ensures r[i..] == q[..|r| - i] && StartsWith(o, q[|r| - i..])
  {
    assert r[i..] == (r + o)[i..|r|];
    assert o[..i + |q| - |r|] == (r + o)[|r|..i + |q|];
  }

  /** Inserting `r` before a replaced remainder does not create `q`. */
  lemma AfterReplacement(t: string, p: string, r: string, q: string)
    requires |p| > 0
    requires CannotCreate(p, r, q)
    requires !HasOcc(ReplaceAll(t, p, r), q)
    ensures !HasOcc(r + ReplaceAll(t, p, r), q)
  {
    var o := ReplaceAll(t, p, r);
    forall i ensures !OccursAt(r + o, q, i) {
      if i >= |r| {
        OccursShift(r + o, |r|, q, i - |r|);
        assert (r + o)[|r|..] == o;
      } else if i + |q| <= |r| {
        assert OccursAt(r + o, q, i) ==> OccursAt(r, q, i) by {
          if i >= 0 {
            assert (r + o)[i..i + |q|] == r[i..i + |q|];
          }
        }
      } else if i >= 0 {
        var k := |r| - i;
        ClashesWithTail(r, q[1..], k - 1);
        assert q[1..][k - 1..] == q[k..];
        ReplacePrefixBack(t, p, r, q[k..]);
        if OccursAt(r + o, q, i) {
          StraddleParts(r, o, q, i);
        }
      }
    }
  }

  /** Keeping one character before a replaced remainder does not create `q`. */
  lemma AfterChar(s: string, p: string, r: string, q: string)
    requires |p| > 0 && |s| > 0
    requires CannotCreate(p, r, q)
    requires !StartsWith(s, q)
    requires !HasOcc(ReplaceAll(s[1..], p, r), q)
    ensures !HasOcc([s[0]] + ReplaceAll(s[1..], p, r), q)
  {
    var o := ReplaceAll(s[1..], p, r);
    forall i ensures !OccursAt([s[0]] + o, q, i) {
      if i >= 1 {
        OccursShift([s[0]] + o, 1, q, i - 1);
        assert ([s[0]] + o)[1..] == o;
      } else if i == 0 && |q| > 0 {
        ReplacePrefixBack(s[1..], p, r, q[1..]);
      }
    }
  }

  /**
   * A replacement leaves no occurrence of `q` behind when `q` is the pattern
   * itself or is absent from the input, and the replacement cannot create it.
   */
  lemma {:induction false} ReplaceLeavesNo(s: string, p: string, r: string, q: string)
    requires |p| > 0
    requires q == p || !HasOcc(s, q)
    requires CannotCreate(p, r, q)
    ensures !HasOcc(ReplaceAll(s, p, r), q)
    decreases |s|
  {
    if |s| < |p| {
      // the result is `s`, shorter than `p`
    } else if s[..|p|] == p {
      if q != p {
        SuffixLacks(s, |p|, q);
      }
      ReplaceLeavesNo(s[|p|..], p, r, q);
      AfterReplacement(s[|p|..], p, r, q);
    } else {
      if q != p {
        SuffixLacks(s, 1, q);
        assert !OccursAt(s, q, 0);
      }
      ReplaceLeavesNo(s[1..], p, r, q);
      AfterChar(s, p, r, q);
    }
  }

  /** A prefix that no pattern occurrence can overlap survives a replacement. */
  lemma {:induction false} ReplaceKeepsPrefix(s: string, p: string, r: string, w: string)
    requires |p| > 0
    requires StartsWith(s, w)
    requires forall e :: 0 <= e < |w| ==> Clash(w[e..], p)
    ensures StartsWith(ReplaceAll(s, p, r), w)
    decreases |s|
  {
    if |w| > 0 && |s| >= |p| {
      var j :| 0 <= j < |w[0..]| && j < |p| && w[0..][j] != p[j];
      assert s[..|p|] != p by { assert s[j] == w[j]; }
      forall e | 0 <= e < |w[1..]| ensures Clash(w[1..][e..], p) {
        assert w[1..][e..] == w[e + 1..];
      }
      ReplaceKeepsPrefix(s[1..], p, r, w[1..]);
      var o := ReplaceAll(s[1..], p, r);
      assert ReplaceAll(s, p, r) == [s[0]] + o;
      assert ([s[0]] + o)[..|w|] == [s[0]] + o[..|w| - 1];
    }
  }

  /** An occurrence of `l` cannot start inside an occurrence of `p` at the front of `s` when the two cannot overlap. */
  lemma NotInsidePattern(s: string, p: string, l: string, i: int)
    requires NoOverlap(l, p)
    ensures 0 <= i < |p| <= |s| && s[..|p|] == p ==> !OccursAt(s, l, i)
  {
    if 0 <= i < |p| <= |s| {
      NoCommonStart(s[i..], p[i..], l);
      assert s[..|p|] == p ==> StartsWith(s[i..], p[i..]) by {
        if s[..|p|] == p {
          assert s[i..][..|p| - i] == p[i..];
        }
      }
      assert OccursAt(s, l, i) ==> StartsWith(s[i..], l) by {
        if OccursAt(s, l, i) {
          assert s[i..][..|l|] == s[i..i + |l|];
        }
      }
    }
  }

  /** An occurrence of `l` that no pattern occurrence can overlap survives a replacement. */
  lemma {:induction false} ReplaceKeeps(s: string, p: string, r: string, l: string, i: int)
    requires |p| > 0
    requires OccursAt(s, l, i)
    requires NoOverlap(l, p)
    ensures HasOcc(ReplaceAll(s, p, r), l)
    decreases |s|
  {
    if |s| < |p| {
      assert OccursAt(ReplaceAll(s, p, r), l, i);
    } else if s[..|p|] == p {
      NotInsidePattern(s, p, l, i);
      OccursShift(s, |p|, l, i - |p|);
      ReplaceKeeps(s[|p|..], p, r, l, i - |p|);
      OccursInConcat(r, ReplaceAll(s[|p|..], p, r), l);
    } else if i >= 1 {
      OccursShift(s, 1, l, i - 1);
      ReplaceKeeps(s[1..], p, r, l, i - 1);
      OccursInConcat([s[0]], ReplaceAll(s[1..], p, r), l);
    } else {
      ReplaceKeepsPrefix(s, p, r, l);
      assert OccursAt(ReplaceAll(s, p, r), l, 0);
    }
  }

  /** The whitespace Rust's `trim` removes (ASCII subset). */
  predicate IsSpace(c: char)
  {
    c == ' ' || c == '\t' || c == '\n' || c == '\r' || c == '\U{000B}' || c == '\U{000C}'
  }

  /** The first position at or after `i` that is not whitespace, or the end of `s`. */
  function SpanStart(s: string, i: nat): (a: nat)
    requires i <= |s|
    ensures i <= a <= |s|
    ensures forall k :: i <= k < a ==> IsSpace(s[k])
    ensures a < |s| ==> !IsSpace(s[a])
    decreases |s| - i
  {
    if i < |s| && IsSpace(s[i]) then SpanStart(s, i + 1) else i
  }

  /** The position after the last character before `j` and from `a` on that is not whitespace, or `a`. */
  function SpanEnd(s: string, a: nat, j: nat): (b: nat)
    requires a <= j <= |s|
    ensures a <= b <= j
    ensures forall k :: b <= k < j ==> IsSpace(s[k])
    ensures a < b ==> !IsSpace(s[b - 1])
    decreases j
  {
    if a < j && IsSpace(s[j - 1]) then SpanEnd(s, a, j - 1) else j
  }

  /** Rust's `str::trim`: the string without leading and trailing whitespace. */
  function Trim(s: string): string
  {
    var a := SpanStart(s, 0);
    s[a..SpanEnd(s, a, |s|)]
  }

  /** Trimming keeps a contiguous middle part: whitespace only around it, none at its ends. */
  lemma TrimIsMiddle(s: string)
    ensures var a := SpanStart(s, 0); var b := SpanEnd(s, a, |s|);
      && Trim(s) == s[a..b]
      && (forall k :: 0 <= k < a ==> IsSpace(s[k]))
      && (forall k :: b <= k < |s| ==> IsSpace(s[k]))
      && (Trim(s) != [] ==> !IsSpace(Trim(s)[0]) && !IsSpace(Trim(s)[|Trim(s)| - 1]))
  {
    var a := SpanStart(s, 0);
    var b := SpanEnd(s, a, |s|);
    var r := s[a..b];
    if r != [] {
      assert r[0] == s[a] && r[|r| - 1] == s[b - 1];
    }
  }

  /** The trimmed string is empty exactly when the string is whitespace only. */
  lemma TrimEmptyIff(s: string)
    ensures Trim(s) == [] <==> forall k :: 0 <= k < |s| ==> IsSpace(s[k])
  {
    var a := SpanStart(s, 0);
    var b := SpanEnd(s, a, |s|);
    assert |Trim(s)| == b - a;
    if Trim(s) == [] {
      forall k | 0 <= k < |s| ensures IsSpace(s[k]) {
        if k >= a {
          assert b <= k;
        }
      }
    }
  }

  /** Trimming twice trims nothing more. */
  lemma TrimIdempotent(s: string)
    ensures Trim(Trim(s)) == Trim(s)
  {
    var r := Trim(s);
    TrimIsMiddle(s);
    assert SpanStart(r, 0) == 0;
    assert SpanEnd(r, 0, |r|) == |r|;
    assert r[0..|r|] == r;
  }
}
