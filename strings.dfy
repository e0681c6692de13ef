/** The few Python `str` operations the evaluator relies on: `lower()`, the
    substring test `pat in s`, `sep.join(xs)`, and a first-occurrence search. */
module Strings {
  import opened Wrappers

  /** `str.lower()` restricted to ASCII: only 'A'..'Z' change. */
  function LowerChar(c: char): (d: char)
    ensures 'A' <= c <= 'Z' ==> 'a' <= d <= 'z' && d as int - c as int == 32
    ensures !('A' <= c <= 'Z') ==> d == c
  {
    if 'A' <= c <= 'Z' then (c as int + 32) as char else c
  }

  function Lower(s: string): (r: string)
    ensures |r| == |s|
    ensures forall i :: 0 <= i < |s| ==> r[i] == LowerChar(s[i])
  {
    seq(|s|, i requires 0 <= i < |s| => LowerChar(s[i]))
  }

  /** `pat` occurs in `s` starting at index `i`. */
  ghost predicate OccursAt(s: string, pat: string, i: int)
  {
    0 <= i && i + |pat| <= |s| && s[i..i + |pat|] == pat
  }

  /** Python's `pat in s`: a left-to-right scan for the pattern. */
  predicate Contains(s: string, pat: string)
    decreases |s|
  {
    if |s| < |pat| then false
    else s[..|pat|] == pat || Contains(s[1..], pat)
  }

  /** The scan agrees with the existence of an occurrence, in both directions. */
  lemma {:induction false} ContainsIff(s: string, pat: string)
    ensures Contains(s, pat) <==> exists i :: OccursAt(s, pat, i)
    decreases |s|
  {
    if |s| < |pat| {
    } else if s[..|pat|] == pat {
      assert OccursAt(s, pat, 0);
    } else {
      ContainsIff(s[1..], pat);
      if Contains(s[1..], pat) {
        var i :| OccursAt(s[1..], pat, i);
        assert s[1..][i..i + |pat|] == s[i + 1..i + 1 + |pat|];
        assert OccursAt(s, pat, i + 1);
      }
      if exists i :: OccursAt(s, pat, i) {
        var i :| OccursAt(s, pat, i);
        assert i != 0;
        assert s[1..][i - 1..i - 1 + |pat|] == s[i..i + |pat|];
        assert OccursAt(s[1..], pat, i - 1);
      }
    }
  }

  /** Python's `sep.join(xs)`: the elements in order, `sep` between neighbours. */
  function Join(xs: seq<string>, sep: string): string
    decreases |xs|
  {
    if |xs| == 0 then ""
    else if |xs| == 1 then xs[0]
    else Join(xs[..|xs| - 1], sep) + sep + xs[|xs| - 1]
  }

  /** Where the `k`-th element starts in `Join(xs, sep)`. */
  ghost function Offset(xs: seq<string>, sep: string, k: nat): nat
    requires k <= |xs|
  {
    if k == 0 then 0 else Offset(xs, sep, k - 1) + |xs[k - 1]| + |sep|
  }

  lemma {:induction false} OffsetPrefix(xs: seq<string>, sep: string, n: nat, k: nat)
    requires k <= n <= |xs|
    ensures Offset(xs[..n], sep, k) == Offset(xs, sep, k)
  {
    if k > 0 {
      OffsetPrefix(xs, sep, n, k - 1);
    }
  }

  lemma {:induction false} JoinLength(xs: seq<string>, sep: string)
    requires |xs| > 0
    ensures |Join(xs, sep)| + |sep| == Offset(xs, sep, |xs|)
    decreases |xs|
  {
    if |xs| > 1 {
      JoinLength(xs[..|xs| - 1], sep);
      OffsetPrefix(xs, sep, |xs| - 1, |xs| - 1);
    }
  }

  /** The `k`-th element sits, unchanged, at its offset in the joined text. */
  lemma {:induction false} JoinElement(xs: seq<string>, sep: string, k: nat)
    requires k < |xs|
    ensures Offset(xs, sep, k) + |xs[k]| <= |Join(xs, sep)|
    ensures Join(xs, sep)[Offset(xs, sep, k)..Offset(xs, sep, k) + |xs[k]|] == xs[k]
    decreases |xs|
  {
    var n := |xs|;
    JoinLength(xs, sep);
    if n > 1 {
      var init := xs[..n - 1];
      var j, ji := Join(xs, sep), Join(init, sep);
      JoinLength(init, sep);
      OffsetPrefix(xs, sep, n - 1, k);
      OffsetPrefix(xs, sep, n - 1, n - 1);
      if k < n - 1 {
        JoinElement(init, sep, k);
        assert j[..|ji|] == ji;
      } else {
        assert j[|ji| + |sep|..] == xs[n - 1];
      }
    }
  }

  /** Between neighbouring elements lies exactly one `sep`. */
  lemma {:induction false} JoinSeparator(xs: seq<string>, sep: string, k: nat)
    requires k + 1 < |xs|
    ensures Offset(xs, sep, k) + |xs[k]| + |sep| <= |Join(xs, sep)|
    ensures Join(xs, sep)[Offset(xs, sep, k) + |xs[k]|..Offset(xs, sep, k + 1)] == sep
    decreases |xs|
  {
    var n := |xs|;
    var init := xs[..n - 1];
    var j, ji := Join(xs, sep), Join(init, sep);
    JoinLength(xs, sep);
    JoinLength(init, sep);
    OffsetPrefix(xs, sep, n - 1, k);
    OffsetPrefix(xs, sep, n - 1, k + 1);
    OffsetPrefix(xs, sep, n - 1, n - 1);
    if k + 1 < n - 1 {
      JoinSeparator(init, sep, k);
      assert j[..|ji|] == ji;
    } else {
      assert j[|ji|..|ji| + |sep|] == sep;
    }
  }

  /** Joining a one-element list gives that element, and the separator is
      never added before the first or after the last element. */
  lemma {:induction false} JoinAppend(xs: seq<string>, x: string, sep: string)
    ensures Join(xs + [x], sep) == if |xs| == 0 then x else Join(xs, sep) + sep + x
  {
    assert (xs + [x])[..|xs|] == xs;
  }

  /** Associativity of concatenation as a lemma of its own: proved apart from
      the recursive facts in scope where it is used, it stays cheap there. */
  lemma AppendAssociates(x: string, y: string, z: string)
    ensures x + (y + z) == x + y + z
  {
  }

  /** Joining two non-empty runs puts exactly one separator between them. */
  lemma {:induction false} JoinConcat(a: seq<string>, b: seq<string>, sep: string)
    requires |a| > 0 && |b| > 0
    ensures Join(a + b, sep) == Join(a, sep) + sep + Join(b, sep)
    decreases |b|
  {
    var n := |b|;
    if n == 1 {
      assert a + b == a + [b[0]];
      JoinAppend(a, b[0], sep);
    } else {
      var bi, last := b[..n - 1], b[n - 1];
      JoinConcat(a, bi, sep);
      assert a + b == (a + bi) + [last];
      assert b == bi + [last];
      JoinAppend(a + bi, last, sep);
      JoinAppend(bi, last, sep);
      var ja, jb := Join(a, sep), Join(bi, sep);
      assert Join(a + b, sep) == ((ja + sep) + jb) + (sep + last) by {
        AppendAssociates((ja + sep) + jb, sep, last);
      }
      assert Join(b, sep) == jb + (sep + last) by {
        AppendAssociates(jb, sep, last);
      }
      AppendAssociates(ja + sep, jb, sep + last);
    }
  }

  /** Index of the first `c` in `s`, if any. */
  function IndexOf(s: string, c: char): (r: Option<nat>)
    ensures r.None? ==> c !in s
    ensures r.Some? ==> r.value < |s| && s[r.value] == c && c !in s[..r.value]
    decreases |s|
  {
    if |s| == 0 then None
    else if s[0] == c then Some(0)
    else match IndexOf(s[1..], c)
      case None => None
      case Some(k) => Some(k + 1)
  }
}
