/**
 * The string operations behind the URI templater: `uri.replace(new RegExp(pat), rep)`
 * with a pattern free of regular-expression metacharacters replaces the FIRST
 * occurrence of `pat` in `uri` by `rep`, and leaves `uri` alone when `pat` does
 * not occur.
 */
module Text {
  import opened Values

  /** `t` occurs in `s` starting at position `j`. */
  predicate OccursAt(s: string, t: string, j: int)
  {
    0 <= j && j + |t| <= |s| && s[j..j + |t|] == t
  }

  predicate Occurs(s: string, t: string)
  {
    exists j | 0 <= j <= |s| :: OccursAt(s, t, j)
  }

  /** The position of the first occurrence of `t` in `s`, if any. */
  function IndexOf(s: string, t: string): (r: Option<nat>)
    ensures r.Some? ==> r.value + |t| <= |s|
    decreases |s|
  {
    if |t| > |s| then None
    else if s[..|t|] == t then Some(0)
    else
      match IndexOf(s[1..], t)
      case None => None
      case Some(i) => Some(i + 1)
  }

  /** `IndexOf` finds the first occurrence, and finds nothing only when there is none. */
  lemma {:induction false} IndexOfFirst(s: string, t: string)
    ensures IndexOf(s, t).Some? ==> OccursAt(s, t, IndexOf(s, t).value)
    ensures IndexOf(s, t).Some? ==> forall j :: 0 <= j < IndexOf(s, t).value ==> !OccursAt(s, t, j)
    ensures IndexOf(s, t).None? ==> forall j :: !OccursAt(s, t, j)
    decreases |s|
  {
    if |t| > |s| {
    } else if s[..|t|] == t {
      assert s[0..|t|] == s[..|t|];
    } else {
      assert !OccursAt(s, t, 0) by {
        assert s[0..|t|] == s[..|t|];
      }
      IndexOfFirst(s[1..], t);
      match IndexOf(s[1..], t)
      case None =>
        forall j ensures !OccursAt(s, t, j) {
          if j >= 1 {
            ShiftAt(s, t, j);
          }
        }
      case Some(i) =>
        ShiftAt(s, t, i + 1);
        forall j | 0 <= j < i + 1 ensures !OccursAt(s, t, j) {
          if j >= 1 {
            ShiftAt(s, t, j);
          }
        }
    }
  }

  /** An occurrence in `s[1..]` is an occurrence in `s` one position later. */
  lemma ShiftAt(s: string, t: string, j: int)
    requires |s| >= 1 && j >= 1
    ensures OccursAt(s, t, j) <==> OccursAt(s[1..], t, j - 1)
  {
    if j + |t| <= |s| {
      assert s[1..][j - 1..j - 1 + |t|] == s[j..j + |t|];
    }
  }

  /** `s.replace(pat, rep)` for a literal pattern: only the first occurrence is replaced. */
  function ReplaceFirst(s: string, pat: string, rep: string): string
  {
    match IndexOf(s, pat)
    case None => s
    case Some(i) => s[..i] + rep + s[i + |pat|..]
  }

  /**
   * The replacement leaves the string as it was exactly when the pattern does
   * not occur, or when the replacement text is the pattern itself.
   */
  lemma ReplaceFirstUnchanged(s: string, pat: string, rep: string)
    ensures ReplaceFirst(s, pat, rep) == s <==> !Occurs(s, pat) || rep == pat
  {
    IndexOfFirst(s, pat);
    match IndexOf(s, pat)
    case None =>
    case Some(i) =>
      var r := s[..i] + rep + s[i + |pat|..];
      assert s == s[..i] + pat + s[i + |pat|..];
      if r == s {
        assert |rep| == |pat|;
        assert rep == r[i..i + |rep|];
      }
  }

  /** When the pattern occurs, the result holds `rep` where the first occurrence was. */
  lemma ReplaceFirstAt(s: string, pat: string, rep: string)
    requires Occurs(s, pat)
    ensures IndexOf(s, pat).Some?
    ensures var i := IndexOf(s, pat).value;
      var r := ReplaceFirst(s, pat, rep);
      |r| == |s| - |pat| + |rep| && r[..i] == s[..i] && r[i..i + |rep|] == rep
      && r[i + |rep|..] == s[i + |pat|..]
  {
    IndexOfFirst(s, pat);
  }

  /** No two adjacent characters of `s` are `c0` followed by `c1`. */
  predicate Avoids(s: string, c0: char, c1: char)
  {
    forall j :: 0 <= j < |s| - 1 ==> s[j] != c0 || s[j + 1] != c1
  }

  /** The pair is avoided by a concatenation when each part avoids it and the seam does not form it. */
  lemma AvoidsConcat(x: string, y: string, c0: char, c1: char)
    requires Avoids(x, c0, c1) && Avoids(y, c0, c1)
    requires |x| > 0 && |y| > 0 ==> x[|x| - 1] != c0 || y[0] != c1
    ensures Avoids(x + y, c0, c1)
  {
    var s := x + y;
    forall j | 0 <= j < |s| - 1 ensures s[j] != c0 || s[j + 1] != c1 {
      if j + 1 < |x| {
        assert s[j] == x[j] && s[j + 1] == x[j + 1];
      } else if j >= |x| {
        assert s[j] == y[j - |x|] && s[j + 1] == y[j + 1 - |x|];
      }
    }
  }

  /** A text that avoids the first two characters of `t` does not contain `t`. */
  lemma AbsentWhenAvoided(s: string, t: string)
    requires |t| >= 2 && Avoids(s, t[0], t[1])
    ensures !Occurs(s, t)
  {
    forall j ensures !OccursAt(s, t, j) {
      if 0 <= j && j + |t| <= |s| {
        assert s[j..j + |t|][0] == s[j] && s[j..j + |t|][1] == s[j + 1];
      }
    }
  }

  /**
   * When `a` avoids the first two characters of `t` (and these differ), the
   * first occurrence of `t` in `a + t + b` is the one right after `a`, and
   * replacing it yields `a + rep + b`.
   */
  lemma FirstAfter(a: string, t: string, b: string, rep: string)
    requires |t| >= 2 && t[0] != t[1] && Avoids(a, t[0], t[1])
    ensures IndexOf(a + t + b, t) == Some(|a|)
    ensures ReplaceFirst(a + t + b, t, rep) == a + rep + b
  {
    var s := a + t + b;
    IndexOfFirst(s, t);
    assert s[|a|..|a| + |t|] == t;
    forall j | 0 <= j < |a| ensures !OccursAt(s, t, j) {
      if j + |t| <= |s| {
        var w := s[j..j + |t|];
        assert w[0] == s[j] && w[1] == s[j + 1];
        if j + 1 < |a| {
          assert s[j] == a[j] && s[j + 1] == a[j + 1];
        } else {
          assert s[j + 1] == t[0];
        }
      }
    }
    assert OccursAt(s, t, |a|);
    assert s[..|a|] == a && s[|a| + |t|..] == b;
  }
}
