/**
 * The string operations the pipeline builds its file names with:
 * substring search (Python's `in` on strings, and `re.search` with a literal
 * pattern) and `str.replace`, which replaces every non-overlapping occurrence,
 * scanning from the left.
 */
module Text {

  /** `pat` occurs somewhere in `s`. */
  predicate Occurs(s: string, pat: string)
    requires |pat| > 0
    decreases |s|
  {
    |s| >= |pat| && (s[..|pat|] == pat || Occurs(s[1..], pat))
  }

  /** `pat` occurs in `s` starting at index `i`. */
  predicate MatchAt(s: string, pat: string, i: nat)
  {
    i + |pat| <= |s| && s[i..i + |pat|] == pat
  }

  /** Occurs agrees with the positional definition of a substring. */
  lemma {:induction false} OccursAt(s: string, pat: string)
    requires |pat| > 0
    ensures Occurs(s, pat) <==> exists i: nat :: MatchAt(s, pat, i)
    decreases |s|
  {
    if |s| >= |pat| {
      OccursAt(s[1..], pat);
      if s[..|pat|] == pat {
        assert MatchAt(s, pat, 0);
      } else if Occurs(s[1..], pat) {
        var i: nat :| MatchAt(s[1..], pat, i);
        assert s[i + 1..i + 1 + |pat|] == s[1..][i..i + |pat|];
        assert MatchAt(s, pat, i + 1);
      } else {
        forall i: nat | MatchAt(s, pat, i)
          ensures false
        {
          if i > 0 {
            assert i - 1 + |pat| <= |s[1..]|;
            assert s[1..][i - 1..i - 1 + |pat|] == s[i..i + |pat|];
            assert MatchAt(s[1..], pat, i - 1);
          }
        }
      }
    } else {
      forall i: nat | MatchAt(s, pat, i)
        ensures false
      {
      }
    }
  }

  /** Python's `s.replace(pat, rep)` for a non-empty `pat`. */
  function ReplaceAll(s: string, pat: string, rep: string): (r: string)
    requires |pat| > 0
    ensures !Occurs(s, pat) ==> r == s
    decreases |s|
  {
    if |s| < |pat| then s
    else if s[..|pat|] == pat then rep + ReplaceAll(s[|pat|..], pat, rep)
    else [s[0]] + ReplaceAll(s[1..], pat, rep)
  }

  /** What one character of `s` becomes when every `c` is replaced by `rep`. */
  function Code(x: char, c: char, rep: string): string
  {
    if x == c then rep else [x]
  }

  /** Character-wise substitution of `rep` for every `c`: an independent definition of replacing one character. */
  function Subst(s: string, c: char, rep: string): string
  {
    if s == [] then [] else Code(s[0], c, rep) + Subst(s[1..], c, rep)
  }

  /** Replacing a pattern that starts with a character `stem` lacks only touches the pattern at the end. */
  lemma {:induction false} ReplaceTail(stem: string, pat: string, rep: string)
    requires |pat| > 0 && pat[0] !in stem
    ensures ReplaceAll(stem + pat, pat, rep) == stem + rep
    decreases |stem|
  {
    var s := stem + pat;
    if stem == [] {
      assert s == pat;
      assert s[..|pat|] == pat && s[|pat|..] == [];
      assert ReplaceAll(s, pat, rep) == rep + ReplaceAll([], pat, rep);
    } else {
      assert s[..|pat|][0] == stem[0] != pat[0];
      assert s[1..] == stem[1..] + pat;
      ReplaceTail(stem[1..], pat, rep);
      assert ReplaceAll(s, pat, rep) == [s[0]] + ReplaceAll(s[1..], pat, rep);
      assert stem == [stem[0]] + stem[1..];
    }
  }

  /** A prefix that lacks the pattern's first character passes through a replacement untouched. */
  lemma {:induction false} ReplaceSkip(stem: string, t: string, pat: string, rep: string)
    requires |pat| > 0 && pat[0] !in stem
    ensures ReplaceAll(stem + t, pat, rep) == stem + ReplaceAll(t, pat, rep)
    decreases |stem|
  {
    var s := stem + t;
    if stem != [] {
      assert s[1..] == stem[1..] + t;
      ReplaceSkip(stem[1..], t, pat, rep);
      if |s| >= |pat| {
        assert s[..|pat|][0] == stem[0] != pat[0];
        assert ReplaceAll(s, pat, rep) == [s[0]] + ReplaceAll(s[1..], pat, rep);
      } else {
        assert ReplaceAll(t, pat, rep) == t;
      }
      assert stem == [stem[0]] + stem[1..];
    } else {
      assert s == t;
    }
  }

  /**
   * A decoy `d` that starts like the pattern but differs in its second
   * character is passed over, and only the pattern at the end is replaced.
   */
  lemma DecoyTail(d: string, x: string, pat: string, rep: string)
    requires 1 < |pat| && 1 < |d| && d[0] == pat[0] && d[1] != pat[1]
    requires pat[0] !in d[1..] && pat[0] !in x
    ensures ReplaceAll(d + x + pat, pat, rep) == d + x + rep
  {
    var s := d + x + pat;
    assert s[..|pat|][1] == d[1];
    assert s[1..] == d[1..] + x + pat;
    ReplaceTail(d[1..] + x, pat, rep);
    assert d + x + rep == [s[0]] + (d[1..] + x + rep);
  }

  /** The same behind a prefix that lacks the pattern's first character. */
  lemma ReplacePastDecoy(o: string, d: string, x: string, pat: string, rep: string)
    requires 1 < |pat| && 1 < |d| && d[0] == pat[0] && d[1] != pat[1]
    requires pat[0] !in o && pat[0] !in d[1..] && pat[0] !in x
    ensures ReplaceAll(o + d + x + pat, pat, rep) == o + d + x + rep
  {
    DecoyTail(d, x, pat, rep);
    assert o + d + x + pat == o + (d + x + pat);
    ReplaceSkip(o, d + x + pat, pat, rep);
  }

  /** Both of two occurrences of the pattern are replaced. */
  lemma ReplaceTwice(o: string, x: string, pat: string, rep: string)
    requires 0 < |pat| && pat[0] !in o && pat[0] !in x
    ensures ReplaceAll(o + pat + x + pat, pat, rep) == o + rep + x + rep
  {
    var s := pat + (x + pat);
    assert o + pat + x + pat == o + s;
    ReplaceSkip(o, s, pat, rep);
    assert s[..|pat|] == pat && s[|pat|..] == x + pat;
    ReplaceTail(x, pat, rep);
  }

  /** Replacing a one-character pattern is the character-wise substitution. */
  lemma {:induction false} ReplaceCharIsSubst(s: string, c: char, rep: string)
    ensures ReplaceAll(s, [c], rep) == Subst(s, c, rep)
    decreases |s|
  {
    if s != [] {
      ReplaceCharIsSubst(s[1..], c, rep);
      assert s[..1] == [s[0]];
      if s[0] == c {
        assert s[..|[c]|] == [c];
      } else {
        assert s[..|[c]|] != [c];
      }
    }
  }

  lemma {:induction false} SubstAppend(s: string, t: string, c: char, rep: string)
    ensures Subst(s + t, c, rep) == Subst(s, c, rep) + Subst(t, c, rep)
    decreases |s|
  {
    if s != [] {
      assert (s + t)[0] == s[0] && (s + t)[1..] == s[1..] + t;
      SubstAppend(s[1..], t, c, rep);
    } else {
      assert s + t == t;
    }
  }

  /** A string without `c` is left unchanged. */
  lemma {:induction false} SubstIdentity(s: string, c: char, rep: string)
    requires c !in s
    ensures Subst(s, c, rep) == s
    decreases |s|
  {
    if s != [] {
      assert c !in s[1..];
      SubstIdentity(s[1..], c, rep);
    }
  }

  /** A character in neither `s` nor `rep` is not in the result either. */
  lemma {:induction false} SubstAvoids(s: string, c: char, rep: string, y: char)
    requires y !in s && y !in rep
    ensures y !in Subst(s, c, rep)
    decreases |s|
  {
    if s != [] {
      assert y !in s[1..];
      SubstAvoids(s[1..], c, rep, y);
    }
  }

  /** When `rep` contains `c`, a `c` in `s` survives the substitution. */
  lemma {:induction false} SubstKeeps(s: string, c: char, rep: string)
    requires c in s && c in rep
    ensures c in Subst(s, c, rep)
    decreases |s|
  {
    if s[0] != c {
      SubstKeeps(s[1..], c, rep);
    }
  }

  /** A longer replacement gives a strictly longer result exactly when `c` occurs. */
  lemma {:induction false} SubstLonger(s: string, c: char, rep1: string, rep2: string)
    requires |rep1| < |rep2|
    ensures c in s ==> |Subst(s, c, rep1)| < |Subst(s, c, rep2)|
    ensures c !in s ==> Subst(s, c, rep1) == Subst(s, c, rep2) == s
    decreases |s|
  {
    if s != [] {
      SubstLonger(s[1..], c, rep1, rep2);
      if c !in s {
        SubstIdentity(s, c, rep1);
        SubstIdentity(s, c, rep2);
      }
    }
  }

  /** Substitutions by `rep1` and `rep2` of differing lengths agree exactly when there is nothing to replace. */
  lemma SubstDiffers(s: string, c: char, rep1: string, rep2: string)
    requires |rep1| != |rep2|
    ensures Subst(s, c, rep1) == Subst(s, c, rep2) <==> c !in s
  {
    if |rep1| < |rep2| {
      SubstLonger(s, c, rep1, rep2);
    } else {
      SubstLonger(s, c, rep2, rep1);
    }
  }

  lemma SubstSnoc(s: string, x: char, c: char, rep: string)
    ensures Subst(s + [x], c, rep) == Subst(s, c, rep) + Code(x, c, rep)
  {
    SubstAppend(s, [x], c, rep);
    assert Subst([x], c, rep) == Code(x, c, rep) + Subst([], c, rep);
  }

  /** The last character of a non-empty result tells whether the last input character was `c`. */
  lemma LastCode(w: string, x: char, c: char, rep: string)
    requires |rep| > 0 && rep[|rep| - 1] == c
    ensures var k := w + Code(x, c, rep); k[|k| - 1] == c <==> x == c
  {
  }

  /**
   * When `rep` ends in `c` (as "_paried." ends in '.'), the substitution can be
   * undone: every `c` of the result closes one copy of `rep`, so different
   * inputs give different outputs.
   */
  lemma {:induction false} SubstInjective(s: string, t: string, c: char, rep: string)
    requires |rep| > 0 && rep[|rep| - 1] == c
    requires Subst(s, c, rep) == Subst(t, c, rep)
    ensures s == t
    decreases |s| + |t|
  {
    if s == [] || t == [] {
    } else {
      var s', t' := s[..|s| - 1], t[..|t| - 1];
      assert s == s' + [s[|s| - 1]] && t == t' + [t[|t| - 1]];
      SubstLastStep(s', s[|s| - 1], t', t[|t| - 1], c, rep);
      SubstInjective(s', t', c, rep);
    }
  }

  /** Equal substitutions of two non-empty strings agree on the last character and on what precedes it. */
  lemma SubstLastStep(s: string, x: char, t: string, y: char, c: char, rep: string)
    requires |rep| > 0 && rep[|rep| - 1] == c
    requires Subst(s + [x], c, rep) == Subst(t + [y], c, rep)
    ensures x == y && Subst(s, c, rep) == Subst(t, c, rep)
  {
    SubstSnoc(s, x, c, rep);
    SubstSnoc(t, y, c, rep);
    var u, v := Subst(s, c, rep), Subst(t, c, rep);
    var w := u + Code(x, c, rep);
    assert w == v + Code(y, c, rep);
    LastCode(u, x, c, rep);
    LastCode(v, y, c, rep);
    assert Code(x, c, rep) == Code(y, c, rep);
    assert u == w[..|w| - |Code(x, c, rep)|] == v;
  }
}
