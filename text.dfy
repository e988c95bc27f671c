/** Substring search with the meaning of Go's `strings.Contains`, and the
    facts about it that the classifiers and messages of the model rely on. */
module Text {

  /** `sub` occurs in `s` starting at position `k`. */
  predicate OccursAt(s: string, sub: string, k: nat)
  {
    k + |sub| <= |s| && s[k..k + |sub|] == sub
  }

  /** Some occurrence of `sub` in `s` starts at or after position `i`. */
  predicate ContainsFrom(s: string, sub: string, i: nat)
    decreases |s| - i
  {
    i + |sub| <= |s| && (s[i..i + |sub|] == sub || ContainsFrom(s, sub, i + 1))
  }

  /** `strings.Contains(s, sub)`: true when `sub` is a substring of `s`
      (in particular whenever `sub` is empty). */
  predicate Contains(s: string, sub: string)
  {
    ContainsFrom(s, sub, 0)
  }

  lemma {:induction false} ContainsFromMeansOccurrence(s: string, sub: string, i: nat)
    ensures ContainsFrom(s, sub, i) <==> exists k: nat :: i <= k && OccursAt(s, sub, k)
    decreases |s| - i
  {
    if i + |sub| <= |s| {
      ContainsFromMeansOccurrence(s, sub, i + 1);
      if s[i..i + |sub|] == sub {
        assert OccursAt(s, sub, i);
      } else if exists k: nat :: i <= k && OccursAt(s, sub, k) {
        var k: nat :| i <= k && OccursAt(s, sub, k);
        assert k != i;
      }
    } else {
      forall k: nat | i <= k
        ensures !OccursAt(s, sub, k)
      {
      }
    }
  }

  /** `Contains` holds exactly when there is a position where `sub` occurs. */
  lemma ContainsMeansOccurrence(s: string, sub: string)
    ensures Contains(s, sub) <==> exists k: nat :: OccursAt(s, sub, k)
  {
    ContainsFromMeansOccurrence(s, sub, 0);
  }

  /** An occurrence at position `k` is found by the search. */
  lemma OccurrenceIsFound(s: string, sub: string, k: nat)
    requires OccursAt(s, sub, k)
    ensures Contains(s, sub)
  {
    ContainsFromMeansOccurrence(s, sub, 0);
  }

  /** Every string is found inside any concatenation it is a middle part of. */
  lemma ContainsMiddle(a: string, b: string, c: string)
    ensures Contains(a + b + c, b)
  {
    assert (a + b + c)[|a|..|a| + |b|] == b;
    OccurrenceIsFound(a + b + c, b, |a|);
  }

  /** A character of a contained string is a character of the containing one. */
  lemma {:induction false} ContainedCharsOccur(s: string, sub: string, c: char, i: nat)
    requires ContainsFrom(s, sub, i) && c in sub
    ensures c in s
    decreases |s| - i
  {
    if s[i..i + |sub|] == sub {
      assert c in s[i..i + |sub|];
    } else {
      ContainedCharsOccur(s, sub, c, i + 1);
    }
  }

  /** So a string holding a character that `s` lacks is not contained in `s`. */
  lemma NotContainedByMissingChar(s: string, sub: string, c: char)
    requires c in sub && c !in s
    ensures !Contains(s, sub)
  {
    if Contains(s, sub) {
      ContainedCharsOccur(s, sub, c, 0);
    }
  }
}
