/** Substring containment, as Kotlin's `String.contains(other)` decides it. */
module Text {

  /** `sub` occurs in `s` starting at index `i`. */
  predicate OccursAt(s: string, sub: string, i: int)
  {
    0 <= i && i + |sub| <= |s| && s[i..i + |sub|] == sub
  }

  /** `s.contains(sub)`: `sub` occurs in `s` at some index (the empty string occurs everywhere). */
  predicate Contains(s: string, sub: string)
  {
    exists i | 0 <= i <= |s| - |sub| :: OccursAt(s, sub, i)
  }

  /** A string built around `sub` contains it. */
  lemma ContainsMiddle(pre: string, sub: string, post: string)
    ensures Contains(pre + sub + post, sub)
  {
    var s := pre + sub + post;
    assert OccursAt(s, sub, |pre|);
  }

  /** A string that lacks some piece of `sub` lacks `sub`. */
  lemma NotContainedWithoutPiece(s: string, pre: string, piece: string, post: string)
    requires !Contains(s, piece)
    ensures !Contains(s, pre + piece + post)
  {
    var sub := pre + piece + post;
    forall i | 0 <= i <= |s| - |sub|
      ensures !OccursAt(s, sub, i)
    {
      assert !OccursAt(s, piece, i + |pre|);
      var k :| 0 <= k < |piece| && s[i + |pre| + k] != piece[k];
      assert sub[|pre| + k] == piece[k];
      assert s[i..i + |sub|][|pre| + k] != sub[|pre| + k];
    }
  }

  /**
   * A two-character `pair` that occurs in neither half of `p + q` and does not
   * straddle the joint does not occur in `p + q`.
   */
  lemma PairNotContainedAcross(p: string, q: string, pair: string)
    requires |pair| == 2 && !Contains(p, pair) && !Contains(q, pair)
    requires p != [] && q != [] ==> [p[|p| - 1], q[0]] != pair
    ensures !Contains(p + q, pair)
  {
    var s := p + q;
    forall i | 0 <= i <= |s| - 2
      ensures !OccursAt(s, pair, i)
    {
      if i + 2 <= |p| {
        assert s[i..i + 2] == p[i..i + 2];
        assert !OccursAt(p, pair, i);
      } else if i >= |p| {
        assert s[i..i + 2] == q[i - |p|..i - |p| + 2];
        assert !OccursAt(q, pair, i - |p|);
      } else {
        assert s[i..i + 2] == [p[|p| - 1], q[0]];
      }
    }
  }

  /** If some character of `sub` never appears in `s`, then `s` does not contain `sub`. */
  lemma NotContainedWithoutChar(s: string, sub: string, c: char)
    requires c in sub && c !in s
    ensures !Contains(s, sub)
  {
  }
}
