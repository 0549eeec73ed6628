/** `Array.prototype.filter` over sequences, and what it preserves. */
module Collections {

  /** The elements of `s` that `keep` accepts, in their original order. */
  function Filter<T(!new)>(s: seq<T>, keep: T -> bool): (r: seq<T>)
    ensures |r| <= |s|
    ensures forall x :: x in r <==> x in s && keep(x)
    decreases |s|
  {
    if |s| == 0 then []
    else (if keep(s[0]) then [s[0]] else []) + Filter(s[1..], keep)
  }

  /** Filtering by a predicate and by its negation splits the sequence: each
      element, counted with its multiplicity, lands in exactly one part. */
  lemma {:induction false} FilterSplitsMultiset<T(!new)>(s: seq<T>, keep: T -> bool, drop: T -> bool)
    requires forall x :: drop(x) == !keep(x)
    ensures multiset(Filter(s, keep)) + multiset(Filter(s, drop)) == multiset(s)
    decreases |s|
  {
    if |s| > 0 {
      FilterSplitsMultiset(s[1..], keep, drop);
      assert s == [s[0]] + s[1..];
    }
  }

  /** Strictly increasing positions. */
  predicate Increasing(idx: seq<nat>) {
    forall k, l :: 0 <= k < l < |idx| ==> idx[k] < idx[l]
  }

  /** `sub` sits in `s` at the increasing positions `idx`: it is a
      subsequence of `s`. */
  ghost predicate Embeds<T>(sub: seq<T>, s: seq<T>, idx: seq<nat>) {
    && |idx| == |sub|
    && (forall k :: 0 <= k < |idx| ==> idx[k] < |s| && sub[k] == s[idx[k]])
    && Increasing(idx)
  }

  /** Putting `x` in front of `s` (and, when `kept`, of `sub`) keeps the
      embedding, shifted by one. */
  lemma ShiftEmbeds<T>(x: T, sub: seq<T>, s: seq<T>, idx: seq<nat>, kept: bool) returns (idx': seq<nat>)
    requires Embeds(sub, s, idx)
    ensures Embeds(if kept then [x] + sub else sub, [x] + s, idx')
  {
    var shifted := seq(|idx|, k requires 0 <= k < |idx| => idx[k] + 1);
    assert Embeds(sub, [x] + s, shifted) by {
      forall k | 0 <= k < |idx| ensures shifted[k] < |s| + 1 && sub[k] == ([x] + s)[shifted[k]] {
        assert ([x] + s)[idx[k] + 1] == s[idx[k]];
      }
    }
    if kept {
      idx' := [0] + shifted;
      var sub' := [x] + sub;
      forall k | 0 <= k < |idx'| ensures idx'[k] < |s| + 1 && sub'[k] == ([x] + s)[idx'[k]] {
        if k > 0 {
          assert idx'[k] == shifted[k - 1] && sub'[k] == sub[k - 1];
        }
      }
      forall k, l | 0 <= k < l < |idx'| ensures idx'[k] < idx'[l] {
        assert idx'[l] == shifted[l - 1];
        if k > 0 {
          assert idx'[k] == shifted[k - 1];
        }
      }
    } else {
      idx' := shifted;
    }
  }

  /** A filtered sequence is a subsequence of the original: filtering never
      reorders. */
  lemma {:induction false} FilterKeepsOrder<T(!new)>(s: seq<T>, keep: T -> bool) returns (idx: seq<nat>)
    ensures Embeds(Filter(s, keep), s, idx)
    decreases |s|
  {
    if |s| == 0 {
      idx := [];
    } else {
      var rest := FilterKeepsOrder(s[1..], keep);
      idx := ShiftEmbeds(s[0], Filter(s[1..], keep), s[1..], rest, keep(s[0]));
      assert s == [s[0]] + s[1..];
    }
  }
}
