/** `Array.prototype.filter` over sequences and what it guarantees: the
    kept elements are exactly those satisfying the predicate, in their
    original relative order. */
module Seqs {

  /** `s.filter(p)`. */
  function Filter<T(!new)>(s: seq<T>, p: T -> bool): (r: seq<T>)
    ensures |r| <= |s|
    ensures forall x :: x in r <==> x in s && p(x)
  {
    if s == [] then []
    else if p(s[0]) then [s[0]] + Filter(s[1..], p)
    else Filter(s[1..], p)
  }

  /** `idx` lists, in strictly increasing order, positions of `s` whose
      elements spell out `sub`. */
  ghost predicate Embeds<T(!new)>(idx: seq<int>, sub: seq<T>, s: seq<T>)
  {
    && |idx| == |sub|
    && (forall k :: 0 <= k < |idx| ==> 0 <= idx[k] < |s| && sub[k] == s[idx[k]])
    && (forall k, l :: 0 <= k < l < |idx| ==> idx[k] < idx[l])
  }

  /** `sub` is obtained from `s` by deleting elements, keeping order. */
  ghost predicate IsSubsequence<T(!new)>(sub: seq<T>, s: seq<T>)
  {
    exists idx :: Embeds(idx, sub, s)
  }

  /** An embedding into the tail of `s` is, one position further on, an
      embedding into `s`. */
  lemma ShiftEmbedding<T(!new)>(idx: seq<int>, sub: seq<T>, s: seq<T>) returns (shifted: seq<int>)
    requires s != [] && Embeds(idx, sub, s[1..])
    ensures Embeds(shifted, sub, s)
    ensures forall k :: 0 <= k < |shifted| ==> shifted[k] == idx[k] + 1
  {
    shifted := seq(|idx|, k requires 0 <= k < |idx| => idx[k] + 1);
    forall k | 0 <= k < |shifted|
      ensures 0 <= shifted[k] < |s| && sub[k] == s[shifted[k]]
    {
      assert s[shifted[k]] == s[1..][idx[k]];
    }
  }

  /** An embedding that avoids position 0 extends with position 0 for a new
      first element. */
  lemma ConsEmbedding<T(!new)>(idx: seq<int>, sub: seq<T>, s: seq<T>)
    requires s != [] && Embeds(idx, sub, s)
    requires forall k :: 0 <= k < |idx| ==> idx[k] > 0
    ensures Embeds([0] + idx, [s[0]] + sub, s)
  {
    var idx', sub' := [0] + idx, [s[0]] + sub;
    forall k | 0 < k < |idx'|
      ensures idx'[k] == idx[k - 1] && sub'[k] == sub[k - 1]
    {
    }
  }

  /** The positions that `Filter` keeps: an order-preserving embedding. */
  lemma {:induction false} FilterEmbedding<T(!new)>(s: seq<T>, p: T -> bool) returns (idx: seq<int>)
    ensures Embeds(idx, Filter(s, p), s)
  {
    if s == [] {
      idx := [];
    } else {
      var rest := FilterEmbedding(s[1..], p);
      var shifted := ShiftEmbedding(rest, Filter(s[1..], p), s);
      if p(s[0]) {
        ConsEmbedding(shifted, Filter(s[1..], p), s);
        idx := [0] + shifted;
      } else {
        idx := shifted;
      }
    }
  }

  lemma FilterIsSubsequence<T(!new)>(s: seq<T>, p: T -> bool)
    ensures IsSubsequence(Filter(s, p), s)
  {
    var idx := FilterEmbedding(s, p);
  }

  lemma SubsequenceReflexive<T(!new)>(s: seq<T>)
    ensures IsSubsequence(s, s)
  {
    var idx := seq(|s|, k requires 0 <= k < |s| => k);
    assert Embeds(idx, s, s);
  }

  /** Filtering the result of a filter keeps what satisfies both predicates. */
  lemma {:induction false} FilterCompose<T(!new)>(s: seq<T>, p: T -> bool, q: T -> bool, both: T -> bool)
    requires forall x :: both(x) == (p(x) && q(x))
    ensures Filter(Filter(s, p), q) == Filter(s, both)
  {
    if s != [] {
      FilterCompose(s[1..], p, q, both);
    }
  }

  /** Filters with the same verdict on every element agree. */
  lemma {:induction false} FilterExtensional<T(!new)>(s: seq<T>, p: T -> bool, q: T -> bool)
    requires forall x :: p(x) == q(x)
    ensures Filter(s, p) == Filter(s, q)
  {
    if s != [] {
      FilterExtensional(s[1..], p, q);
    }
  }

  /** A predicate and its negation split a sequence into two parts that
      together hold every element exactly as often as the original. */
  lemma {:induction false} FilterPartition<T(!new)>(s: seq<T>, p: T -> bool, notP: T -> bool)
    requires forall x :: notP(x) == !p(x)
    ensures multiset(Filter(s, p)) + multiset(Filter(s, notP)) == multiset(s)
    ensures |Filter(s, p)| + |Filter(s, notP)| == |s|
  {
    if s != [] {
      FilterPartition(s[1..], p, notP);
      assert s == [s[0]] + s[1..];
    }
  }
}
