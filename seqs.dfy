/** The stream combinators the retrieval layer is built from, on finite
    sequences: `filter_map` (keep and transform some elements, in order), a
    counter, and `map`. */
module Seqs {
  import opened Types

  /** `filter_map`: the payload of every element for which `f` gives `Some`,
      in the order of `s`. */
  function FilterMap<A, B>(s: seq<A>, f: A -> Option<B>): (r: seq<B>)
    ensures |r| <= |s|
    decreases |s|
  {
    if |s| == 0 then []
    else
      var head := match f(s[0]) case Some(b) => [b] case None => [];
      head + FilterMap(s[1..], f)
  }

  /** The number of elements of `s` that satisfy `p`. */
  function Count<A>(s: seq<A>, p: A -> bool): (n: nat)
    ensures n <= |s|
    decreases |s|
  {
    if |s| == 0 then 0 else (if p(s[0]) then 1 else 0) + Count(s[1..], p)
  }

  /** `map`: `f` applied to every element, in order. */
  function MapSeq<A, B>(s: seq<A>, f: A -> B): (r: seq<B>)
  {
    seq(|s|, i requires 0 <= i < |s| => f(s[i]))
  }

  /** `filter_map` over a concatenation is the concatenation of the two
      results: elements are neither reordered nor moved across a boundary. */
  lemma {:induction false} FilterMapAppend<A, B>(a: seq<A>, b: seq<A>, f: A -> Option<B>)
    ensures FilterMap(a + b, f) == FilterMap(a, f) + FilterMap(b, f)
    decreases |a|
  {
    if |a| != 0 {
      assert (a + b)[0] == a[0];
      assert (a + b)[1..] == a[1..] + b;
      FilterMapAppend(a[1..], b, f);
    } else {
      assert a + b == b;
    }
  }

  /** `filter_map` on a stream with a known head. */
  lemma FilterMapCons<A, B>(x: A, rest: seq<A>, f: A -> Option<B>)
    ensures FilterMap([x] + rest, f) == (if f(x).Some? then [f(x).value] else []) + FilterMap(rest, f)
  {
    assert ([x] + rest)[0] == x;
    assert ([x] + rest)[1..] == rest;
  }

  /** An element comes out of `filter_map` exactly when some input element is
      mapped to it. */
  lemma {:induction false} FilterMapMember<A, B>(s: seq<A>, f: A -> Option<B>, y: B)
    ensures y in FilterMap(s, f) <==> exists i :: 0 <= i < |s| && f(s[i]) == Some(y)
    decreases |s|
  {
    if |s| != 0 {
      FilterMapMember(s[1..], f, y);
      if exists i :: 0 <= i < |s| && f(s[i]) == Some(y) {
        var i :| 0 <= i < |s| && f(s[i]) == Some(y);
        if i > 0 {
          assert s[1..][i - 1] == s[i];
        }
      }
      if exists j :: 0 <= j < |s[1..]| && f(s[1..][j]) == Some(y) {
        var j :| 0 <= j < |s[1..]| && f(s[1..][j]) == Some(y);
        assert s[j + 1] == s[1..][j];
      }
    }
  }

  /** `Count` on a sequence with a known head. */
  lemma CountCons<A>(x: A, rest: seq<A>, p: A -> bool)
    ensures Count([x] + rest, p) == (if p(x) then 1 else 0) + Count(rest, p)
  {
    assert ([x] + rest)[0] == x;
    assert ([x] + rest)[1..] == rest;
  }

  lemma MapSeqAppend<A, B>(a: seq<A>, b: seq<A>, f: A -> B)
    ensures MapSeq(a + b, f) == MapSeq(a, f) + MapSeq(b, f)
  {
  }

  /** Mapping two sequences that hold the same elements, in any order, gives
      two sequences that hold the same elements. */
  lemma {:induction false} MapSeqPermutation<A, B>(a: seq<A>, b: seq<A>, f: A -> B)
    requires multiset(a) == multiset(b)
    ensures multiset(MapSeq(a, f)) == multiset(MapSeq(b, f))
    decreases |a|
  {
    if |a| == 0 {
      assert |b| == |multiset(b)| == 0;
    } else {
      assert a[0] in multiset(b);
      var j :| 0 <= j < |b| && b[j] == a[0];
      var rest := b[..j] + b[j + 1..];
      assert b == b[..j] + [b[j]] + b[j + 1..];
      assert a == [a[0]] + a[1..];
      assert multiset(a) == multiset{a[0]} + multiset(a[1..]);
      assert multiset(b) == multiset(b[..j]) + multiset{b[j]} + multiset(b[j + 1..]);
      assert multiset(rest) == multiset(b[..j]) + multiset(b[j + 1..]);
      assert multiset(a[1..]) == multiset(a) - multiset{a[0]};
      assert multiset(rest) == multiset(b) - multiset{b[j]};
      assert multiset(a[1..]) == multiset(rest);
      MapSeqPermutation(a[1..], rest, f);
      MapSeqAppend([a[0]], a[1..], f);
      MapSeqAppend(b[..j] + [b[j]], b[j + 1..], f);
      MapSeqAppend(b[..j], [b[j]], f);
      MapSeqAppend(b[..j], b[j + 1..], f);
    }
  }
}
