/** Mapping a function over a sequence, and what rearranging the sequence does to the image. */
module Sequences {
  function MapSeq<A, B>(f: A -> B, s: seq<A>): (r: seq<B>)
    ensures |r| == |s| && forall k :: 0 <= k < |s| ==> r[k] == f(s[k])
  {
    seq(|s|, k requires 0 <= k < |s| => f(s[k]))
  }

  lemma MapSeqAppend<A, B>(f: A -> B, x: seq<A>, y: seq<A>)
    ensures MapSeq(f, x + y) == MapSeq(f, x) + MapSeq(f, y)
  {
  }

  /** Taking one element out of the middle of a sequence takes its image out of the mapped multiset. */
  lemma MapAround<A, B>(f: A -> B, left: seq<A>, x: A, right: seq<A>)
    ensures multiset(MapSeq(f, left + [x] + right)) == multiset(MapSeq(f, left + right)) + multiset{f(x)}
  {
    MapSeqAppend(f, left + [x], right);
    MapSeqAppend(f, left, [x]);
    MapSeqAppend(f, left, right);
    assert MapSeq(f, [x]) == [f(x)];
  }

  /** An element of a sequence splits it into what comes before and after one occurrence. */
  lemma Occurrence<A>(b: seq<A>, x: A) returns (left: seq<A>, right: seq<A>)
    requires x in multiset(b)
    ensures b == left + [x] + right
    ensures multiset(left + right) == multiset(b) - multiset{x}
  {
    var j :| 0 <= j < |b| && b[j] == x;
    left, right := b[..j], b[j + 1..];
    assert b == left + [x] + right;
  }

  /** Rearranging a sequence rearranges its image: equal multisets map to equal multisets. */
  lemma {:induction false} MapPreservesMultiset<A, B>(f: A -> B, a: seq<A>, b: seq<A>)
    requires multiset(a) == multiset(b)
    ensures multiset(MapSeq(f, a)) == multiset(MapSeq(f, b))
    decreases |a|
  {
    if |a| == 0 {
      assert |multiset(b)| == 0;
    } else {
      var x := a[0];
      var left, right := Occurrence(b, x);
      var rest := a[1..];
      assert a == [] + [x] + rest;
      assert [] + rest == rest;
      MapPreservesMultiset(f, rest, left + right);
      MapAround(f, left, x, right);
      MapAround(f, [], x, rest);
    }
  }
}
