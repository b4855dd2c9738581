/** The operational-cost history: a fixed-capacity FIFO ring buffer (the
    CircularFifoBuffer the engine uses) and the FIR convolution of its
    contents with the configured weights. */
module CostHistory {

  /** One weighted term of the convolution. */
  function Weighted(weight: real, cost: real): real
  {
    weight * cost
  }

  /** Sum of w[j]*b[j] over the first n slots, oldest slot first. */
  function DotUpTo(w: seq<real>, b: seq<real>, n: nat): real
    requires n <= |w| == |b|
    decreases n
  {
    if n == 0 then 0.0 else DotUpTo(w, b, n - 1) + Weighted(w[n - 1], b[n - 1])
  }

  /** The convolution: the weighted sum over the whole buffer. */
  function Dot(w: seq<real>, b: seq<real>): real
    requires |w| == |b|
  {
    DotUpTo(w, b, |w|)
  }

  function Sum(w: seq<real>): real
    decreases |w|
  {
    if |w| == 0 then 0.0 else Sum(w[..|w| - 1]) + w[|w| - 1]
  }

  /** n copies of c. */
  function Repeat(c: real, n: nat): (s: seq<real>)
    ensures |s| == n && forall i :: 0 <= i < n ==> s[i] == c
  {
    seq(n, _ => c)
  }

  /** The buffer after one add: when full, the oldest element is evicted. */
  function Pushed(s: seq<real>, capacity: nat, x: real): (s': seq<real>)
  {
    if |s| >= capacity && |s| > 0 then s[1..] + [x] else s + [x]
  }

  /** A full buffer holding the tail s[i..] followed by lags, after one add
      of x, holds the shorter tail followed by lags + [x]. */
  lemma SlideIn(s: seq<real>, i: nat, lags: seq<real>, x: real)
    requires i < |s|
    ensures (s[i..] + lags)[1..] + [x] == s[i + 1..] + (lags + [x])
  {
    assert (s[i..] + lags)[1..] == s[i + 1..] + lags;
  }

  /** Over slots all holding c, the first n terms add up to c times the sum
      of the first n weights. */
  lemma {:induction false} DotUpToRepeat(w: seq<real>, b: seq<real>, c: real, n: nat)
    requires n <= |w| == |b| && forall j :: 0 <= j < |b| ==> b[j] == c
    ensures DotUpTo(w, b, n) == Sum(w[..n]) * c
    decreases n
  {
    if n > 0 {
      DotUpToRepeat(w, b, c, n - 1);
      assert w[..n][..n - 1] == w[..n - 1];
    }
  }

  /** A buffer of identical values convolves to that value times the sum of
      the weights; with weights summing to one it passes the value through. */
  lemma DotRepeat(w: seq<real>, c: real)
    ensures Dot(w, Repeat(c, |w|)) == Weighted(Sum(w), c)
  {
    DotUpToRepeat(w, Repeat(c, |w|), c, |w|);
    assert w[..|w|] == w;
  }

  /** A buffer of zeros with one new cost c at the newest end convolves to the
      newest weight times c: the cold start a buffer sees without bootstrap. */
  lemma DotColdStart(w: seq<real>, b: seq<real>, c: real)
    requires |w| > 0 && b == Repeat(0.0, |w| - 1) + [c]
    ensures Dot(w, b) == Weighted(w[|w| - 1], c)
  {
    var n := |w| - 1;
    var zeros := b[..n] + [0.0];
    assert forall j :: 0 <= j < |zeros| ==> zeros[j] == 0.0;
    DotUpToRepeat(w, zeros, 0.0, n);
    DotUpToAgree(w, b, zeros, n);
  }

  /** The first n terms only read the first n slots. */
  lemma {:induction false} DotUpToAgree(w: seq<real>, b: seq<real>, b': seq<real>, n: nat)
    requires n <= |w| == |b| == |b'| && forall j :: 0 <= j < n ==> b[j] == b'[j]
    ensures DotUpTo(w, b, n) == DotUpTo(w, b', n)
    decreases n
  {
    if n > 0 {
      DotUpToAgree(w, b, b', n - 1);
    }
  }

  /** The fixed-capacity FIFO: an array used as a ring. Adding to a full
      buffer overwrites (evicts) the oldest element. */
  class CostBuffer {
    /** The elements, oldest first. */
    ghost var Contents: seq<real>
    const capacity: nat
    const data: array<real>
    var start: nat
    var len: nat

    ghost predicate Valid()
      reads this, data
    {
      && data.Length == capacity && 0 < capacity
      && start < capacity && len <= capacity
      && |Contents| == len
      && forall i :: 0 <= i < len ==> Contents[i] == data[Slot(i)]
    }

    /** The array index of the i-th oldest element. */
    function Slot(i: nat): (j: nat)
      reads this
      requires start < capacity && i < capacity
      ensures j < capacity
    {
      if start + i < capacity then start + i else start + i - capacity
    }

    constructor (n: nat)
      requires 0 < n
      ensures Valid() && fresh(data)
      ensures capacity == n && Contents == []
    {
      capacity := n;
      data := new real[n];
      start, len := 0, 0;
      Contents := [];
    }

    /** CircularFifoBuffer.add: append x, evicting the oldest when full. */
    method Add(x: real)
      requires Valid()
      modifies this, data
      ensures Valid()
      ensures Contents == Pushed(old(Contents), capacity, x)
      ensures |Contents| == if old(len) == capacity then capacity else old(len) + 1
    {
      if len == capacity {
        data[start] := x;
        start := if start + 1 == capacity then 0 else start + 1;
        Contents := Contents[1..] + [x];
        assert forall i :: 0 <= i < len ==> Contents[i] == data[Slot(i)] by {
          forall i | 0 <= i < len
            ensures Contents[i] == data[Slot(i)]
          {
            if i < len - 1 {
              assert Contents[i] == old(Contents)[i + 1];
            }
          }
        }
      } else {
        data[Slot(len)] := x;
        len := len + 1;
        Contents := Contents + [x];
      }
    }

    /** CircularFifoBuffer.size. */
    method Size() returns (n: nat)
      requires Valid()
      ensures n == |Contents|
    {
      n := len;
    }

    /** The i-th element in iteration order, oldest first. */
    method Get(i: nat) returns (x: real)
      requires Valid() && i < |Contents|
      ensures x == Contents[i]
    {
      x := data[Slot(i)];
    }
  }
}
