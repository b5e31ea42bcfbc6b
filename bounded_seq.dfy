/** Sequences kept most-recent-first under a capacity: a new element goes in
    front and, once the capacity is reached, the oldest (last) element falls
    off. Both the monitor's history and the dashboard's table have this shape. */
module BoundedSeq {

  function Min(a: int, b: int): int
  {
    if a <= b then a else b
  }

  /** The first `cap` elements of `s`, or all of `s` when it is shorter. */
  function Take<T>(s: seq<T>, cap: nat): seq<T>
  {
    s[..Min(|s|, cap)]
  }

  /** `x` put in front of `s`, keeping at most `cap` elements. */
  function PushFront<T>(s: seq<T>, x: T, cap: nat): seq<T>
  {
    Take([x] + s, cap)
  }

  /** The elements of `s`, last one first. */
  function Reverse<T>(s: seq<T>): (r: seq<T>)
    ensures |r| == |s|
    ensures forall i :: 0 <= i < |s| ==> r[i] == s[|s| - 1 - i]
    decreases |s|
  {
    if s == [] then [] else [s[|s| - 1]] + Reverse(s[..|s| - 1])
  }

  /** Pushing the elements of `xs` in front of `s` one by one, first to last. */
  function PushAll<T>(s: seq<T>, xs: seq<T>, cap: nat): seq<T>
    decreases |xs|
  {
    if xs == [] then s else PushFront(PushAll(s, xs[..|xs| - 1], cap), xs[|xs| - 1], cap)
  }

  /** One push on a sequence within the capacity: below capacity it grows by
      one and keeps every earlier element in order behind the new one; at
      capacity exactly the last element is dropped. */
  lemma PushFrontShape<T>(s: seq<T>, x: T, cap: nat)
    requires 0 < cap && |s| <= cap
    ensures |PushFront(s, x, cap)| <= cap
    ensures PushFront(s, x, cap)[0] == x
    ensures |s| < cap ==> PushFront(s, x, cap) == [x] + s
    ensures |s| == cap ==> PushFront(s, x, cap) == [x] + s[..cap - 1]
  {
  }

  /** Truncating before a push or after it makes no difference. */
  lemma PushFrontTake<T>(s: seq<T>, x: T, cap: nat)
    ensures PushFront(Take(s, cap), x, cap) == Take([x] + s, cap)
  {
    var l := Min(|s|, cap);
    var m := Min(|s| + 1, cap);
    assert m == Min(l + 1, cap);
    assert ([x] + s[..l])[..m] == ([x] + s)[..m];
  }

  /** Pushing `xs` one by one leaves them in reverse order in front of `s`,
      truncated to the capacity. */
  lemma {:induction false} PushAllReverses<T>(s: seq<T>, xs: seq<T>, cap: nat)
    requires |s| <= cap
    ensures PushAll(s, xs, cap) == Take(Reverse(xs) + s, cap)
    decreases |xs|
  {
    if xs == [] {
      assert Reverse(xs) + s == s;
    } else {
      var init, last := xs[..|xs| - 1], xs[|xs| - 1];
      PushAllReverses(s, init, cap);
      PushFrontTake(Reverse(init) + s, last, cap);
      assert [last] + (Reverse(init) + s) == Reverse(xs) + s;
    }
  }
}
