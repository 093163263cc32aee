/**
 * Python's `collections.deque(maxlen=n)` as a value: `append` adds at the
 * right end and, once the deque is full, evicts the oldest entry on the left.
 */
module BoundedDeque {

  /** The newest `n` entries of `s` (all of them when there are fewer). */
  function Newest<T>(s: seq<T>, n: nat): (r: seq<T>)
    ensures |r| == if |s| <= n then |s| else n
  {
    if |s| <= n then s else s[|s| - n..]
  }

  /** `deque.append(x)` on a deque holding `q` with capacity `maxLen`. */
  function Append<T>(q: seq<T>, x: T, maxLen: nat): (r: seq<T>)
    requires |q| <= maxLen
    ensures |r| <= maxLen
    ensures 0 < maxLen ==> |r| > 0 && r[|r| - 1] == x
    ensures |q| < maxLen ==> r == q + [x]
    ensures 0 < |q| == maxLen ==> r == q[1..] + [x]
    ensures maxLen == 0 ==> r == []
  {
    if |q| < maxLen then q + [x] else (q + [x])[1..]
  }

  /** Appending the entries of `xs` one after the other. */
  function AppendAll<T>(q: seq<T>, xs: seq<T>, maxLen: nat): (r: seq<T>)
    requires |q| <= maxLen
    ensures |r| <= maxLen
    decreases |xs|
  {
    if xs == [] then q else AppendAll(Append(q, xs[0], maxLen), xs[1..], maxLen)
  }

  /** One append keeps exactly the newest `maxLen` entries of the old contents plus `x`. */
  lemma AppendKeepsNewest<T>(q: seq<T>, x: T, maxLen: nat)
    requires |q| <= maxLen
    ensures Append(q, x, maxLen) == Newest(q + [x], maxLen)
  {
  }

  /** Taking the newest entries of a longer suffix first changes nothing. */
  lemma NewestOfSuffix<T>(a: seq<T>, b: seq<T>, c: seq<T>, n: nat)
    requires |a| <= |b| && a == b[|b| - |a|..]
    requires |a| == |b| || |a| >= n
    ensures Newest(a + c, n) == Newest(b + c, n)
  {
    if |a| < |b| {
      assert (a + c) == (b + c)[|b| - |a|..];
    }
  }

  /**
   * Whatever was pushed, the deque holds the newest `maxLen` entries of
   * everything it ever received, oldest first: eviction happens on push.
   */
  lemma {:induction false} AppendAllKeepsNewest<T>(q: seq<T>, xs: seq<T>, maxLen: nat)
    requires |q| <= maxLen
    ensures AppendAll(q, xs, maxLen) == Newest(q + xs, maxLen)
    decreases |xs|
  {
    if xs == [] {
      assert q + xs == q;
    } else {
      var q' := Append(q, xs[0], maxLen);
      AppendAllKeepsNewest(q', xs[1..], maxLen);
      AppendKeepsNewest(q, xs[0], maxLen);
      NewestOfSuffix(q', q + [xs[0]], xs[1..], maxLen);
      assert q + [xs[0]] + xs[1..] == q + xs;
    }
  }

  /**
   * Forty pushes into a deque of capacity thirty (the blink history) leave
   * thirty entries, the oldest of which is the eleventh push.
   */
  lemma FortyPushesIntoThirty<T>(xs: seq<T>)
    requires |xs| == 40
    ensures |AppendAll([], xs, 30)| == 30
    ensures AppendAll([], xs, 30)[0] == xs[10]
  {
    AppendAllKeepsNewest([], xs, 30);
    assert [] + xs == xs;
  }
}
