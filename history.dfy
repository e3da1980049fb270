/**
 * The history ledger: the payloads of the last successful requests, newest first, never more
 * than `Capacity` of them, with no deduplication.
 */
module History {

  const Capacity := 5

  /** `[payload, ...prev].slice(0, 5)`. */
  function Push<T>(h: seq<T>, p: T): (r: seq<T>)
    ensures |r| == if |h| < Capacity then |h| + 1 else Capacity
    ensures r[0] == p && r[1..] == h[..|r| - 1]
  {
    var n := |h| + 1;
    ([p] + h)[..if n < Capacity then n else Capacity]
  }

  /** The first `n` elements of `s`, or all of them when there are fewer: `s.slice(0, n)`. */
  function Take<T>(s: seq<T>, n: nat): (r: seq<T>)
    ensures |r| <= n
  {
    if |s| <= n then s else s[..n]
  }

  function Reverse<T>(s: seq<T>): (r: seq<T>)
    ensures |r| == |s|
  {
    if s == [] then [] else Reverse(s[1..]) + [s[0]]
  }

  /** The ledger after successes with payloads `ps[0]`, `ps[1]`, ... in that order. */
  function PushAll<T>(h: seq<T>, ps: seq<T>): seq<T>
    decreases |ps|
  {
    if ps == [] then h else PushAll(Push(h, ps[0]), ps[1..])
  }

  /** The ledger after six successes from an empty one: the last five payloads, newest first. */
  lemma SixSuccesses<T>(p1: T, p2: T, p3: T, p4: T, p5: T, p6: T)
    ensures PushAll([], [p1, p2, p3, p4, p5, p6]) == [p6, p5, p4, p3, p2]
  {
    PushAllKeepsNewest([], [p1, p2, p3, p4, p5, p6]);
    assert Reverse([p6]) == [p6];
    assert [p5, p6][1..] == [p6];
    assert Reverse([p5, p6]) == [p6, p5];
    assert [p4, p5, p6][1..] == [p5, p6];
    assert Reverse([p4, p5, p6]) == [p6, p5, p4];
    assert [p3, p4, p5, p6][1..] == [p4, p5, p6];
    assert Reverse([p3, p4, p5, p6]) == [p6, p5, p4, p3];
    assert [p2, p3, p4, p5, p6][1..] == [p3, p4, p5, p6];
    assert Reverse([p2, p3, p4, p5, p6]) == [p6, p5, p4, p3, p2];
    assert [p1, p2, p3, p4, p5, p6][1..] == [p2, p3, p4, p5, p6];
    assert Reverse([p1, p2, p3, p4, p5, p6]) == [p6, p5, p4, p3, p2, p1];
  }

  /** Repeated payloads are kept: pushing the newest entry again stores it twice. */
  lemma NoDeduplication<T>(h: seq<T>, p: T)
    ensures |Push(Push(h, p), p)| == if |h| + 2 <= Capacity then |h| + 2 else Capacity
    ensures Push(Push(h, p), p)[..2] == [p, p]
  {
  }

  /** Each push is a prepend followed by truncation to the capacity. */
  lemma PushIsTake<T>(h: seq<T>, p: T)
    ensures Push(h, p) == Take([p] + h, Capacity)
  {
  }

  lemma TakeTwice<T>(a: seq<T>, b: seq<T>, n: nat)
    ensures Take(a + Take(b, n), n) == Take(a + b, n)
  {
  }

  /**
   * After a series of pushes the ledger holds the newest `Capacity` of all the payloads it has
   * seen, newest first, older entries following in their old order.
   */
  lemma {:induction false} PushAllKeepsNewest<T>(h: seq<T>, ps: seq<T>)
    requires |h| <= Capacity
    ensures PushAll(h, ps) == Take(Reverse(ps) + h, Capacity)
    decreases |ps|
  {
    if ps == [] {
      assert Reverse(ps) + h == h;
    } else {
      PushAllKeepsNewest(Push(h, ps[0]), ps[1..]);
      PushIsTake(h, ps[0]);
      TakeTwice(Reverse(ps[1..]), [ps[0]] + h, Capacity);
      assert Reverse(ps[1..]) + ([ps[0]] + h) == Reverse(ps) + h;
    }
  }
}
