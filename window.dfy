/**
 * The chart history: a sliding window of the most recent 200 data points,
 * rebuilt on every new reading as `[...prev.slice(-199), point]`.
 */
module Window {
  import opened Signals

  /** One stored data point: the time stamp, the reading and its score. */
  datatype Point = Point(time: int, reading: Reading, qhc: real)

  const CAPACITY := 200

  /** The last `n` elements of `s` (all of `s` when it is shorter). */
  function LastN<T>(s: seq<T>, n: nat): (r: seq<T>)
    ensures |r| == if |s| <= n then |s| else n
    ensures forall i :: 0 <= i < |r| ==> r[i] == s[|s| - |r| + i]
  {
    if |s| <= n then s else s[|s| - n..]
  }

  /**
   * Append `p` and keep at most 200 points: the new point is last, and before it
   * stand the last at most 199 earlier points in their original order.
   */
  function Append(h: seq<Point>, p: Point): (r: seq<Point>)
    ensures |r| == if |h| < CAPACITY then |h| + 1 else CAPACITY
    ensures r[|r| - 1] == p
    ensures forall i :: 0 <= i < |r| - 1 ==> r[i] == h[|h| - (|r| - 1) + i]
    ensures |h| < CAPACITY ==> r == h + [p]
  {
    LastN(h, CAPACITY - 1) + [p]
  }

  /** Appending is taking the last 200 of the extended sequence. */
  lemma AppendIsLast200(h: seq<Point>, p: Point)
    ensures Append(h, p) == LastN(h + [p], CAPACITY)
  {
    var r, w := Append(h, p), LastN(h + [p], CAPACITY);
    assert |r| == |w|;
    forall i | 0 <= i < |r| ensures r[i] == w[i] {
      if i < |r| - 1 {
        assert (h + [p])[|h + [p]| - |w| + i] == h[|h| - (|r| - 1) + i];
      }
    }
  }

  /** The window after appending the points of `ps` one by one, oldest first. */
  function AppendAll(h: seq<Point>, ps: seq<Point>): seq<Point>
    decreases |ps|
  {
    if ps == [] then h else AppendAll(Append(h, ps[0]), ps[1..])
  }

  lemma LastNOfSuffix<T>(x: seq<T>, k: nat, n: nat)
    requires k <= |x| && n <= |x| - k
    ensures LastN(x[k..], n) == LastN(x, n)
  {
    assert x[k..][|x| - k - n..] == x[|x| - n..];
  }

  lemma LastNOfLastN<T>(s: seq<T>, t: seq<T>, n: nat)
    ensures LastN(LastN(s, n) + t, n) == LastN(s + t, n)
  {
    if |s| > n {
      var k := |s| - n;
      assert LastN(s, n) + t == (s + t)[k..];
      LastNOfSuffix(s + t, k, n);
    }
  }

  /**
   * However many points arrive, the window holds exactly the last 200 of all
   * points seen, in arrival order.
   */
  lemma {:induction false} AppendAllIsLast200(h: seq<Point>, ps: seq<Point>)
    requires |h| <= CAPACITY
    ensures AppendAll(h, ps) == LastN(h + ps, CAPACITY)
    ensures |AppendAll(h, ps)| <= CAPACITY
    decreases |ps|
  {
    if ps == [] {
      assert h + ps == h;
    } else {
      var x, rest := ps[0], ps[1..];
      calc {
        AppendAll(h, ps);
        AppendAll(Append(h, x), rest);
        { AppendAllIsLast200(Append(h, x), rest); }
        LastN(Append(h, x) + rest, CAPACITY);
        { AppendIsLast200(h, x); }
        LastN(LastN(h + [x], CAPACITY) + rest, CAPACITY);
        { LastNOfLastN(h + [x], rest, CAPACITY); }
        LastN(h + [x] + rest, CAPACITY);
        { assert h + [x] + rest == h + ps; }
        LastN(h + ps, CAPACITY);
      }
    }
  }
}
