/** The sliding window of call durations: a ring buffer that stands for the last 256 observations. */
module Latency {
  import opened Common
  import opened Decimal

  const CAPACITY: nat := 256
  const MILLISECOND: int := 1_000_000

  // ---------------------------------------------------------------- 64-bit arithmetic

  /** Addition of durations wraps around at 64 bits. */
  function Wrap64(x: int): (r: int)
    ensures InInt64(r)
    ensures InInt64(x) ==> r == x
  {
    var m := (x - MIN_INT64) % 0x1_0000_0000_0000_0000;
    m + MIN_INT64
  }

  function Sum(s: seq<int>): int {
    if s == [] then 0 else Sum(s[..|s| - 1]) + s[|s| - 1]
  }

  lemma WrapAdds(x: int, d: int)
    ensures Wrap64(Wrap64(x) + d) == Wrap64(x + d)
  {
    var m := 0x1_0000_0000_0000_0000;
    var k := (x - MIN_INT64) / m;
    assert Wrap64(x) == x - k * m;
    WrapShift(x + d, k);
  }

  lemma WrapShift(x: int, k: int)
    ensures Wrap64(x - k * 0x1_0000_0000_0000_0000) == Wrap64(x)
  {
    var m := 0x1_0000_0000_0000_0000;
    ModShift(x - MIN_INT64, k, m);
  }

  lemma ModShift(x: int, k: int, m: int)
    requires m > 0
    ensures (x - k * m) % m == x % m
  {
    var q, r := x / m, x % m;
    assert x - k * m == (q - k) * m + r;
    DivUnique(x - k * m, m, q - k, r);
  }

  lemma MulLe(a: int, b: int, m: int)
    requires a <= b && m >= 0
    ensures a * m <= b * m
  {
  }

  lemma LessByMul(a: int, b: int, m: int)
    requires m > 0 && a * m < b * m
    ensures a < b
  {
    if b <= a { MulLe(b, a, m); }
  }

  lemma DivUnique(a: int, m: int, q: int, r: int)
    requires m > 0 && 0 <= r < m && a == q * m + r
    ensures a / m == q && a % m == r
  {
    var q' := a / m;
    assert (q + 1) * m == q * m + m && (q' + 1) * m == q' * m + m;
    LessByMul(q, q' + 1, m);
    LessByMul(q', q + 1, m);
  }

  lemma DivDiv(a: nat, m: nat, n: nat)
    requires m > 0 && n > 0
    ensures m * n > 0 && (a / m) / n == a / (m * n)
  {
    var q, r := a / m, a % m;
    var p, t := q / n, q % n;
    NestedRest(a, m, n, q, r, p, t);
    DivUnique(a, m * n, p, t * m + r);
  }

  lemma NestedRest(a: int, m: int, n: int, q: int, r: int, p: int, t: int)
    requires m > 0 && n > 0 && a == q * m + r && q == p * n + t && 0 <= r < m && 0 <= t < n
    ensures m * n > 0 && a == p * (m * n) + (t * m + r) && 0 <= t * m + r < m * n
  {
    calc {
      q * m;
      (p * n + t) * m;
      p * n * m + t * m;
      p * (m * n) + t * m;
    }
    MulLe(t + 1, n, m);
    assert (t + 1) * m == t * m + m;
  }

  /** The two successive divisions are one. */
  lemma QuoQuo(a: int, m: int, n: int)
    requires m > 0 && n > 0
    ensures m * n > 0 && Quo(Quo(a, m), n) == Quo(a, m * n)
  {
    DivDiv(if a >= 0 then a else -a, m, n);
    DivSign(if a >= 0 then a else -a, m);
  }

  lemma DivSign(a: nat, m: int)
    requires m > 0
    ensures a / m >= 0
  {
  }

  lemma QuoBounds(x: int, m: int)
    requires m > 0
    ensures x - m < Quo(x, m) * m < x + m
  {
    var y := if x >= 0 then x else -x;
    assert y == y / m * m + y % m;
    if x < 0 { assert (-(y / m)) * m == -(y / m * m); }
  }

  lemma QuoMonotone(a: int, b: int, m: int)
    requires m > 0 && a <= b
    ensures Quo(a, m) <= Quo(b, m)
  {
    if a >= 0 {
      DivMonotone(a, b, m);
    } else if b < 0 {
      DivMonotone(-b, -a, m);
    } else {
      DivSign(-a, m);
      DivSign(b, m);
    }
  }

  lemma DivMonotone(a: int, b: int, m: int)
    requires m > 0 && a <= b
    ensures a / m <= b / m
  {
    assert (b / m + 1) * m == b / m * m + m;
    LessByMul(a / m, b / m + 1, m);
  }

  // ---------------------------------------------------------------- the plain list

  /** The last 256 observations, oldest first. */
  function Window(seen: seq<int>): seq<int> {
    if |seen| <= CAPACITY then seen else seen[|seen| - CAPACITY..]
  }

  /** The average in whole milliseconds as Avg computes it, with its 64-bit sum. */
  function Average(w: seq<int>): int {
    if w == [] then 0 else Quo(Quo(Wrap64(Sum(w)), |w|), MILLISECOND)
  }

  /** The same with an exact sum. */
  function TrueAverage(w: seq<int>): int {
    if w == [] then 0 else Quo(Sum(w), |w| * MILLISECOND)
  }

  /** The average is exact precisely when the sum fits 64 bits. */
  lemma AverageExactIff(w: seq<int>)
    requires |w| <= CAPACITY
    ensures Average(w) == TrueAverage(w) <==> InInt64(Sum(w))
  {
    if w != [] {
      var m := |w| * MILLISECOND;
      QuoQuo(Wrap64(Sum(w)), |w|, MILLISECOND);
      if !InInt64(Sum(w)) { FarQuotients(Wrap64(Sum(w)), Sum(w), m); }
    }
  }

  /** Numbers in different 64-bit laps have different quotients by anything up to 256 milliseconds. */
  lemma FarQuotients(a: int, b: int, m: int)
    requires 0 < m <= CAPACITY * MILLISECOND && InInt64(a) && !InInt64(b) && a == Wrap64(b)
    ensures Quo(a, m) != Quo(b, m)
  {
    var lap := 0x1_0000_0000_0000_0000;
    var k := (b - MIN_INT64) / lap;
    assert b == a + k * lap && k != 0;
    if k > 0 {
      assert b >= a + lap;
      Apart(a, b, m);
    } else {
      assert a >= b + lap;
      Apart(b, a, m);
    }
  }

  lemma Apart(a: int, b: int, m: int)
    requires 0 < m && a + 2 * m <= b
    ensures Quo(a, m) < Quo(b, m)
  {
    QuoBounds(a, m);
    QuoBounds(b, m);
    LessByMul(Quo(a, m), Quo(b, m), m);
  }

  lemma {:induction false} SumBounds(w: seq<int>, low: int, high: int)
    requires forall k :: 0 <= k < |w| ==> low <= w[k] <= high
    ensures low * |w| <= Sum(w) <= high * |w|
    decreases |w|
  {
    if w != [] {
      var n := |w| - 1;
      SumBounds(w[..n], low, high);
      assert low * (n + 1) == low * n + low && high * (n + 1) == high * n + high;
    }
  }

  lemma QuoScales(a: int, n: int, m: int)
    requires n > 0 && m > 0
    ensures n * m > 0 && Quo(a * n, n * m) == Quo(a, m)
  {
    QuoQuo(a * n, n, m);
    if a >= 0 { DivUnique(a * n, n, a, 0); } else { assert a * n < 0; DivUnique((-a) * n, n, -a, 0); }
  }

  /** While the sum fits, the average lies between the window's extremes, in milliseconds. */
  lemma AverageBetween(w: seq<int>, low: int, high: int)
    requires w != [] && |w| <= CAPACITY && InInt64(Sum(w))
    requires forall k :: 0 <= k < |w| ==> low <= w[k] <= high
    ensures Quo(low, MILLISECOND) <= Average(w) <= Quo(high, MILLISECOND)
  {
    AverageExactIff(w);
    SumBounds(w, low, high);
    var m := |w| * MILLISECOND;
    QuoMonotone(low * |w|, Sum(w), m);
    QuoMonotone(Sum(w), high * |w|, m);
    QuoScales(low, |w|, MILLISECOND);
    QuoScales(high, |w|, MILLISECOND);
  }

  /** Non-negative durations up to a 256th of the largest 64-bit one never overflow the sum. */
  lemma SmallNeverOverflow(w: seq<int>)
    requires |w| <= CAPACITY && forall k :: 0 <= k < |w| ==> 0 <= w[k] <= MAX_INT64 / CAPACITY
    ensures InInt64(Sum(w)) && Average(w) == TrueAverage(w)
  {
    SumBounds(w, 0, MAX_INT64 / CAPACITY);
    assert MAX_INT64 / CAPACITY * |w| <= MAX_INT64 / CAPACITY * CAPACITY;
    AverageExactIff(w);
  }

  // ---------------------------------------------------------------- the ring

  /** buf, idx and full stand for everything seen so far: the window, rotated. */
  ghost predicate Ring(buf: seq<int>, idx: int, full: bool, seen: seq<int>) {
    && |buf| == CAPACITY
    && idx == |seen| % CAPACITY
    && (full <==> |seen| >= CAPACITY)
    && (if full then Window(seen) == buf[idx..] + buf[..idx] else seen == buf[..idx])
  }

  lemma {:induction false} SumAppend(a: seq<int>, b: seq<int>)
    ensures Sum(a + b) == Sum(a) + Sum(b)
    decreases |b|
  {
    if b == [] {
      assert a + b == a;
    } else {
      assert (a + b)[..|a + b| - 1] == a + b[..|b| - 1];
      SumAppend(a, b[..|b| - 1]);
    }
  }

  /** The rotation does not matter to the sum. */
  lemma RingSum(buf: seq<int>, idx: int, full: bool, seen: seq<int>)
    requires Ring(buf, idx, full, seen)
    ensures var n := if full then CAPACITY else idx; n == |Window(seen)| && Sum(buf[..n]) == Sum(Window(seen))
  {
    if full {
      SumAppend(buf[idx..], buf[..idx]);
      SumAppend(buf[..idx], buf[idx..]);
      assert buf[..CAPACITY] == buf[..idx] + buf[idx..];
    }
  }

  lemma IndexNext(k: nat)
    ensures (k + 1) % CAPACITY == (k % CAPACITY + 1) % CAPACITY
    ensures k < CAPACITY ==> (k % CAPACITY == k && (k + 1 >= CAPACITY <==> (k + 1) % CAPACITY == 0))
  {
    DivUnique(k, CAPACITY, k / CAPACITY, k % CAPACITY);
    if k % CAPACITY == CAPACITY - 1 {
      DivUnique(k + 1, CAPACITY, k / CAPACITY + 1, 0);
    } else {
      DivUnique(k + 1, CAPACITY, k / CAPACITY, k % CAPACITY + 1);
    }
  }

  lemma WindowSlides(seen: seq<int>, d: int)
    requires |seen| >= CAPACITY
    ensures |Window(seen)| == CAPACITY && Window(seen + [d]) == Window(seen)[1..] + [d]
  {
  }

  lemma RotationSlides(buf: seq<int>, idx: nat, d: int)
    requires |buf| == CAPACITY && idx < CAPACITY
    ensures var next, after := (idx + 1) % CAPACITY, buf[idx := d];
            after[next..] + after[..next] == (buf[idx..] + buf[..idx])[1..] + [d]
  {
    var after := buf[idx := d];
    if idx + 1 == CAPACITY {
      assert after[0..] + after[..0] == (buf[idx..] + buf[..idx])[1..] + [d];
    } else {
      assert after[idx + 1..] + after[..idx + 1] == (buf[idx..] + buf[..idx])[1..] + [d];
    }
  }

  /** A full ring forgets its oldest, which sits at the index. */
  lemma FullRingAdd(buf: seq<int>, idx: nat, seen: seq<int>, d: int)
    requires |buf| == CAPACITY && idx < CAPACITY && |seen| >= CAPACITY && Window(seen) == buf[idx..] + buf[..idx]
    ensures var next, after := (idx + 1) % CAPACITY, buf[idx := d]; Window(seen + [d]) == after[next..] + after[..next]
  {
    hide Window;
    WindowSlides(seen, d);
    RotationSlides(buf, idx, d);
  }

  /** A ring filling up keeps everything, in place. */
  lemma FillingRingAdd(buf: seq<int>, idx: nat, seen: seq<int>, d: int)
    requires |buf| == CAPACITY && idx < CAPACITY && seen == buf[..idx]
    ensures var next, after := (idx + 1) % CAPACITY, buf[idx := d];
            if next == 0 then Window(seen + [d]) == after[next..] + after[..next] else seen + [d] == after[..next]
  {
    var after := buf[idx := d];
    assert after[..idx + 1] == buf[..idx] + [d];
    if idx + 1 == CAPACITY { assert after[0..] + after[..0] == after; }
  }

  lemma RingAdd(buf: seq<int>, idx: int, full: bool, seen: seq<int>, d: int)
    requires Ring(buf, idx, full, seen)
    ensures var next := (idx + 1) % CAPACITY; Ring(buf[idx := d], next, full || next == 0, seen + [d])
  {
    hide Window;
    IndexNext(|seen|);
    if full { FullRingAdd(buf, idx, seen, d); } else { FillingRingAdd(buf, idx, seen, d); }
  }

  class LatencyRing {
    var buf: array<int>
    var idx: int
    var full: bool
    ghost var seen: seq<int>

    ghost predicate Valid()
      reads this, buf
    {
      buf.Length == CAPACITY && Ring(buf[..], idx, full, seen)
    }

    constructor ()
      ensures Valid() && fresh(buf) && seen == []
    {
      buf := new int[CAPACITY](_ => 0);
      idx, full, seen := 0, false, [];
    }

    method Add(d: int)
      requires Valid()
      modifies this`idx, this`full, this`seen, buf
      ensures Valid() && seen == old(seen) + [d]
    {
      RingAdd(buf[..], idx, full, seen, d);
      ghost var before := buf[..];
      buf[idx] := d;
      assert buf[..] == before[idx := d];
      idx := (idx + 1) % CAPACITY;
      if idx == 0 {
        full := true;
      }
      seen := seen + [d];
    }

    method Avg() returns (ms: int)
      requires Valid()
      ensures ms == Average(Window(seen))
    {
      RingSum(buf[..], idx, full, seen);
      var n := if full then CAPACITY else idx;
      if n == 0 { return 0; }
      var total := 0;
      for i := 0 to n
        invariant total == Wrap64(Sum(buf[..i]))
      {
        assert buf[..i + 1][..i] == buf[..i];
        WrapAdds(Sum(buf[..i]), buf[i]);
        total := Wrap64(total + buf[i]);
      }
      assert buf[..][..n] == buf[..n];
      return Quo(Quo(total, n), MILLISECOND);
    }
  }
}
