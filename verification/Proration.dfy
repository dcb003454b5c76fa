/** The arithmetic of a plan upgrade inside a paid period (ProrateUpgrade). Prices are
    in kopecks, quotas in bytes, instants and durations in microseconds. */
module Proration {

  type Time = int

  const SECOND: int := 1_000_000
  const INT64_MAX: int := 0x7fff_ffff_ffff_ffff

  datatype Terms = Terms(price: int, quota: int, duration: Time)

  /** Integer division of the source language: toward zero. */
  function Quotient(a: int, b: int): int
    requires b > 0
  {
    if a >= 0 then a / b else -((-a) / b)
  }

  /** Whole seconds left, at most one period. */
  function Remaining(duration: Time, now: Time, end: Time): int
  {
    var left := if end - now > duration then duration else end - now;
    Quotient(left, SECOND)
  }

  function Share(difference: int, remaining: int, period: int): int
    requires period > 0
  {
    var part := Quotient(difference * remaining, period);
    if part < 0 then 0 else part
  }

  /** Cost and extra quota. A period shorter than a second would divide by zero in the source. */
  function Prorate(current: Terms, next: Terms, now: Time, end: Time): (int, int)
    requires current.duration <= 0 || current.duration >= SECOND
  {
    if end <= now || current.duration <= 0 then (next.price, next.quota)
    else
      var remaining := Remaining(current.duration, now, end);
      var period := Quotient(current.duration, SECOND);
      (Share(next.price - current.price, remaining, period), Share(next.quota - current.quota, remaining, period))
  }

  // ---- Rounding -----------------------------------------------------------

  lemma FloorOf(a: int, p: int, q: int)
    requires p > 0 && q * p <= a < (q + 1) * p
    ensures a / p == q
  {
    var d := a / p;
    assert d * p <= a < (d + 1) * p;
    Scale(d + 1, q, p);
    Scale(q + 1, d, p);
  }

  lemma Scale(x: int, y: int, p: int)
    requires p > 0
    ensures x <= y ==> x * p <= y * p
  {
  }

  lemma FloorBounds(a: int, p: int)
    requires p > 0
    ensures (a / p) * p <= a < (a / p + 1) * p
  {
  }

  /** Rounding two parts down loses less than one unit against rounding their sum. */
  lemma FloorSum(a: int, b: int, p: int)
    requires p > 0
    ensures a / p + b / p <= (a + b) / p <= a / p + b / p + 1
  {
    FloorBounds(a, p);
    FloorBounds(b, p);
    var x, y := a / p, b / p;
    assert (x + y) * p == x * p + y * p;
    assert (x + y + 1) * p == x * p + y * p + p;
    assert (x + y + 2) * p == x * p + y * p + 2 * p;
    if a + b < (x + y + 1) * p {
      FloorOf(a + b, p, x + y);
    } else {
      FloorOf(a + b, p, x + y + 1);
    }
  }

  lemma FloorMonotone(a: int, b: int, p: int)
    requires p > 0 && a <= b
    ensures a / p <= b / p
  {
    FloorBounds(a, p);
    FloorBounds(b, p);
    var x, y := a / p, b / p;
    Scale(y + 1, x, p);
  }

  lemma Product(x: int, y: int)
    requires x >= 0 && y >= 0
    ensures x * y >= 0
  {
  }

  lemma ShareExact(d: int, r: int, p: int)
    requires d >= 0 && r >= 0 && p > 0
    ensures Share(d, r, p) == d * r / p >= 0
  {
    Product(d, r);
    FloorMonotone(0, d * r, p);
  }

  lemma ShareMonotone(d: int, r: int, s: int, p: int)
    requires d >= 0 && 0 <= r <= s && p > 0
    ensures Share(d, r, p) <= Share(d, s, p)
  {
    ShareExact(d, r, p);
    ShareExact(d, s, p);
    Product(d, s - r);
    assert d * s == d * r + d * (s - r);
    FloorMonotone(d * r, d * s, p);
  }

  lemma ShareWithin(d: int, r: int, p: int)
    requires d >= 0 && 0 <= r <= p && p > 0
    ensures 0 <= Share(d, r, p) <= d
  {
    ShareExact(d, r, p);
    Product(d, p - r);
    assert d * p == d * r + d * (p - r);
    FloorMonotone(d * r, d * p, p);
    FloorOf(d * p, p, d);
  }

  lemma ShareSplit(d: int, e: int, r: int, p: int)
    requires d >= 0 && e >= 0 && r >= 0 && p > 0
    ensures Share(d, r, p) + Share(e, r, p) <= Share(d + e, r, p) <= Share(d, r, p) + Share(e, r, p) + 1
  {
    ShareExact(d, r, p);
    ShareExact(e, r, p);
    ShareExact(d + e, r, p);
    assert (d + e) * r == d * r + e * r;
    FloorSum(d * r, e * r, p);
  }

  // ---- Chains of upgrades -------------------------------------------------

  ghost predicate Rising(v: seq<int>)
  {
    forall i, j :: 0 <= i < j < |v| ==> v[i] <= v[j]
  }

  ghost predicate Falling(r: seq<int>)
  {
    && (forall i :: 0 <= i < |r| ==> r[i] >= 0)
    && (forall i, j :: 0 <= i < j < |r| ==> r[i] >= r[j])
  }

  /** Shares paid on the way v[0], v[1], ... with remaining seconds r[0], r[1], ... */
  function ChainShare(v: seq<int>, r: seq<int>, p: int): int
    requires |v| == |r| + 1 && p > 0
    decreases |r|
  {
    if r == [] then 0 else Share(v[1] - v[0], r[0], p) + ChainShare(v[1..], r[1..], p)
  }

  lemma RisingTail(v: seq<int>)
    requires |v| >= 2 && Rising(v)
    ensures Rising(v[1..]) && v[0] <= v[1] <= v[|v| - 1]
  {
    if |v| > 2 {
      assert v[1] <= v[|v| - 1];
    }
  }

  lemma {:induction false} ChainAtMost(v: seq<int>, r: seq<int>, p: int)
    requires |v| == |r| + 1 && |r| > 0 && p > 0 && Rising(v) && Falling(r)
    ensures ChainShare(v, r, p) <= Share(v[|v| - 1] - v[0], r[0], p)
    decreases |r|
  {
    RisingTail(v);
    if |r| > 1 {
      ChainAtMost(v[1..], r[1..], p);
      assert r[1..][0] == r[1] && r[0] >= r[1];
      ShareMonotone(v[|v| - 1] - v[1], r[1], r[0], p);
      ShareSplit(v[1] - v[0], v[|v| - 1] - v[1], r[0], p);
    } else {
      assert ChainShare(v[1..], r[1..], p) == 0;
    }
  }

  lemma {:induction false} ChainAtLeast(v: seq<int>, r: seq<int>, p: int)
    requires |v| == |r| + 1 && |r| > 0 && p > 0 && Rising(v)
    requires r[0] >= 0 && forall i :: 0 <= i < |r| ==> r[i] == r[0]
    ensures ChainShare(v, r, p) >= Share(v[|v| - 1] - v[0], r[0], p) - (|r| - 1)
    decreases |r|
  {
    RisingTail(v);
    if |r| > 1 {
      assert r[1..][0] == r[1] == r[0];
      ChainAtLeast(v[1..], r[1..], p);
      ShareSplit(v[1] - v[0], v[|v| - 1] - v[1], r[0], p);
    } else {
      assert ChainShare(v[1..], r[1..], p) == 0;
    }
  }

  // ---- Upgrades -----------------------------------------------------------

  /** Upgrades through plans[0], plans[1], ... at times[0], times[1], ..., before the end
      of the period, between plans of one duration that never get cheaper or smaller. */
  ghost predicate Upgrades(plans: seq<Terms>, times: seq<Time>, end: Time)
  {
    && |plans| == |times| + 1 && |times| > 0
    && (forall i :: 0 <= i < |plans| ==> plans[i].duration == plans[0].duration >= SECOND)
    && (forall i, j :: 0 <= i < j < |plans| ==> plans[i].price <= plans[j].price && plans[i].quota <= plans[j].quota)
    && (forall i :: 0 <= i < |times| ==> times[i] < end)
    && (forall i, j :: 0 <= i < j < |times| ==> times[i] <= times[j])
  }

  /** Total cost and total extra quota of the chain. */
  function ChainTotal(plans: seq<Terms>, times: seq<Time>, end: Time): (int, int)
    requires |plans| == |times| + 1
    requires forall i :: 0 <= i < |plans| ==> plans[i].duration >= SECOND
    decreases |times|
  {
    if times == [] then (0, 0)
    else
      var first := Prorate(plans[0], plans[1], times[0], end);
      var rest := ChainTotal(plans[1..], times[1..], end);
      (first.0 + rest.0, first.1 + rest.1)
  }

  function Prices(plans: seq<Terms>): seq<int>
  {
    seq(|plans|, i requires 0 <= i < |plans| => plans[i].price)
  }

  function Quotas(plans: seq<Terms>): seq<int>
  {
    seq(|plans|, i requires 0 <= i < |plans| => plans[i].quota)
  }

  function Seconds(duration: Time, times: seq<Time>, end: Time): seq<int>
  {
    seq(|times|, i requires 0 <= i < |times| => Remaining(duration, times[i], end))
  }

  lemma RemainingFacts(duration: Time, t: Time, u: Time, end: Time)
    requires duration >= SECOND && t <= u < end
    ensures 0 <= Remaining(duration, u, end) <= Remaining(duration, t, end) <= Quotient(duration, SECOND)
  {
  }

  lemma {:induction false} ChainShares(plans: seq<Terms>, times: seq<Time>, end: Time)
    requires |plans| == |times| + 1
    requires forall i :: 0 <= i < |plans| ==> plans[i].duration == plans[0].duration >= SECOND
    requires forall i :: 0 <= i < |times| ==> times[i] < end
    ensures var d := plans[0].duration;
            var p := Quotient(d, SECOND);
            ChainTotal(plans, times, end)
            == (ChainShare(Prices(plans), Seconds(d, times, end), p), ChainShare(Quotas(plans), Seconds(d, times, end), p))
    decreases |times|
  {
    if times != [] {
      var d := plans[0].duration;
      assert Prices(plans)[1..] == Prices(plans[1..]);
      assert Quotas(plans)[1..] == Quotas(plans[1..]);
      assert Seconds(d, times, end)[1..] == Seconds(d, times[1..], end);
      ChainShares(plans[1..], times[1..], end);
    }
  }

  /** A chain of upgrades never costs more and never grants more than the direct upgrade
      at its first instant. */
  lemma ChainNeverMore(plans: seq<Terms>, times: seq<Time>, end: Time)
    requires Upgrades(plans, times, end)
    ensures var direct := Prorate(plans[0], plans[|plans| - 1], times[0], end);
            ChainTotal(plans, times, end).0 <= direct.0 && ChainTotal(plans, times, end).1 <= direct.1
  {
    var d := plans[0].duration;
    var r := Seconds(d, times, end);
    ChainShares(plans, times, end);
    forall i, j | 0 <= i <= j < |r|
      ensures 0 <= r[j] <= r[i]
    {
      if i < j {
        assert times[i] <= times[j];
      }
      RemainingFacts(d, times[i], times[j], end);
    }
    ChainAtMost(Prices(plans), r, Quotient(d, SECOND));
    ChainAtMost(Quotas(plans), r, Quotient(d, SECOND));
  }

  /** At one instant a chain of k upgrades is at most k-1 units lower than the direct one. */
  lemma ChainAtOnce(plans: seq<Terms>, times: seq<Time>, end: Time)
    requires Upgrades(plans, times, end)
    requires forall i :: 0 <= i < |times| ==> times[i] == times[0]
    ensures var direct := Prorate(plans[0], plans[|plans| - 1], times[0], end);
            && direct.0 - (|times| - 1) <= ChainTotal(plans, times, end).0
            && direct.1 - (|times| - 1) <= ChainTotal(plans, times, end).1
  {
    var d := plans[0].duration;
    ChainShares(plans, times, end);
    RemainingFacts(d, times[0], times[0], end);
    ChainAtLeast(Prices(plans), Seconds(d, times, end), Quotient(d, SECOND));
    ChainAtLeast(Quotas(plans), Seconds(d, times, end), Quotient(d, SECOND));
  }

  /** A prorated upgrade stays within the price and quota differences. */
  lemma ProrateWithin(current: Terms, next: Terms, now: Time, end: Time)
    requires current.duration >= SECOND && now < end
    ensures var (cost, quota) := Prorate(current, next, now, end);
            && 0 <= cost <= (if next.price > current.price then next.price - current.price else 0)
            && 0 <= quota <= (if next.quota > current.quota then next.quota - current.quota else 0)
  {
    var d := current.duration;
    var r, p := Remaining(d, now, end), Quotient(d, SECOND);
    RemainingFacts(d, now, now, end);
    ShareSigned(next.price - current.price, r, p);
    ShareSigned(next.quota - current.quota, r, p);
  }

  lemma ShareSigned(d: int, r: int, p: int)
    requires 0 <= r <= p && p > 0
    ensures 0 <= Share(d, r, p) <= if d > 0 then d else 0
  {
    if d >= 0 {
      ShareWithin(d, r, p);
    } else {
      Product(-d, r);
      assert (-d) * r == -(d * r);
      if d * r < 0 {
        FloorMonotone(0, -(d * r), p);
      }
    }
  }

  /** With the seeded plans no intermediate product leaves 64 bits. */
  lemma NoOverflow(current: Terms, next: Terms, now: Time, end: Time)
    requires now < end && SECOND <= current.duration <= 2_592_000 * SECOND
    requires 0 <= current.price <= 49_900 && 0 <= next.price <= 49_900
    requires 0 <= current.quota <= 2_000_000_000_000 && 0 <= next.quota <= 2_000_000_000_000
    ensures var r := Remaining(current.duration, now, end);
            && -INT64_MAX <= (next.price - current.price) * r <= INT64_MAX
            && -INT64_MAX <= (next.quota - current.quota) * r <= INT64_MAX
  {
    var r := Remaining(current.duration, now, end);
    RemainingFacts(current.duration, now, now, end);
    ProductWithin(next.price - current.price, r, 49_900);
    ProductWithin(next.quota - current.quota, r, 2_000_000_000_000);
  }

  lemma ProductWithin(d: int, r: int, bound: int)
    requires -bound <= d <= bound && 0 <= r <= 2_592_000 && bound >= 0
    ensures -(bound * 2_592_000) <= d * r <= bound * 2_592_000
  {
    Product(bound - d, r);
    Product(bound + d, r);
    assert (bound - d) * r == bound * r - d * r;
    assert (bound + d) * r == bound * r + d * r;
    Product(bound, 2_592_000 - r);
    assert bound * (2_592_000 - r) == bound * 2_592_000 - bound * r;
  }

  // ---- The exact share ----------------------------------------------------

  lemma ShareFloor(d: int, r: int, p: int)
    requires d >= 0 && r >= 0 && p > 0
    ensures Share(d, r, p) * p <= d * r < (Share(d, r, p) + 1) * p
  {
    Product(d, r);
    FloorBounds(d * r, p);
  }

  /** Inside a period the cost is the price difference times the whole seconds left, at most one
      period, over the seconds of a period, rounded down; so is the extra quota. */
  lemma ProrateExact(current: Terms, next: Terms, now: Time, end: Time)
    requires current.duration >= 1_000_000 && now < end
    requires current.price <= next.price && current.quota <= next.quota
    ensures var (cost, extra) := Prorate(current, next, now, end);
            var left := if end - now < current.duration then end - now else current.duration;
            var r, p := left / 1_000_000, current.duration / 1_000_000;
            && cost * p <= (next.price - current.price) * r < (cost + 1) * p
            && extra * p <= (next.quota - current.quota) * r < (extra + 1) * p
  {
    var left := if end - now < current.duration then end - now else current.duration;
    var r, p := left / 1_000_000, current.duration / 1_000_000;
    ShareFloor(next.price - current.price, r, p);
    ShareFloor(next.quota - current.quota, r, p);
  }

  /** A whole period left costs and grants exactly the differences; a period that is over, the
      full price and quota; a cheaper or smaller plan, nothing. */
  lemma ProrateEnds(current: Terms, next: Terms, now: Time, end: Time)
    requires current.duration >= 1_000_000
    ensures end <= now ==> Prorate(current, next, now, end) == (next.price, next.quota)
    ensures now + current.duration <= end && current.price <= next.price ==>
              Prorate(current, next, now, end).0 == next.price - current.price
    ensures now + current.duration <= end && current.quota <= next.quota ==>
              Prorate(current, next, now, end).1 == next.quota - current.quota
    ensures now < end && next.price <= current.price ==> Prorate(current, next, now, end).0 == 0
    ensures now < end && next.quota <= current.quota ==> Prorate(current, next, now, end).1 == 0
  {
    var p := current.duration / 1_000_000;
    if now + current.duration <= end {
      WholeShare(next.price - current.price, p);
      WholeShare(next.quota - current.quota, p);
    }
    if now < end {
      ProrateWithin(current, next, now, end);
    }
  }

  lemma WholeShare(d: int, p: int)
    requires p > 0
    ensures d >= 0 ==> Share(d, p, p) == d
  {
    if d >= 0 {
      ShareFloor(d, p, p);
      Between(Share(d, p, p), d, p);
    }
  }

  lemma Between(x: int, d: int, p: int)
    requires p > 0 && x * p <= d * p < (x + 1) * p
    ensures x == d
  {
  }
}
