/** The metered fare (internal/fare/engine.go) of a configuration the admin console accepts
    (internal/fare/handler.go). Amounts, distances and rates are reals. */
module FareEngine {

  datatype Config = Config(
    baseFare: int, baseKm: real, tier1: int, tier1MaxKm: real, tier2: int,
    nightPct: real, nightStart: int, nightEnd: int,
    waitingPerMin: real, waitingFreeMin: int, minFare: int, cancellationFee: int)

  predicate Valid(c: Config)
  {
    && c.baseFare > 0 && c.baseKm > 0.0 && c.tier1 > 0 && c.tier1MaxKm > c.baseKm && c.tier2 > 0
    && 0.0 <= c.nightPct <= 1.0
    && 0 <= c.nightStart <= 23 && 0 <= c.nightEnd <= 23 && c.nightStart != c.nightEnd
    && c.waitingPerMin >= 0.0 && c.waitingFreeMin >= 0
    && c.minFare >= c.baseFare && c.cancellationFee >= 0
  }

  function DistanceCharge(c: Config, km: real): real
  {
    if km > c.baseKm then
      var billable, cap := km - c.baseKm, c.tier1MaxKm - c.baseKm;
      if billable <= cap then billable * c.tier1 as real
      else cap * c.tier1 as real + (billable - cap) * c.tier2 as real
    else 0.0
  }

  predicate IsNight(hour: int, start: int, end: int)
  {
    if start > end then hour >= start || hour < end else start <= hour < end
  }

  /** What a subtotal is multiplied by at this hour. */
  function NightFactor(c: Config, hour: int): real
  {
    if IsNight(hour, c.nightStart, c.nightEnd) && c.nightPct > 0.0 then 1.0 + c.nightPct else 1.0
  }

  function Subtotal(c: Config, distanceCharge: real, hour: int): real
  {
    var subtotal := c.baseFare as real + distanceCharge;
    if IsNight(hour, c.nightStart, c.nightEnd) && c.nightPct > 0.0 then subtotal + subtotal * c.nightPct else subtotal
  }

  /** The seconds of waiting that are not free. */
  function Billable(c: Config, waitingSeconds: int): int
  {
    var billable := waitingSeconds - c.waitingFreeMin * 60;
    if billable < 0 then 0 else billable
  }

  function WaitingCharge(c: Config, waitingSeconds: int): real
  {
    Billable(c, waitingSeconds) as real / 60.0 * c.waitingPerMin
  }

  /** The bill for a distance charge and a waiting charge. */
  function Bill(c: Config, distanceCharge: real, hour: int, waitingCharge: real): real
  {
    var s := Subtotal(c, distanceCharge, hour);
    (if s < c.minFare as real then c.minFare as real else s) + waitingCharge
  }

  function TotalFare(c: Config, km: real, hour: int, waitingSeconds: int): real
  {
    Bill(c, DistanceCharge(c, km), hour, WaitingCharge(c, waitingSeconds))
  }

  function Max(a: real, b: real): real { if a < b then b else a }

  function Min(a: real, b: real): real { if a < b then a else b }

  // ---------------------------------------------------------------- the night

  /** Going round the clock from the first hour of the night: hour comes before the end does. */
  predicate Between(hour: int, start: int, end: int)
  {
    var h := if hour >= start then hour - start else hour - start + 24;
    var e := if end >= start then end - start else end - start + 24;
    h < e
  }

  /** The test with its two cases is the interval [start, end) on the clock face, across midnight or
      not; and the hours outside it are the interval from its end to its start. */
  lemma NightIsAnInterval(hour: int, start: int, end: int)
    requires 0 <= hour <= 23 && 0 <= start <= 23 && 0 <= end <= 23 && start != end
    ensures IsNight(hour, start, end) <==> Between(hour, start, end)
    ensures IsNight(hour, start, end) <==> !IsNight(hour, end, start)
  {
  }

  // ---------------------------------------------------------------- slopes

  lemma Scale(x: real, y: real, k: real)
    requires x <= y && k >= 0.0
    ensures x * k <= y * k
  {
  }

  /** f is between 0 and k times the step from x to y. */
  predicate Slope(fx: real, fy: real, k: real, step: real)
  {
    fx <= fy && fy - fx <= k * step
  }

  lemma Distribute(a: real, b: real, k: real)
    ensures (b - a) * k == b * k - a * k
  {
  }

  lemma Swap(a: real, b: real)
    ensures a * b == b * a
  {
  }

  lemma Sum(a: real, b: real, k: real)
    ensures (a + b) * k == a * k + b * k
  {
  }

  lemma OneStretch(a: real, r: real, m: real)
    requires 0.0 <= a && 0.0 <= r <= m
    ensures 0.0 <= a * r <= a * m
  {
    Swap(a, r);
    Swap(a, m);
    Scale(0.0, r, a);
    Scale(r, m, a);
  }

  lemma TwoStretches(a: real, b: real, ra: real, rb: real, m: real, step: real)
    requires 0.0 <= a && 0.0 <= b && a + b <= step && 0.0 <= ra <= m && 0.0 <= rb <= m
    ensures 0.0 <= a * ra + b * rb <= m * step
  {
    var first, second, whole := a * ra, b * rb, (a + b) * m;
    OneStretch(a, ra, m);
    OneStretch(b, rb, m);
    assert first + second <= whole by { Sum(a, b, m); }
    assert whole <= step * m by { Scale(a + b, step, m); }
    assert step * m == m * step by { Swap(m, step); }
  }

  lemma ScaledSlope(a: real, b: real, k: real, n: real, step: real)
    requires Slope(a, b, k, step) && n >= 0.0
    ensures Slope(a * n, b * n, k * n, step)
  {
    Scale(a, b, n);
    Scale(b - a, k * step, n);
    Distribute(a, b, n);
    assert k * step * n == k * n * step;
  }

  /** How much of the way is charged at the first rate, and how much at the second. */
  function FirstTierKm(c: Config, km: real): real
  {
    if km <= c.baseKm then 0.0 else Min(km, c.tier1MaxKm) - c.baseKm
  }

  function SecondTierKm(c: Config, km: real): real
  {
    if km <= c.tier1MaxKm then 0.0 else km - c.tier1MaxKm
  }

  lemma ChargeByTier(c: Config, km: real)
    requires Valid(c)
    ensures DistanceCharge(c, km) == Charge(c, FirstTierKm(c, km), SecondTierKm(c, km))
  {
    if km <= c.baseKm {
    } else if km <= c.tier1MaxKm {
      assert FirstTierKm(c, km) == km - c.baseKm && SecondTierKm(c, km) == 0.0;
    } else {
      assert FirstTierKm(c, km) == c.tier1MaxKm - c.baseKm;
    }
  }

  lemma StretchesFit(c: Config, x: real, y: real)
    requires Valid(c) && x <= y
    ensures FirstTierKm(c, x) <= FirstTierKm(c, y) && SecondTierKm(c, x) <= SecondTierKm(c, y)
    ensures FirstTierKm(c, y) - FirstTierKm(c, x) + SecondTierKm(c, y) - SecondTierKm(c, x) <= y - x
  {
  }

  /** The charge for so many kilometres of each tier. */
  function Charge(c: Config, first: real, second: real): real
  {
    first * c.tier1 as real + second * c.tier2 as real
  }

  lemma TwoTierSlope(c: Config, x1: real, x2: real, y1: real, y2: real, m: real, step: real)
    requires 0 <= c.tier1 && 0 <= c.tier2 && c.tier1 as real <= m && c.tier2 as real <= m
    requires x1 <= y1 && x2 <= y2 && y1 - x1 + (y2 - x2) <= step
    ensures Slope(Charge(c, x1, x2), Charge(c, y1, y2), m, step)
  {
    Distribute(x1, y1, c.tier1 as real);
    Distribute(x2, y2, c.tier2 as real);
    TwoStretches(y1 - x1, y2 - x2, c.tier1 as real, c.tier2 as real, m, step);
  }

  lemma TierSlope(c: Config, x: real, y: real)
    requires Valid(c) && x <= y
    ensures Slope(Charge(c, FirstTierKm(c, x), SecondTierKm(c, x)), Charge(c, FirstTierKm(c, y), SecondTierKm(c, y)),
                  Max(c.tier1 as real, c.tier2 as real), y - x)
  {
    StretchesFit(c, x, y);
    TwoTierSlope(c, FirstTierKm(c, x), SecondTierKm(c, x), FirstTierKm(c, y), SecondTierKm(c, y),
                 Max(c.tier1 as real, c.tier2 as real), y - x);
  }

  lemma DistanceSlope(c: Config, x: real, y: real)
    requires Valid(c) && x <= y
    ensures Slope(DistanceCharge(c, x), DistanceCharge(c, y), Max(c.tier1 as real, c.tier2 as real), y - x)
  {
    TierSlope(c, x, y);
    ChargeByTier(c, x);
    ChargeByTier(c, y);
  }

  lemma SubtotalIsScaled(c: Config, charge: real, hour: int)
    ensures Subtotal(c, charge, hour) == (c.baseFare as real + charge) * NightFactor(c, hour)
  {
  }

  lemma NightFactorBounds(c: Config, hour: int)
    requires Valid(c)
    ensures 1.0 <= NightFactor(c, hour) <= 1.0 + c.nightPct
  {
  }

  lemma ShiftedSlope(base: real, a: real, b: real, k: real, n: real, step: real)
    requires Slope(a, b, k, step) && n >= 0.0
    ensures Slope((base + a) * n, (base + b) * n, k * n, step)
  {
    ScaledSlope(base + a, base + b, k, n, step);
  }

  /** The dearer of the two rates, with the night surcharge if it is night. */
  function TopRate(c: Config, hour: int): real
  {
    Max(c.tier1 as real, c.tier2 as real) * NightFactor(c, hour)
  }

  lemma FlooredSlope(a: real, b: real, k: real, step: real, floor: real, extra: real)
    requires Slope(a, b, k, step)
    ensures Slope((if a < floor then floor else a) + extra, (if b < floor then floor else b) + extra, k, step)
  {
  }

  lemma SubtotalSlope(c: Config, dx: real, dy: real, step: real, hour: int)
    requires Valid(c) && Slope(dx, dy, Max(c.tier1 as real, c.tier2 as real), step)
    ensures Slope(Subtotal(c, dx, hour), Subtotal(c, dy, hour), TopRate(c, hour), step)
  {
    var n := NightFactor(c, hour);
    NightFactorBounds(c, hour);
    ShiftedSlope(c.baseFare as real, dx, dy, Max(c.tier1 as real, c.tier2 as real), n, step);
    SubtotalIsScaled(c, dx, hour);
    SubtotalIsScaled(c, dy, hour);
  }

  lemma BillSlope(c: Config, dx: real, dy: real, step: real, hour: int, waitingCharge: real)
    requires Valid(c) && Slope(dx, dy, Max(c.tier1 as real, c.tier2 as real), step)
    ensures Slope(Bill(c, dx, hour, waitingCharge), Bill(c, dy, hour, waitingCharge), TopRate(c, hour), step)
  {
    var sx, sy, k := Subtotal(c, dx, hour), Subtotal(c, dy, hour), TopRate(c, hour);
    SubtotalSlope(c, dx, dy, step, hour);
    FlooredSlope(sx, sy, k, step, c.minFare as real, waitingCharge);
  }

  /** The total never falls with distance, and by no more than the top rate does it rise for each
      kilometre. */
  lemma FareSlopeInDistance(c: Config, x: real, y: real, hour: int, waiting: int)
    requires Valid(c) && x <= y
    ensures Slope(TotalFare(c, x, hour, waiting), TotalFare(c, y, hour, waiting), TopRate(c, hour), y - x)
  {
    DistanceSlope(c, x, y);
    BillSlope(c, DistanceCharge(c, x), DistanceCharge(c, y), y - x, hour, WaitingCharge(c, waiting));
  }

  /** Nor does it fall with waiting, and a minute more costs a minute's rate at most. */
  lemma FareSlopeInWaiting(c: Config, km: real, hour: int, x: int, y: int)
    requires Valid(c) && x <= y
    ensures Slope(TotalFare(c, km, hour, x), TotalFare(c, km, hour, y), c.waitingPerMin, (y - x) as real / 60.0)
  {
    var bx, b2 := Billable(c, x), Billable(c, y);
    assert bx <= b2 && b2 - bx <= y - x;
    var rx, ry := bx as real / 60.0, b2 as real / 60.0;
    assert rx <= ry && ry - rx <= (y - x) as real / 60.0;
    Scale(rx, ry, c.waitingPerMin);
    Scale(ry - rx, (y - x) as real / 60.0, c.waitingPerMin);
    assert ry * c.waitingPerMin - rx * c.waitingPerMin == (ry - rx) * c.waitingPerMin;
  }

  lemma FareIsAtLeastMin(c: Config, km: real, hour: int, waiting: int)
    requires Valid(c)
    ensures TotalFare(c, km, hour, waiting) >= c.minFare as real > 0.0
    ensures km <= c.baseKm && waiting <= c.waitingFreeMin * 60 && !IsNight(hour, c.nightStart, c.nightEnd) ==>
              TotalFare(c, km, hour, waiting) == c.minFare as real
  {
    assert WaitingCharge(c, waiting) >= 0.0 by {
      assert Billable(c, waiting) as real / 60.0 >= 0.0;
      Scale(0.0, Billable(c, waiting) as real / 60.0, c.waitingPerMin);
    }
  }

  // ---------------------------------------------------------------- what the fare is

  /** The surcharge applies between two hours of the clock. */
  function NightRate(c: Config, hour: int): real
  {
    1.0 + if Between(hour, c.nightStart, c.nightEnd) then c.nightPct else 0.0
  }

  lemma NightFactorIs(c: Config, hour: int)
    requires Valid(c) && 0 <= hour <= 23
    ensures NightFactor(c, hour) == NightRate(c, hour)
  {
    NightIsAnInterval(hour, c.nightStart, c.nightEnd);
  }

  /** The price of the way: a flag fall, each tier's kilometres at its rate, and the surcharge on all of it. */
  function WayFare(c: Config, km: real, hour: int): real
  {
    Priced(c, FirstTierKm(c, km), SecondTierKm(c, km), hour)
  }

  function Priced(c: Config, first: real, second: real, hour: int): real
  {
    Metered(c, Charge(c, first, second), hour)
  }

  function Metered(c: Config, charge: real, hour: int): real
  {
    (c.baseFare as real + charge) * NightRate(c, hour)
  }

  /** The minutes beyond the free ones. */
  function PaidMinutes(c: Config, waitingSeconds: int): real
  {
    Max(0.0, waitingSeconds as real / 60.0 - c.waitingFreeMin as real)
  }

  lemma WaitingByMinute(c: Config, waiting: int)
    ensures WaitingCharge(c, waiting) == PaidMinutes(c, waiting) * c.waitingPerMin
  {
    assert (waiting - c.waitingFreeMin * 60) as real / 60.0 == waiting as real / 60.0 - c.waitingFreeMin as real;
  }

  lemma WayIsCharge(c: Config, km: real, hour: int)
    requires Valid(c)
    ensures WayFare(c, km, hour) == (c.baseFare as real + DistanceCharge(c, km)) * NightRate(c, hour)
  {
    ChargeByTier(c, km);
  }

  lemma WayIsSubtotal(c: Config, km: real, hour: int)
    requires Valid(c) && 0 <= hour <= 23
    ensures Subtotal(c, DistanceCharge(c, km), hour) == WayFare(c, km, hour)
  {
    WayIsCharge(c, km, hour);
    SubtotalIsScaled(c, DistanceCharge(c, km), hour);
    NightFactorIs(c, hour);
  }

  /** The fare is the price of the way, or the minimum if that is more, and each minute of waiting beyond the
      free ones at its rate. */
  lemma FareIs(c: Config, km: real, hour: int, waiting: int)
    requires Valid(c) && 0 <= hour <= 23
    ensures TotalFare(c, km, hour, waiting) == Max(c.minFare as real, WayFare(c, km, hour)) + PaidMinutes(c, waiting) * c.waitingPerMin
  {
    WayIsSubtotal(c, km, hour);
    WaitingByMinute(c, waiting);
  }

  /** At least the cheaper rate for each kilometre. */
  lemma CheaperRate(a: real, b: real, ra: real, rb: real, m: real)
    requires 0.0 <= a && 0.0 <= b && 0.0 <= m <= ra && m <= rb
    ensures (a + b) * m <= a * ra + b * rb
  {
    OneStretch(a, m, ra);
    OneStretch(b, m, rb);
    Sum(a, b, m);
  }

  /** What every kilometre costs at least. */
  function CheapRate(c: Config, hour: int): real
  {
    Min(c.tier1 as real, c.tier2 as real) * NightRate(c, hour)
  }

  lemma Regroup(a: real, b: real, n: real)
    ensures a * b * n == a * (b * n)
  {
  }

  lemma ScaledRise(base: real, dx: real, dy: real, rise: real, n: real)
    requires rise <= dy - dx && n >= 0.0
    ensures rise * n <= (base + dy) * n - (base + dx) * n
  {
    Scale(rise, dy - dx, n);
    Distribute(base + dx, base + dy, n);
    assert (base + dy) - (base + dx) == dy - dx;
  }

  lemma NotNegative(step: real, m: real, n: real)
    requires step >= 0.0 && m >= 0.0 && n >= 0.0
    ensures step * (m * n) >= 0.0
  {
    Scale(0.0, m, n);
    Swap(step, m * n);
    Scale(0.0, m * n, step);
  }

  lemma RegroupedRise(base: real, dx: real, dy: real, step: real, m: real, n: real)
    requires step * m <= dy - dx && n >= 0.0
    ensures step * (m * n) <= (base + dy) * n - (base + dx) * n
  {
    ScaledRise(base, dx, dy, step * m, n);
    Regroup(step, m, n);
  }

  /** Two ways, of x1 and x2 kilometres of the two tiers and of y1 and y2. */
  lemma ChargeRises(c: Config, x1: real, x2: real, y1: real, y2: real, step: real)
    requires Valid(c) && x1 <= y1 && x2 <= y2 && step == y1 - x1 + (y2 - x2)
    ensures step * Min(c.tier1 as real, c.tier2 as real) <= Charge(c, y1, y2) - Charge(c, x1, x2)
  {
    CheaperRate(y1 - x1, y2 - x2, c.tier1 as real, c.tier2 as real, Min(c.tier1 as real, c.tier2 as real));
    Distribute(x1, y1, c.tier1 as real);
    Distribute(x2, y2, c.tier2 as real);
  }

  lemma MeteredRises(c: Config, dx: real, dy: real, step: real, hour: int)
    requires Valid(c) && step >= 0.0 && step * Min(c.tier1 as real, c.tier2 as real) <= dy - dx
    ensures 0.0 <= step * CheapRate(c, hour) <= Metered(c, dy, hour) - Metered(c, dx, hour)
  {
    var m, n := Min(c.tier1 as real, c.tier2 as real), NightRate(c, hour);
    RegroupedRise(c.baseFare as real, dx, dy, step, m, n);
    NotNegative(step, m, n);
  }

  lemma LongerWay(c: Config, x1: real, x2: real, y1: real, y2: real, hour: int, step: real)
    requires Valid(c) && x1 <= y1 && x2 <= y2 && step == y1 - x1 + (y2 - x2)
    ensures 0.0 <= step * CheapRate(c, hour) <= Priced(c, y1, y2, hour) - Priced(c, x1, x2, hour)
  {
    ChargeRises(c, x1, x2, y1, y2, step);
    MeteredRises(c, Charge(c, x1, x2), Charge(c, y1, y2), step, hour);
  }

  lemma StretchesAdd(c: Config, x: real, y: real)
    requires Valid(c) && c.baseKm <= x <= y
    ensures y - x == FirstTierKm(c, y) - FirstTierKm(c, x) + (SecondTierKm(c, y) - SecondTierKm(c, x))
  {
  }

  lemma WayRises(c: Config, x: real, y: real, hour: int)
    requires Valid(c) && c.baseKm <= x <= y
    ensures 0.0 <= (y - x) * CheapRate(c, hour) <= WayFare(c, y, hour) - WayFare(c, x, hour)
  {
    StretchesFit(c, x, y);
    StretchesAdd(c, x, y);
    LongerWay(c, FirstTierKm(c, x), SecondTierKm(c, x), FirstTierKm(c, y), SecondTierKm(c, y), hour, y - x);
  }

  lemma FlooredRise(floor: real, wx: real, wy: real, p: real, extra: real)
    requires floor <= wx && 0.0 <= p <= wy - wx
    ensures (Max(floor, wy) + extra) - (Max(floor, wx) + extra) >= p
  {
  }

  /** Once the way costs more than the minimum, every further kilometre costs at least the cheaper rate, with
      the night surcharge; */
  lemma FareRisesInDistance(c: Config, x: real, y: real, hour: int, waiting: int)
    requires Valid(c) && 0 <= hour <= 23 && c.baseKm <= x <= y && WayFare(c, x, hour) >= c.minFare as real
    ensures TotalFare(c, y, hour, waiting) - TotalFare(c, x, hour, waiting) >= (y - x) * CheapRate(c, hour)
  {
    FareIs(c, x, hour, waiting);
    FareIs(c, y, hour, waiting);
    WayRises(c, x, y, hour);
    FlooredRise(c.minFare as real, WayFare(c, x, hour), WayFare(c, y, hour), (y - x) * CheapRate(c, hour),
                PaidMinutes(c, waiting) * c.waitingPerMin);
  }

  /** and every further minute beyond the free ones costs just its rate. */
  lemma FareRisesInWaiting(c: Config, km: real, hour: int, waiting: int, later: int)
    requires Valid(c) && 0 <= hour <= 23 && c.waitingFreeMin * 60 <= waiting <= later
    ensures TotalFare(c, km, hour, later) - TotalFare(c, km, hour, waiting) == (later - waiting) as real / 60.0 * c.waitingPerMin
  {
    FareIs(c, km, hour, waiting);
    FareIs(c, km, hour, later);
    MinutesPass(c, waiting, later);
  }

  lemma MinutesPass(c: Config, waiting: int, later: int)
    requires c.waitingFreeMin * 60 <= waiting <= later
    ensures PaidMinutes(c, later) * c.waitingPerMin - PaidMinutes(c, waiting) * c.waitingPerMin
            == (later - waiting) as real / 60.0 * c.waitingPerMin
  {
    var a, b := PaidMinutes(c, waiting), PaidMinutes(c, later);
    assert b - a == (later - waiting) as real / 60.0;
    Distribute(a, b, c.waitingPerMin);
  }
}
