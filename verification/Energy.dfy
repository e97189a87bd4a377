/**
 * Energy from power readings: the trapezoid rule over a 32-bit millisecond
 * clock, against the same sum over true time.
 *
 * Powers and energies are reals, so the guards against overflow to infinity
 * never fire and are not modelled.
 */
module Energy {
  import opened Bytes

  datatype Status = NOT_READY | VALID | ESTIMATED | INPUT_INVALID

  /** What the power sensor says. */
  datatype Reading = Reading(status: Status, powerW: Option<real>)

  predicate RequiresValue(s: Status) {
    s == VALID || s == ESTIMATED
  }

  function Classify(r: Reading): Status {
    var coherent := r.powerW.Some? && r.powerW.value >= 0.0;
    if (RequiresValue(r.status) && !coherent) || (!RequiresValue(r.status) && r.powerW.Some?) then INPUT_INVALID
    else r.status
  }

  predicate Usable(r: Reading) {
    RequiresValue(Classify(r))
  }

  lemma UsableExactlyWhen(r: Reading)
    ensures Usable(r) <==> RequiresValue(r.status) && r.powerW.Some? && r.powerW.value >= 0.0
    ensures Classify(r) == NOT_READY <==> r == Reading(NOT_READY, None)
  {}

  /** Watt-hours between two powers `ms` apart. */
  function Trapezoid(p0: real, p1: real, ms: nat): real {
    ((p0 + p1) / 2.0) * (ms as real) / 3600000.0
  }

  // ------------------------------------------------------------ the device

  datatype Measurement = Measurement(powerW: Option<real>, energyWh: real, status: Status)

  datatype Baseline = Baseline(has: bool, ms: nat, powerW: real)

  datatype Device = Device(m: Measurement, evaluated: bool, lastMs: nat, base: Baseline)

  const NO_BASELINE: Baseline := Baseline(false, 0, 0.0)

  function Elapsed(now: nat, since: nat): (d: nat)
    ensures d < U32
  {
    (now as int - since as int) % U32
  }

  function SetUp(): Device {
    Device(Measurement(None, 0.0, NOT_READY), false, 0, NO_BASELINE)
  }

  function ResetDone(d: Device): Device {
    d.(m := d.m.(energyWh := 0.0), base := NO_BASELINE)
  }

  function Evaluated(d: Device, now: nat, r: Reading): Device {
    if !Usable(r) then d.(m := d.m.(powerW := None, status := Classify(r)), base := NO_BASELINE)
    else
      var p := r.powerW.value;
      var more := if d.base.has then Trapezoid(d.base.powerW, p, Elapsed(now, d.base.ms)) else 0.0;
      d.(m := Measurement(Some(p), d.m.energyWh + more, Classify(r)), base := Baseline(true, now, p))
  }

  /** `now` is the device clock. */
  function Handled(d: Device, intervalMs: nat, now: nat, r: Reading): Device {
    if d.evaluated && Elapsed(now, d.lastMs) < intervalMs then d
    else Evaluated(d.(evaluated := true, lastMs := now), now, r)
  }

  class PowerEnergyCapability {
    const readingIntervalMs: nat
    var measurement: Measurement
    var evaluated: bool
    var lastEvaluationMs: nat
    var hasIntegrationBaseline: bool
    var integrationBaselineMs: nat
    var previousPowerW: real

    ghost function View(): Device
      reads this
    {
      Device(measurement, evaluated, lastEvaluationMs, Baseline(hasIntegrationBaseline, integrationBaselineMs, previousPowerW))
    }

    constructor (readingIntervalMs: nat)
      requires readingIntervalMs < U32
      ensures View() == SetUp() && this.readingIntervalMs == readingIntervalMs
    {
      this.readingIntervalMs := readingIntervalMs;
      measurement := Measurement(None, 0.0, NOT_READY);
      evaluated, lastEvaluationMs := false, 0;
      hasIntegrationBaseline, integrationBaselineMs, previousPowerW := false, 0, 0.0;
    }

    method Setup()
      modifies this
      ensures View() == SetUp()
    {
      measurement := Measurement(None, 0.0, NOT_READY);
      evaluated := false;
      hasIntegrationBaseline := false;
      lastEvaluationMs := 0;
      integrationBaselineMs := 0;
      previousPowerW := 0.0;
    }

    method ResetEnergy()
      modifies this
      ensures View() == ResetDone(old(View()))
    {
      measurement := measurement.(energyWh := 0.0);
      hasIntegrationBaseline := false;
      integrationBaselineMs := 0;
      previousPowerW := 0.0;
    }

    method Invalidate(status: Status)
      modifies this
      ensures View() == old(View()).(m := old(measurement).(powerW := None, status := status), base := NO_BASELINE)
    {
      measurement := measurement.(powerW := None, status := status);
      hasIntegrationBaseline := false;
      integrationBaselineMs := 0;
      previousPowerW := 0.0;
    }

    method Evaluate(nowMs: nat, power: Reading)
      modifies this
      ensures View() == Evaluated(old(View()), nowMs, power)
    {
      hide Trapezoid;
      var status := Classify(power);
      if status == NOT_READY || status == INPUT_INVALID {
        Invalidate(status);
        return;
      }
      var powerW := power.powerW.value;
      var nextEnergyWh := measurement.energyWh;
      if hasIntegrationBaseline {
        var elapsedMs := Elapsed(nowMs, integrationBaselineMs);
        nextEnergyWh := nextEnergyWh + Trapezoid(previousPowerW, powerW, elapsedMs);
      }
      measurement := Measurement(Some(powerW), nextEnergyWh, status);
      previousPowerW := powerW;
      integrationBaselineMs := nowMs;
      hasIntegrationBaseline := true;
    }

    method Handle(nowMs: nat, power: Reading)
      modifies this
      ensures View() == Handled(old(View()), readingIntervalMs, nowMs, power)
    {
      if evaluated && Elapsed(nowMs, lastEvaluationMs) < readingIntervalMs {
        return;
      }
      evaluated := true;
      lastEvaluationMs := nowMs;
      Evaluate(nowMs, power);
    }
  }

  // -------------------------------------------------- the same in true time

  /** A reading at a true time, which does not wrap. */
  datatype Sample = Sample(atMs: nat, reading: Reading)

  predicate Good(x: Sample) {
    Usable(x.reading)
  }

  /** The energy two neighbouring samples account for: none unless both are usable. */
  function Between(x: Sample, y: Sample): real {
    if Good(x) && Good(y) && x.atMs <= y.atMs
    then Trapezoid(x.reading.powerW.value, y.reading.powerW.value, y.atMs - x.atMs)
    else 0.0
  }

  function Integral(xs: seq<Sample>): real
    decreases |xs|
  {
    if |xs| < 2 then 0.0 else Integral(xs[..|xs| - 1]) + Between(xs[|xs| - 2], xs[|xs| - 1])
  }

  datatype Call = Handle(atMs: nat, reading: Reading) | Reset | Setup

  /** The samples taken since the last reset, and the last one taken since set-up. */
  datatype Log = Log(samples: seq<Sample>, latest: Option<Sample>)

  function Logged(g: Log, intervalMs: nat, c: Call): Log {
    match c
    case Setup => Log([], None)
    case Reset => g.(samples := [])
    case Handle(at, r) =>
      if g.latest.Some? && at < g.latest.value.atMs + intervalMs then g
      else Log(g.samples + [Sample(at, r)], Some(Sample(at, r)))
  }

  function LogOf(intervalMs: nat, calls: seq<Call>): Log
    decreases |calls|
  {
    if calls == [] then Log([], None) else Logged(LogOf(intervalMs, calls[..|calls| - 1]), intervalMs, calls[|calls| - 1])
  }

  /** The device clock at a true time. */
  function Clock(ms: nat): nat {
    ms % U32
  }

  function Stepped(d: Device, intervalMs: nat, c: Call): Device {
    match c
    case Setup => SetUp()
    case Reset => ResetDone(d)
    case Handle(at, r) => Handled(d, intervalMs, Clock(at), r)
  }

  function DeviceAfter(intervalMs: nat, calls: seq<Call>): Device
    decreases |calls|
  {
    if calls == [] then SetUp() else Stepped(DeviceAfter(intervalMs, calls[..|calls| - 1]), intervalMs, calls[|calls| - 1])
  }

  /** Every `handle` comes at or after the latest sample and within 2^32 ms of it. */
  predicate InReach(intervalMs: nat, calls: seq<Call>)
    decreases |calls|
  {
    calls == [] ||
    var before := calls[..|calls| - 1];
    InReach(intervalMs, before) &&
    match calls[|calls| - 1]
    case Handle(at, _) =>
      LogOf(intervalMs, before).latest.Some? ==>
        var x := LogOf(intervalMs, before).latest.value;
        x.atMs <= at < x.atMs + U32
    case _ => true
  }

  /** The device against the log. */
  predicate Matches(d: Device, g: Log) {
    && d.evaluated == g.latest.Some?
    && (g.latest.Some? ==>
          && d.lastMs == Clock(g.latest.value.atMs)
          && d.m.status == Classify(g.latest.value.reading)
          && d.m.powerW == if Good(g.latest.value) then g.latest.value.reading.powerW else None)
    && (g.latest.None? ==> d.m.status == NOT_READY && d.m.powerW == None)
    && (g.samples != [] ==> g.latest == Some(g.samples[|g.samples| - 1]))
    && (d.base.has <==> g.samples != [] && Good(g.samples[|g.samples| - 1]))
    && (d.base.has ==>
          var x := g.samples[|g.samples| - 1];
          d.base.ms == Clock(x.atMs) && d.base.powerW == x.reading.powerW.value)
    && d.m.energyWh == Integral(g.samples)
  }

  /** The difference of two wrapped clock values is the true difference when that is below 2^32. */
  lemma ElapsedIsTrue(now: nat, since: nat)
    requires since <= now
    ensures Elapsed(Clock(now), Clock(since)) == now - since <==> now - since < U32
  {
    assert Elapsed(Clock(now), Clock(since)) == (now - since) % U32;
  }

  lemma StepMatches(d: Device, g: Log, intervalMs: nat, c: Call)
    requires Matches(d, g)
    requires c.Handle? && g.latest.Some? ==> g.latest.value.atMs <= c.atMs < g.latest.value.atMs + U32
    ensures Matches(Stepped(d, intervalMs, c), Logged(g, intervalMs, c))
  {
    hide Trapezoid, Elapsed, Clock, Integral;
    match c
    case Setup => NoIntegral();
    case Reset => NoIntegral();
    case Handle(at, r) =>
      if g.latest.Some? {
        ElapsedIsTrue(at, g.latest.value.atMs);
      }
      Appended(g.samples, Sample(at, r));
  }

  /** After any calls in reach the device agrees with the log, whatever the clock's phase and however often it wraps. */
  lemma {:induction false} EnergyIsIntegral(intervalMs: nat, calls: seq<Call>)
    requires InReach(intervalMs, calls)
    ensures Matches(DeviceAfter(intervalMs, calls), LogOf(intervalMs, calls))
    decreases |calls|
  {
    hide Matches, Stepped, Logged;
    if calls == [] {
      NothingYet();
    } else {
      var before := calls[..|calls| - 1];
      EnergyIsIntegral(intervalMs, before);
      StepMatches(DeviceAfter(intervalMs, before), LogOf(intervalMs, before), intervalMs, calls[|calls| - 1]);
    }
  }

  lemma NothingYet()
    ensures Matches(SetUp(), Log([], None))
  {}

  // ----------------------------------------------- what the integral is like

  lemma TrapezoidBounds(p0: real, p1: real, ms: nat, lo: real, hi: real)
    requires lo <= p0 <= hi && lo <= p1 <= hi
    ensures Trapezoid(lo, lo, ms) <= Trapezoid(p0, p1, ms) <= Trapezoid(hi, hi, ms)
  {
    var t := ms as real;
    ScaleMonotone((lo + lo) / 2.0, (p0 + p1) / 2.0, t);
    ScaleMonotone((p0 + p1) / 2.0, (hi + hi) / 2.0, t);
  }

  lemma ScaleMonotone(a: real, b: real, t: real)
    requires a <= b && t >= 0.0
    ensures a * t <= b * t
  {}

  lemma SamePower(p: real, a: nat, b: nat)
    ensures Trapezoid(p, p, a + b) == Trapezoid(p, p, a) + Trapezoid(p, p, b)
    ensures Trapezoid(p, p, 0) == 0.0
  {
    var x, y := a as real, b as real;
    assert (a + b) as real == x + y;
    assert p * (x + y) == p * x + p * y;
    assert (p + p) / 2.0 == p;
  }

  /** A constant power of `p` watts for `ms` milliseconds is p * ms / 3600000 watt-hours. */
  lemma {:induction false} SteadyPower(xs: seq<Sample>, p: real)
    requires xs != [] && p >= 0.0
    requires forall i :: 0 <= i < |xs| ==> xs[i].reading == Reading(VALID, Some(p))
    requires forall i :: 0 <= i < |xs| - 1 ==> xs[i].atMs <= xs[i + 1].atMs
    ensures xs[0].atMs <= xs[|xs| - 1].atMs
    ensures Integral(xs) == p * (xs[|xs| - 1].atMs - xs[0].atMs) as real / 3600000.0
    decreases |xs|
  {
    hide Trapezoid;
    var n := |xs| - 1;
    if n == 0 {
      assert Integral(xs) == 0.0;
    } else {
      SteadyPower(xs[..n], p);
      var a, b := xs[n - 1].atMs - xs[0].atMs, xs[n].atMs - xs[n - 1].atMs;
      Rectangle(p, a);
      Rectangle(p, b);
      Rectangle(p, a + b);
      SamePower(p, a, b);
    }
  }

  lemma Rectangle(p: real, ms: nat)
    ensures Trapezoid(p, p, ms) == p * ms as real / 3600000.0
  {
    assert (p + p) / 2.0 == p;
  }

  /** Reading a linearly changing power once more on the way does not change the energy. */
  lemma LinearPower(p0: real, p1: real, p2: real, a: nat, b: nat)
    requires (p1 - p0) * (a + b) as real == (p2 - p0) * a as real
    ensures Trapezoid(p0, p2, a + b) == Trapezoid(p0, p1, a) + Trapezoid(p1, p2, b)
  {
    var x, y := a as real, b as real;
    assert (a + b) as real == x + y;
    assert p1 * (x + y) == p0 * y + p2 * x;
    assert (p0 + p2) * (x + y) == (p0 + p1) * x + (p1 + p2) * y;
    Halved(p0 + p2, x + y);
    Halved(p0 + p1, x);
    Halved(p1 + p2, y);
  }

  lemma Halved(p: real, t: real)
    ensures (p / 2.0) * t == (p * t) / 2.0
  {}

  lemma NoNegativeEnergy(x: Sample, y: Sample)
    ensures Between(x, y) >= 0.0
  {
    hide Trapezoid;
    if Good(x) && Good(y) && x.atMs <= y.atMs {
      var p, q := x.reading.powerW.value, y.reading.powerW.value;
      TrapezoidBounds(p, q, y.atMs - x.atMs, 0.0, if p < q then q else p);
      ZeroPower(y.atMs - x.atMs);
    }
  }

  lemma ZeroPower(ms: nat)
    ensures Trapezoid(0.0, 0.0, ms) == 0.0
  {}

  /** One more sample never lowers the energy. */
  lemma EnergyNeverFalls(xs: seq<Sample>, x: Sample)
    ensures Integral(xs) <= Integral(xs + [x])
  {
    hide Between;
    assert (xs + [x])[..|xs|] == xs;
    if xs != [] {
      NoNegativeEnergy(xs[|xs| - 1], x);
    }
  }

  /** Nothing accrues across a sample that is not usable: the stretches on its two sides simply add up. */
  lemma {:induction false} NothingAcrossInvalid(xs: seq<Sample>, bad: Sample, ys: seq<Sample>)
    requires !Good(bad)
    ensures Integral(xs + [bad] + ys) == Integral(xs) + Integral(ys)
    decreases |ys|
  {
    hide Between, Integral;
    var left := xs + [bad];
    var pre := left + ys;
    Appended(xs, bad);
    if ys == [] {
      assert pre == left;
      NoIntegral();
    } else {
      var n := |ys| - 1;
      var mid := left + ys[..n];
      assert pre == mid + [ys[n]] && ys == ys[..n] + [ys[n]];
      NothingAcrossInvalid(xs, bad, ys[..n]);
      Appended(mid, ys[n]);
      Appended(ys[..n], ys[n]);
      assert mid[|mid| - 1] == if n > 0 then ys[n - 1] else bad;
      NotAcross(bad, ys[n]);
    }
    if xs != [] {
      NotAcross(bad, xs[|xs| - 1]);
    }
  }

  lemma NoIntegral()
    ensures Integral([]) == 0.0
  {}

  lemma Appended(xs: seq<Sample>, x: Sample)
    ensures Integral(xs + [x]) == Integral(xs) + if xs == [] then 0.0 else Between(xs[|xs| - 1], x)
  {
    hide Between;
    assert (xs + [x])[..|xs|] == xs;
  }

  lemma NotAcross(bad: Sample, x: Sample)
    requires !Good(bad)
    ensures Between(bad, x) == 0.0 && Between(x, bad) == 0.0
  {}

  /** Milliseconds spent between neighbouring usable samples. */
  function ValidMs(xs: seq<Sample>): nat
    decreases |xs|
  {
    if |xs| < 2 then 0
    else
      var x, y := xs[|xs| - 2], xs[|xs| - 1];
      ValidMs(xs[..|xs| - 1]) + if Good(x) && Good(y) && x.atMs <= y.atMs then y.atMs - x.atMs else 0
  }

  /** Between the least and the greatest power for the whole of the valid time. */
  lemma {:induction false} EnergyBounds(xs: seq<Sample>, lo: real, hi: real)
    requires forall x :: x in xs && Good(x) ==> lo <= x.reading.powerW.value <= hi
    ensures Trapezoid(lo, lo, ValidMs(xs)) <= Integral(xs) <= Trapezoid(hi, hi, ValidMs(xs))
    decreases |xs|
  {
    hide Trapezoid;
    if |xs| < 2 {
      SamePower(lo, 0, 0);
      SamePower(hi, 0, 0);
    } else {
      var init := xs[..|xs| - 1];
      EnergyBounds(init, lo, hi);
      var x, y := xs[|xs| - 2], xs[|xs| - 1];
      if Good(x) && Good(y) && x.atMs <= y.atMs {
        var ms := y.atMs - x.atMs;
        TrapezoidBounds(x.reading.powerW.value, y.reading.powerW.value, ms, lo, hi);
        SamePower(lo, ValidMs(init), ms);
        SamePower(hi, ValidMs(init), ms);
      }
    }
  }

  /** One evaluation adds the trapezoid over the true gap exactly when the gap fits the clock, or no power flows. */
  lemma GapCountedExactlyWhen(d: Device, x: Sample, y: Sample)
    requires Good(x) && Good(y) && x.atMs <= y.atMs
    requires d.base == Baseline(true, Clock(x.atMs), x.reading.powerW.value)
    ensures Evaluated(d, Clock(y.atMs), y.reading).m.energyWh == d.m.energyWh + Between(x, y)
            <==> y.atMs - x.atMs < U32 || x.reading.powerW.value + y.reading.powerW.value == 0.0
  {
    var p, q := x.reading.powerW.value, y.reading.powerW.value;
    var e, gap := Elapsed(Clock(y.atMs), Clock(x.atMs)), y.atMs - x.atMs;
    ElapsedIsTrue(y.atMs, x.atMs);
    if p + q == 0.0 {
      assert p == 0.0 && q == 0.0;
    } else {
      LongerIsMore(p, q, e, gap);
    }
  }

  lemma LongerIsMore(p: real, q: real, a: nat, b: nat)
    requires p + q > 0.0
    ensures Trapezoid(p, q, a) == Trapezoid(p, q, b) <==> a == b
  {
    var h := (p + q) / 2.0;
    if a < b {
      assert h * (b as real - a as real) > 0.0;
    } else if b < a {
      assert h * (a as real - b as real) > 0.0;
    }
  }
}
