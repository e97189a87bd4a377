/**
 * The ACS712 current sensor: five phases of warm-up, zero calibration and
 * measurement under a supply monitor and an ADC rate limit.
 *
 * Times are true elapsed times; the code sees them modulo 2^32. The functions on
 * `View` say what one call does, `Sensor` is the object, and the invariant about
 * every run follows. Reals stand for the floats.
 */
module CurrentSensor {
  import opened Bytes

  datatype Phase = WARMUP | RECALIBRATION_SETTLE | CALIBRATING | MEASURING | ZERO_FAILED
  datatype Status = NOT_READY | IN_CALIBRATION | ZERO_CALIBRATION_FAILED | ESTIMATED | VALID
                  | OUT_OF_CALIBRATED_RANGE | OVERCURRENT_OR_SATURATION
  datatype Supply = UNKNOWN | IN_RANGE | SUPPLY_OUT_OF_RANGE | NOT_MONITORED

  datatype Config = Config(
    monitored: bool,
    adcMinimumMv: real, adcMaximumMv: real,
    supplyValidMinimumMv: real, supplyValidMaximumMv: real, supplyMonitorToVccRatio: real,
    nominalZeroAdcMv: real, sensitivityAdcMvPerA: real, polarity: real, maximumZeroDeviationMv: real,
    startupWarmupMs: nat, recalibrationSettleMs: nat, zeroCalibrationSamples: nat,
    calibratedMinimumA: real, calibratedMaximumA: real, physicalMinimumA: real, physicalMaximumA: real,
    deadbandA: real, minimumReportableA: real,
    samplesPerReading: nat, sampleIntervalUs: nat, readingIntervalMs: nat, lowPassAlpha: real)

  /** What the builder checks before it constructs a sensor, as far as the sensor reads it. */
  predicate Validated(c: Config) {
    && 0.0 <= c.adcMinimumMv < c.adcMaximumMv
    && c.supplyMonitorToVccRatio > 0.0 && c.sensitivityAdcMvPerA > 0.0 && c.maximumZeroDeviationMv >= 0.0
    && (c.polarity == 1.0 || c.polarity == -1.0)
    && c.zeroCalibrationSamples > 0 && c.samplesPerReading > 0 && c.sampleIntervalUs > 0 && c.readingIntervalMs > 0
    && 0.0 < c.lowPassAlpha <= 1.0
    && c.deadbandA >= 0.0 && c.minimumReportableA >= 0.0
    && 0.0 <= c.calibratedMinimumA <= c.calibratedMaximumA
    && c.physicalMinimumA < 0.0 < c.physicalMaximumA
  }

  datatype Measurement = Measurement(current: Option<real>, status: Status, supply: Supply)

  /** Samples of the batch in progress: `taken` is the history, `sum` and `saturated` what the code keeps. */
  datatype Batch = Batch(taken: seq<nat>, sum: real, saturated: bool, active: bool)

  datatype Flags = Flags(ready: bool, validZero: bool, initial: bool, requested: bool)

  /** The stored 32-bit times. */
  datatype Times = Times(setupMs: nat, phaseMs: nat, completedMs: nat, stateReadMs: nat)

  /**
   * ADC and supply bookkeeping. History: `readTimes` holds the true time of every
   * ADC read ever made, `setups` how many had been made at each setup.
   */
  datatype Adc = Adc(hasRead: bool, lastUs: nat, hasSupply: bool, lastSupplyMs: nat, readTimes: seq<nat>, setups: seq<nat>)

  datatype View = View(phase: Phase, meas: Measurement, before: Measurement, zero: Option<real>, filter: Option<real>,
                       flags: Flags, batch: Batch, times: Times, adc: Adc)

  /** One call of `handle`: true time, and what each pin would read. */
  datatype Env = Env(ms: nat, us: nat, supplyMv: nat, signalMv: nat)

  // --------------------------------------------------------- specification

  function Abs(x: real): real {
    if x < 0.0 then -x else x
  }

  /** A 32-bit time stamp. */
  function Low(t: nat): nat {
    t % U32
  }

  predicate Elapsed(now: nat, since: nat, interval: nat) {
    (now - since) % U32 >= interval
  }

  const NO_BATCH := Batch([], 0.0, false, false)

  predicate SupplyDue(c: Config, a: Adc, ms: nat) {
    c.monitored && (!a.hasSupply || Elapsed(Low(ms), a.lastSupplyMs, c.readingIntervalMs))
  }

  predicate Eligible(c: Config, a: Adc, us: nat) {
    !a.hasRead || Elapsed(Low(us), a.lastUs, c.sampleIntervalUs)
  }

  function Read(a: Adc, us: nat): Adc {
    a.(hasRead := true, lastUs := Low(us), readTimes := a.readTimes + [us])
  }

  predicate Allows(s: Supply) {
    s == IN_RANGE || s == NOT_MONITORED
  }

  function SupplyStatus(c: Config, mv: nat): Supply
    requires Validated(c)
  {
    var supply := mv as real / c.supplyMonitorToVccRatio;
    if c.supplyValidMinimumMv <= supply <= c.supplyValidMaximumMv then IN_RANGE else SUPPLY_OUT_OF_RANGE
  }

  predicate SupplySampled(c: Config, v: View, e: Env) {
    SupplyDue(c, v.adc, e.ms) && Eligible(c, v.adc, e.us)
  }

  function WithSupply(m: Measurement, s: Supply): Measurement {
    Measurement(if s == SUPPLY_OUT_OF_RANGE then None else m.current, m.status, s)
  }

  function SampleSupply(c: Config, v: View, e: Env): View
    requires Validated(c)
  {
    v.(adc := Read(v.adc, e.us).(hasSupply := true, lastSupplyMs := Low(e.ms)),
       meas := WithSupply(v.meas, SupplyStatus(c, e.supplyMv)),
       times := if v.phase == WARMUP then v.times else v.times.(stateReadMs := Low(e.ms)))
  }

  function BeginCalibration(v: View, initial: bool, ms: nat): View {
    v.(flags := v.flags.(initial := initial), meas := Measurement(None, IN_CALIBRATION, v.meas.supply),
       phase := CALIBRATING, times := v.times.(phaseMs := Low(ms)), batch := NO_BATCH)
  }

  function AbortCalibration(v: View): View {
    var w := v.(batch := NO_BATCH);
    if v.flags.initial then
      w.(phase := WARMUP, meas := Measurement(None, NOT_READY, v.meas.supply))
    else
      var lost := v.meas.supply == SUPPLY_OUT_OF_RANGE || v.meas.supply == UNKNOWN;
      w.(meas := Measurement(if lost then None else v.before.current, v.before.status, v.meas.supply),
         phase := if v.before.status == ZERO_CALIBRATION_FAILED then ZERO_FAILED else MEASURING)
  }

  function Sampled(c: Config, b: Batch, mv: nat): Batch {
    Batch(b.taken + [mv], b.sum + mv as real,
          b.saturated || mv as real <= c.adcMinimumMv || mv as real >= c.adcMaximumMv, b.active)
  }

  function Mean(b: Batch): real
    requires b.taken != []
  {
    b.sum / |b.taken| as real
  }

  predicate GoodZero(c: Config, zero: real) {
    Abs(zero - c.nominalZeroAdcMv) <= c.maximumZeroDeviationMv
  }

  function CompleteCalibration(c: Config, v: View, ms: nat): View
    requires v.batch.taken != []
  {
    var zero := Mean(v.batch);
    var w := v.(batch := NO_BATCH);
    if v.batch.saturated || !GoodZero(c, zero) then
      w.(zero := None, flags := v.flags.(validZero := false),
         meas := Measurement(None, ZERO_CALIBRATION_FAILED, v.meas.supply), phase := ZERO_FAILED,
         times := v.times.(stateReadMs := Low(ms)))
    else
      w.(zero := Some(zero), flags := v.flags.(validZero := true), filter := None,
         meas := Measurement(if Allows(v.meas.supply) then Some(0.0) else None, ESTIMATED, v.meas.supply),
         phase := MEASURING, times := v.times.(stateReadMs := Low(ms), completedMs := Low(ms)))
  }

  function CollectCalibration(c: Config, v: View, e: Env): View {
    if !Eligible(c, v.adc, e.us) then v
    else
      var w := v.(adc := Read(v.adc, e.us), batch := Sampled(c, v.batch, e.signalMv));
      if |w.batch.taken| >= c.zeroCalibrationSamples then CompleteCalibration(c, w, e.ms) else w
  }

  function Filtered(c: Config, f: Option<real>, average: real): real {
    if f.None? then average else LowPass(c.lowPassAlpha, average, f.value)
  }

  function LowPass(alpha: real, average: real, last: real): real {
    alpha * average + (1.0 - alpha) * last
  }

  /** The reading in amperes for a filtered voltage, before classification. */
  function Amperes(c: Config, zero: real, mv: real): real
    requires Validated(c)
  {
    c.polarity * (mv - zero) / c.sensitivityAdcMvPerA
  }

  function Qualify(c: Config, m: Measurement, zero: Option<real>, saturated: bool, mv: real): Measurement
    requires Validated(c)
  {
    if saturated || zero.None? then Measurement(None, OVERCURRENT_OR_SATURATION, m.supply)
    else
      var a := Amperes(c, zero.value, mv);
      if a < c.physicalMinimumA || a > c.physicalMaximumA then Measurement(None, OVERCURRENT_OR_SATURATION, m.supply)
      else if Abs(a) > c.calibratedMaximumA then Measurement(None, OUT_OF_CALIBRATED_RANGE, m.supply)
      else
        var dead := Abs(a) < c.deadbandA || Abs(a) < c.minimumReportableA;
        var status := if dead || Abs(a) < c.calibratedMinimumA then ESTIMATED else VALID;
        var blind := m.supply == UNKNOWN || m.supply == SUPPLY_OUT_OF_RANGE;
        Measurement(if blind then None else Some(if dead then 0.0 else a), status, m.supply)
  }

  function CompleteMeasurement(c: Config, v: View, ms: nat): View
    requires Validated(c) && v.batch.taken != []
  {
    var f := Filtered(c, v.filter, Mean(v.batch));
    v.(filter := Some(f), meas := Qualify(c, v.meas, v.zero, v.batch.saturated, f), batch := NO_BATCH,
       times := v.times.(stateReadMs := Low(ms), completedMs := Low(ms)))
  }

  function CollectMeasurement(c: Config, v: View, e: Env): View
    requires Validated(c)
  {
    if !v.batch.active && !Elapsed(Low(e.ms), v.times.completedMs, c.readingIntervalMs) then v
    else
      var w := v.(batch := v.batch.(active := true));
      if !Eligible(c, w.adc, e.us) then w
      else
        var x := w.(adc := Read(w.adc, e.us), batch := Sampled(c, w.batch, e.signalMv));
        if |x.batch.taken| >= c.samplesPerReading then CompleteMeasurement(c, x, e.ms) else x
  }

  /** A pending recalibration request is taken up, refused, or waits for a first supply sample. */
  function TakeRequest(c: Config, v: View, e: Env): View
    requires Validated(c)
  {
    if v.meas.supply == UNKNOWN then (if SupplySampled(c, v, e) then SampleSupply(c, v, e) else v)
    else
      var w := v.(flags := v.flags.(requested := false));
      if !Allows(v.meas.supply) then w
      else
        w.(before := v.meas, flags := w.flags.(initial := false), meas := Measurement(None, IN_CALIBRATION, v.meas.supply),
           phase := RECALIBRATION_SETTLE, times := v.times.(phaseMs := Low(e.ms)))
  }

  predicate Busy(v: View) {
    v.phase == CALIBRATING || v.phase == RECALIBRATION_SETTLE
  }

  /** A supply sample in a calibrating phase, or the loss of the supply, comes before anything else. */
  function Guarded(v: View): View {
    if Allows(v.meas.supply) then v else AbortCalibration(v)
  }

  function PhaseStep(c: Config, v: View, e: Env): View
    requires Validated(c)
  {
    var sampled := SupplySampled(c, v, e);
    match v.phase
    case WARMUP =>
      if sampled then SampleSupply(c, v, e)
      else if Elapsed(Low(e.ms), v.times.setupMs, c.startupWarmupMs) && Allows(v.meas.supply) then BeginCalibration(v, true, e.ms)
      else v
    case RECALIBRATION_SETTLE =>
      if sampled then Guarded(SampleSupply(c, v, e))
      else if !Allows(v.meas.supply) then AbortCalibration(v)
      else if Elapsed(Low(e.ms), v.times.phaseMs, c.recalibrationSettleMs) then BeginCalibration(v, false, e.ms)
      else v
    case CALIBRATING =>
      if sampled then Guarded(SampleSupply(c, v, e))
      else if !Allows(v.meas.supply) then AbortCalibration(v)
      else CollectCalibration(c, v, e)
    case ZERO_FAILED =>
      if sampled then SampleSupply(c, v, e) else v
    case MEASURING =>
      if sampled then SampleSupply(c, v, e) else CollectMeasurement(c, v, e)
  }

  function Handled(c: Config, v: View, e: Env): View
    requires Validated(c)
  {
    if !v.flags.ready then v
    else if !Busy(v) && v.flags.requested then TakeRequest(c, v, e)
    else PhaseStep(c, v, e)
  }

  function FirstSupply(c: Config): Supply {
    if c.monitored then UNKNOWN else NOT_MONITORED
  }

  function ForgetReads(a: Adc): Adc {
    a.(hasRead := false, hasSupply := false, setups := a.setups + [|a.readTimes|])
  }

  function Setup(c: Config, v: View, ms: nat): View {
    View(WARMUP, Measurement(None, NOT_READY, FirstSupply(c)), v.before, None, None, v.flags.(ready := true, validZero := false, requested := false),
         NO_BATCH, v.times.(setupMs := Low(ms), phaseMs := Low(ms), stateReadMs := 0), ForgetReads(v.adc))
  }

  function Requested(v: View): View {
    if Busy(v) || (v.phase == WARMUP && !v.flags.validZero) then v
    else v.(flags := v.flags.(requested := true))
  }

  function Fresh(c: Config): View {
    var m := Measurement(None, NOT_READY, FirstSupply(c));
    View(WARMUP, m, Measurement(None, NOT_READY, NOT_MONITORED), None, None, Flags(false, false, true, false),
         NO_BATCH, Times(0, 0, 0, 0), Adc(false, 0, false, 0, [], []))
  }

  // -------------------------------------------------------------- invariant

  /** Outcomes of a measurement. */
  predicate Measured(s: Status) {
    s == ESTIMATED || s == VALID || s == OUT_OF_CALIBRATED_RANGE || s == OVERCURRENT_OR_SATURATION
  }

  /** A reading is offered only with its supply known good and inside the calibrated range. */
  ghost predicate CurrentInv(c: Config, m: Measurement) {
    m.current.Some? ==>
      Allows(m.supply) && (m.status == ESTIMATED || m.status == VALID) && Abs(m.current.value) <= c.calibratedMaximumA
  }

  ghost predicate ZeroStored(c: Config, v: View) {
    v.zero.Some? && GoodZero(c, v.zero.value) && v.flags.validZero
  }

  /** What an aborted recalibration will go back to. */
  ghost predicate Resumable(c: Config, v: View) {
    if v.before.status == ZERO_CALIBRATION_FAILED then v.zero == None
    else Measured(v.before.status) && ZeroStored(c, v)
  }

  ghost predicate PhaseInv(c: Config, v: View) {
    match v.phase
    case WARMUP =>
      v.meas.status == NOT_READY && v.meas.current == None && v.zero == None && !v.flags.validZero && !v.flags.requested
    case RECALIBRATION_SETTLE =>
      v.meas.status == IN_CALIBRATION && v.meas.current == None && !v.flags.initial && !v.flags.requested && Resumable(c, v)
    case CALIBRATING =>
      && v.meas.status == IN_CALIBRATION && v.meas.current == None && !v.flags.requested
      && (if v.flags.initial then v.zero == None && !v.flags.validZero else Resumable(c, v))
    case MEASURING =>
      Measured(v.meas.status) && ZeroStored(c, v)
    case ZERO_FAILED =>
      v.meas.status == ZERO_CALIBRATION_FAILED && v.meas.current == None && v.zero == None
  }

  ghost predicate Inv(c: Config, v: View) {
    PhaseInv(c, v) && CurrentInv(c, v.meas) && (v.meas.supply == NOT_MONITORED <==> !c.monitored)
  }

  lemma FreshInv(c: Config)
    ensures Inv(c, Fresh(c))
  {}

  lemma SampleSupplyInv(c: Config, v: View, e: Env)
    requires Validated(c) && Inv(c, v) && c.monitored
    ensures Inv(c, SampleSupply(c, v, e)) && SampleSupply(c, v, e).flags == v.flags
  {
    hide GoodZero;
  }

  lemma AbortInv(c: Config, v: View)
    requires Inv(c, v) && Busy(v) && !Allows(v.meas.supply)
    ensures Inv(c, AbortCalibration(v))
  {
    hide GoodZero;
  }

  lemma CollectCalibrationInv(c: Config, v: View, e: Env)
    requires Validated(c) && Inv(c, v) && v.phase == CALIBRATING
    ensures Inv(c, CollectCalibration(c, v, e))
  {
    hide GoodZero, Mean;
  }

  lemma QualifyInv(c: Config, m: Measurement, zero: Option<real>, saturated: bool, mv: real)
    requires Validated(c)
    ensures var q := Qualify(c, m, zero, saturated, mv);
            CurrentInv(c, q) && Measured(q.status) && q.supply == m.supply
  {
    hide Amperes;
  }

  lemma CollectMeasurementInv(c: Config, v: View, e: Env)
    requires Validated(c) && Inv(c, v) && v.phase == MEASURING
    ensures Inv(c, CollectMeasurement(c, v, e))
  {
    hide GoodZero, Mean, Qualify, CurrentInv, Filtered;
    var w := v.(batch := v.batch.(active := true));
    var x := w.(adc := Read(w.adc, e.us), batch := Sampled(c, w.batch, e.signalMv));
    QualifyInv(c, v.meas, v.zero, x.batch.saturated, Filtered(c, v.filter, Mean(x.batch)));
  }

  lemma PhaseStepInv(c: Config, v: View, e: Env)
    requires Validated(c) && Inv(c, v)
    ensures Inv(c, PhaseStep(c, v, e))
  {
    hide GoodZero, SampleSupply, CollectCalibration, CollectMeasurement, Elapsed;
    if SupplySampled(c, v, e) {
      SampleSupplyInv(c, v, e);
      var w := SampleSupply(c, v, e);
      assert w.phase == v.phase by { SamplePhase(c, v, e); }
      if Busy(w) && !Allows(w.meas.supply) {
        AbortInv(c, w);
      }
    } else {
      match v.phase
      case CALIBRATING =>
        if !Allows(v.meas.supply) { AbortInv(c, v); } else { CollectCalibrationInv(c, v, e); }
      case RECALIBRATION_SETTLE =>
        if !Allows(v.meas.supply) { AbortInv(c, v); }
      case MEASURING => CollectMeasurementInv(c, v, e);
      case _ =>
    }
  }

  lemma SamplePhase(c: Config, v: View, e: Env)
    requires Validated(c)
    ensures SampleSupply(c, v, e).phase == v.phase
  {}

  lemma HandledInv(c: Config, v: View, e: Env)
    requires Validated(c) && Inv(c, v)
    ensures Inv(c, Handled(c, v, e))
  {
    hide GoodZero, SampleSupply, PhaseStep;
    PhaseStepInv(c, v, e);
    if SupplySampled(c, v, e) {
      SampleSupplyInv(c, v, e);
    }
  }

  datatype Event = DoSetup(ms: nat) | DoHandle(e: Env) | DoRequest

  function Next(c: Config, v: View, ev: Event): View
    requires Validated(c)
  {
    match ev
    case DoSetup(ms) => Setup(c, v, ms)
    case DoHandle(e) => Handled(c, v, e)
    case DoRequest => Requested(v)
  }

  function Run(c: Config, v: View, evs: seq<Event>): View
    requires Validated(c)
    decreases |evs|
  {
    if evs == [] then v else Run(c, Next(c, v, evs[0]), evs[1..])
  }

  lemma {:induction false} RunInv(c: Config, v: View, evs: seq<Event>)
    requires Validated(c) && Inv(c, v)
    ensures Inv(c, Run(c, v, evs))
    decreases |evs|
  {
    hide Handled, GoodZero;
    if evs != [] {
      if evs[0].DoHandle? {
        HandledInv(c, v, evs[0].e);
      }
      RunInv(c, Next(c, v, evs[0]), evs[1..]);
    }
  }

  // ------------------------------------------------- the batch being averaged

  function Sum(taken: seq<nat>): real {
    if taken == [] then 0.0 else Sum(taken[..|taken| - 1]) + taken[|taken| - 1] as real
  }

  predicate AtLimit(c: Config, mv: nat) {
    mv as real <= c.adcMinimumMv || mv as real >= c.adcMaximumMv
  }

  /** Some sample lies outside the open ADC interval. */
  predicate Saturates(c: Config, taken: seq<nat>) {
    exists i :: 0 <= i < |taken| && AtLimit(c, taken[i])
  }

  ghost predicate BatchInv(c: Config, v: View) {
    && (v.phase != WARMUP ==> v.flags.ready)
    && v.batch.sum == Sum(v.batch.taken)
    && (v.batch.saturated <==> Saturates(c, v.batch.taken))
    && (v.phase == CALIBRATING ==> |v.batch.taken| < c.zeroCalibrationSamples)
    && (v.phase == MEASURING ==> |v.batch.taken| < c.samplesPerReading)
  }

  lemma SampledInv(c: Config, b: Batch, mv: nat)
    requires b.sum == Sum(b.taken) && (b.saturated <==> Saturates(c, b.taken))
    ensures var s := Sampled(c, b, mv); s.sum == Sum(s.taken) && (s.saturated <==> Saturates(c, s.taken))
  {
    var t := b.taken + [mv];
    assert t[..|t| - 1] == b.taken && t[|b.taken|] == mv;
    if Saturates(c, b.taken) {
      var i :| 0 <= i < |b.taken| && AtLimit(c, b.taken[i]);
      assert AtLimit(c, t[i]);
    }
    if Saturates(c, t) {
      var i :| 0 <= i < |t| && AtLimit(c, t[i]);
      assert i < |b.taken| ==> t[i] == b.taken[i];
    }
  }

  lemma PhaseStepBatch(c: Config, v: View, e: Env)
    requires Validated(c) && BatchInv(c, v) && v.flags.ready
    ensures BatchInv(c, PhaseStep(c, v, e))
  {
    hide Saturates, Sum, GoodZero, Mean, Qualify, Filtered, Elapsed, SupplyStatus;
    EmptyBatch(c);
    SampledInv(c, v.batch, e.signalMv);
    SampledInv(c, v.batch.(active := true), e.signalMv);
  }

  lemma EmptyBatch(c: Config)
    ensures Sum([]) == 0.0 && !Saturates(c, [])
  {}

  lemma NextBatch(c: Config, v: View, ev: Event)
    requires Validated(c) && Inv(c, v) && BatchInv(c, v)
    ensures BatchInv(c, Next(c, v, ev))
  {
    hide Saturates, Sum, PhaseStep, GoodZero, SupplyStatus, Elapsed;
    EmptyBatch(c);
    match ev
    case DoHandle(e) =>
      if v.flags.ready {
        PhaseStepBatch(c, v, e);
      }
    case _ =>
  }

  lemma {:induction false} RunBatch(c: Config, v: View, evs: seq<Event>)
    requires Validated(c) && Inv(c, v) && BatchInv(c, v)
    ensures Inv(c, Run(c, v, evs)) && BatchInv(c, Run(c, v, evs))
    decreases |evs|
  {
    hide Handled, PhaseInv, CurrentInv, BatchInv;
    if evs != [] {
      NextInv(c, v, evs[0]);
      NextBatch(c, v, evs[0]);
      RunBatch(c, Next(c, v, evs[0]), evs[1..]);
    }
  }

  lemma NextInv(c: Config, v: View, ev: Event)
    requires Validated(c) && Inv(c, v)
    ensures Inv(c, Next(c, v, ev))
  {
    hide Handled, GoodZero;
    if ev.DoHandle? {
      HandledInv(c, v, ev.e);
    }
  }

  // --------------------------------------------------------- the rate limit

  /** Reads before the last setup. */
  function Mark(a: Adc): nat {
    if a.setups == [] then 0 else a.setups[|a.setups| - 1]
  }

  /** Neighbouring reads are a sample interval apart unless a setup came between them. */
  ghost predicate Spaced(c: Config, a: Adc, now: nat) {
    && (a.hasRead <==> |a.readTimes| > Mark(a))
    && (a.setups == [] || Mark(a) <= |a.readTimes|)
    && (a.hasRead ==> a.lastUs == Low(a.readTimes[|a.readTimes| - 1]))
    && (forall i :: 0 <= i < |a.readTimes| ==> a.readTimes[i] <= now)
    && (forall k :: 0 < k < |a.readTimes| ==> Gap(a.readTimes, k) >= if k in a.setups then 0 else c.sampleIntervalUs)
  }

  /** From one read to the next. */
  function Gap(t: seq<nat>, k: nat): int
    requires 0 < k < |t|
  {
    t[k] as int - t[k - 1]
  }

  /** Any two reads are a sample interval apart. */
  ghost predicate AllSpaced(c: Config, t: seq<nat>) {
    forall i, j :: 0 <= i < j < |t| ==> t[j] - t[i] >= c.sampleIntervalUs
  }

  /** A wrapped difference never exceeds the true one. */
  lemma WrappedGap(now: nat, since: nat)
    requires since <= now
    ensures (Low(now) - Low(since)) % U32 <= now - since
  {}

  lemma ReadSpaced(c: Config, a: Adc, us: nat, now: nat)
    requires Spaced(c, a, now) && now <= us && Eligible(c, a, us)
    ensures Spaced(c, Read(a, us), us)
  {
    var t, n := a.readTimes, |a.readTimes|;
    if a.hasRead {
      WrappedGap(us, t[n - 1]);
    } else if n > 0 {
      assert a.setups[|a.setups| - 1] == n;
    }
    forall k | 0 < k < n + 1
      ensures Gap(t + [us], k) >= if k in a.setups then 0 else c.sampleIntervalUs
    {
      if k < n {
        assert Gap(t + [us], k) == Gap(t, k);
      }
    }
  }

  /** A call of `handle` reads the ADC at most once, and only when the limit allows it. */
  lemma HandledReads(c: Config, v: View, e: Env)
    requires Validated(c)
    ensures var a, b := v.adc, Handled(c, v, e).adc;
            && b.setups == a.setups
            && (|| (b.readTimes == a.readTimes && b.hasRead == a.hasRead && b.lastUs == a.lastUs)
                || (Eligible(c, a, e.us) && b.readTimes == a.readTimes + [e.us] && b.hasRead && b.lastUs == Low(e.us)))
  {
    hide Elapsed, GoodZero, Mean, Qualify, Filtered, SupplyStatus;
  }

  /** True time never runs backwards: each `handle` comes at or after `from` and its predecessors. */
  predicate Ordered(evs: seq<Event>, from: nat) {
    evs == [] ||
    if evs[0].DoHandle? then from <= evs[0].e.us && Ordered(evs[1..], evs[0].e.us) else Ordered(evs[1..], from)
  }

  function EndOf(evs: seq<Event>, from: nat): nat {
    if evs == [] then from else EndOf(evs[1..], if evs[0].DoHandle? then evs[0].e.us else from)
  }

  lemma {:induction false} RunSpaced(c: Config, v: View, evs: seq<Event>, from: nat)
    requires Validated(c) && Spaced(c, v.adc, from) && Ordered(evs, from)
    ensures Spaced(c, Run(c, v, evs).adc, EndOf(evs, from))
    decreases |evs|
  {
    hide Handled, Setup;
    if evs != [] {
      var w := Next(c, v, evs[0]);
      match evs[0] {
        case DoSetup(ms) =>
          SetupAdc(c, v, ms);
          SetupSpaced(c, v.adc, from);
        case DoHandle(e) =>
          HandledReads(c, v, e);
          if w.adc.readTimes != v.adc.readTimes {
            ReadSpaced(c, v.adc, e.us, from);
          }
        case DoRequest =>
      }
      RunSpaced(c, w, evs[1..], if evs[0].DoHandle? then evs[0].e.us else from);
    }
  }

  lemma SetupAdc(c: Config, v: View, ms: nat)
    ensures Setup(c, v, ms).adc == ForgetReads(v.adc)
  {}

  lemma SetupSpaced(c: Config, a: Adc, now: nat)
    requires Spaced(c, a, now)
    ensures Spaced(c, ForgetReads(a), now)
  {}

  /** Reads with no setup between them are spaced pairwise. */
  lemma {:induction false} NoSetupBetween(c: Config, a: Adc, now: nat, i: nat, j: nat)
    requires Spaced(c, a, now) && i < j < |a.readTimes|
    requires forall k :: k in a.setups ==> !(i < k <= j)
    ensures a.readTimes[j] - a.readTimes[i] >= c.sampleIntervalUs
    decreases j
  {
    assert Gap(a.readTimes, j) >= c.sampleIntervalUs;
    if i < j - 1 {
      NoSetupBetween(c, a, now, i, j - 1);
    }
  }

  lemma {:induction false} Ascending(c: Config, a: Adc, now: nat, i: nat, j: nat)
    requires Spaced(c, a, now) && i <= j < |a.readTimes|
    ensures a.readTimes[i] <= a.readTimes[j]
    decreases j
  {
    if i < j {
      assert Gap(a.readTimes, j) >= 0;
      Ascending(c, a, now, i, j - 1);
    }
  }

  /** All reads are spaced exactly when neighbours are. */
  lemma SpacedByNeighbours(c: Config, a: Adc, now: nat)
    requires Spaced(c, a, now)
    ensures AllSpaced(c, a.readTimes) <==> forall k :: 0 < k < |a.readTimes| ==> Gap(a.readTimes, k) >= c.sampleIntervalUs
  {
    var t := a.readTimes;
    if forall k :: 0 < k < |t| ==> Gap(t, k) >= c.sampleIntervalUs {
      forall i, j | 0 <= i < j < |t|
        ensures t[j] - t[i] >= c.sampleIntervalUs
      {
        assert Gap(t, j) >= c.sampleIntervalUs;
        Ascending(c, a, now, i, j - 1);
      }
    }
  }

  // ------------------------------------------------------------- what follows

  /** Every run on a validated configuration. */
  lemma SensorRuns(c: Config, evs: seq<Event>)
    requires Validated(c)
    ensures var v := Run(c, Fresh(c), evs);
            && (v.phase == MEASURING ==>
                  v.zero.Some? && -c.maximumZeroDeviationMv <= v.zero.value - c.nominalZeroAdcMv <= c.maximumZeroDeviationMv)
            && (v.meas.current.Some? ==>
                  && (v.meas.supply == IN_RANGE || v.meas.supply == NOT_MONITORED)
                  && (v.meas.status == ESTIMATED || v.meas.status == VALID)
                  && Abs(v.meas.current.value) <= c.calibratedMaximumA)
            && (v.phase == ZERO_FAILED <==> v.meas.status == ZERO_CALIBRATION_FAILED)
            && (v.phase == WARMUP ==> !v.flags.requested)
            && (v.flags.requested ==> v.phase == MEASURING || v.phase == ZERO_FAILED)
  {
    FreshInv(c);
    RunInv(c, Fresh(c), evs);
  }

  /** Any two ADC reads with no setup between them, on either pin, are a sample interval apart in true time. */
  lemma ReadsSpaced(c: Config, evs: seq<Event>, i: nat, j: nat)
    requires Validated(c) && Ordered(evs, 0)
    requires var a := Run(c, Fresh(c), evs).adc;
             i < j < |a.readTimes| && forall k :: k in a.setups ==> !(i < k <= j)
    ensures var t := Run(c, Fresh(c), evs).adc.readTimes; t[j] - t[i] >= c.sampleIntervalUs
  {
    RunSpaced(c, Fresh(c), evs, 0);
    NoSetupBetween(c, Run(c, Fresh(c), evs).adc, EndOf(evs, 0), i, j);
  }

  /**
   * Over a whole run all reads are a sample interval apart if and only if the
   * first read after each setup is, counted from the read before that setup.
   */
  lemma SpacedExactlyWhen(c: Config, evs: seq<Event>)
    requires Validated(c) && Ordered(evs, 0)
    ensures var a := Run(c, Fresh(c), evs).adc;
            AllSpaced(c, a.readTimes) <==>
            forall k :: k in a.setups && 0 < k < |a.readTimes| ==> Gap(a.readTimes, k) >= c.sampleIntervalUs
  {
    hide AllSpaced, Run;
    RunSpaced(c, Fresh(c), evs, 0);
    SpacedByNeighbours(c, Run(c, Fresh(c), evs).adc, EndOf(evs, 0));
  }

  /** `setup` forgets the last read: with a supply monitor the very next `handle` reads at once, whatever was read before. */
  lemma SetupDropsRateLimit(c: Config, v: View, ms: nat, e: Env)
    requires Validated(c) && c.monitored
    ensures Handled(c, Setup(c, v, ms), e).adc.readTimes == v.adc.readTimes + [e.us]
  {}

  /** Set up again and then handled, a monitored sensor keeps its reads spaced if and only if the interval is already over. */
  lemma SetupAgainSpaced(c: Config, evs: seq<Event>, ms: nat, e: Env)
    requires Validated(c) && c.monitored && Ordered(evs, 0) && EndOf(evs, 0) <= e.us
    ensures var t := Run(c, Fresh(c), evs).adc.readTimes;
            AllSpaced(c, Handled(c, Setup(c, Run(c, Fresh(c), evs), ms), e).adc.readTimes) <==>
            AllSpaced(c, t) && (t == [] || e.us - t[|t| - 1] >= c.sampleIntervalUs)
  {
    hide Run, Handled, Setup;
    var v := Run(c, Fresh(c), evs);
    var t := v.adc.readTimes;
    SetupDropsRateLimit(c, v, ms, e);
    RunSpaced(c, Fresh(c), evs, 0);
    forall i | 0 <= i < |t|
      ensures t[i] <= t[|t| - 1]
    {
      Ascending(c, v.adc, EndOf(evs, 0), i, |t| - 1);
    }
    AppendSpaced(c, t, e.us);
  }

  lemma AppendSpaced(c: Config, t: seq<nat>, us: nat)
    requires forall i :: 0 <= i < |t| ==> t[i] <= t[|t| - 1]
    ensures AllSpaced(c, t + [us]) <==> AllSpaced(c, t) && (t == [] || us - t[|t| - 1] >= c.sampleIntervalUs)
  {
    var s := t + [us];
    if AllSpaced(c, s) {
      forall i, j | 0 <= i < j < |t|
        ensures t[j] - t[i] >= c.sampleIntervalUs
      {
        assert s[j] - s[i] >= c.sampleIntervalUs;
      }
      if t != [] {
        assert s[|t|] - s[|t| - 1] >= c.sampleIntervalUs;
      }
    }
  }

  /** Instance: two reads one microsecond apart, with a setup between them. */
  lemma SetupBreaksSpacing(c: Config, mv: nat)
    requires Validated(c) && c.monitored && c.sampleIntervalUs > 1
    ensures var evs := [DoSetup(0), DoHandle(Env(0, 0, mv, mv)), DoSetup(0), DoHandle(Env(0, 1, mv, mv))];
            Ordered(evs, 0) && Run(c, Fresh(c), evs).adc.readTimes == [0, 1] && !AllSpaced(c, [0, 1])
  {
    hide Handled, Setup;
    var a, b := DoHandle(Env(0, 0, mv, mv)), DoHandle(Env(0, 1, mv, mv));
    var evs := [DoSetup(0), a, DoSetup(0), b];
    assert evs[1..] == [a, DoSetup(0), b] && [a, DoSetup(0), b][1..] == [DoSetup(0), b] && [DoSetup(0), b][1..] == [b] && [b][1..] == [];
    assert Ordered([b], 0) && Ordered([DoSetup(0), b], 0) && Ordered([a, DoSetup(0), b], 0);
    var v := Handled(c, Setup(c, Fresh(c), 0), a.e);
    SetupDropsRateLimit(c, Fresh(c), 0, a.e);
    SetupDropsRateLimit(c, v, 0, b.e);
    var w := Setup(c, v, 0);
    assert Run(c, w, [b]) == Run(c, Handled(c, w, b.e), []);
    assert Run(c, v, [DoSetup(0), b]) == Run(c, w, [b]);
    assert Run(c, Setup(c, Fresh(c), 0), [a, DoSetup(0), b]) == Run(c, v, [DoSetup(0), b]);
    assert [0, 1][1] - [0, 1][0] < c.sampleIntervalUs;
  }

  /**
   * Without a supply monitor `setup` is followed by the warm-up: no call reads
   * before it is over, nor does the first call after it, which only starts the calibration.
   */
  lemma {:induction false} UnmonitoredReadsAfterWarmup(c: Config, v: View, ms: nat, evs: seq<Event>)
    requires Validated(c) && !c.monitored
    requires forall i :: 0 <= i < |evs| ==> !evs[i].DoSetup? && (evs[i].DoHandle? ==> ms <= evs[i].e.ms)
    requires forall i :: 0 <= i < |evs| - 1 && evs[i].DoHandle? ==> evs[i].e.ms < ms + c.startupWarmupMs
    ensures Run(c, Setup(c, v, ms), evs).adc.readTimes == v.adc.readTimes
    decreases |evs|
  {
    hide Low;
    if evs != [] {
      var s := Setup(c, v, ms);
      var w := Next(c, s, evs[0]);
      if evs[0].DoHandle? {
        assert w.adc == s.adc;
        WrappedGap(evs[0].e.ms, ms);
      }
      if |evs| > 1 {
        assert w == s;
        UnmonitoredReadsAfterWarmup(c, v, ms, evs[1..]);
      }
    }
  }

  /**
   * A calibration ends exactly when its last sample is in, and then the zero is
   * the mean of exactly the configured number of readings, none saturated and the
   * mean within the permitted deviation; otherwise it fails and no zero is kept.
   * Until then it goes on, unless the supply stops it; the stored zero stays.
   */
  lemma CalibrationOutcome(c: Config, evs: seq<Event>, e: Env)
    requires Validated(c) && Run(c, Fresh(c), evs).phase == CALIBRATING
    ensures var v := Run(c, Fresh(c), evs);
            var w := Handled(c, v, e);
            var all := v.batch.taken + [e.signalMv];
            var ended := !SupplySampled(c, v, e) && Allows(v.meas.supply) && Eligible(c, v.adc, e.us)
                         && |all| == c.zeroCalibrationSamples;
            var mean := Sum(all) / |all| as real;
            var good := && (forall i :: 0 <= i < |all| ==> c.adcMinimumMv < all[i] as real < c.adcMaximumMv)
                        && -c.maximumZeroDeviationMv <= mean - c.nominalZeroAdcMv <= c.maximumZeroDeviationMv;
            && (ended ==> if good then w.phase == MEASURING && w.zero == Some(mean)
                          else w.phase == ZERO_FAILED && w.zero == None)
            && (!ended ==> w.zero == v.zero && (w.phase == CALIBRATING || (!Allows(w.meas.supply) && w.batch == NO_BATCH)))
            && (ended <==> w.phase != CALIBRATING && Allows(w.meas.supply))
            && (ended ==> w.times.stateReadMs == e.ms % 0x1_0000_0000 && (good ==> w.filter == None && w.times.completedMs == e.ms % 0x1_0000_0000))
  {
    hide Saturates, Sum, GoodZero, Elapsed, SupplyStatus;
    var v := Run(c, Fresh(c), evs);
    FreshInv(c);
    EmptyBatch(c);
    RunBatch(c, Fresh(c), evs);
    SampledInv(c, v.batch, e.signalMv);
    SaturatesExactlyWhen(c, v.batch.taken + [e.signalMv]);
    GoodZeroExactlyWhen(c, Sum(v.batch.taken + [e.signalMv]) / |v.batch.taken + [e.signalMv]| as real);
  }

  lemma SaturatesExactlyWhen(c: Config, taken: seq<nat>)
    ensures Saturates(c, taken) <==> !forall i :: 0 <= i < |taken| ==> c.adcMinimumMv < taken[i] as real < c.adcMaximumMv
  {
    if !forall i :: 0 <= i < |taken| ==> c.adcMinimumMv < taken[i] as real < c.adcMaximumMv {
      var i :| 0 <= i < |taken| && !(c.adcMinimumMv < taken[i] as real < c.adcMaximumMv);
      assert AtLimit(c, taken[i]);
    }
  }

  lemma GoodZeroExactlyWhen(c: Config, zero: real)
    ensures GoodZero(c, zero) <==> -c.maximumZeroDeviationMv <= zero - c.nominalZeroAdcMv <= c.maximumZeroDeviationMv
  {}

  /** A recalibration cut short by the supply resumes the phase it interrupted, with the old zero and no reading. */
  lemma AbortResumes(c: Config, v: View)
    requires Inv(c, v) && Busy(v) && !v.flags.initial && !Allows(v.meas.supply)
    ensures var w := AbortCalibration(v);
            && w.zero == v.zero && w.meas.current == None && w.meas.status == v.before.status
            && (w.phase == MEASURING || w.phase == ZERO_FAILED)
            && (w.phase == MEASURING <==> v.zero.Some?)
  {
    hide GoodZero;
  }

  // ------------------------------------------------ the supply and its readings

  /** A reading of the supply pin: true time, and what was read. */
  datatype Probe = Probe(ms: nat, mv: nat)

  /** This call of `handle` reads the supply pin. */
  predicate ReadsSupply(c: Config, v: View, e: Env) {
    v.flags.ready && SupplySampled(c, v, e) && (Busy(v) || !v.flags.requested || v.meas.supply == UNKNOWN)
  }

  /** The last reading of the supply pin since the last setup. */
  function LastSupply(c: Config, v: View, evs: seq<Event>, last: Option<Probe>): Option<Probe>
    requires Validated(c)
    decreases |evs|
  {
    if evs == [] then last
    else LastSupply(c, Next(c, v, evs[0]), evs[1..], Witnessed(c, v, evs[0], last))
  }

  function Witnessed(c: Config, v: View, ev: Event, last: Option<Probe>): Option<Probe> {
    match ev
    case DoSetup(_) => None
    case DoHandle(e) => if ReadsSupply(c, v, e) then Some(Probe(e.ms, e.supplyMv)) else last
    case DoRequest => last
  }

  /** The supply voltage behind a reading of the monitor pin lies in the valid interval. */
  predicate SupplyGood(c: Config, mv: nat)
    requires c.supplyMonitorToVccRatio > 0.0
  {
    c.supplyValidMinimumMv <= mv as real / c.supplyMonitorToVccRatio <= c.supplyValidMaximumMv
  }

  ghost predicate Watched(c: Config, v: View, last: Option<Probe>)
    requires Validated(c)
  {
    && (v.adc.hasSupply <==> last.Some?) && (v.meas.supply == UNKNOWN <==> last.None?)
    && (last.Some? ==> v.adc.lastSupplyMs == Low(last.value.ms) && (v.meas.supply == IN_RANGE <==> SupplyGood(c, last.value.mv)))
  }

  lemma NextWatched(c: Config, v: View, ev: Event, last: Option<Probe>)
    requires Validated(c) && c.monitored && Inv(c, v) && Watched(c, v, last)
    ensures Watched(c, Next(c, v, ev), Witnessed(c, v, ev, last))
  {
    hide PhaseInv, CurrentInv, GoodZero, Mean, Qualify, Filtered, Sampled, Elapsed, Low;
    match ev
    case DoHandle(e) =>
      if ReadsSupply(c, v, e) {
        SampleActs(c, v, e);
      } else {
        OnlySamplesTouchSupply(c, v, e);
      }
    case _ =>
  }

  /** Everything but a reading of the supply pin leaves the supply status alone. */
  lemma OnlySamplesTouchSupply(c: Config, v: View, e: Env)
    requires Validated(c) && !ReadsSupply(c, v, e)
    ensures var w := Handled(c, v, e);
            w.meas.supply == v.meas.supply && w.adc.hasSupply == v.adc.hasSupply && w.adc.lastSupplyMs == v.adc.lastSupplyMs
  {
    hide GoodZero, Mean, Filtered, Elapsed, Low, Amperes;
  }

  /**
   * A reading of the supply pin with the supply outside its interval takes the
   * current away at once; one with it inside takes nothing away and stops nothing.
   */
  lemma SampleActs(c: Config, v: View, e: Env)
    requires Validated(c) && ReadsSupply(c, v, e)
    ensures var w := Handled(c, v, e);
            var supply := e.supplyMv as real / c.supplyMonitorToVccRatio;
            && w.adc.hasSupply && w.adc.lastSupplyMs == Low(e.ms) && w.adc.readTimes == v.adc.readTimes + [e.us]
            && w.times.stateReadMs == (if v.phase == WARMUP then v.times.stateReadMs else Low(e.ms))
            && (if c.supplyValidMinimumMv <= supply <= c.supplyValidMaximumMv then
                  w.meas == v.meas.(supply := IN_RANGE) && w.phase == v.phase && w.batch == v.batch
                else
                  w.meas.supply == SUPPLY_OUT_OF_RANGE && w.meas.current == None && (w.phase != v.phase <==> Busy(v)))
  {
    hide Elapsed, Low;
  }

  lemma {:induction false} RunWatched(c: Config, v: View, evs: seq<Event>, last: Option<Probe>)
    requires Validated(c) && c.monitored && Inv(c, v) && Watched(c, v, last)
    ensures Inv(c, Run(c, v, evs)) && Watched(c, Run(c, v, evs), LastSupply(c, v, evs, last))
    decreases |evs|
  {
    hide Next, Inv, Watched, Witnessed;
    if evs != [] {
      NextInv(c, v, evs[0]);
      NextWatched(c, v, evs[0], last);
      RunWatched(c, Next(c, v, evs[0]), evs[1..], Witnessed(c, v, evs[0], last));
    }
  }

  /** In every run of a monitored sensor a current is present only if the last supply voltage measured lies in the valid interval. */
  lemma CurrentNeedsSupply(c: Config, evs: seq<Event>)
    requires Validated(c) && c.monitored
    ensures var v, last := Run(c, Fresh(c), evs), LastSupply(c, Fresh(c), evs, None);
            && (v.meas.current.Some? ==>
                  && last.Some?
                  && c.supplyValidMinimumMv <= last.value.mv as real / c.supplyMonitorToVccRatio <= c.supplyValidMaximumMv)
            && (v.meas.supply == UNKNOWN <==> last == None)
            && (v.meas.supply == SUPPLY_OUT_OF_RANGE <==> last.Some? && !SupplyGood(c, last.value.mv))
  {
    hide Run, LastSupply, PhaseInv;
    FreshInv(c);
    RunWatched(c, Fresh(c), evs, None);
  }

  lemma LowDifference(now: nat, since: nat)
    ensures (Low(now) - Low(since)) % U32 == (now - since) % 0x1_0000_0000
  {
    assert now == U32 * (now / U32) + Low(now) && since == U32 * (since / U32) + Low(since);
  }

  /**
   * The supply pin is read exactly when there is no reading since the setup or the
   * last one is a reading interval old, the ADC has rested for a sample interval,
   * and no recalibration request is waiting that a reading already allows to decide.
   */
  lemma SupplyReadExactlyWhen(c: Config, evs: seq<Event>, e: Env)
    requires Validated(c) && c.monitored && Ordered(evs, 0)
    ensures var v, last := Run(c, Fresh(c), evs), LastSupply(c, Fresh(c), evs, None);
            var t := v.adc.readTimes;
            ReadsSupply(c, v, e) <==>
              && v.flags.ready && (last.None? || !v.flags.requested)
              && (last.None? || (e.ms - last.value.ms) % 0x1_0000_0000 >= c.readingIntervalMs)
              && (|t| <= Mark(v.adc) || (e.us - t[|t| - 1]) % 0x1_0000_0000 >= c.sampleIntervalUs)
  {
    hide Run, LastSupply, CurrentInv, Low;
    FreshInv(c);
    RunWatched(c, Fresh(c), evs, None);
    RunSpaced(c, Fresh(c), evs, 0);
    var v, last := Run(c, Fresh(c), evs), LastSupply(c, Fresh(c), evs, None);
    if last.Some? {
      LowDifference(e.ms, last.value.ms);
    }
    if v.adc.hasRead {
      LowDifference(e.us, v.adc.readTimes[|v.adc.readTimes| - 1]);
    }
  }

  // -------------------------------------------------------- what is reported

  /** The voltage at the ADC for a current of `a` amperes. */
  function VoltageOf(c: Config, zero: real, a: real): real {
    zero + c.polarity * c.sensitivityAdcMvPerA * a
  }

  /** A current is read back from its own voltage. */
  lemma VoltageReadsBack(c: Config, zero: real, a: real)
    requires Validated(c)
    ensures Amperes(c, zero, VoltageOf(c, zero, a)) == a
  {
    var s := c.sensitivityAdcMvPerA;
    if c.polarity == 1.0 {
      Quotient(s, a);
    } else {
      Quotient(s, a);
      assert c.polarity * (VoltageOf(c, zero, a) - zero) == s * a;
    }
  }

  lemma Quotient(s: real, a: real)
    requires s > 0.0
    ensures (s * a) / s == a
  {}

  /** Means smoothed: the first as it is, each next one weighing alpha against what was there. */
  function Smoothed(alpha: real, means: seq<real>): real
    requires means != []
    decreases |means|
  {
    var n := |means| - 1;
    if n == 0 then means[0] else alpha * means[n] + (1.0 - alpha) * Smoothed(alpha, means[..n])
  }

  function MeanOf(taken: seq<nat>): real
    requires taken != []
  {
    Sum(taken) / |taken| as real
  }

  /** This call takes the last sample of the batch in progress. */
  predicate TakesLast(c: Config, v: View, e: Env, samples: nat) {
    && v.flags.ready && !SupplySampled(c, v, e) && |v.batch.taken| + 1 == samples
    && (v.adc.hasRead ==> (e.us % 0x1_0000_0000 - v.adc.lastUs) % 0x1_0000_0000 >= c.sampleIntervalUs)
  }

  /** This call completes a measurement. */
  predicate MeasurementEnds(c: Config, v: View, e: Env) {
    && v.phase == MEASURING && !v.flags.requested && TakesLast(c, v, e, c.samplesPerReading)
    && (v.batch.active || (e.ms % 0x1_0000_0000 - v.times.completedMs) % 0x1_0000_0000 >= c.readingIntervalMs)
  }

  /** This call completes a calibration with a usable zero. */
  predicate ZeroFound(c: Config, v: View, e: Env) {
    && v.phase == CALIBRATING && Allows(v.meas.supply) && TakesLast(c, v, e, c.zeroCalibrationSamples)
    && !Saturates(c, v.batch.taken + [e.signalMv]) && GoodZero(c, MeanOf(v.batch.taken + [e.signalMv]))
  }

  /** The means of the measurements completed since the last setup or successful calibration. */
  function Means(c: Config, v: View, evs: seq<Event>, means: seq<real>): seq<real>
    requires Validated(c)
    decreases |evs|
  {
    if evs == [] then means else Means(c, Next(c, v, evs[0]), evs[1..], Averaged(c, v, evs[0], means))
  }

  function Averaged(c: Config, v: View, ev: Event, means: seq<real>): seq<real> {
    match ev
    case DoSetup(_) => []
    case DoHandle(e) =>
      if ZeroFound(c, v, e) then []
      else if MeasurementEnds(c, v, e) then means + [MeanOf(v.batch.taken + [e.signalMv])]
      else means
    case DoRequest => means
  }

  ghost predicate Smooth(c: Config, v: View, means: seq<real>) {
    v.filter == if means == [] then None else Some(Smoothed(c.lowPassAlpha, means))
  }

  /** A reading as the sensor's data sheet has it: what a smoothed voltage and the batch behind it are reported as. */
  ghost predicate ReportedAs(c: Config, zero: real, taken: seq<nat>, x: real, m: Measurement)
    requires c.sensitivityAdcMvPerA > 0.0
  {
    var a := c.polarity * (x - zero) / c.sensitivityAdcMvPerA;
    var dead := -c.deadbandA < a < c.deadbandA || -c.minimumReportableA < a < c.minimumReportableA;
    if (exists i :: 0 <= i < |taken| && !(c.adcMinimumMv < taken[i] as real < c.adcMaximumMv))
       || !(c.physicalMinimumA <= a <= c.physicalMaximumA) then
      m.status == OVERCURRENT_OR_SATURATION && m.current == None
    else if !(-c.calibratedMaximumA <= a <= c.calibratedMaximumA) then
      m.status == OUT_OF_CALIBRATED_RANGE && m.current == None
    else
      && m.status == (if dead || -c.calibratedMinimumA < a < c.calibratedMinimumA then ESTIMATED else VALID)
      && m.current == if m.supply == IN_RANGE || m.supply == NOT_MONITORED then Some(if dead then 0.0 else a) else None
  }

  lemma QualifyReports(c: Config, m: Measurement, zero: real, taken: seq<nat>, x: real)
    requires Validated(c)
    ensures var q := Qualify(c, m, Some(zero), Saturates(c, taken), x);
            ReportedAs(c, zero, taken, x, q) && q.supply == m.supply
  {
    hide Saturates;
    SaturatesExactlyWhen(c, taken);
  }

  lemma MeanIsMean(b: Batch)
    requires b.taken != [] && b.sum == Sum(b.taken)
    ensures Mean(b) == MeanOf(b.taken)
  {}

  /** One call in the measuring phase. */
  lemma MeasureStep(c: Config, v: View, e: Env, means: seq<real>)
    requires Validated(c) && Inv(c, v) && BatchInv(c, v) && v.phase == MEASURING && !v.flags.requested && Smooth(c, v, means)
    ensures var w := Handled(c, v, e);
            if MeasurementEnds(c, v, e) then
              var all := v.batch.taken + [e.signalMv];
              var x := Smoothed(c.lowPassAlpha, means + [MeanOf(all)]);
              && w.filter == Some(x) && w.phase == MEASURING && w.batch == NO_BATCH && w.zero == v.zero
              && w.times.completedMs == w.times.stateReadMs == e.ms % 0x1_0000_0000 && w.meas.supply == v.meas.supply
              && ReportedAs(c, v.zero.value, all, x, w.meas)
            else
              w.filter == v.filter && w.phase == MEASURING && w.zero == v.zero && (w.meas == v.meas || SupplySampled(c, v, e))
  {
    hide SupplySampled, SupplyStatus, Qualify, Saturates, Sum, Mean, MeanOf, Sampled, Filtered, GoodZero, CurrentInv, ReportedAs, Smoothed;
    SampledInv(c, v.batch.(active := true), e.signalMv);
    SampledIs(c, v.batch.(active := true), e.signalMv);
    var b := Sampled(c, v.batch.(active := true), e.signalMv);
    if MeasurementEnds(c, v, e) {
      MeanIsMean(b);
      SmoothedNext(c, v.filter, means, MeanOf(b.taken));
      QualifyReports(c, v.meas, v.zero.value, b.taken, Smoothed(c.lowPassAlpha, means + [MeanOf(b.taken)]));
    }
  }

  lemma SampledIs(c: Config, b: Batch, mv: nat)
    ensures Sampled(c, b, mv).taken == b.taken + [mv] && Sampled(c, b, mv).active == b.active
  {}

  lemma SmoothedNext(c: Config, f: Option<real>, means: seq<real>, mean: real)
    requires f == if means == [] then None else Some(Smoothed(c.lowPassAlpha, means))
    ensures Filtered(c, f, mean) == Smoothed(c.lowPassAlpha, means + [mean])
  {
    assert (means + [mean])[..|means|] == means;
  }

  /** Outside the measuring phase the smoothed value is only ever forgotten. */
  lemma OtherStep(c: Config, v: View, e: Env)
    requires Validated(c) && BatchInv(c, v) && (v.phase != MEASURING || v.flags.requested)
    ensures Handled(c, v, e).filter == if ZeroFound(c, v, e) then None else v.filter
  {
    hide SupplySampled, SupplyStatus, Qualify, Saturates, Sum, Mean, MeanOf, Sampled, Filtered, GoodZero;
    SampledInv(c, v.batch, e.signalMv);
    SampledIs(c, v.batch, e.signalMv);
    MeanIsMean(Sampled(c, v.batch, e.signalMv));
  }

  lemma NextSmooth(c: Config, v: View, ev: Event, means: seq<real>)
    requires Validated(c) && Inv(c, v) && BatchInv(c, v) && Smooth(c, v, means)
    ensures Smooth(c, Next(c, v, ev), Averaged(c, v, ev, means))
  {
    hide Inv, BatchInv, Handled, Smoothed, Saturates, GoodZero, MeanOf, ReportedAs, TakesLast;
    match ev
    case DoHandle(e) =>
      if v.phase == MEASURING && !v.flags.requested {
        MeasureStep(c, v, e, means);
      } else {
        OtherStep(c, v, e);
      }
    case _ =>
  }

  lemma {:induction false} RunSmooth(c: Config, v: View, evs: seq<Event>, means: seq<real>)
    requires Validated(c) && Inv(c, v) && BatchInv(c, v) && Smooth(c, v, means)
    ensures var w := Run(c, v, evs);
            Inv(c, w) && BatchInv(c, w) && Smooth(c, w, Means(c, v, evs, means))
    decreases |evs|
  {
    hide Next, Inv, BatchInv, Smooth, Averaged;
    if evs != [] {
      NextInv(c, v, evs[0]);
      NextBatch(c, v, evs[0]);
      NextSmooth(c, v, evs[0], means);
      RunSmooth(c, Next(c, v, evs[0]), evs[1..], Averaged(c, v, evs[0], means));
    }
  }

  /**
   * In every run a call of the measuring phase that takes the last sample of its
   * batch reports the current that the smoothed means stand for, counted from the
   * calibrated zero; any other call reports nothing new but the supply.
   */
  lemma MeasurementOutcome(c: Config, evs: seq<Event>, e: Env)
    requires Validated(c) && Run(c, Fresh(c), evs).phase == MEASURING && !Run(c, Fresh(c), evs).flags.requested
    ensures var v, means := Run(c, Fresh(c), evs), Means(c, Fresh(c), evs, []);
            var w := Handled(c, v, e);
            v.zero.Some? &&
            if MeasurementEnds(c, v, e) then
              var all := v.batch.taken + [e.signalMv];
              && w.batch == NO_BATCH && w.times.completedMs == w.times.stateReadMs == e.ms % 0x1_0000_0000
              && w.meas.supply == v.meas.supply
              && ReportedAs(c, v.zero.value, all, Smoothed(c.lowPassAlpha, means + [MeanOf(all)]), w.meas)
            else w.meas == v.meas || SupplySampled(c, v, e)
  {
    hide Run, Means, Inv, BatchInv, Handled, Smoothed, MeasurementEnds, MeanOf, ReportedAs, SupplySampled;
    FreshInv(c);
    FreshBatch(c);
    RunSmooth(c, Fresh(c), evs, []);
    MeasureStep(c, Run(c, Fresh(c), evs), e, Means(c, Fresh(c), evs, []));
    MeasuringHasZero(c, Run(c, Fresh(c), evs));
  }

  lemma FreshBatch(c: Config)
    requires Validated(c)
    ensures BatchInv(c, Fresh(c)) && Smooth(c, Fresh(c), [])
  {
    EmptyBatch(c);
  }

  lemma MeasuringHasZero(c: Config, v: View)
    requires Inv(c, v) && v.phase == MEASURING
    ensures v.zero.Some?
  {}

  /** A steady voltage is smoothed to itself. */
  lemma {:induction false} SteadySmoothed(alpha: real, means: seq<real>, x: real)
    requires means != [] && forall i :: 0 <= i < |means| ==> means[i] == x
    ensures Smoothed(alpha, means) == x
    decreases |means|
  {
    if |means| > 1 {
      SteadySmoothed(alpha, means[..|means| - 1], x);
      assert alpha * x + (1.0 - alpha) * x == x;
    }
  }

  // ------------------------------------------------------- from phase to phase

  /** After setup the warm-up lasts exactly its time, given the supply; then the first calibration starts. */
  lemma WarmupEnds(c: Config, v: View, setupMs: nat, e: Env)
    requires Validated(c) && v.phase == WARMUP && v.flags.ready && !v.flags.requested && v.times.setupMs == setupMs % 0x1_0000_0000
    requires !SupplySampled(c, v, e) && setupMs <= e.ms < setupMs + 0x1_0000_0000
    ensures var w := Handled(c, v, e);
            if e.ms - setupMs >= c.startupWarmupMs && (v.meas.supply == IN_RANGE || v.meas.supply == NOT_MONITORED) then
              w.phase == CALIBRATING && w.flags.initial && w.batch == NO_BATCH && w.meas.status == IN_CALIBRATION
            else w == v
  {
    LowDifference(e.ms, setupMs);
  }

  /** A requested recalibration settles for exactly its time, given the supply, and then samples. */
  lemma SettleEnds(c: Config, v: View, startMs: nat, e: Env)
    requires Validated(c) && v.phase == RECALIBRATION_SETTLE && v.flags.ready && v.times.phaseMs == startMs % 0x1_0000_0000
    requires Allows(v.meas.supply) && !SupplySampled(c, v, e) && startMs <= e.ms < startMs + 0x1_0000_0000
    ensures var w := Handled(c, v, e);
            if e.ms - startMs >= c.recalibrationSettleMs then w.phase == CALIBRATING && !w.flags.initial && w.batch == NO_BATCH
            else w == v
  {
    LowDifference(e.ms, startMs);
  }

  /**
   * In every run a request is heard in the measuring and the failed phase, and
   * then the next call starts to settle if the supply is known good, drops the
   * request if it is known bad, and otherwise goes on waiting for a supply reading.
   */
  lemma RequestTakenUp(c: Config, evs: seq<Event>, e: Env)
    requires Validated(c)
    ensures var v := Run(c, Fresh(c), evs);
            var w := Handled(c, Requested(v), e);
            if v.phase == MEASURING || v.phase == ZERO_FAILED then
              match v.meas.supply
              case UNKNOWN => w.flags.requested && w.phase == v.phase && w.zero == v.zero
              case SUPPLY_OUT_OF_RANGE => w == v.(flags := v.flags.(requested := false))
              case _ =>
                && w.phase == RECALIBRATION_SETTLE && !w.flags.requested && w.before == v.meas
                && w.times.phaseMs == e.ms % 0x1_0000_0000 && w.zero == v.zero
            else Requested(v) == v
  {
    hide Run, PhaseStep, SampleSupply, GoodZero, CurrentInv, BatchInv, Saturates, Sum;
    var v := Run(c, Fresh(c), evs);
    FreshInv(c);
    FreshBatch(c);
    RunBatch(c, Fresh(c), evs);
    ReadyUnlessWarmup(c, v);
    if SupplySampled(c, Requested(v), e) {
      SampleKeeps(c, Requested(v), e);
    }
  }

  lemma ReadyUnlessWarmup(c: Config, v: View)
    requires BatchInv(c, v)
    ensures v.phase != WARMUP ==> v.flags.ready
  {}

  lemma SampleKeeps(c: Config, v: View, e: Env)
    requires Validated(c)
    ensures var w := SampleSupply(c, v, e); w.phase == v.phase && w.flags == v.flags && w.zero == v.zero
  {}

  // -------------------------------------------------------------- the object

  /**
   * The fields of the source, in the groups of `View`. `batch.taken`,
   * `adc.readTimes` and `adc.setups` are history; no decision of the methods looks at them.
   */
  class Sensor {
    const config: Config
    var phase: Phase
    var measurement: Measurement
    var measurementBeforeCalibration: Measurement
    var calibratedZeroMv: Option<real>
    var filteredMv: Option<real>            // None: the filter is not initialized
    var flags: Flags
    var batch: Batch
    var sampleCount: nat
    var times: Times
    var adc: Adc

    ghost predicate Valid()
      reads this
    {
      Validated(config) && sampleCount == |batch.taken|
    }

    ghost function State(): View
      reads this
    {
      View(phase, measurement, measurementBeforeCalibration, calibratedZeroMv, filteredMv, flags, batch, times, adc)
    }

    constructor (config: Config)
      requires Validated(config)
      ensures Valid() && this.config == config && State() == Fresh(config)
    {
      this.config := config;
      phase := WARMUP;
      measurement := Measurement(None, NOT_READY, FirstSupply(config));
      measurementBeforeCalibration := Measurement(None, NOT_READY, NOT_MONITORED);
      calibratedZeroMv, filteredMv := None, None;
      flags := Flags(false, false, true, false);
      batch, sampleCount := NO_BATCH, 0;
      times := Times(0, 0, 0, 0);
      adc := Adc(false, 0, false, 0, [], []);
    }

    method SetUp(ms: nat)
      requires Valid()
      modifies this
      ensures Valid() && State() == Setup(config, old(State()), ms)
    {
      hide Low;
      times := times.(setupMs := Low(ms), phaseMs := Low(ms));
      phase := WARMUP;
      measurement := Measurement(None, NOT_READY, FirstSupply(config));
      calibratedZeroMv := None;
      flags := flags.(validZero := false, requested := false);
      adc := adc.(hasRead := false, hasSupply := false, setups := adc.setups + [|adc.readTimes|]);
      times := times.(stateReadMs := 0);
      filteredMv := None;
      ResetAccumulator();
      flags := flags.(ready := true);
    }

    method ResetAccumulator()
      modifies this`batch, this`sampleCount
      ensures sampleCount == 0 && batch == NO_BATCH
    {
      batch, sampleCount := NO_BATCH, 0;
    }

    method RequestZeroCalibration()
      requires Valid()
      modifies this`flags
      ensures Valid() && State() == Requested(old(State()))
    {
      if phase == CALIBRATING || phase == RECALIBRATION_SETTLE || (phase == WARMUP && !flags.validZero) {
        return;
      }
      flags := flags.(requested := true);
    }

    method ReadAdc(us: nat)
      modifies this`adc
      ensures adc == Read(old(adc), us)
    {
      hide Low;
      adc := adc.(lastUs := Low(us), hasRead := true, readTimes := adc.readTimes + [us]);
    }

    method TrySampleSupply(e: Env) returns (sampled: bool)
      requires Valid()
      modifies this`adc, this`measurement, this`times
      ensures Valid() && sampled == SupplySampled(config, old(State()), e)
      ensures State() == if sampled then SampleSupply(config, old(State()), e) else old(State())
    {
      hide Low, Elapsed, SupplyStatus;
      var due := config.monitored && (!adc.hasSupply || Elapsed(Low(e.ms), adc.lastSupplyMs, config.readingIntervalMs));
      var eligible := !adc.hasRead || Elapsed(Low(e.us), adc.lastUs, config.sampleIntervalUs);
      if !due || !eligible {
        return false;
      }
      ReadAdc(e.us);
      adc := adc.(hasSupply := true, lastSupplyMs := Low(e.ms));
      measurement := measurement.(supply := SupplyStatus(config, e.supplyMv));
      if phase != WARMUP {
        times := times.(stateReadMs := Low(e.ms));
      }
      if measurement.supply == SUPPLY_OUT_OF_RANGE {
        measurement := measurement.(current := None);
      }
      return true;
    }

    method StartCalibration(initial: bool, ms: nat)
      requires Valid()
      modifies this
      ensures Valid() && State() == BeginCalibration(old(State()), initial, ms)
    {
      hide Low;
      flags := flags.(initial := initial);
      measurement := measurement.(current := None, status := IN_CALIBRATION);
      phase := CALIBRATING;
      times := times.(phaseMs := Low(ms));
      ResetAccumulator();
    }

    method AbortCalibrationForSupply()
      requires Valid()
      modifies this
      ensures Valid() && State() == AbortCalibration(old(State()))
    {
      ResetAccumulator();
      if flags.initial {
        phase := WARMUP;
        measurement := measurement.(current := None, status := NOT_READY);
      } else {
        var supply := measurement.supply;
        measurement := measurementBeforeCalibration.(supply := supply);
        if supply == SUPPLY_OUT_OF_RANGE || supply == UNKNOWN {
          measurement := measurement.(current := None);
        }
        phase := if measurement.status == ZERO_CALIBRATION_FAILED then ZERO_FAILED else MEASURING;
      }
    }

    method TakeSample(e: Env)
      requires Valid()
      modifies this`adc, this`batch, this`sampleCount
      ensures Valid() && adc == Read(old(adc), e.us) && batch == Sampled(config, old(batch), e.signalMv)
    {
      hide Low;
      ReadAdc(e.us);
      sampleCount := sampleCount + 1;
      batch := Batch(batch.taken + [e.signalMv], batch.sum + e.signalMv as real,
                     batch.saturated || e.signalMv as real <= config.adcMinimumMv || e.signalMv as real >= config.adcMaximumMv,
                     batch.active);
    }

    method CollectCalibrationSample(e: Env)
      requires Valid()
      modifies this
      ensures Valid() && State() == CollectCalibration(config, old(State()), e)
    {
      hide Low, Elapsed, CompleteCalibration, Sampled;
      if adc.hasRead && !Elapsed(Low(e.us), adc.lastUs, config.sampleIntervalUs) {
        return;
      }
      TakeSample(e);
      assert sampleCount > 0 by { SampledGrows(config, old(batch), e.signalMv); }
      if sampleCount >= config.zeroCalibrationSamples {
        FinishCalibration(e.ms);
      }
    }

    method FinishCalibration(ms: nat)
      requires Valid() && sampleCount > 0
      modifies this
      ensures Valid() && State() == CompleteCalibration(config, old(State()), ms)
    {
      hide Low, GoodZero;
      var zeroMv := batch.sum / sampleCount as real;
      var valid := !batch.saturated && GoodZero(config, zeroMv);
      ResetAccumulator();
      if !valid {
        calibratedZeroMv := None;
        flags := flags.(validZero := false);
        measurement := measurement.(current := None, status := ZERO_CALIBRATION_FAILED);
        phase := ZERO_FAILED;
        times := times.(stateReadMs := Low(ms));
        return;
      }
      calibratedZeroMv := Some(zeroMv);
      flags := flags.(validZero := true);
      filteredMv := None;
      measurement := measurement.(status := ESTIMATED);
      if measurement.supply == IN_RANGE || measurement.supply == NOT_MONITORED {
        measurement := measurement.(current := Some(0.0));
      } else {
        measurement := measurement.(current := None);
      }
      phase := MEASURING;
      times := times.(stateReadMs := Low(ms), completedMs := Low(ms));
    }

    method CollectMeasurementSample(e: Env)
      requires Valid()
      modifies this
      ensures Valid() && State() == CollectMeasurement(config, old(State()), e)
    {
      hide Low, Elapsed, CompleteMeasurement, Sampled;
      if !batch.active {
        if !Elapsed(Low(e.ms), times.completedMs, config.readingIntervalMs) {
          return;
        }
        batch := batch.(active := true);
      }
      if adc.hasRead && !Elapsed(Low(e.us), adc.lastUs, config.sampleIntervalUs) {
        return;
      }
      ghost var b := batch;
      TakeSample(e);
      assert sampleCount > 0 by { SampledGrows(config, b, e.signalMv); }
      if sampleCount >= config.samplesPerReading {
        FinishMeasurement(e.ms);
      }
    }

    method FinishMeasurement(ms: nat)
      requires Valid() && sampleCount > 0
      modifies this
      ensures Valid() && State() == CompleteMeasurement(config, old(State()), ms)
    {
      hide Low, LowPass, Qualify;
      var averageMv := batch.sum / sampleCount as real;
      if filteredMv == None {
        filteredMv := Some(averageMv);
      } else {
        filteredMv := Some(LowPass(config.lowPassAlpha, averageMv, filteredMv.value));
      }
      QualifyCurrent(filteredMv.value);
      times := times.(stateReadMs := Low(ms), completedMs := Low(ms));
      ResetAccumulator();
    }

    method QualifyCurrent(filtered: real)
      requires Valid()
      modifies this`measurement
      ensures measurement == Qualify(config, old(measurement), calibratedZeroMv, batch.saturated, filtered)
    {
      hide Amperes;
      if batch.saturated || calibratedZeroMv == None {
        measurement := measurement.(current := None, status := OVERCURRENT_OR_SATURATION);
        return;
      }
      var currentA := Amperes(config, calibratedZeroMv.value, filtered);
      var magnitudeA := Abs(currentA);
      if currentA < config.physicalMinimumA || currentA > config.physicalMaximumA {
        measurement := measurement.(current := None, status := OVERCURRENT_OR_SATURATION);
        return;
      }
      if magnitudeA > config.calibratedMaximumA {
        measurement := measurement.(current := None, status := OUT_OF_CALIBRATED_RANGE);
        return;
      }
      if magnitudeA < config.deadbandA || magnitudeA < config.minimumReportableA {
        currentA := 0.0;
        measurement := measurement.(status := ESTIMATED);
      } else if magnitudeA < config.calibratedMinimumA {
        measurement := measurement.(status := ESTIMATED);
      } else {
        measurement := measurement.(status := VALID);
      }
      if measurement.supply == UNKNOWN || measurement.supply == SUPPLY_OUT_OF_RANGE {
        measurement := measurement.(current := None);
      } else {
        measurement := measurement.(current := Some(currentA));
      }
    }

    method TakeUpRequest(e: Env)
      requires Valid()
      modifies this
      ensures Valid() && State() == TakeRequest(config, old(State()), e)
    {
      hide Low, SampleSupply, SupplySampled;
      if measurement.supply == UNKNOWN {
        var sampled := TrySampleSupply(e);
        return;
      }
      flags := flags.(requested := false);
      if !Allows(measurement.supply) {
        return;
      }
      measurementBeforeCalibration := measurement;
      flags := flags.(initial := false);
      measurement := measurement.(current := None, status := IN_CALIBRATION);
      phase := RECALIBRATION_SETTLE;
      times := times.(phaseMs := Low(e.ms));
    }

    method Handle(e: Env)
      requires Valid()
      modifies this
      ensures Valid() && State() == Handled(config, old(State()), e)
    {
      hide TakeRequest, PhaseStep;
      if !flags.ready {
        return;
      }
      if phase != CALIBRATING && phase != RECALIBRATION_SETTLE && flags.requested {
        TakeUpRequest(e);
        return;
      }
      RunPhase(e);
    }

    method RunPhase(e: Env)
      requires Valid()
      modifies this
      ensures Valid() && State() == PhaseStep(config, old(State()), e)
    {
      hide Low, Elapsed, SupplySampled, SampleSupply, BeginCalibration, AbortCalibration, CollectCalibration, CollectMeasurement;
      SamplePhase(config, State(), e);
      var sampled := TrySampleSupply(e);
      if sampled {
        if (phase == RECALIBRATION_SETTLE || phase == CALIBRATING) && !Allows(measurement.supply) {
          AbortCalibrationForSupply();
        }
        return;
      }
      match phase
      case WARMUP =>
        if Elapsed(Low(e.ms), times.setupMs, config.startupWarmupMs) && Allows(measurement.supply) {
          StartCalibration(true, e.ms);
        }
      case RECALIBRATION_SETTLE =>
        if !Allows(measurement.supply) {
          AbortCalibrationForSupply();
        } else if Elapsed(Low(e.ms), times.phaseMs, config.recalibrationSettleMs) {
          StartCalibration(false, e.ms);
        }
      case CALIBRATING =>
        if !Allows(measurement.supply) {
          AbortCalibrationForSupply();
        } else {
          CollectCalibrationSample(e);
        }
      case ZERO_FAILED =>
      case MEASURING =>
        CollectMeasurementSample(e);
    }
  }

  lemma SampledGrows(c: Config, b: Batch, mv: nat)
    ensures |Sampled(c, b, mv).taken| == |b.taken| + 1
  {}
}
