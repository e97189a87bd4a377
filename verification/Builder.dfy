/**
 * The capability builder: objects placed in a bump-allocated arena, the slots
 * and books they are entered in, and what a failed or repeated registration
 * leaves behind.
 *
 * An object is the block it occupies and a serial number; `Life` records every
 * construction and every destructor call. Slots are the occupied prefix of the
 * source's arrays.
 */
module Builder {
  import opened Bytes
  import opened Backoff
  import Acs = CurrentSensor

  const MAX_NAME: nat := 63
  const MAX_TYPE: nat := 31

  // ------------------------------------------------------------- allocation

  /** Bitwise and. */
  function And(x: nat, y: nat): nat
    decreases x
  {
    if x == 0 || y == 0 then 0 else 2 * And(x / 2, y / 2) + (if x % 2 == 1 && y % 2 == 1 then 1 else 0)
  }

  /** A size, and an alignment of 2^shift. */
  datatype Part = Part(size: nat, shift: nat)

  function Align(p: Part): (a: nat)
    ensures a > 0
  {
    Pow2(p.shift)
  }

  /** `value` and the result are 32 bits wide; the complement of `alignment - 1` is U32 - alignment. */
  function AlignUp(value: nat, alignment: nat): nat
    requires 0 < alignment <= U32
  {
    And((value + (alignment - 1)) % U32, U32 - alignment)
  }

  lemma HalfModulo(x: nat, m: nat)
    requires m > 0
    ensures x % (2 * m) == 2 * ((x / 2) % m) + x % 2
  {
    var h := x / 2;
    var q, r := h / m, h % m;
    assert x == 2 * h + x % 2 && h == m * q + r;
    assert x == (2 * m) * q + (2 * r + x % 2);
    Remainder(x, 2 * m, q, 2 * r + x % 2);
  }

  lemma Remainder(x: nat, m: nat, q: nat, r: nat)
    requires m > 0 && x == m * q + r && r < m
    ensures x % m == r && x / m == q
  {
    var e := x / m - q;
    assert m * e == r - x % m;
    Grows(m, e);
  }

  lemma Grows(m: int, e: int)
    requires m >= 0
    ensures (e >= 1 ==> m * e >= m) && (e <= -1 ==> m * e <= -m) && (e == 0 ==> m * e == 0)
  {
    if e >= 1 {
      assert m * (e - 1) >= 0;
    } else if e <= -1 {
      assert m * (-1 - e) >= 0;
    }
  }

  /** The greatest multiple of `m` that is not above `x`. */
  function Floor(x: nat, m: nat): int
    requires m > 0
  {
    x - x % m
  }

  /** Masking with 2^n - 2^k rounds down to a multiple of 2^k. */
  lemma {:induction false} MaskRoundsDown(x: nat, n: nat, k: nat)
    requires k <= n && x < Pow2(n)
    ensures Pow2(k) <= Pow2(n) && And(x, Pow2(n) - Pow2(k)) == Floor(x, Pow2(k))
    decreases n
  {
    hide Pow2, And, Floor;
    Ordered(k, n);
    Pow2Next(n);
    Pow2Next(k);
    if x == 0 {
      MaskZero(Pow2(n) - Pow2(k), Pow2(k));
    } else if k > 0 {
      MaskRoundsDown(x / 2, n - 1, k - 1);
      MaskEven(x, Pow2(n - 1), Pow2(k - 1));
    } else {
      MaskRoundsDown(x / 2, n - 1, 0);
      FloorOne(x / 2);
      FloorOne(x);
      Pow2Next(0);
      MaskOdd(x, Pow2(n - 1));
    }
  }

  lemma MaskZero(y: nat, m: nat)
    requires m > 0
    ensures And(0, y) == 0 == Floor(0, m)
  {}

  lemma FloorOne(x: nat)
    ensures Floor(x, 1) == x
  {}

  lemma MaskOdd(x: nat, p: nat)
    requires p > 0 && And(x / 2, p - 1) == x / 2
    ensures And(x, 2 * p - 1) == x
  {
    hide And;
    Halves(x, 2 * p - 1);
    assert (2 * p - 1) / 2 == p - 1 && (2 * p - 1) % 2 == 1;
  }

  lemma MaskEven(x: nat, p: nat, m: nat)
    requires 0 < m <= p && And(x / 2, p - m) == Floor(x / 2, m)
    ensures And(x, 2 * p - 2 * m) == Floor(x, 2 * m)
  {
    hide And;
    HalfModulo(x, m);
    Halves(x, 2 * p - 2 * m);
    assert (2 * p - 2 * m) / 2 == p - m && (2 * p - 2 * m) % 2 == 0;
  }

  lemma Pow2Next(n: nat)
    ensures Pow2(n) == if n == 0 then 1 else 2 * Pow2(n - 1)
  {}

  lemma Ordered(k: nat, n: nat)
    requires k <= n
    ensures Pow2(k) <= Pow2(n)
  {
    Monotone(1, k, n, 0);
  }

  lemma Halves(x: nat, y: nat)
    ensures And(x, y) == 2 * And(x / 2, y / 2) + (if x % 2 == 1 && y % 2 == 1 then 1 else 0)
  {}

  lemma WordIsPow2()
    ensures Pow2(32) == U32
  {
    assert Pow2(8) == 256;
    assert Pow2(16) == 0x1_0000;
    assert Pow2(24) == 0x100_0000;
  }

  /** `alignUp` is the least multiple of the alignment that is not below the value. */
  lemma AlignUpIsLeast(value: nat, shift: nat)
    requires shift <= 32 && value + Pow2(shift) <= U32
    ensures Pow2(shift) <= U32
    ensures var r := AlignUp(value, Pow2(shift));
            r % Pow2(shift) == 0 && value <= r < value + Pow2(shift)
  {
    hide And, Pow2;
    WordIsPow2();
    var a := Pow2(shift);
    var x := value + (a - 1);
    assert x % U32 == x;
    MaskRoundsDown(x, 32, shift);
    var q := x / a;
    assert x - x % a == a * q;
    Remainder(a * q, a, q, 0);
  }

  datatype Arena = Arena(bytes: nat, offset: nat)

  /** Address arithmetic for the part stays inside 32 bits. */
  predicate Fits(bytes: nat, p: Part) {
    p.shift <= 32 && bytes + Align(p) + p.size <= U32
  }

  function Allocate(a: Arena, p: Part): (r: Option<(nat, Arena)>)
    requires Align(p) <= U32
    ensures r.Some? ==> r.value.1.bytes == a.bytes
  {
    var aligned := AlignUp(a.offset, Align(p));
    var needed := (aligned + p.size) % U32;
    if needed > a.bytes then None else Some((aligned, a.(offset := needed)))
  }

  /** An allocation is aligned, unused and inside the arena; it fails only where no such place is left. */
  lemma AllocateSound(a: Arena, p: Part)
    requires Fits(a.bytes, p) && a.offset <= a.bytes
    ensures Align(p) <= U32
    ensures match Allocate(a, p)
            case Some((at, b)) => at % Align(p) == 0 && a.offset <= at && at + p.size == b.offset <= a.bytes && b.bytes == a.bytes
            case None => forall at: nat :: a.offset <= at && at % Align(p) == 0 ==> at + p.size > a.bytes
  {
    hide AlignUp;
    AlignUpIsLeast(a.offset, p.shift);
    var r := AlignUp(a.offset, Align(p));
    forall at: nat | a.offset <= at && at % Align(p) == 0
      ensures at >= r
    {
      NextMultiple(at, r, Align(p));
    }
  }

  lemma NextMultiple(x: nat, y: nat, m: nat)
    requires m > 0 && x % m == 0 && y % m == 0 && y < x + m
    ensures y <= x
  {
    var e := y / m - x / m;
    assert y - x == m * e;
    Grows(m, e);
  }

  /** The offset is aligned; the address is, exactly when the arena itself is. */
  lemma AddressAligned(base: nat, at: nat, align: nat)
    requires align > 0 && at % align == 0
    ensures (base + at) % align == 0 <==> base % align == 0
  {
    var q := at / align;
    assert at == align * q;
    Remainder(base + at, align, base / align + q, base % align);
  }

  // ---------------------------------------------------------------- state

  datatype Block = Block(id: nat, at: nat, size: nat, align: nat)

  datatype Cap = Cap(block: Block, name: string)

  datatype Slots = Slots(caps: seq<Cap>, adapters: seq<Block>)

  datatype Books = Books(pins: seq<int>, ids: seq<string>)

  datatype Life = Life(built: nat, destroyed: seq<nat>)

  datatype State = State(arena: Arena, slots: Slots, books: Books, life: Life, open: bool)

  datatype Limits = Limits(capsMax: nat, adaptersMax: nat, sensorsMax: nat, deviceId: string)

  function Init(arenaBytes: nat): State {
    State(Arena(arenaBytes, 0), Slots([], []), Books([], []), Life(0, []), true)
  }

  // -------------------------------------------------------------- operations

  function Resolve(l: Limits, s: State, configured: string, typ: string): Option<string> {
    if !s.open || |s.slots.caps| >= l.capsMax then None
    else if |typ| == 0 || |typ| > MAX_TYPE then None
    else
      var name := if configured != "" then configured else l.deviceId + "_" + typ;
      if name == "" || |name| > MAX_NAME || name in s.books.ids then None else Some(name)
  }

  predicate InUse(caps: seq<Cap>, name: string) {
    exists i :: 0 <= i < |caps| && caps[i].name == name
  }

  function BlockFor(id: nat, at: nat, p: Part): Block {
    Block(id, at, p.size, Align(p))
  }

  /** `n` objects were built and destroyed again, the last one first. */
  function Dropped(s: State, n: nat): State
    requires n <= 2
  {
    var b := s.life.built;
    s.(life := Life(b + n, s.life.destroyed + (if n == 0 then [] else if n == 1 then [b] else [b + 1, b])))
  }

  /** An adapter and a capability on top of it, or neither. */
  function Installed(l: Limits, s: State, name: string, typ: string, ap: Part, createOk: bool, cp: Part): (r: (State, bool))
    requires Align(ap) <= U32 && Align(cp) <= U32
    ensures r.0.arena.bytes == s.arena.bytes
  {
    match Allocate(s.arena, ap)
    case None => (s, false)
    case Some(x) =>
      if !createOk then (s, false)
      else
        match Allocate(x.1, cp)
        case None => (Dropped(s, 1), false)
        case Some(y) =>
          match Resolve(l, s, name, typ)
          case None => (Dropped(s, 2), false)
          case Some(n) =>
            if |s.slots.adapters| >= l.adaptersMax then (Dropped(s, 2), false)
            else
              var b := s.life.built;
              (s.(arena := y.1,
                  slots := Slots(s.slots.caps + [Cap(BlockFor(b + 1, y.0, cp), n)], s.slots.adapters + [BlockFor(b, x.0, ap)]),
                  life := s.life.(built := b + 2)), true)
  }

  /** A capability over something the caller owns. */
  function Created(l: Limits, s: State, name: string, typ: string, cp: Part): (r: (State, bool))
    requires Align(cp) <= U32
    ensures r.0.arena.bytes == s.arena.bytes
  {
    if !s.open || |s.slots.caps| >= l.capsMax then (s, false)
    else
      match Allocate(s.arena, cp)
      case None => (s, false)
      case Some(y) =>
        match Resolve(l, s, name, typ)
        case None => (Dropped(s, 1), false)
        case Some(n) =>
          (s.(arena := y.1, slots := s.slots.(caps := s.slots.caps + [Cap(BlockFor(s.life.built, y.0, cp), n)]),
              life := s.life.(built := s.life.built + 1)), true)
  }

  /** What the target says about a family of sensors; no part means its factory is unavailable. */
  datatype Board = Board(supported: bool, adc: set<int>, reserved: set<int>, adapter: Option<Part>, capability: Part, typ: string)

  /** The numeric settings of a current sensor: those the sensor reads, and those only the builder looks at. */
  datatype CurrentProfile = CurrentProfile(sensor: Acs.Config, adcBits: int, fullRange: bool, supplyNominalMv: real,
                                           outputToAdcRatio: real, evaluationIntervalMs: nat,
                                           maximumAbsoluteErrorA: real, maximumRelativeErrorPercent: real)

  /** A negative monitor pin means none. */
  datatype CurrentConfig = CurrentConfig(id: string, profile: CurrentProfile, adcPin: int, monitorPin: int)

  datatype VoltageProfile = VoltageProfile(adcBits: int, fullRange: bool, adcMinimumMv: real, adcMaximumMv: real,
                                           r1Ohms: real, r2Ohms: real, calibrationFactor: real, samplesPerReading: nat,
                                           intervals: VoltageIntervals)

  datatype VoltageIntervals = VoltageIntervals(sampleUs: nat, readingMs: nat, evaluationMs: nat)

  datatype VoltageConfig = VoltageConfig(id: string, profile: VoltageProfile, adcPin: int)

  predicate AdcOk(p: CurrentProfile) {
    && p.adcBits == 12 && p.fullRange
    && p.sensor.adcMinimumMv >= 0.0 && p.sensor.adcMaximumMv > p.sensor.adcMinimumMv
  }

  predicate SupplyOk(p: CurrentProfile) {
    && p.supplyNominalMv > 0.0 && p.sensor.supplyValidMinimumMv > 0.0
    && p.sensor.supplyValidMinimumMv <= p.supplyNominalMv <= p.sensor.supplyValidMaximumMv
    && p.outputToAdcRatio > 0.0 && p.sensor.supplyMonitorToVccRatio > 0.0
  }

  predicate ZeroOk(c: Acs.Config) {
    && c.adcMinimumMv < c.nominalZeroAdcMv < c.adcMaximumMv
    && c.sensitivityAdcMvPerA > 0.0 && c.maximumZeroDeviationMv >= 0.0
    && (c.polarity == 1.0 || c.polarity == -1.0)
  }

  predicate SamplingOk(p: CurrentProfile) {
    && p.sensor.zeroCalibrationSamples > 0 && p.sensor.samplesPerReading > 0 && p.sensor.sampleIntervalUs > 0
    && p.sensor.readingIntervalMs > 0 && p.evaluationIntervalMs > 0
    && 0.0 < p.sensor.lowPassAlpha <= 1.0
  }

  predicate RangesOk(p: CurrentProfile) {
    var c := p.sensor;
    && c.deadbandA >= 0.0 && c.minimumReportableA >= 0.0
    && 0.0 <= c.calibratedMinimumA <= c.calibratedMaximumA
    && c.physicalMinimumA < 0.0 < c.physicalMaximumA
    && c.calibratedMaximumA <= Acs.Abs(c.physicalMinimumA) && c.calibratedMaximumA <= c.physicalMaximumA
    && p.maximumAbsoluteErrorA >= 0.0 && p.maximumRelativeErrorPercent >= 0.0
  }

  predicate CurrentProfileOk(p: CurrentProfile) {
    AdcOk(p) && SupplyOk(p) && ZeroOk(p.sensor) && SamplingOk(p) && RangesOk(p)
  }

  predicate VoltageProfileOk(p: VoltageProfile) {
    && p.adcBits == 12 && p.fullRange && 0.0 <= p.adcMinimumMv < p.adcMaximumMv
    && p.r1Ohms > 0.0 && p.r2Ohms > 0.0 && p.calibrationFactor > 0.0
    && p.samplesPerReading > 0 && p.intervals.sampleUs > 0 && p.intervals.readingMs > 0 && p.intervals.evaluationMs > 0
  }

  /** The configuration the constructed sensor runs on. */
  function SensorOf(c: CurrentConfig): Acs.Config {
    c.profile.sensor.(monitored := c.monitorPin >= 0)
  }

  /** What the builder accepts is what the sensor's laws ask for. */
  lemma AcceptedIsValidated(l: Limits, s: State, b: Board, c: CurrentConfig)
    requires ValidCurrent(l, s, b, c)
    ensures Acs.Validated(SensorOf(c)) && SensorOf(c).adcMinimumMv < SensorOf(c).nominalZeroAdcMv < SensorOf(c).adcMaximumMv
    ensures SensorOf(c).calibratedMaximumA <= SensorOf(c).physicalMaximumA && SensorOf(c).physicalMinimumA <= -SensorOf(c).calibratedMaximumA
  {
    hide InUse;
  }

  /** The numeric checks let through exactly what the sensor's laws ask for, and what only the builder asks for. */
  lemma ProfileExactlyWhen(p: CurrentProfile)
    ensures var c := p.sensor;
            CurrentProfileOk(p) <==>
              && Acs.Validated(c) && p.adcBits == 12 && p.fullRange
              && 0.0 < c.supplyValidMinimumMv <= p.supplyNominalMv <= c.supplyValidMaximumMv && p.outputToAdcRatio > 0.0
              && c.adcMinimumMv < c.nominalZeroAdcMv < c.adcMaximumMv
              && c.calibratedMaximumA <= c.physicalMaximumA && c.calibratedMaximumA <= -c.physicalMinimumA
              && p.evaluationIntervalMs > 0 && p.maximumAbsoluteErrorA >= 0.0 && p.maximumRelativeErrorPercent >= 0.0
  {}

  predicate GoodId(id: string) {
    id != "" && |id| <= MAX_NAME && '\0' !in id
  }

  function PinsOf(c: CurrentConfig): seq<int> {
    if c.monitorPin >= 0 then [c.adcPin, c.monitorPin] else [c.adcPin]
  }

  predicate ValidCurrent(l: Limits, s: State, b: Board, c: CurrentConfig) {
    && b.supported && GoodId(c.id) && CurrentProfileOk(c.profile)
    && c.adcPin in b.adc && c.adcPin !in b.reserved
    && (c.monitorPin >= 0 ==> c.monitorPin != c.adcPin && c.monitorPin in b.adc && c.monitorPin !in b.reserved)
    && c.adcPin !in s.books.pins && (c.monitorPin >= 0 ==> c.monitorPin !in s.books.pins)
    && !InUse(s.slots.caps, c.id)
    && |s.books.pins| + |PinsOf(c)| <= 2 * l.sensorsMax && |s.books.ids| < l.sensorsMax
  }

  predicate ValidVoltage(l: Limits, s: State, b: Board, c: VoltageConfig) {
    && b.supported && GoodId(c.id) && VoltageProfileOk(c.profile)
    && c.adcPin in b.adc && c.adcPin !in b.reserved
    && c.adcPin !in s.books.pins && !InUse(s.slots.caps, c.id)
    && |s.books.pins| < 2 * l.sensorsMax
  }

  /** The checks and the installation the sensor registrations share. */
  function SensorAdded(l: Limits, s: State, b: Board, id: string, createOk: bool): (r: (State, bool))
    requires b.adapter.Some? ==> Align(b.adapter.value) <= U32
    requires Align(b.capability) <= U32
    ensures r.0.arena.bytes == s.arena.bytes
  {
    if |s.slots.caps| >= l.capsMax || |s.slots.adapters| >= l.adaptersMax then (s, false)
    else
      match Resolve(l, s, id, b.typ)
      case None => (s, false)
      case Some(name) =>
        if b.adapter.None? then (s, false)
        else Installed(l, s, name, b.typ, b.adapter.value, createOk, b.capability)
  }

  function CurrentAdded(l: Limits, s: State, b: Board, c: CurrentConfig, createOk: bool): (r: (State, bool))
    requires b.adapter.Some? ==> Align(b.adapter.value) <= U32
    requires Align(b.capability) <= U32
    ensures r.0.arena.bytes == s.arena.bytes
  {
    if !ValidCurrent(l, s, b, c) then (s, false)
    else
      var (t, ok) := SensorAdded(l, s, b, c.id, createOk);
      (if ok then t.(books := Books(t.books.pins + PinsOf(c), t.books.ids + [c.id])) else t, ok)
  }

  function VoltageAdded(l: Limits, s: State, b: Board, c: VoltageConfig, createOk: bool): (r: (State, bool))
    requires b.adapter.Some? ==> Align(b.adapter.value) <= U32
    requires Align(b.capability) <= U32
    ensures r.0.arena.bytes == s.arena.bytes
  {
    if !ValidVoltage(l, s, b, c) then (s, false)
    else
      var (t, ok) := SensorAdded(l, s, b, c.id, createOk);
      (if ok then t.(books := t.books.(pins := t.books.pins + [c.adcPin])) else t, ok)
  }

  /** The composite power sensor is constructed in place and cannot fail. */
  function PowerAdded(l: Limits, s: State, id: string, intervalMs: nat, typ: string, ap: Part, cp: Part): (r: (State, bool))
    requires Align(ap) <= U32 && Align(cp) <= U32
    ensures r.0.arena.bytes == s.arena.bytes
  {
    if !GoodId(id) || intervalMs == 0 || |s.slots.caps| >= l.capsMax || |s.slots.adapters| >= l.adaptersMax || InUse(s.slots.caps, id) then (s, false)
    else
      match Resolve(l, s, id, typ)
      case None => (s, false)
      case Some(name) => Installed(l, s, name, typ, ap, true, cp)
  }

  function FanAdded(l: Limits, s: State, configured: string, typ: string, ap: Option<Part>, createOk: bool, cp: Part): (r: (State, bool))
    requires (ap.Some? ==> Align(ap.value) <= U32) && Align(cp) <= U32
    ensures r.0.arena.bytes == s.arena.bytes
  {
    match Resolve(l, s, configured, typ)
    case None => (s, false)
    case Some(name) =>
      if InUse(s.slots.caps, name) || |s.slots.adapters| >= l.adaptersMax || ap.None? then (s, false)
      else Installed(l, s, name, typ, ap.value, createOk, cp)
  }

  /** A current or voltage sensor the caller owns. */
  function ExternalAdded(l: Limits, s: State, id: string, intervalMs: nat, typ: string, cp: Part): (r: (State, bool))
    requires Align(cp) <= U32
    ensures r.0.arena.bytes == s.arena.bytes
  {
    if !GoodId(id) || intervalMs == 0 || |s.slots.caps| >= l.capsMax || InUse(s.slots.caps, id) then (s, false)
    else Created(l, s, id, typ, cp)
  }

  /** The output adapter of the plain actuators; nothing is undone when it fails. */
  function OutputCreated(l: Limits, s: State, ap: Part, createOk: bool): (r: (State, bool))
    requires Align(ap) <= U32
    ensures r.0.arena.bytes == s.arena.bytes
  {
    if |s.slots.adapters| >= l.adaptersMax then (s, false)
    else
      match Allocate(s.arena, ap)
      case None => (s, false)
      case Some(x) =>
        if !createOk then (s.(arena := x.1), false)
        else (s.(arena := x.1, slots := s.slots.(adapters := s.slots.adapters + [BlockFor(s.life.built, x.0, ap)]),
                 life := s.life.(built := s.life.built + 1)), true)
  }

  function LightAdded(l: Limits, s: State, configured: string, typ: string, ap: Part, createOk: bool, cp: Part): (r: (State, bool))
    requires Align(ap) <= U32 && Align(cp) <= U32
    ensures r.0.arena.bytes == s.arena.bytes
  {
    match Resolve(l, s, configured, typ)
    case None => (s, false)
    case Some(name) =>
      var (t, ok) := OutputCreated(l, s, ap, createOk);
      if ok then Created(l, t, name, typ, cp) else (t, false)
  }

  function CapsReversed(caps: seq<Cap>): seq<nat>
    decreases |caps|
  {
    if caps == [] then [] else [caps[|caps| - 1].block.id] + CapsReversed(caps[..|caps| - 1])
  }

  function BlocksReversed(bs: seq<Block>): seq<nat>
    decreases |bs|
  {
    if bs == [] then [] else [bs[|bs| - 1].id] + BlocksReversed(bs[..|bs| - 1])
  }

  function ResetDone(s: State): State {
    State(Arena(s.arena.bytes, 0), Slots([], []), Books([], []),
          s.life.(destroyed := s.life.destroyed + CapsReversed(s.slots.caps) + BlocksReversed(s.slots.adapters)), s.open)
  }

  datatype Op =
    | AddCurrentSensor(board: Board, current: CurrentConfig, createOk: bool)
    | AddVoltageSensor(board: Board, voltage: VoltageConfig, createOk: bool)
    | AddPowerEnergy(id: string, intervalMs: nat, typ: string, adapter: Part, cap: Part)
    | AddFan(name: string, typ: string, output: Option<Part>, createOk: bool, cap: Part)
    | AddExternal(id: string, intervalMs: nat, typ: string, cap: Part)
    | AddLight(name: string, typ: string, adapter: Part, createOk: bool, cap: Part)
    | CloseRegistration
    | Reset

  /** Every part named by the operation can be placed in an arena of that size. */
  predicate Sized(bytes: nat, op: Op) {
    match op
    case AddCurrentSensor(b, _, _) => Fits(bytes, b.capability) && (b.adapter.Some? ==> Fits(bytes, b.adapter.value))
    case AddVoltageSensor(b, _, _) => Fits(bytes, b.capability) && (b.adapter.Some? ==> Fits(bytes, b.adapter.value))
    case AddPowerEnergy(_, _, _, ap, cp) => Fits(bytes, ap) && Fits(bytes, cp)
    case AddFan(_, _, ap, _, cp) => Fits(bytes, cp) && (ap.Some? ==> Fits(bytes, ap.value))
    case AddExternal(_, _, _, cp) => Fits(bytes, cp)
    case AddLight(_, _, ap, _, cp) => Fits(bytes, ap) && Fits(bytes, cp)
    case _ => true
  }

  function Applied(l: Limits, s: State, op: Op): (r: (State, bool))
    requires Sized(s.arena.bytes, op)
    ensures r.0.arena.bytes == s.arena.bytes
  {
    match op
    case AddCurrentSensor(b, c, ok) => CurrentAdded(l, s, b, c, ok)
    case AddVoltageSensor(b, c, ok) => VoltageAdded(l, s, b, c, ok)
    case AddPowerEnergy(id, ms, typ, ap, cp) => PowerAdded(l, s, id, ms, typ, ap, cp)
    case AddFan(name, typ, ap, ok, cp) => FanAdded(l, s, name, typ, ap, ok, cp)
    case AddExternal(id, ms, typ, cp) => ExternalAdded(l, s, id, ms, typ, cp)
    case AddLight(name, typ, ap, ok, cp) => LightAdded(l, s, name, typ, ap, ok, cp)
    case CloseRegistration => (s.(open := false), true)
    case Reset => (ResetDone(s), true)
  }

  function Run(l: Limits, s: State, ops: seq<Op>): (r: State)
    requires forall i :: 0 <= i < |ops| ==> Sized(s.arena.bytes, ops[i])
    ensures r.arena.bytes == s.arena.bytes
    decreases |ops|
  {
    if ops == [] then s else Run(l, Applied(l, s, ops[0]).0, ops[1..])
  }

  // -------------------------------------------------------------- invariant

  predicate InArena(a: Arena, b: Block) {
    b.at + b.size <= a.offset && b.align > 0 && b.at % b.align == 0
  }

  predicate Apart(x: Block, y: Block) {
    x.at + x.size <= y.at || y.at + y.size <= x.at
  }

  /** Every live object is aligned and inside the used part of the arena, and no two overlap. */
  ghost predicate Placed(a: Arena, s: Slots) {
    && a.offset <= a.bytes
    && (forall i :: 0 <= i < |s.caps| ==> InArena(a, s.caps[i].block))
    && (forall i :: 0 <= i < |s.adapters| ==> InArena(a, s.adapters[i]))
    && (forall i, j :: 0 <= i < j < |s.caps| ==> Apart(s.caps[i].block, s.caps[j].block))
    && (forall i, j :: 0 <= i < j < |s.adapters| ==> Apart(s.adapters[i], s.adapters[j]))
    && (forall i, j :: 0 <= i < |s.caps| && 0 <= j < |s.adapters| ==> Apart(s.caps[i].block, s.adapters[j]))
  }

  function CapIds(caps: seq<Cap>): multiset<nat>
    decreases |caps|
  {
    if caps == [] then multiset{} else CapIds(caps[..|caps| - 1]) + multiset{caps[|caps| - 1].block.id}
  }

  function BlockIds(bs: seq<Block>): multiset<nat>
    decreases |bs|
  {
    if bs == [] then multiset{} else BlockIds(bs[..|bs| - 1]) + multiset{bs[|bs| - 1].id}
  }

  /** The serial numbers 0 to n - 1, once each. */
  function Serials(n: nat): multiset<nat> {
    if n == 0 then multiset{} else Serials(n - 1) + multiset{n - 1}
  }

  /** Every object constructed is in a slot or destroyed, once. */
  predicate Accounted(s: Slots, life: Life) {
    CapIds(s.caps) + BlockIds(s.adapters) + multiset(life.destroyed) == Serials(life.built)
  }

  predicate Distinct<T(==)>(xs: seq<T>) {
    forall i, j :: 0 <= i < j < |xs| ==> xs[i] != xs[j]
  }

  /** Sensor pins are distinct and each recorded current sensor id names exactly one capability. */
  ghost predicate Booked(l: Limits, s: Slots, b: Books) {
    && |s.caps| <= l.capsMax && |s.adapters| <= l.adaptersMax
    && |b.pins| <= 2 * l.sensorsMax && |b.ids| <= l.sensorsMax
    && Distinct(b.pins)
    && (forall i, j :: 0 <= i < j < |s.caps| && s.caps[i].name in b.ids ==> s.caps[i].name != s.caps[j].name)
    && (forall k :: 0 <= k < |b.ids| ==> InUse(s.caps, b.ids[k]))
    && (forall i :: 0 <= i < |s.caps| ==> 0 < |s.caps[i].name| <= MAX_NAME)
  }

  ghost predicate Inv(l: Limits, s: State) {
    Placed(s.arena, s.slots) && Accounted(s.slots, s.life) && Booked(l, s.slots, s.books)
  }

  lemma PlaceAdapter(a: Arena, s: Slots, b: Block, e: Arena)
    requires Placed(a, s) && a.offset <= b.at && b.at + b.size == e.offset <= e.bytes && b.align > 0 && b.at % b.align == 0
    ensures Placed(e, s.(adapters := s.adapters + [b]))
  {}

  lemma PlaceCap(a: Arena, s: Slots, c: Cap, e: Arena)
    requires Placed(a, s) && a.offset <= c.block.at && c.block.at + c.block.size == e.offset <= e.bytes
    requires c.block.align > 0 && c.block.at % c.block.align == 0
    ensures Placed(e, s.(caps := s.caps + [c]))
  {}

  lemma CountAdapter(s: Slots, life: Life, b: Block)
    requires Accounted(s, life) && b.id == life.built
    ensures Accounted(s.(adapters := s.adapters + [b]), life.(built := life.built + 1))
  {
    assert (s.adapters + [b])[..|s.adapters|] == s.adapters;
  }

  lemma CountCap(s: Slots, life: Life, c: Cap)
    requires Accounted(s, life) && c.block.id == life.built
    ensures Accounted(s.(caps := s.caps + [c]), life.(built := life.built + 1))
  {
    assert (s.caps + [c])[..|s.caps|] == s.caps;
  }

  lemma CountDropped(s: State)
    requires Accounted(s.slots, s.life)
    ensures Accounted(s.slots, Dropped(s, 1).life) && Accounted(s.slots, Dropped(s, 2).life)
  {
    hide CapIds, BlockIds, Serials;
    var held, d, b := CapIds(s.slots.caps) + BlockIds(s.slots.adapters), s.life.destroyed, s.life.built;
    DropOne(held, d, Serials(b), b);
    DropTwo(held, d, Serials(b), b, b + 1);
    SerialsNext(b);
    SerialsNext(b + 1);
    assert Dropped(s, 1).life == Life(b + 1, d + [b]);
    assert Dropped(s, 2).life == Life(b + 2, d + [b + 1, b]);
  }

  lemma SerialsNext(n: nat)
    ensures Serials(n + 1) == Serials(n) + multiset{n}
  {}

  lemma DropOne(held: multiset<nat>, d: seq<nat>, all: multiset<nat>, b: nat)
    requires held + multiset(d) == all
    ensures held + multiset(d + [b]) == all + multiset{b}
  {}

  lemma DropTwo(held: multiset<nat>, d: seq<nat>, all: multiset<nat>, b: nat, c: nat)
    requires held + multiset(d) == all
    ensures held + multiset(d + [c, b]) == (all + multiset{b}) + multiset{c}
  {
    DropOne(held, d, all, c);
    DropOne(held, d + [c], all + multiset{c}, b);
    assert d + [c, b] == d + [c] + [b];
  }

  lemma BookCap(l: Limits, s: Slots, b: Books, c: Cap)
    requires Booked(l, s, b) && |s.caps| < l.capsMax && c.name !in b.ids && 0 < |c.name| <= MAX_NAME
    ensures Booked(l, s.(caps := s.caps + [c]), b)
  {
    forall k | 0 <= k < |b.ids| ensures InUse(s.caps + [c], b.ids[k]) {
      StillInUse(s.caps, c, b.ids[k]);
    }
    hide InUse;
  }

  lemma StillInUse(caps: seq<Cap>, c: Cap, name: string)
    requires InUse(caps, name)
    ensures InUse(caps + [c], name)
  {
    var i :| 0 <= i < |caps| && caps[i].name == name;
    assert (caps + [c])[i].name == name;
  }

  /** The capability just registered becomes the one bearer of its recorded id. */
  lemma BookId(l: Limits, s: Slots, b: Books, name: string)
    requires Booked(l, s, b) && s.caps != [] && s.caps[|s.caps| - 1].name == name && |b.ids| < l.sensorsMax
    requires forall i :: 0 <= i < |s.caps| - 1 ==> s.caps[i].name != name
    ensures Booked(l, s, b.(ids := b.ids + [name]))
  {
    assert InUse(s.caps, name);
    hide InUse;
  }

  // --------------------------------------------------------- one operation

  /** What an operation that registers an adapter and a capability leaves: both of them, or nothing but finished objects. */
  predicate AllOrNothing(s: State, r: (State, bool)) {
    if r.1 then
      var t := r.0.slots;
      && |t.caps| == |s.slots.caps| + 1 && t.caps[..|s.slots.caps|] == s.slots.caps
      && |t.adapters| == |s.slots.adapters| + 1 && t.adapters[..|s.slots.adapters|] == s.slots.adapters
      && t.adapters[|s.slots.adapters|].id == s.life.built && t.caps[|s.slots.caps|].block.id == s.life.built + 1
      && r.0.life == s.life.(built := s.life.built + 2)
    else r.0 == s || r.0 == Dropped(s, 1) || r.0 == Dropped(s, 2)
  }

  lemma InstalledInv(l: Limits, s: State, name: string, typ: string, ap: Part, createOk: bool, cp: Part)
    requires Inv(l, s) && Fits(s.arena.bytes, ap) && Fits(s.arena.bytes, cp) && name != ""
    ensures Align(ap) <= U32 && Align(cp) <= U32
    ensures var r := Installed(l, s, name, typ, ap, createOk, cp);
            && Inv(l, r.0) && AllOrNothing(s, r) && r.0.books == s.books && r.0.open == s.open
            && (r.1 ==> r.0.slots.caps[|s.slots.caps|].name == name)
  {
    hide Allocate, Align, Placed, Accounted, Booked, InUse;
    PlacedOffset(s);
    AllocateSound(s.arena, ap);
    AlignPositive(ap);
    AlignPositive(cp);
    CountDropped(s);
    if Allocate(s.arena, ap).Some? {
      var x := Allocate(s.arena, ap).value;
      AllocateSound(x.1, cp);
      if Allocate(x.1, cp).Some? && Resolve(l, s, name, typ).Some? && |s.slots.adapters| < l.adaptersMax {
        var y := Allocate(x.1, cp).value;
        InstalledBoth(l, s, BlockFor(s.life.built, x.0, ap), x.1, Cap(BlockFor(s.life.built + 1, y.0, cp), name), y.1);
      }
    }
  }

  lemma InstalledBoth(l: Limits, s: State, a: Block, e: Arena, c: Cap, f: Arena)
    requires Inv(l, s) && |s.slots.adapters| < l.adaptersMax && |s.slots.caps| < l.capsMax
    requires s.arena.offset <= a.at && a.at + a.size == e.offset <= e.bytes && a.align > 0 && a.at % a.align == 0
    requires e.offset <= c.block.at && c.block.at + c.block.size == f.offset <= f.bytes && c.block.align > 0 && c.block.at % c.block.align == 0
    requires a.id == s.life.built && c.block.id == s.life.built + 1
    requires c.name !in s.books.ids && 0 < |c.name| <= MAX_NAME
    ensures var t := Slots(s.slots.caps + [c], s.slots.adapters + [a]);
            Placed(f, t) && Accounted(t, s.life.(built := s.life.built + 2)) && Booked(l, t, s.books)
  {
    var m := s.slots.(adapters := s.slots.adapters + [a]);
    BookAdapter(l, s.slots, s.books, a);
    PlaceAdapter(s.arena, s.slots, a, e);
    CountAdapter(s.slots, s.life, a);
    hide Placed, Accounted, Booked;
    PlaceCap(e, m, c, f);
    CountCap(m, s.life.(built := s.life.built + 1), c);
    BookCap(l, m, s.books, c);
  }

  lemma BookAdapter(l: Limits, s: Slots, b: Books, a: Block)
    requires Booked(l, s, b) && |s.adapters| < l.adaptersMax
    ensures Booked(l, s.(adapters := s.adapters + [a]), b)
  {}

  lemma PlacedOffset(s: State)
    requires Placed(s.arena, s.slots)
    ensures s.arena.offset <= s.arena.bytes
  {}

  lemma AlignPositive(p: Part)
    ensures Align(p) > 0
  {}

  /** What a registration over something the caller owns leaves. */
  predicate OneOrNothing(s: State, r: (State, bool)) {
    if r.1 then
      var t := r.0.slots;
      && |t.caps| == |s.slots.caps| + 1 && t.caps[..|s.slots.caps|] == s.slots.caps && t.adapters == s.slots.adapters
      && t.caps[|s.slots.caps|].block.id == s.life.built
      && r.0.life == s.life.(built := s.life.built + 1)
    else r.0 == s || r.0 == Dropped(s, 1)
  }

  lemma CreatedInv(l: Limits, s: State, name: string, typ: string, cp: Part)
    requires Inv(l, s) && Fits(s.arena.bytes, cp) && name != ""
    ensures Align(cp) <= U32
    ensures var r := Created(l, s, name, typ, cp);
            && Inv(l, r.0) && OneOrNothing(s, r) && r.0.books == s.books && r.0.open == s.open
            && (r.1 ==> r.0.slots.caps[|s.slots.caps|].name == name)
  {
    hide Allocate, Align, Placed, Accounted, Booked;
    PlacedOffset(s);
    AllocateSound(s.arena, cp);
    AlignPositive(cp);
    CountDropped(s);
    if Allocate(s.arena, cp).Some? && Resolve(l, s, name, typ).Some? {
      var y := Allocate(s.arena, cp).value;
      var c := Cap(BlockFor(s.life.built, y.0, cp), name);
      PlaceCap(s.arena, s.slots, c, y.1);
      CountCap(s.slots, s.life, c);
      BookCap(l, s.slots, s.books, c);
    }
  }

  lemma OutputInv(l: Limits, s: State, ap: Part, createOk: bool)
    requires Inv(l, s) && Fits(s.arena.bytes, ap)
    ensures Align(ap) <= U32
    ensures var r := OutputCreated(l, s, ap, createOk);
            Inv(l, r.0) && r.0.books == s.books && r.0.open == s.open && r.0.slots.caps == s.slots.caps
  {
    hide Allocate, Align, Placed, Accounted, Booked;
    PlacedOffset(s);
    AllocateSound(s.arena, ap);
    AlignPositive(ap);
    if |s.slots.adapters| < l.adaptersMax && Allocate(s.arena, ap).Some? {
      var x := Allocate(s.arena, ap).value;
      if createOk {
        var a := BlockFor(s.life.built, x.0, ap);
        PlaceAdapter(s.arena, s.slots, a, x.1);
        CountAdapter(s.slots, s.life, a);
        BookAdapter(l, s.slots, s.books, a);
      } else {
        PlaceNothing(s.arena, s.slots, x.1);
      }
    }
  }

  lemma PlaceNothing(a: Arena, s: Slots, e: Arena)
    requires Placed(a, s) && a.offset <= e.offset <= e.bytes
    ensures Placed(e, s)
  {}

  lemma ResolvedName(l: Limits, s: State, configured: string, typ: string)
    ensures var r := Resolve(l, s, configured, typ);
            r.Some? ==> r.value != "" && r.value !in s.books.ids && (configured != "" ==> r.value == configured)
  {}

  lemma BookPins(l: Limits, s: Slots, b: Books, pins: seq<int>)
    requires Booked(l, s, b) && |b.pins| + |pins| <= 2 * l.sensorsMax && Distinct(pins)
    requires forall i :: 0 <= i < |pins| ==> pins[i] !in b.pins
    ensures Booked(l, s, b.(pins := b.pins + pins))
  {
    hide InUse;
  }

  lemma SensorAddedInv(l: Limits, s: State, b: Board, id: string, createOk: bool)
    requires Inv(l, s) && Fits(s.arena.bytes, b.capability) && (b.adapter.Some? ==> Fits(s.arena.bytes, b.adapter.value)) && id != ""
    ensures var r := SensorAdded(l, s, b, id, createOk);
            && Inv(l, r.0) && AllOrNothing(s, r) && r.0.books == s.books
            && (r.1 ==> r.0.slots.caps[|s.slots.caps|].name == id)
  {
    hide Inv, Installed, Resolve, AllOrNothing, Align;
    NothingChanged(s);
    ResolvedName(l, s, id, b.typ);
    if b.adapter.Some? {
      InstalledInv(l, s, id, b.typ, b.adapter.value, createOk, b.capability);
    }
  }

  lemma NothingChanged(s: State)
    ensures AllOrNothing(s, (s, false)) && OneOrNothing(s, (s, false))
  {}

  lemma CurrentAddedInv(l: Limits, s: State, b: Board, c: CurrentConfig, createOk: bool)
    requires Inv(l, s) && Fits(s.arena.bytes, b.capability) && (b.adapter.Some? ==> Fits(s.arena.bytes, b.adapter.value))
    ensures var r := CurrentAdded(l, s, b, c, createOk);
            && Inv(l, r.0) && AllOrNothing(s, r)
            && (r.1 ==> r.0.books == Books(s.books.pins + PinsOf(c), s.books.ids + [c.id]))
  {
    hide Placed, Accounted, Booked, SensorAdded, CurrentProfileOk;
    NothingChanged(s);
    if ValidCurrent(l, s, b, c) {
      SensorAddedInv(l, s, b, c.id, createOk);
      var r := SensorAdded(l, s, b, c.id, createOk);
      if r.1 {
        BookPins(l, r.0.slots, s.books, PinsOf(c));
        OneBearer(s.slots.caps, r.0.slots.caps, c.id);
        BookId(l, r.0.slots, s.books.(pins := s.books.pins + PinsOf(c)), c.id);
      }
    }
  }

  lemma OneBearer(before: seq<Cap>, caps: seq<Cap>, name: string)
    requires |caps| == |before| + 1 && caps[..|before|] == before && !InUse(before, name)
    ensures forall i :: 0 <= i < |caps| - 1 ==> caps[i].name != name
  {
    forall i | 0 <= i < |caps| - 1 ensures caps[i].name != name {
      assert caps[i] == before[i];
    }
  }

  lemma VoltageAddedInv(l: Limits, s: State, b: Board, c: VoltageConfig, createOk: bool)
    requires Inv(l, s) && Fits(s.arena.bytes, b.capability) && (b.adapter.Some? ==> Fits(s.arena.bytes, b.adapter.value))
    ensures var r := VoltageAdded(l, s, b, c, createOk);
            && Inv(l, r.0) && AllOrNothing(s, r)
            && (r.1 ==> r.0.books == Books(s.books.pins + [c.adcPin], s.books.ids))
  {
    hide Placed, Accounted, Booked, SensorAdded, VoltageProfileOk;
    NothingChanged(s);
    if ValidVoltage(l, s, b, c) {
      SensorAddedInv(l, s, b, c.id, createOk);
      var r := SensorAdded(l, s, b, c.id, createOk);
      if r.1 {
        BookPins(l, r.0.slots, s.books, [c.adcPin]);
      }
    }
  }

  lemma PowerAddedInv(l: Limits, s: State, id: string, intervalMs: nat, typ: string, ap: Part, cp: Part)
    requires Inv(l, s) && Fits(s.arena.bytes, ap) && Fits(s.arena.bytes, cp)
    ensures var r := PowerAdded(l, s, id, intervalMs, typ, ap, cp);
            Inv(l, r.0) && AllOrNothing(s, r) && r.0.books == s.books
  {
    hide Inv, Installed, Resolve, AllOrNothing, Align, InUse;
    NothingChanged(s);
    ResolvedName(l, s, id, typ);
    if GoodId(id) {
      InstalledInv(l, s, id, typ, ap, true, cp);
    }
  }

  lemma FanAddedInv(l: Limits, s: State, configured: string, typ: string, ap: Option<Part>, createOk: bool, cp: Part)
    requires Inv(l, s) && Fits(s.arena.bytes, cp) && (ap.Some? ==> Fits(s.arena.bytes, ap.value))
    ensures var r := FanAdded(l, s, configured, typ, ap, createOk, cp);
            Inv(l, r.0) && AllOrNothing(s, r) && r.0.books == s.books
  {
    hide Inv, Installed, Resolve, AllOrNothing, Align, InUse;
    NothingChanged(s);
    ResolvedName(l, s, configured, typ);
    var name := Resolve(l, s, configured, typ);
    if name.Some? && ap.Some? {
      InstalledInv(l, s, name.value, typ, ap.value, createOk, cp);
    }
  }

  lemma ExternalAddedInv(l: Limits, s: State, id: string, intervalMs: nat, typ: string, cp: Part)
    requires Inv(l, s) && Fits(s.arena.bytes, cp)
    ensures var r := ExternalAdded(l, s, id, intervalMs, typ, cp);
            Inv(l, r.0) && OneOrNothing(s, r) && r.0.books == s.books
  {
    hide Inv, Created, OneOrNothing, Align, InUse;
    NothingChanged(s);
    if GoodId(id) {
      CreatedInv(l, s, id, typ, cp);
    }
  }

  lemma LightAddedInv(l: Limits, s: State, configured: string, typ: string, ap: Part, createOk: bool, cp: Part)
    requires Inv(l, s) && Fits(s.arena.bytes, ap) && Fits(s.arena.bytes, cp)
    ensures var r := LightAdded(l, s, configured, typ, ap, createOk, cp);
            Inv(l, r.0) && r.0.books == s.books
  {
    hide Inv, Created, OutputCreated, Resolve, Align;
    ResolvedName(l, s, configured, typ);
    var name := Resolve(l, s, configured, typ);
    if name.Some? {
      OutputInv(l, s, ap, createOk);
      var r := OutputCreated(l, s, ap, createOk);
      CreatedInv(l, r.0, name.value, typ, cp);
    }
  }

  // ---------------------------------------------------------------- reset

  lemma {:induction false} CapsReversedIds(caps: seq<Cap>)
    ensures multiset(CapsReversed(caps)) == CapIds(caps)
    decreases |caps|
  {
    if caps != [] {
      var n := |caps| - 1;
      CapsReversedIds(caps[..n]);
      Prepended(caps[n].block.id, CapsReversed(caps[..n]));
    }
  }

  lemma {:induction false} BlocksReversedIds(bs: seq<Block>)
    ensures multiset(BlocksReversed(bs)) == BlockIds(bs)
    decreases |bs|
  {
    if bs != [] {
      var n := |bs| - 1;
      BlocksReversedIds(bs[..n]);
      Prepended(bs[n].id, BlocksReversed(bs[..n]));
    }
  }

  lemma Prepended(x: nat, xs: seq<nat>)
    ensures multiset([x] + xs) == multiset(xs) + multiset{x}
  {}

  /** Reset calls each remaining destructor once, every capability's before any adapter's, and leaves an empty builder. */
  lemma ResetDestroysAll(l: Limits, s: State)
    requires Inv(l, s)
    ensures var t := ResetDone(s);
            && Inv(l, t) && multiset(t.life.destroyed) == Serials(t.life.built)
            && t.life.destroyed == s.life.destroyed + CapsReversed(s.slots.caps) + BlocksReversed(s.slots.adapters)
  {
    hide Placed, Booked, InUse;
    var d, c, b := s.life.destroyed, CapsReversed(s.slots.caps), BlocksReversed(s.slots.adapters);
    CapsReversedIds(s.slots.caps);
    BlocksReversedIds(s.slots.adapters);
    assert multiset(d + c + b) == CapIds(s.slots.caps) + BlockIds(s.slots.adapters) + multiset(d);
    EmptyInv(l, s.arena.bytes);
  }

  lemma EmptyInv(l: Limits, bytes: nat)
    ensures Placed(Arena(bytes, 0), Slots([], [])) && Booked(l, Slots([], []), Books([], []))
    ensures CapIds([]) == multiset{} && BlockIds([]) == multiset{}
  {}

  // ------------------------------------------------------------ the results

  lemma AppliedInv(l: Limits, s: State, op: Op)
    requires Inv(l, s) && Sized(s.arena.bytes, op)
    ensures Inv(l, Applied(l, s, op).0)
  {
    hide Inv, CurrentAdded, VoltageAdded, PowerAdded, FanAdded, ExternalAdded, LightAdded, ResetDone, Fits;
    match op
    case AddCurrentSensor(b, c, ok) => CurrentAddedInv(l, s, b, c, ok);
    case AddVoltageSensor(b, c, ok) => VoltageAddedInv(l, s, b, c, ok);
    case AddPowerEnergy(id, ms, typ, ap, cp) => PowerAddedInv(l, s, id, ms, typ, ap, cp);
    case AddFan(name, typ, ap, ok, cp) => FanAddedInv(l, s, name, typ, ap, ok, cp);
    case AddExternal(id, ms, typ, cp) => ExternalAddedInv(l, s, id, ms, typ, cp);
    case AddLight(name, typ, ap, ok, cp) => LightAddedInv(l, s, name, typ, ap, ok, cp);
    case CloseRegistration => ClosedInv(l, s);
    case Reset => ResetDestroysAll(l, s);
  }

  lemma ClosedInv(l: Limits, s: State)
    requires Inv(l, s)
    ensures Inv(l, s.(open := false))
  {}

  lemma {:induction false} RunKeepsInv(l: Limits, s: State, ops: seq<Op>)
    requires Inv(l, s) && forall i :: 0 <= i < |ops| ==> Sized(s.arena.bytes, ops[i])
    ensures Inv(l, Run(l, s, ops))
    decreases |ops|
  {
    hide Inv, Applied, Sized;
    if ops != [] {
      AppliedInv(l, s, ops[0]);
      RunKeepsInv(l, Applied(l, s, ops[0]).0, ops[1..]);
    }
  }

  /**
   * After any operations: live objects are aligned, inside the arena and
   * disjoint; each object ever constructed is in a slot or destroyed, once;
   * sensor pins are distinct and each current sensor id has one bearer.
   */
  lemma BuilderRuns(l: Limits, bytes: nat, ops: seq<Op>)
    requires forall i :: 0 <= i < |ops| ==> Sized(bytes, ops[i])
    ensures var s := Run(l, Init(bytes), ops);
            Placed(s.arena, s.slots) && Accounted(s.slots, s.life) && Booked(l, s.slots, s.books)
  {
    hide Run, Placed, Accounted, Booked;
    EmptyInv(l, bytes);
    NoneBuilt();
    RunKeepsInv(l, Init(bytes), ops);
  }

  lemma NoneBuilt()
    ensures Accounted(Slots([], []), Life(0, []))
  {}

  lemma {:induction false} SerialsOnce(n: nat, k: nat)
    ensures Serials(n)[k] == if k < n then 1 else 0
    decreases n
  {
    if n > 0 {
      SerialsOnce(n - 1, k);
    }
  }

  /** After any operations and a reset every object ever constructed has been destroyed exactly once. */
  lemma DestroyedOnce(l: Limits, bytes: nat, ops: seq<Op>, k: nat)
    requires forall i :: 0 <= i < |ops| ==> Sized(bytes, ops[i])
    ensures var life := ResetDone(Run(l, Init(bytes), ops)).life;
            multiset(life.destroyed)[k] == if k < life.built then 1 else 0
  {
    hide Run, Placed, Accounted, Booked, ResetDone, Serials;
    BuilderRuns(l, bytes, ops);
    var s := Run(l, Init(bytes), ops);
    ResetDestroysAll(l, s);
    SerialsOnce(ResetDone(s).life.built, k);
  }

  // ------------------------------------------------ the sensors accepted so far

  /** A configuration the builder accepted. */
  datatype Sensor = Current(current: CurrentConfig) | Voltage(voltage: VoltageConfig)

  /** The sensor occupies the pin: its ADC pin, or the supply monitor pin if it has one. */
  predicate Uses(x: Sensor, pin: int) {
    match x
    case Current(c) => pin == c.adcPin || (c.monitorPin >= 0 && pin == c.monitorPin)
    case Voltage(c) => pin == c.adcPin
  }

  /** The configurations accepted since the last reset, oldest first. */
  function Noted(h: seq<Sensor>, op: Op, ok: bool): seq<Sensor> {
    match op
    case AddCurrentSensor(_, c, _) => if ok then h + [Current(c)] else h
    case AddVoltageSensor(_, c, _) => if ok then h + [Voltage(c)] else h
    case Reset => []
    case _ => h
  }

  function History(l: Limits, s: State, h: seq<Sensor>, ops: seq<Op>): seq<Sensor>
    requires forall i :: 0 <= i < |ops| ==> Sized(s.arena.bytes, ops[i])
    decreases |ops|
  {
    if ops == [] then h
    else
      var r := Applied(l, s, ops[0]);
      History(l, r.0, Noted(h, ops[0], r.1), ops[1..])
  }

  function PinCount(h: seq<Sensor>): nat
    decreases |h|
  {
    if h == [] then 0
    else
      var x := h[|h| - 1];
      PinCount(h[..|h| - 1]) + if x.Current? && x.current.monitorPin >= 0 then 2 else 1
  }

  function CurrentCount(h: seq<Sensor>): nat
    decreases |h|
  {
    if h == [] then 0 else CurrentCount(h[..|h| - 1]) + if h[|h| - 1].Current? then 1 else 0
  }

  /** Some accepted sensor occupies the pin. */
  ghost predicate Taken(h: seq<Sensor>, pin: int) {
    exists i :: 0 <= i < |h| && Uses(h[i], pin)
  }

  ghost predicate IdTaken(h: seq<Sensor>, id: string) {
    exists i :: 0 <= i < |h| && h[i].Current? && h[i].current.id == id
  }

  /** The books hold the pins and the ids of the accepted sensors, and nothing else. */
  ghost predicate Recorded(h: seq<Sensor>, b: Books) {
    && (forall pin :: pin in b.pins <==> Taken(h, pin)) && |b.pins| == PinCount(h)
    && (forall id :: id in b.ids <==> IdTaken(h, id)) && |b.ids| == CurrentCount(h)
  }

  /** No pin is occupied twice, by one sensor or by two. */
  ghost predicate Exclusive(h: seq<Sensor>) {
    && (forall i :: 0 <= i < |h| && h[i].Current? && h[i].current.monitorPin >= 0 ==> h[i].current.monitorPin != h[i].current.adcPin)
    && (forall i, j, pin :: 0 <= i < j < |h| && Uses(h[i], pin) ==> !Uses(h[j], pin))
  }

  lemma TakenNext(h: seq<Sensor>, x: Sensor, pin: int)
    ensures Taken(h + [x], pin) <==> Taken(h, pin) || Uses(x, pin)
  {
    hide Uses;
    if Taken(h, pin) {
      var i :| 0 <= i < |h| && Uses(h[i], pin);
      assert (h + [x])[i] == h[i];
    }
    if Uses(x, pin) {
      assert (h + [x])[|h|] == x;
    }
  }

  lemma IdTakenNext(h: seq<Sensor>, x: Sensor, id: string)
    ensures IdTaken(h + [x], id) <==> IdTaken(h, id) || (x.Current? && x.current.id == id)
  {
    if IdTaken(h, id) {
      var i :| 0 <= i < |h| && h[i].Current? && h[i].current.id == id;
      assert (h + [x])[i] == h[i];
    }
    if x.Current? && x.current.id == id {
      assert (h + [x])[|h|] == x;
    }
  }

  lemma ExclusiveNext(h: seq<Sensor>, x: Sensor)
    requires Exclusive(h) && forall pin :: Uses(x, pin) ==> !Taken(h, pin)
    requires x.Current? && x.current.monitorPin >= 0 ==> x.current.monitorPin != x.current.adcPin
    ensures Exclusive(h + [x])
  {
    hide Uses;
    forall i, j, pin | 0 <= i < j < |h| + 1 && Uses((h + [x])[i], pin) ensures !Uses((h + [x])[j], pin) {
      if j == |h| {
        assert Uses(h[i], pin);
        assert Taken(h, pin);
      }
    }
  }

  lemma PinCountNext(h: seq<Sensor>, x: Sensor)
    ensures PinCount(h + [x]) == PinCount(h) + if x.Current? && x.current.monitorPin >= 0 then 2 else 1
    ensures CurrentCount(h + [x]) == CurrentCount(h) + if x.Current? then 1 else 0
  {
    assert (h + [x])[..|h|] == h;
  }

  lemma CurrentNoted(h: seq<Sensor>, b: Books, c: CurrentConfig)
    requires Recorded(h, b) && Exclusive(h) && c.adcPin !in b.pins
    requires c.monitorPin >= 0 ==> c.monitorPin !in b.pins && c.monitorPin != c.adcPin
    ensures Recorded(h + [Current(c)], Books(b.pins + PinsOf(c), b.ids + [c.id])) && Exclusive(h + [Current(c)])
  {
    hide Taken, IdTaken, Exclusive, PinCount, CurrentCount;
    var x, pins, ids := Current(c), b.pins + PinsOf(c), b.ids + [c.id];
    forall pin ensures pin in pins <==> Taken(h + [x], pin) {
      TakenNext(h, x, pin);
    }
    forall id ensures id in ids <==> IdTaken(h + [x], id) {
      IdTakenNext(h, x, id);
    }
    PinCountNext(h, x);
    ExclusiveNext(h, x);
  }

  lemma VoltageNoted(h: seq<Sensor>, b: Books, c: VoltageConfig)
    requires Recorded(h, b) && Exclusive(h) && c.adcPin !in b.pins
    ensures Recorded(h + [Voltage(c)], Books(b.pins + [c.adcPin], b.ids)) && Exclusive(h + [Voltage(c)])
  {
    hide Taken, IdTaken, Exclusive, PinCount, CurrentCount;
    var x, pins := Voltage(c), b.pins + [c.adcPin];
    forall pin ensures pin in pins <==> Taken(h + [x], pin) {
      TakenNext(h, x, pin);
    }
    forall id ensures id in b.ids <==> IdTaken(h + [x], id) {
      IdTakenNext(h, x, id);
    }
    PinCountNext(h, x);
    ExclusiveNext(h, x);
  }

  lemma AppliedNoted(l: Limits, s: State, h: seq<Sensor>, op: Op)
    requires Inv(l, s) && Sized(s.arena.bytes, op) && Recorded(h, s.books) && Exclusive(h)
    ensures var r := Applied(l, s, op);
            Recorded(Noted(h, op, r.1), r.0.books) && Exclusive(Noted(h, op, r.1))
  {
    hide Inv, Recorded, Exclusive, PowerAdded, FanAdded, ExternalAdded, LightAdded, Fits, SensorAdded, PinsOf, InUse, CurrentProfileOk, VoltageProfileOk, Align;
    match op
    case AddCurrentSensor(b, c, ok) =>
      CurrentAddedInv(l, s, b, c, ok);
      if Applied(l, s, op).1 {
        CurrentNoted(h, s.books, c);
      }
    case AddVoltageSensor(b, c, ok) =>
      VoltageAddedInv(l, s, b, c, ok);
      if Applied(l, s, op).1 {
        VoltageNoted(h, s.books, c);
      }
    case AddPowerEnergy(id, ms, typ, ap, cp) => PowerAddedInv(l, s, id, ms, typ, ap, cp);
    case AddFan(name, typ, ap, ok, cp) => FanAddedInv(l, s, name, typ, ap, ok, cp);
    case AddExternal(id, ms, typ, cp) => ExternalAddedInv(l, s, id, ms, typ, cp);
    case AddLight(name, typ, ap, ok, cp) => LightAddedInv(l, s, name, typ, ap, ok, cp);
    case CloseRegistration =>
    case Reset => NothingNoted();
  }

  lemma NothingNoted()
    ensures Recorded([], Books([], [])) && Exclusive([])
  {}

  lemma {:induction false} RunNoted(l: Limits, s: State, h: seq<Sensor>, ops: seq<Op>)
    requires Inv(l, s) && Recorded(h, s.books) && Exclusive(h)
    requires forall i :: 0 <= i < |ops| ==> Sized(s.arena.bytes, ops[i])
    ensures var k := History(l, s, h, ops);
            Inv(l, Run(l, s, ops)) && Recorded(k, Run(l, s, ops).books) && Exclusive(k)
    decreases |ops|
  {
    hide Inv, Applied, Sized, Recorded, Exclusive, Noted;
    if ops != [] {
      var r := Applied(l, s, ops[0]);
      AppliedInv(l, s, ops[0]);
      AppliedNoted(l, s, h, ops[0]);
      RunNoted(l, r.0, Noted(h, ops[0], r.1), ops[1..]);
    }
  }

  /**
   * After any operations no ADC or monitor pin is occupied twice by the sensors
   * accepted since the last reset, and a configuration that names a pin of one
   * of them, or a current sensor with the id of one, is refused and changes nothing.
   */
  lemma PinsExclusive(l: Limits, bytes: nat, ops: seq<Op>, op: Op)
    requires Sized(bytes, op) && forall i :: 0 <= i < |ops| ==> Sized(bytes, ops[i])
    ensures var s, h := Run(l, Init(bytes), ops), History(l, Init(bytes), [], ops);
            && Exclusive(h) && PinCount(h) <= 2 * l.sensorsMax
            && (op.AddCurrentSensor? && Taken(h, op.current.adcPin) ==> Applied(l, s, op) == (s, false))
            && (op.AddCurrentSensor? && op.current.monitorPin >= 0 && Taken(h, op.current.monitorPin) ==> Applied(l, s, op) == (s, false))
            && (op.AddVoltageSensor? && Taken(h, op.voltage.adcPin) ==> Applied(l, s, op) == (s, false))
            && (op.AddCurrentSensor? && IdTaken(h, op.current.id) ==> Applied(l, s, op) == (s, false))
            && (op.AddVoltageSensor? && IdTaken(h, op.voltage.id) ==> Applied(l, s, op) == (s, false))
  {
    hide Run, History, Placed, Accounted, Exclusive, SensorAdded, CurrentProfileOk, VoltageProfileOk, Taken, IdTaken, InUse, PinCount;
    EmptyInv(l, bytes);
    NoneBuilt();
    NothingNoted();
    RunNoted(l, Init(bytes), [], ops);
    RecordedIdsInUse(l, Run(l, Init(bytes), ops));
  }

  lemma RecordedIdsInUse(l: Limits, s: State)
    requires Booked(l, s.slots, s.books)
    ensures |s.books.pins| <= 2 * l.sensorsMax && forall id :: id in s.books.ids ==> InUse(s.slots.caps, id)
  {
    hide InUse;
  }

  /**
   * The checks on a sensor configuration, against the sensors accepted since the
   * last reset: its pins are free analog pins of the board, its name fits and is
   * free, and the books have room for it.
   */
  lemma ChecksExactlyWhen(l: Limits, bytes: nat, ops: seq<Op>, b: Board, c: CurrentConfig, v: VoltageConfig)
    requires forall i :: 0 <= i < |ops| ==> Sized(bytes, ops[i])
    ensures var s, h := Run(l, Init(bytes), ops), History(l, Init(bytes), [], ops);
            && (ValidCurrent(l, s, b, c) <==>
                  && b.supported && CurrentProfileOk(c.profile)
                  && 1 <= |c.id| <= 63 && '\0' !in c.id && !InUse(s.slots.caps, c.id)
                  && c.adcPin in b.adc && c.adcPin !in b.reserved && !Taken(h, c.adcPin)
                  && (c.monitorPin >= 0 ==>
                        && c.monitorPin in b.adc && c.monitorPin !in b.reserved && !Taken(h, c.monitorPin)
                        && c.monitorPin != c.adcPin)
                  && PinCount(h + [Current(c)]) <= 2 * l.sensorsMax && CurrentCount(h) < l.sensorsMax)
            && (ValidVoltage(l, s, b, v) <==>
                  && b.supported && VoltageProfileOk(v.profile)
                  && 1 <= |v.id| <= 63 && '\0' !in v.id && !InUse(s.slots.caps, v.id)
                  && v.adcPin in b.adc && v.adcPin !in b.reserved && !Taken(h, v.adcPin)
                  && PinCount(h + [Voltage(v)]) <= 2 * l.sensorsMax)
  {
    hide Run, History, Placed, Accounted, Booked, Exclusive, CurrentProfileOk, VoltageProfileOk, Taken, IdTaken, InUse, PinCount, CurrentCount;
    EmptyInv(l, bytes);
    NoneBuilt();
    NothingNoted();
    RunNoted(l, Init(bytes), [], ops);
    PinCountNext(History(l, Init(bytes), [], ops), Current(c));
    PinCountNext(History(l, Init(bytes), [], ops), Voltage(v));
  }

  /** The four registrations that bring their own adapter enter both objects, or leave arena, slots and books as they were. */
  lemma RegistrationAllOrNothing(l: Limits, s: State, op: Op)
    requires Inv(l, s) && Sized(s.arena.bytes, op)
    requires op.AddCurrentSensor? || op.AddVoltageSensor? || op.AddPowerEnergy? || op.AddFan?
    ensures AllOrNothing(s, Applied(l, s, op))
  {
    hide Inv, CurrentAdded, VoltageAdded, PowerAdded, FanAdded, Fits, AllOrNothing;
    match op
    case AddCurrentSensor(b, c, ok) => CurrentAddedInv(l, s, b, c, ok);
    case AddVoltageSensor(b, c, ok) => VoltageAddedInv(l, s, b, c, ok);
    case AddPowerEnergy(id, ms, typ, ap, cp) => PowerAddedInv(l, s, id, ms, typ, ap, cp);
    case AddFan(name, typ, ap, ok, cp) => FanAddedInv(l, s, name, typ, ap, ok, cp);
    case _ =>
  }

  /** A failed light leaves its adapter registered exactly when the adapter was made and the capability found no room. */
  lemma LightLeavesAdapter(l: Limits, s: State, configured: string, typ: string, ap: Part, createOk: bool, cp: Part)
    requires Inv(l, s) && Fits(s.arena.bytes, ap) && Fits(s.arena.bytes, cp)
    ensures Align(ap) <= U32 && Align(cp) <= U32
    ensures var (t, ok) := LightAdded(l, s, configured, typ, ap, createOk, cp);
            !ok && t.slots != s.slots <==>
              && Resolve(l, s, configured, typ).Some? && |s.slots.adapters| < l.adaptersMax && createOk
              && Allocate(s.arena, ap).Some? && Allocate(Allocate(s.arena, ap).value.1, cp).None?
  {
    hide Inv, Allocate, Align;
    AlignFits(s.arena.bytes, ap);
    AlignFits(s.arena.bytes, cp);
    ResolvedName(l, s, configured, typ);
  }

  lemma AlignFits(bytes: nat, p: Part)
    requires Fits(bytes, p)
    ensures Align(p) <= U32
  {}

  lemma ResolveAgain(l: Limits, s: State, configured: string, typ: string)
    ensures var r := Resolve(l, s, configured, typ);
            r.Some? ==> Resolve(l, s, r.value, typ) == r
  {}

  /** Both parts find a place, one after the other. */
  predicate Room(a: Arena, ap: Part, cp: Part)
    requires Align(ap) <= U32 && Align(cp) <= U32
  {
    var x := Allocate(a, ap);
    x.Some? && Allocate(x.value.1, cp).Some?
  }

  /** The checks of a registration that brings its own adapter: everything but the construction and the arena. */
  predicate Admitted(l: Limits, s: State, op: Op) {
    && |s.slots.adapters| < l.adaptersMax
    && match op
       case AddCurrentSensor(b, c, _) => ValidCurrent(l, s, b, c) && Resolve(l, s, c.id, b.typ).Some?
       case AddVoltageSensor(b, c, _) => ValidVoltage(l, s, b, c) && Resolve(l, s, c.id, b.typ).Some?
       case AddPowerEnergy(id, ms, typ, _, _) => GoodId(id) && ms > 0 && !InUse(s.slots.caps, id) && Resolve(l, s, id, typ).Some?
       case AddFan(name, typ, _, _, _) =>
         Resolve(l, s, name, typ).Some? && !InUse(s.slots.caps, Resolve(l, s, name, typ).value)
       case _ => false
  }

  /** The adapter's part, if its factory offers one. */
  function AdapterPart(op: Op): Option<Part> {
    match op
    case AddCurrentSensor(b, _, _) => b.adapter
    case AddVoltageSensor(b, _, _) => b.adapter
    case AddPowerEnergy(_, _, _, ap, _) => Some(ap)
    case AddFan(_, _, ap, _, _) => ap
    case _ => None
  }

  function CapPart(op: Op): Option<Part> {
    match op
    case AddCurrentSensor(b, _, _) => Some(b.capability)
    case AddVoltageSensor(b, _, _) => Some(b.capability)
    case AddPowerEnergy(_, _, _, _, cp) => Some(cp)
    case AddFan(_, _, _, _, cp) => Some(cp)
    case _ => None
  }

  /** The composite power sensor cannot fail to be constructed. */
  predicate Constructed(op: Op) {
    match op
    case AddCurrentSensor(_, _, ok) => ok
    case AddVoltageSensor(_, _, ok) => ok
    case AddFan(_, _, _, ok, _) => ok
    case _ => true
  }

  /**
   * A registration succeeds if and only if its checks pass, its factory offers an
   * adapter, the adapter can be constructed, and the arena has room for both
   * objects; the roll-backs behind the slots are never reached.
   */
  lemma SucceedsExactlyWhen(l: Limits, s: State, op: Op)
    requires Sized(s.arena.bytes, op)
    requires op.AddCurrentSensor? || op.AddVoltageSensor? || op.AddPowerEnergy? || op.AddFan?
    ensures CapPart(op).Some? && Align(CapPart(op).value) <= U32 && (AdapterPart(op).Some? ==> Align(AdapterPart(op).value) <= U32)
    ensures var r := Applied(l, s, op);
            var built := Admitted(l, s, op) && AdapterPart(op).Some? && Constructed(op) && Allocate(s.arena, AdapterPart(op).value).Some?;
            && (r.1 <==> built && Room(s.arena, AdapterPart(op).value, CapPart(op).value))
            && (!r.1 ==> r.0 == if built then Dropped(s, 1) else s)
  {
    hide Allocate, Resolve, Align, InUse, ValidCurrent, ValidVoltage;
    SizedAligns(s.arena.bytes, op);
    match op
    case AddCurrentSensor(b, c, ok) =>
      ResolveAgain(l, s, c.id, b.typ);
      ResolveCounts(l, s, c.id, b.typ);
    case AddVoltageSensor(b, c, ok) =>
      ResolveAgain(l, s, c.id, b.typ);
      ResolveCounts(l, s, c.id, b.typ);
    case AddPowerEnergy(id, ms, typ, ap, cp) =>
      ResolveAgain(l, s, id, typ);
      ResolveCounts(l, s, id, typ);
    case AddFan(name, typ, ap, ok, cp) => ResolveAgain(l, s, name, typ);
    case _ =>
  }

  /** A sensor over the caller's object is registered exactly under these conditions; a closed or full builder constructs nothing. */
  lemma ExternalSucceedsExactlyWhen(l: Limits, s: State, id: string, intervalMs: nat, typ: string, cp: Part)
    requires Fits(s.arena.bytes, cp)
    ensures Align(cp) <= U32
    ensures var r := ExternalAdded(l, s, id, intervalMs, typ, cp);
            && (r.1 <==>
                  && s.open && |s.slots.caps| < l.capsMax && intervalMs > 0 && 1 <= |typ| <= 31
                  && 1 <= |id| <= 63 && '\0' !in id && !InUse(s.slots.caps, id) && id !in s.books.ids
                  && Allocate(s.arena, cp).Some?)
            && (!s.open || |s.slots.caps| >= l.capsMax ==> r == (s, false))
  {
    hide Allocate, Align, InUse;
    AlignFits(s.arena.bytes, cp);
  }

  lemma ResolveCounts(l: Limits, s: State, name: string, typ: string)
    ensures Resolve(l, s, name, typ).Some? ==> |s.slots.caps| < l.capsMax
  {}

  lemma SizedAligns(bytes: nat, op: Op)
    requires Sized(bytes, op)
    ensures (CapPart(op).Some? ==> Align(CapPart(op).value) <= U32) && (AdapterPart(op).Some? ==> Align(AdapterPart(op).value) <= U32)
  {}

  // ------------------------------------------------------------ the object

  class CapabilitiesBuilder {
    const l: Limits
    const arenaBytes: nat
    var caps: seq<Cap>
    var adapters: seq<Block>
    var arenaOffset: nat
    var registrationOpen: bool
    var analogSensorPins: seq<int>
    var currentSensorIds: seq<string>
    var built: nat
    var destroyed: seq<nat>

    ghost function View(): State
      reads this
    {
      State(Arena(arenaBytes, arenaOffset), Slots(caps, adapters), Books(analogSensorPins, currentSensorIds),
            Life(built, destroyed), registrationOpen)
    }

    constructor (l: Limits, arenaBytes: nat)
      ensures this.l == l && View() == Init(arenaBytes)
    {
      this.l, this.arenaBytes := l, arenaBytes;
      caps, adapters, arenaOffset, registrationOpen := [], [], 0, true;
      analogSensorPins, currentSensorIds := [], [];
      built, destroyed := 0, [];
    }

    method Reset()
      modifies this
      ensures View() == ResetDone(old(View()))
    {
      DestroyCapabilities();
      DestroyAdapters();
      caps, adapters := [], [];
      arenaOffset := 0;
      analogSensorPins, currentSensorIds := [], [];
    }

    method DestroyCapabilities()
      modifies `destroyed
      ensures destroyed == old(destroyed) + CapsReversed(caps)
    {
      var i := |caps|;
      assert caps[..i] == caps;
      while i > 0
        invariant 0 <= i <= |caps|
        invariant destroyed + CapsReversed(caps[..i]) == old(destroyed) + CapsReversed(caps)
      {
        assert caps[..i][..i - 1] == caps[..i - 1];
        destroyed := destroyed + [caps[i - 1].block.id];
        i := i - 1;
      }
    }

    method DestroyAdapters()
      modifies `destroyed
      ensures destroyed == old(destroyed) + BlocksReversed(adapters)
    {
      var i := |adapters|;
      assert adapters[..i] == adapters;
      while i > 0
        invariant 0 <= i <= |adapters|
        invariant destroyed + BlocksReversed(adapters[..i]) == old(destroyed) + BlocksReversed(adapters)
      {
        assert adapters[..i][..i - 1] == adapters[..i - 1];
        destroyed := destroyed + [adapters[i - 1].id];
        i := i - 1;
      }
    }

    method CloseRegistration()
      modifies this
      ensures View() == old(View()).(open := false)
    {
      registrationOpen := false;
    }

    method AllocateAligned(p: Part) returns (at: Option<nat>)
      requires Align(p) <= U32
      modifies `arenaOffset
      ensures match Allocate(old(View()).arena, p)
              case None => at == None && arenaOffset == old(arenaOffset)
              case Some(x) => at == Some(x.0) && arenaOffset == x.1.offset
    {
      var aligned := AlignUp(arenaOffset, Align(p));
      var needed := (aligned + p.size) % U32;
      if needed > arenaBytes {
        return None;
      }
      arenaOffset := needed;
      return Some(aligned);
    }

    method ResolveIdentity(configured: string, typ: string) returns (name: Option<string>)
      ensures name == Resolve(l, View(), configured, typ)
      ensures var wanted := if configured != "" then configured else l.deviceId + "_" + typ;
              && (name.Some? ==> name.value == wanted)
              && (name.Some? <==> registrationOpen && |caps| < l.capsMax && 1 <= |typ| <= 31 && 1 <= |wanted| <= 63
                                  && wanted !in currentSensorIds)
    {
      if !registrationOpen || |caps| >= l.capsMax {
        return None;
      }
      if |typ| == 0 || |typ| > MAX_TYPE {
        return None;
      }
      var outName := if configured != "" then configured else l.deviceId + "_" + typ;
      if outName == "" || |outName| > MAX_NAME {
        return None;
      }
      var i := 0;
      while i < |currentSensorIds|
        invariant i <= |currentSensorIds| && outName !in currentSensorIds[..i]
      {
        if currentSensorIds[i] == outName {
          return None;
        }
        i := i + 1;
      }
      assert currentSensorIds[..i] == currentSensorIds;
      return Some(outName);
    }

    method CapabilityIdentityInUse(name: string) returns (used: bool)
      ensures used == InUse(caps, name)
    {
      var i := 0;
      while i < |caps|
        invariant i <= |caps| && !InUse(caps[..i], name)
      {
        if caps[i].name == name {
          return true;
        }
        i := i + 1;
      }
      assert caps[..i] == caps;
      return false;
    }

    method AnalogSensorPinInUse(pin: int) returns (used: bool)
      ensures used == (pin in analogSensorPins)
    {
      var i := 0;
      while i < |analogSensorPins|
        invariant i <= |analogSensorPins| && pin !in analogSensorPins[..i]
      {
        if analogSensorPins[i] == pin {
          return true;
        }
        i := i + 1;
      }
      assert analogSensorPins[..i] == analogSensorPins;
      return false;
    }

    method RegisterCapability(cap: Block, name: string, typ: string) returns (ok: bool)
      modifies `caps
      ensures ok == Resolve(l, old(View()), name, typ).Some?
      ensures caps == if ok then old(caps) + [Cap(cap, Resolve(l, old(View()), name, typ).value)] else old(caps)
    {
      if |caps| >= l.capsMax {
        return false;
      }
      var definitive := ResolveIdentity(name, typ);
      if definitive.None? {
        return false;
      }
      caps := caps + [Cap(cap, definitive.value)];
      return true;
    }

    method RegisterAdapter(adapter: Block) returns (ok: bool)
      modifies `adapters
      ensures ok == (|old(adapters)| < l.adaptersMax)
      ensures adapters == if ok then old(adapters) + [adapter] else old(adapters)
    {
      if |adapters| >= l.adaptersMax {
        return false;
      }
      adapters := adapters + [adapter];
      return true;
    }

    method Construct(at: nat, p: Part) returns (b: Block)
      modifies `built
      ensures b == BlockFor(old(built), at, p) && built == old(built) + 1
    {
      b := Block(built, at, p.size, Align(p));
      built := built + 1;
    }

    method Destroy(b: Block)
      modifies `destroyed
      ensures destroyed == old(destroyed) + [b.id]
    {
      destroyed := destroyed + [b.id];
    }

    method CreateCapability(name: string, typ: string, part: Part) returns (ok: bool)
      requires Align(part) <= U32
      modifies this
      ensures (View(), ok) == Created(l, old(View()), name, typ, part)
    {
      hide Allocate, Resolve;
      if !registrationOpen || |caps| >= l.capsMax {
        return false;
      }
      var original := arenaOffset;
      var mem := AllocateAligned(part);
      if mem.None? {
        return false;
      }
      var cap := Construct(mem.value, part);
      ResolveReads(l, old(View()), View(), name, typ);
      var registered := RegisterCapability(cap, name, typ);
      if !registered {
        Destroy(cap);
        arenaOffset := original;
        return false;
      }
      return true;
    }

    /** The part that the four registrations with an adapter of their own have in common. */
    method Install(name: string, typ: string, adapterPart: Part, createOk: bool, capPart: Part) returns (ok: bool)
      requires Align(adapterPart) <= U32 && Align(capPart) <= U32
      modifies this
      ensures (View(), ok) == Installed(l, old(View()), name, typ, adapterPart, createOk, capPart)
    {
      hide Allocate, Resolve;
      var original := arenaOffset;
      var adapterMemory := AllocateAligned(adapterPart);
      if adapterMemory.None? {
        return false;
      }
      if !createOk {
        arenaOffset := original;
        return false;
      }
      var adapter := Construct(adapterMemory.value, adapterPart);
      var capMemory := AllocateAligned(capPart);
      if capMemory.None? {
        Destroy(adapter);
        arenaOffset := original;
        return false;
      }
      var cap := Construct(capMemory.value, capPart);
      var registered := RegisterAdapter(adapter);
      if !registered {
        Destroy(cap);
        Destroy(adapter);
        assert destroyed == old(destroyed) + [cap.id, adapter.id];
        arenaOffset := original;
        return false;
      }
      ResolveReads(l, old(View()), View(), name, typ);
      registered := RegisterCapability(cap, name, typ);
      if !registered {
        adapters := adapters[..|adapters| - 1];
        assert adapters == old(adapters);
        Destroy(cap);
        Destroy(adapter);
        assert destroyed == old(destroyed) + [cap.id, adapter.id];
        arenaOffset := original;
        return false;
      }
      return true;
    }

    /** The numeric checks, in the order of the source. */
    method CheckCurrentProfile(p: CurrentProfile) returns (ok: bool)
      ensures ok == CurrentProfileOk(p)
    {
      var c := p.sensor;
      if p.adcBits != 12 || !p.fullRange {
        return false;
      }
      if c.adcMinimumMv < 0.0 || c.adcMaximumMv <= c.adcMinimumMv {
        return false;
      }
      if p.supplyNominalMv <= 0.0 || c.supplyValidMinimumMv <= 0.0 || c.supplyValidMaximumMv < c.supplyValidMinimumMv
         || p.supplyNominalMv < c.supplyValidMinimumMv || p.supplyNominalMv > c.supplyValidMaximumMv {
        return false;
      }
      if p.outputToAdcRatio <= 0.0 || c.supplyMonitorToVccRatio <= 0.0 {
        return false;
      }
      if c.nominalZeroAdcMv <= c.adcMinimumMv || c.nominalZeroAdcMv >= c.adcMaximumMv
         || c.sensitivityAdcMvPerA <= 0.0 || c.maximumZeroDeviationMv < 0.0 {
        return false;
      }
      if c.polarity != 1.0 && c.polarity != -1.0 {
        return false;
      }
      if c.zeroCalibrationSamples == 0 || c.samplesPerReading == 0 || c.sampleIntervalUs == 0 || c.readingIntervalMs == 0
         || p.evaluationIntervalMs == 0 {
        return false;
      }
      if !(c.lowPassAlpha > 0.0 && c.lowPassAlpha <= 1.0) {
        return false;
      }
      if c.deadbandA < 0.0 || c.minimumReportableA < 0.0 || c.calibratedMinimumA < 0.0
         || c.calibratedMaximumA < c.calibratedMinimumA || c.physicalMinimumA >= 0.0 || c.physicalMaximumA <= 0.0
         || c.calibratedMaximumA > Acs.Abs(c.physicalMinimumA) || c.calibratedMaximumA > c.physicalMaximumA {
        return false;
      }
      if p.maximumAbsoluteErrorA < 0.0 || p.maximumRelativeErrorPercent < 0.0 {
        return false;
      }
      return true;
    }

    method ValidateCurrentSensorConfig(b: Board, c: CurrentConfig) returns (ok: bool)
      ensures ok == ValidCurrent(l, View(), b, c)
    {
      hide InUse, CurrentProfileOk;
      if !b.supported || c.id == "" || |c.id| > MAX_NAME || '\0' in c.id {
        return false;
      }
      var profileOk := CheckCurrentProfile(c.profile);
      if !profileOk {
        return false;
      }
      if c.adcPin !in b.adc || c.adcPin in b.reserved {
        return false;
      }
      if c.monitorPin >= 0 && (c.monitorPin == c.adcPin || c.monitorPin !in b.adc || c.monitorPin in b.reserved) {
        return false;
      }
      var used := AnalogSensorPinInUse(c.adcPin);
      if !used && c.monitorPin >= 0 {
        used := AnalogSensorPinInUse(c.monitorPin);
      }
      if used {
        return false;
      }
      used := CapabilityIdentityInUse(c.id);
      if used {
        return false;
      }
      var requiredPins := if c.monitorPin >= 0 then 2 else 1;
      return |analogSensorPins| + requiredPins <= 2 * l.sensorsMax && |currentSensorIds| < l.sensorsMax;
    }

    method ValidateVoltageSensorConfig(b: Board, c: VoltageConfig) returns (ok: bool)
      ensures ok == ValidVoltage(l, View(), b, c)
    {
      if !b.supported || c.id == "" || |c.id| > MAX_NAME || '\0' in c.id {
        return false;
      }
      if c.profile.adcBits != 12 || !c.profile.fullRange {
        return false;
      }
      if c.profile.adcMinimumMv < 0.0 || c.profile.adcMaximumMv <= c.profile.adcMinimumMv {
        return false;
      }
      if c.profile.r1Ohms <= 0.0 || c.profile.r2Ohms <= 0.0 {
        return false;
      }
      if c.profile.calibrationFactor <= 0.0 {
        return false;
      }
      if c.profile.samplesPerReading == 0 || c.profile.intervals.sampleUs == 0 || c.profile.intervals.readingMs == 0
         || c.profile.intervals.evaluationMs == 0 {
        return false;
      }
      if c.adcPin !in b.adc || c.adcPin in b.reserved {
        return false;
      }
      var used := AnalogSensorPinInUse(c.adcPin);
      if used {
        return false;
      }
      used := CapabilityIdentityInUse(c.id);
      if used {
        return false;
      }
      return |analogSensorPins| < 2 * l.sensorsMax;
    }

    method AddSensor(b: Board, id: string, createOk: bool) returns (ok: bool)
      requires Align(b.capability) <= U32 && (b.adapter.Some? ==> Align(b.adapter.value) <= U32)
      modifies this
      ensures (View(), ok) == SensorAdded(l, old(View()), b, id, createOk)
    {
      hide Installed, Resolve;
      if |caps| >= l.capsMax || |adapters| >= l.adaptersMax {
        return false;
      }
      var name := ResolveIdentity(id, b.typ);
      if name.None? || b.adapter.None? {
        return false;
      }
      ok := Install(name.value, b.typ, b.adapter.value, createOk, b.capability);
    }

    method AddCurrentSensor(b: Board, c: CurrentConfig, createOk: bool) returns (ok: bool)
      requires Align(b.capability) <= U32 && (b.adapter.Some? ==> Align(b.adapter.value) <= U32)
      modifies this
      ensures (View(), ok) == CurrentAdded(l, old(View()), b, c, createOk)
    {
      hide SensorAdded, ValidCurrent;
      var valid := ValidateCurrentSensorConfig(b, c);
      if !valid {
        return false;
      }
      ok := AddSensor(b, c.id, createOk);
      if ok {
        ghost var before := analogSensorPins;
        analogSensorPins := analogSensorPins + [c.adcPin];
        if c.monitorPin >= 0 {
          analogSensorPins := analogSensorPins + [c.monitorPin];
        }
        assert analogSensorPins == before + PinsOf(c);
        currentSensorIds := currentSensorIds + [c.id];
      }
    }

    method AddVoltageSensor(b: Board, c: VoltageConfig, createOk: bool) returns (ok: bool)
      requires Align(b.capability) <= U32 && (b.adapter.Some? ==> Align(b.adapter.value) <= U32)
      modifies this
      ensures (View(), ok) == VoltageAdded(l, old(View()), b, c, createOk)
    {
      hide SensorAdded, ValidVoltage;
      var valid := ValidateVoltageSensorConfig(b, c);
      if !valid {
        return false;
      }
      ok := AddSensor(b, c.id, createOk);
      if ok {
        analogSensorPins := analogSensorPins + [c.adcPin];
      }
    }

    method AddPowerEnergyCapability(id: string, readingIntervalMs: nat, typ: string, sensor: Part, cap: Part) returns (ok: bool)
      requires Align(sensor) <= U32 && Align(cap) <= U32
      modifies this
      ensures (View(), ok) == PowerAdded(l, old(View()), id, readingIntervalMs, typ, sensor, cap)
    {
      hide Installed, Resolve, InUse;
      if id == "" || |id| > MAX_NAME || '\0' in id || readingIntervalMs == 0 {
        return false;
      }
      if |caps| >= l.capsMax || |adapters| >= l.adaptersMax {
        return false;
      }
      var used := CapabilityIdentityInUse(id);
      if used {
        return false;
      }
      var name := ResolveIdentity(id, typ);
      if name.None? {
        return false;
      }
      ok := Install(name.value, typ, sensor, true, cap);
    }

    method AddFan(configured: string, typ: string, output: Option<Part>, createOk: bool, cap: Part) returns (ok: bool)
      requires (output.Some? ==> Align(output.value) <= U32) && Align(cap) <= U32
      modifies this
      ensures (View(), ok) == FanAdded(l, old(View()), configured, typ, output, createOk, cap)
    {
      hide Installed, Resolve, InUse;
      var name := ResolveIdentity(configured, typ);
      if name.None? {
        return false;
      }
      var used := CapabilityIdentityInUse(name.value);
      if used || |adapters| >= l.adaptersMax || output.None? {
        return false;
      }
      ok := Install(name.value, typ, output.value, createOk, cap);
    }

    method AddExternalSensor(id: string, evaluationIntervalMs: nat, typ: string, cap: Part) returns (ok: bool)
      requires Align(cap) <= U32
      modifies this
      ensures (View(), ok) == ExternalAdded(l, old(View()), id, evaluationIntervalMs, typ, cap)
    {
      hide Created, InUse;
      if id == "" || |id| > MAX_NAME || '\0' in id || evaluationIntervalMs == 0 || |caps| >= l.capsMax {
        return false;
      }
      var used := CapabilityIdentityInUse(id);
      if used {
        return false;
      }
      ok := CreateCapability(id, typ, cap);
    }

    method CreateOutputAdapter(part: Part, createOk: bool) returns (ok: bool)
      requires Align(part) <= U32
      modifies this
      ensures (View(), ok) == OutputCreated(l, old(View()), part, createOk)
    {
      hide Allocate;
      if |adapters| >= l.adaptersMax {
        return false;
      }
      var mem := AllocateAligned(part);
      if mem.None? || !createOk {
        return false;
      }
      var adapter := Construct(mem.value, part);
      ok := RegisterAdapter(adapter);
    }

    method AddLight(configured: string, typ: string, output: Part, createOk: bool, cap: Part) returns (ok: bool)
      requires Align(output) <= U32 && Align(cap) <= U32
      modifies this
      ensures (View(), ok) == LightAdded(l, old(View()), configured, typ, output, createOk, cap)
    {
      hide Created, OutputCreated, Resolve;
      var name := ResolveIdentity(configured, typ);
      if name.None? {
        return false;
      }
      ok := CreateOutputAdapter(output, createOk);
      if ok {
        ok := CreateCapability(name.value, typ, cap);
      }
    }
  }

  /** Names are resolved against slots, books and the latch, not against the arena or the adapters. */
  lemma ResolveReads(l: Limits, s: State, t: State, name: string, typ: string)
    requires s.slots.caps == t.slots.caps && s.books == t.books && s.open == t.open
    ensures Resolve(l, s, name, typ) == Resolve(l, t, name, typ)
  {}
}
