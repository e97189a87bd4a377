/**
 * The settings manager on the transport task: what it does with an update, when
 * it asks the API again, and what the gate's latch makes of that.
 *
 * Merging a parsed update into the current settings is an input (`Parsed`
 * carries the merged value and whether it differs); network, clock, fetcher and
 * storage answers are inputs too.
 */
module SettingsManager {
  import opened Bytes
  import opened Backoff
  import Gate = SettingsGate

  datatype Phase = Idle | LoadedFromCache | FetchingFromApi | Ready | Error

  /** A completed fetch. `parsed` is the merged candidate and whether it changes anything. */
  datatype Pending<S> = Pending(cancelled: bool, fetchOk: bool, httpStatus: int, parsed: Option<(S, bool)>)

  /** What one call of `handle` meets. The network is asked twice. */
  datatype Input<S> = Input(pending: Option<Pending<S>>, nowMs: nat, networkReady: bool, stillReady: bool,
                            fetcherRunning: bool, startOk: bool)

  datatype Manager<S> = Manager(level: Gate.Level, hasCurrent: bool, current: S, phase: Phase,
                                failures: nat, nextAtMs: nat, starts: nat)

  // --------------------------------------------------------- specification

  function Raise<S>(m: Manager<S>, l: Gate.Level): Manager<S> {
    m.(level := Gate.Max(m.level, l))
  }

  /** The level a failure falls back to; it can only raise the gate from None. */
  function FallBack<S>(m: Manager<S>): Manager<S> {
    Raise(m, if m.hasCurrent then Gate.AVAILABLE else Gate.NONE)
  }

  function Reschedule<S>(m: Manager<S>, nowMs: nat): Manager<S>
    requires m.failures <= 15
  {
    var f := Bump(m.failures);
    m.(failures := f, nextAtMs := nowMs + Doubled(INITIAL_MS, f - 1, MAX_MS))
  }

  predicate Usable<S>(p: Pending<S>) {
    !p.cancelled && p.fetchOk && 200 <= p.httpStatus < 300 && p.parsed.Some?
  }

  function Applied<S>(m: Manager<S>, p: Pending<S>, nowMs: nat): Manager<S>
    requires m.failures <= 15
  {
    if Usable(p) then
      var keep := m.hasCurrent && !p.parsed.value.1;
      Raise(m, Gate.SYNCED).(hasCurrent := true, current := if keep then m.current else p.parsed.value.0,
                             phase := Ready, failures := 0, nextAtMs := 0)
    else
      var phase := if m.hasCurrent then Ready else if p.cancelled then Idle else Error;
      Reschedule(FallBack(m).(phase := phase), nowMs)
  }

  function Synced<S>(m: Manager<S>, e: Input<S>): Manager<S>
    requires m.failures <= 15
  {
    if !e.stillReady then Reschedule(FallBack(m), e.nowMs)
    else if e.fetcherRunning then m
    else
      var s := Raise(m, Gate.SYNCING);
      if !m.hasCurrent then Reschedule(s, e.nowMs)
      else if e.startOk then s.(starts := m.starts + 1, phase := FetchingFromApi)
      else Reschedule(s.(starts := m.starts + 1, phase := Ready), e.nowMs)
  }

  function AfterPending<S>(m: Manager<S>, e: Input<S>): Manager<S>
    requires m.failures <= 15
  {
    if e.pending.Some? then Applied(m, e.pending.value, e.nowMs) else m
  }

  predicate SyncDue<S>(m: Manager<S>, e: Input<S>) {
    m.level == Gate.AVAILABLE && e.networkReady && e.nowMs >= m.nextAtMs
  }

  function Handled<S>(m: Manager<S>, e: Input<S>): (r: Manager<S>)
    requires m.failures <= 15
    ensures r.failures <= 15
  {
    var a := AfterPending(m, e);
    if SyncDue(a, e) then Synced(a, e) else a
  }

  // ------------------------------------------------------------ the object

  class SettingsManager<S(0)> {
    const gate: Gate.SettingsGateImpl
    var hasCurrent: bool
    var current: S
    var phase: Phase
    var failures: nat
    var nextAtMs: nat
    var starts: nat      // calls of the fetcher's start

    ghost predicate Valid()
      reads this, gate
    {
      gate.Valid() && failures <= 15
    }

    ghost function View(): Manager<S>
      reads this, gate
    {
      Manager(gate.level, hasCurrent, current, phase, failures, nextAtMs, starts)
    }

    constructor (gate: Gate.SettingsGateImpl, empty: S)
      requires gate.Valid()
      ensures Valid() && this.gate == gate && View() == Manager(gate.level, false, empty, Idle, 0, 0, 0)
    {
      this.gate, hasCurrent, current, phase, failures, nextAtMs, starts := gate, false, empty, Idle, 0, 0, 0;
    }

    /** Level changes only; the callbacks they release are the gate's business. */
    method SetGate(l: Gate.Level)
      requires Valid()
      modifies gate, gate.subs
      ensures Valid() && View() == Raise(old(View()), l)
    {
      var toCall := gate.Collect(l);
    }

    method ScheduleApiRetryBackoff(nowMs: nat)
      requires Valid()
      modifies this`failures, this`nextAtMs
      ensures Valid() && View() == Reschedule(old(View()), nowMs)
    {
      if failures < 15 {
        failures := failures + 1;
      }
      var delayMs := RetryDelay(failures);
      nextAtMs := nowMs + delayMs;
    }

    method ApplyPendingUpdate(p: Pending<S>, nowMs: nat)
      requires Valid()
      modifies this, gate, gate.subs
      ensures Valid() && View() == Applied(old(View()), p, nowMs)
    {
      if p.cancelled {
        phase := if hasCurrent then Ready else Idle;
        SetGate(if hasCurrent then Gate.AVAILABLE else Gate.NONE);
        ScheduleApiRetryBackoff(nowMs);
        return;
      }
      if !p.fetchOk || p.httpStatus < 200 || p.httpStatus >= 300 {
        phase := if hasCurrent then Ready else Error;
        SetGate(if hasCurrent then Gate.AVAILABLE else Gate.NONE);
        ScheduleApiRetryBackoff(nowMs);
        return;
      }
      if p.parsed.None? {
        phase := if hasCurrent then Ready else Error;
        SetGate(if hasCurrent then Gate.AVAILABLE else Gate.NONE);
        ScheduleApiRetryBackoff(nowMs);
        return;
      }
      var (candidate, changed) := p.parsed.value;
      if changed {
        current, hasCurrent := candidate, true;
        phase := Ready;
      } else {
        if !hasCurrent {
          current, hasCurrent := candidate, true;
        }
        phase := Ready;
      }
      SetGate(Gate.SYNCED);
      failures, nextAtMs := 0, 0;
    }

    method SyncFromApi(e: Input<S>)
      requires Valid()
      modifies this, gate, gate.subs
      ensures Valid() && View() == Synced(old(View()), e)
    {
      if !e.stillReady {
        SetGate(if hasCurrent then Gate.AVAILABLE else Gate.NONE);
        ScheduleApiRetryBackoff(e.nowMs);
        return;
      }
      if e.fetcherRunning {
        return;
      }
      SetGate(Gate.SYNCING);
      if !hasCurrent {
        SetGate(Gate.NONE);
        ScheduleApiRetryBackoff(e.nowMs);
        return;
      }
      phase, starts := FetchingFromApi, starts + 1;
      if !e.startOk {
        phase := Ready;
        SetGate(if hasCurrent then Gate.AVAILABLE else Gate.NONE);
        ScheduleApiRetryBackoff(e.nowMs);
      }
    }

    method Handle(e: Input<S>)
      requires Valid()
      modifies this, gate, gate.subs
      ensures Valid() && View() == Handled(old(View()), e)
    {
      if e.pending.Some? {
        ApplyPendingUpdate(e.pending.value, e.nowMs);
      }
      if gate.level == Gate.AVAILABLE && e.networkReady && e.nowMs >= nextAtMs {
        SyncFromApi(e);
      }
    }
  }

  // ------------------------------------------------------------------ runs

  /** Everything that can happen to the manager; `GateRaised` is any other user of the gate. */
  datatype Event<S> =
    | CacheLoaded(s: S)
    | Handle(e: Input<S>)
    | Saved(s: S)
    | Cleared(empty: S)
    | GateRaised(l: Gate.Level)

  function Next<S>(m: Manager<S>, ev: Event<S>): (r: Manager<S>)
    requires m.failures <= 15
    ensures r.failures <= 15
  {
    match ev
    case CacheLoaded(s) => Raise(m, Gate.AVAILABLE).(hasCurrent := true, current := s, phase := LoadedFromCache)
    case Handle(e) => Handled(m, e)
    case Saved(s) => m.(hasCurrent := true, current := s)
    case Cleared(empty) => m.(hasCurrent := false, current := empty, phase := Idle)
    case GateRaised(l) => Raise(m, l)
  }

  function Run<S>(m: Manager<S>, evs: seq<Event<S>>): (r: Manager<S>)
    requires m.failures <= 15
    ensures r.failures <= 15
    decreases |evs|
  {
    if evs == [] then m else Run(Next(m, evs[0]), evs[1..])
  }

  function Fresh<S>(empty: S): Manager<S> {
    Manager(Gate.NONE, false, empty, Idle, 0, 0, 0)
  }

  /** The settings in force: what was loaded, saved or cleared last, or the last usable update that changed them. */
  datatype Force<S> = Force(has: bool, current: S)

  function Set<S>(f: Force<S>, ev: Event<S>): Force<S> {
    match ev
    case CacheLoaded(s) => Force(true, s)
    case Saved(s) => Force(true, s)
    case Cleared(empty) => Force(false, empty)
    case GateRaised(_) => f
    case Handle(e) =>
      if e.pending.None? then f
      else
        var p := e.pending.value;
        var usable := !p.cancelled && p.fetchOk && 200 <= p.httpStatus <= 299 && p.parsed.Some?;
        if usable && (p.parsed.value.1 || !f.has) then Force(true, p.parsed.value.0) else f
  }

  function InForce<S>(f: Force<S>, evs: seq<Event<S>>): Force<S>
    decreases |evs|
  {
    if evs == [] then f else InForce(Set(f, evs[0]), evs[1..])
  }

  lemma NextInForce<S>(m: Manager<S>, ev: Event<S>)
    requires m.failures <= 15
    ensures var n := Next(m, ev);
            Force(n.hasCurrent, n.current) == Set(Force(m.hasCurrent, m.current), ev)
  {}

  lemma {:induction false} RunInForce<S>(m: Manager<S>, evs: seq<Event<S>>)
    requires m.failures <= 15
    ensures var n := Run(m, evs);
            Force(n.hasCurrent, n.current) == InForce(Force(m.hasCurrent, m.current), evs)
    decreases |evs|
  {
    hide Next, Set;
    if evs != [] {
      NextInForce(m, evs[0]);
      RunInForce(Next(m, evs[0]), evs[1..]);
    }
  }

  /** Over every run the manager holds exactly the settings in force. */
  lemma CurrentIsLatest<S>(empty: S, evs: seq<Event<S>>)
    ensures var n := Run(Fresh(empty), evs);
            Force(n.hasCurrent, n.current) == InForce(Force(false, empty), evs)
  {
    RunInForce(Fresh(empty), evs);
  }

  /** What a call without an update leaves: a fetch under way, a failure counted, or nothing changed. */
  lemma FetchPhase<S>(m: Manager<S>, e: Input<S>)
    requires m.failures <= 15 && e.pending == None
    ensures var h := Handled(m, e);
            var due := m.level == Gate.AVAILABLE && e.networkReady && e.nowMs >= m.nextAtMs;
            if !due || (e.stillReady && e.fetcherRunning) then h == m
            else if e.stillReady && m.hasCurrent && e.startOk then
              h == m.(level := Gate.SYNCING, starts := m.starts + 1, phase := FetchingFromApi)
            else
              && h.failures == (if m.failures < 15 then m.failures + 1 else m.failures)
              && e.nowMs + 5000 <= h.nextAtMs <= e.nowMs + 60000
              && h.phase == (if e.stillReady && m.hasCurrent then Ready else m.phase)
              && h.level == (if e.stillReady then Gate.SYNCING else Gate.AVAILABLE)
  {
    Monotone(INITIAL_MS, 0, Bump(m.failures) - 1, MAX_MS);
  }

  /** A call of `handle` starts a fetch exactly under these conditions. */
  lemma StartsExactlyWhen<S>(m: Manager<S>, e: Input<S>)
    requires m.failures <= 15
    ensures var a := AfterPending(m, e);
            Handled(m, e).starts ==
            if a.level == Gate.AVAILABLE && e.networkReady && e.stillReady && e.nowMs >= a.nextAtMs
               && !e.fetcherRunning && a.hasCurrent
            then m.starts + 1 else m.starts
  {}

  ghost predicate Latched<S>(m: Manager<S>) {
    m.starts <= 1 && (m.starts == 1 ==> m.level == Gate.SYNCING)
  }

  lemma {:induction false} RunLatched<S>(m: Manager<S>, evs: seq<Event<S>>)
    requires m.failures <= 15 && Latched(m)
    ensures Latched(Run(m, evs)) && Run(m, evs).level >= m.level && Run(m, evs).starts >= m.starts
    decreases |evs|
  {
    if evs != [] {
      NextLatched(m, evs[0]);
      RunLatched(Next(m, evs[0]), evs[1..]);
    }
  }

  lemma NextLatched<S>(m: Manager<S>, ev: Event<S>)
    requires m.failures <= 15 && Latched(m)
    ensures Latched(Next(m, ev)) && Next(m, ev).level >= m.level && Next(m, ev).starts >= m.starts
  {}

  /** `handle` starts at most one fetch in the life of the manager. */
  lemma AtMostOneFetch<S>(empty: S, evs: seq<Event<S>>)
    ensures Run(Fresh(empty), evs).starts <= 1
  {
    RunLatched(Fresh(empty), evs);
  }

  /**
   * The retry that a failed fetch schedules is never made: after a start, no
   * later event leads to another, however long the network stays up.
   */
  lemma ScheduledRetryNeverStarts<S>(empty: S, evs: seq<Event<S>>, later: seq<Event<S>>, e: Input<S>)
    requires Run(Fresh(empty), evs).starts == 1
    ensures var m := Run(Run(Fresh(empty), evs), later);
            m.starts == 1 && m.level == Gate.SYNCING && Handled(m, e).starts == 1
  {
    RunLatched(Fresh(empty), evs);
    RunLatched(Run(Fresh(empty), evs), later);
    NextLatched(Run(Run(Fresh(empty), evs), later), Handle(e));
  }

  lemma RunTwo<S>(m: Manager<S>, a: Event<S>, b: Event<S>)
    requires m.failures <= 15
    ensures Run(m, [a, b]) == Next(Next(m, a), b)
  {
    hide Next;
    assert [a, b][1..] == [b] && [b][1..] == [];
    assert Run(Next(m, a), [b]) == Run(Next(Next(m, a), b), []);
  }

  /** For instance: cache loaded, fetch started, the server answers 500; the retry time passes and nothing starts. */
  lemma FailedFetchIsNotRetried<S>(empty: S, cached: S)
    ensures var started := Run(Fresh(empty), [CacheLoaded(cached), Handle(Input(None, 0, true, true, false, true))]);
            var failed := Handled(started, Input(Some(Pending(false, true, 500, None)), 1000, true, true, false, true));
            && started.starts == 1 && failed.starts == 1
            && failed.hasCurrent && failed.nextAtMs == 6000
            && forall e: Input<S> :: e.pending == None && e.nowMs >= 6000 && e.networkReady ==> Handled(failed, e) == failed
  {
    var m := Fresh(empty);
    RunTwo(m, CacheLoaded(cached), Handle(Input(None, 0, true, true, false, true)));
    assert Pow2(0) == 1;
  }

  /**
   * A fetch that was not cancelled, succeeded with a status from 200 to 299 and
   * could be parsed puts its settings in force, unless they change nothing, and
   * opens the gate to the last level; failures and waiting time start afresh.
   */
  lemma UsableTakesEffect<S>(m: Manager<S>, p: Pending<S>, nowMs: nat)
    requires m.failures <= 15 && !p.cancelled && p.fetchOk && 200 <= p.httpStatus <= 299 && p.parsed.Some?
    ensures var a, (merged, changed) := Applied(m, p, nowMs), p.parsed.value;
            && a.hasCurrent && a.phase == Ready && a.level >= Gate.SYNCED && a.level >= m.level
            && a.failures == 0 && a.nextAtMs == 0 && a.starts == m.starts
            && a.current == if changed || !m.hasCurrent then merged else m.current
  {}

  /** Any other update is a failure: it counts, and the next attempt is at least 5 seconds and at most a minute away. */
  lemma OtherIsFailure<S>(m: Manager<S>, p: Pending<S>, nowMs: nat)
    requires m.failures <= 15 && (p.cancelled || !p.fetchOk || p.httpStatus < 200 || p.httpStatus > 299 || p.parsed.None?)
    ensures var a := Applied(m, p, nowMs);
            && a.failures == (if m.failures < 15 then m.failures + 1 else m.failures) && nowMs + 5000 <= a.nextAtMs <= nowMs + 60000
            && a.phase == (if m.hasCurrent then Ready else if p.cancelled then Idle else Error)
            && a.level == (if m.hasCurrent && m.level < Gate.AVAILABLE then Gate.AVAILABLE else m.level)
  {
    Monotone(INITIAL_MS, 0, Bump(m.failures) - 1, MAX_MS);
  }

  /** A cancelled, failed or unparsable fetch leaves the settings in force and never lowers the gate. */
  lemma FailureKeepsCurrent<S>(m: Manager<S>, p: Pending<S>, nowMs: nat)
    requires m.failures <= 15 && !Usable(p)
    ensures var a := Applied(m, p, nowMs);
            && a.current == m.current && a.hasCurrent == m.hasCurrent && a.level >= m.level && a.starts == m.starts
            && nowMs + INITIAL_MS <= a.nextAtMs <= nowMs + MAX_MS
  {
    var f := Bump(m.failures);
    Monotone(INITIAL_MS, 0, f - 1, MAX_MS);
  }
}
