/**
 * Device registration: the transport task's `handle` interleaved with the worker
 * tasks it creates, one shared access at a time under sequential consistency.
 *
 * The two atomics are the only shared state. A worker may run to its end before
 * `handle` has marked it as running. An action that is not enabled leaves the
 * state alone, so every list of actions is an interleaving.
 */
module Registration {
  import opened Bytes
  import opened Backoff

  /** The settings: the parts `handle` decides on, and all the rest. */
  datatype Settings = Settings(deviceRegistered: bool, mqttValid: bool, apiValid: bool, rest: int)

  // ------------------------------------------------------------ the tasks

  datatype Step = Trying | Tried | Stored | Done

  /** A worker: what it was given, how far it is, and what `tryRegister` said once it has been tried. */
  datatype Worker = Worker(settings: Settings, step: Step, ok: bool)

  /** Where `handle` stands between two shared accesses. */
  datatype Pc =
    | Idle
    | HasVerdict
    | Deciding
    | Starting(settings: Settings)
    | Cleared(settings: Settings)
    | Creating(settings: Settings)
    | Marking

  datatype Flags = Flags(completed: bool, succeeded: bool)

  datatype Manager = Manager(registered: bool, running: bool, snapshot: Settings, failures: nat, nextAtMs: nat)

  /** A verdict taken by `handle`, and the snapshot it was taken for. */
  datatype Verdict = Verdict(snapshot: Settings, ok: bool)

  datatype History = History(
    workers: seq<Worker>,     // in order of creation
    taken: seq<Verdict>,      // in the order `handle` took them
    saved: seq<Settings>,     // settings stored with the registration flag
    cached: bool)             // a valid registration was found in the cache

  datatype State = State(flags: Flags, m: Manager, pc: Pc, h: History)

  datatype Action =
    | Poll
    | TakeVerdict(saveOk: bool, nowMs: nat)
    | Decide(wifi: bool, nowMs: nat, settings: Option<Settings>, hasId: bool)
    | ClearSucceeded
    | ClearCompleted
    | Create(ok: bool, nowMs: nat)
    | MarkRunning
    | Try(k: nat, ok: bool)
    | StoreSucceeded(k: nat)
    | StoreCompleted(k: nat)

  function Init(blank: Settings): State {
    State(Flags(false, false), Manager(false, false, blank, 0, 0), Idle, History([], [], [], false))
  }

  function Retry(m: Manager, nowMs: nat): Manager {
    var f := Bump(m.failures);
    m.(failures := f, nextAtMs := (nowMs + Doubled(INITIAL_MS, f - 1, MAX_MS)) % U32)
  }

  predicate CachedRegistration(settings: Option<Settings>) {
    settings.Some? && settings.value.deviceRegistered && settings.value.mqttValid
  }

  /** The part of `handle` that touches no shared state. */
  function Decided(s: State, a: Action): State
    requires a.Decide?
  {
    if s.m.registered || !a.wifi || s.m.running || a.nowMs < s.m.nextAtMs then s.(pc := Idle)
    else if CachedRegistration(a.settings) then s.(m := s.m.(registered := true), h := s.h.(cached := true), pc := Idle)
    else if a.settings.None? || !a.settings.value.apiValid || !a.hasId then s.(m := Retry(s.m, a.nowMs), pc := Idle)
    else s.(pc := Starting(a.settings.value))
  }

  function Taken(s: State, a: Action): State
    requires a.TakeVerdict?
  {
    var ok := s.flags.succeeded;
    var h := s.h.(taken := s.h.taken + [Verdict(s.m.snapshot, ok)]);
    if ok && a.saveOk then
      s.(m := s.m.(registered := true, failures := 0), pc := Deciding,
         h := h.(saved := h.saved + [s.m.snapshot.(deviceRegistered := true)]))
    else s.(m := Retry(s.m, a.nowMs), pc := Deciding, h := h)
  }

  function HandleStep(s: State, a: Action): State {
    match a
    case Poll =>
      if s.pc != Idle then s
      else if !s.flags.completed then s.(pc := Deciding)
      else s.(flags := s.flags.(completed := false), m := s.m.(running := false), pc := HasVerdict)
    case TakeVerdict(_, _) =>
      if s.pc == HasVerdict then Taken(s, a) else s
    case Decide(_, _, _, _) =>
      if s.pc == Deciding then Decided(s, a) else s
    case ClearSucceeded =>
      if s.pc.Starting? then
        s.(m := s.m.(snapshot := s.pc.settings), flags := s.flags.(succeeded := false), pc := Cleared(s.pc.settings))
      else s
    case ClearCompleted =>
      if s.pc.Cleared? then s.(flags := s.flags.(completed := false), pc := Creating(s.pc.settings)) else s
    case Create(ok, nowMs) =>
      if !s.pc.Creating? then s
      else if ok then s.(h := s.h.(workers := s.h.workers + [Worker(s.pc.settings, Trying, false)]), pc := Marking)
      else s.(m := Retry(s.m, nowMs), pc := Idle)
    case MarkRunning =>
      if s.pc == Marking then s.(m := s.m.(running := true), pc := Idle) else s
    case _ => s
  }

  function Move(s: State, k: nat, from: Step, to: Worker): State {
    if k < |s.h.workers| && s.h.workers[k].step == from then s.(h := s.h.(workers := s.h.workers[k := to])) else s
  }

  function WorkerStep(s: State, a: Action): State {
    match a
    case Try(k, ok) =>
      if k < |s.h.workers| then Move(s, k, Trying, s.h.workers[k].(step := Tried, ok := ok)) else s
    case StoreSucceeded(k) =>
      if k < |s.h.workers| && s.h.workers[k].step == Tried then
        Move(s, k, Tried, s.h.workers[k].(step := Stored)).(flags := s.flags.(succeeded := s.h.workers[k].ok))
      else s
    case StoreCompleted(k) =>
      if k < |s.h.workers| && s.h.workers[k].step == Stored then
        Move(s, k, Stored, s.h.workers[k].(step := Done)).(flags := s.flags.(completed := true))
      else s
    case _ => s
  }

  function Next(s: State, a: Action): State {
    if a.Try? || a.StoreSucceeded? || a.StoreCompleted? then WorkerStep(s, a) else HandleStep(s, a)
  }

  function Run(s: State, acts: seq<Action>): State
    decreases |acts|
  {
    if acts == [] then s else Run(Next(s, acts[0]), acts[1..])
  }

  // -------------------------------------------------------- the invariant

  /** The last worker's verdict has not been taken yet. */
  predicate Outstanding(s: State) {
    |s.h.workers| == |s.h.taken| + 1
  }

  /** Verdicts are taken one per worker, in order, each from a finished worker. */
  ghost predicate InOrder(h: History) {
    && |h.taken| <= |h.workers| <= |h.taken| + 1
    && forall i :: 0 <= i < |h.taken| ==>
         h.workers[i].step == Done && h.taken[i] == Verdict(h.workers[i].settings, h.workers[i].ok)
  }

  ghost predicate OneInFlight(s: State) {
    if Outstanding(s) then
      var w := s.h.workers[|s.h.workers| - 1];
      && w.settings == s.m.snapshot
      && (s.pc == HasVerdict <==> w.step == Done && !s.flags.completed)
      && (s.flags.completed ==> w.step == Done)
      && (w.step == Stored || w.step == Done ==> s.flags.succeeded == w.ok)
      && (s.pc == Idle || s.pc == Deciding ==> s.m.running)
      && (s.pc == Marking || s.pc == HasVerdict ==> !s.m.running)
      && !s.pc.Starting? && !s.pc.Cleared? && !s.pc.Creating?
    else
      && !s.flags.completed && !s.m.running
      && s.pc != HasVerdict && s.pc != Marking
      && (s.pc.Cleared? || s.pc.Creating? ==> s.m.snapshot == s.pc.settings)
  }

  /** The settings that earned the flag were those of a worker that succeeded. */
  ghost predicate Earned(h: History, x: Settings) {
    exists i :: 0 <= i < |h.taken| && h.taken[i].ok && x == h.taken[i].snapshot.(deviceRegistered := true)
  }

  ghost predicate RegisteredInv(s: State) {
    && (s.m.registered <==> s.h.cached || s.h.saved != [])
    && (s.m.registered ==> !Outstanding(s) && (s.pc == Idle || s.pc == Deciding))
    && |s.h.saved| <= 1
    && forall i :: 0 <= i < |s.h.saved| ==> Earned(s.h, s.h.saved[i])
  }

  ghost predicate Inv(s: State) {
    InOrder(s.h) && OneInFlight(s) && RegisteredInv(s)
  }

  lemma NextKeepsOrder(s: State, a: Action)
    requires InOrder(s.h) && OneInFlight(s)
    ensures InOrder(Next(s, a).h)
  {}

  lemma NextKeepsFlight(s: State, a: Action)
    requires InOrder(s.h) && OneInFlight(s) && RegisteredInv(s)
    ensures OneInFlight(Next(s, a))
  {
    hide Earned;
  }

  lemma EarnedStays(h: History, g: History, x: Settings)
    requires Earned(h, x) && h.taken <= g.taken
    ensures Earned(g, x)
  {
    var i :| 0 <= i < |h.taken| && h.taken[i].ok && x == h.taken[i].snapshot.(deviceRegistered := true);
    assert g.taken[i] == h.taken[i];
  }

  lemma NextKeepsRegistered(s: State, a: Action)
    requires InOrder(s.h) && OneInFlight(s) && RegisteredInv(s)
    ensures RegisteredInv(Next(s, a))
  {
    var t := Next(s, a);
    if a.TakeVerdict? && s.pc == HasVerdict {
      if s.flags.succeeded && a.saveOk {
        var last := |t.h.taken| - 1;
        assert t.h.taken[last].ok && t.h.saved[0] == t.h.taken[last].snapshot.(deviceRegistered := true);
      }
    } else {
      forall i | 0 <= i < |t.h.saved| ensures Earned(t.h, t.h.saved[i]) {
        EarnedStays(s.h, t.h, s.h.saved[i]);
      }
    }
  }

  lemma NextKeepsInv(s: State, a: Action)
    requires Inv(s)
    ensures Inv(Next(s, a))
  {
    NextKeepsOrder(s, a);
    NextKeepsFlight(s, a);
    NextKeepsRegistered(s, a);
  }

  lemma {:induction false} RunKeepsInv(s: State, acts: seq<Action>)
    requires Inv(s)
    ensures Inv(Run(s, acts))
    decreases |acts|
  {
    hide Inv, Next;
    if acts != [] {
      NextKeepsInv(s, acts[0]);
      RunKeepsInv(Next(s, acts[0]), acts[1..]);
    }
  }

  // ----------------------------------------------------------- the results

  /** In every interleaving: one worker at a time, and each verdict taken is that worker's, for its settings. */
  lemma OneWorkerOneVerdict(blank: Settings, acts: seq<Action>)
    ensures var h := Run(Init(blank), acts).h;
            && (forall i, j | 0 <= i < j < |h.workers| :: h.workers[i].step == Done || h.workers[j].step == Done)
            && |h.taken| <= |h.workers| <= |h.taken| + 1
            && forall i :: 0 <= i < |h.taken| ==> h.taken[i] == Verdict(h.workers[i].settings, h.workers[i].ok)
  {
    hide Run, Next;
    RunKeepsInv(Init(blank), acts);
  }

  /** The device counts as registered exactly when the cache said so or one successful worker's settings were saved. */
  lemma RegisteredExactlyWhen(blank: Settings, acts: seq<Action>)
    ensures var s := Run(Init(blank), acts);
            && (s.m.registered <==> s.h.cached || |s.h.saved| == 1)
            && forall x :: x in s.h.saved ==> Earned(s.h, x)
  {
    hide Run, Next, Earned;
    assert Inv(Init(blank));
    RunKeepsInv(Init(blank), acts);
  }

  lemma NextStaysRegistered(s: State, a: Action)
    requires Inv(s) && s.m.registered
    ensures var t := Next(s, a);
            t.m.registered && t.h == s.h
  {}

  /** What a worker reports is what its attempt returned; no other action changes it. */
  lemma VerdictIsAttempt(s: State, a: Action, k: nat)
    requires k < |s.h.workers|
    ensures var w, n := s.h.workers[k], Next(s, a).h.workers;
            && |n| >= |s.h.workers| && n[k].settings == w.settings
            && n[k].ok == (if a.Try? && a.k == k && w.step == Trying then a.ok else w.ok)
  {}

  /** Registration never reverts, and no worker is created and nothing is saved after it. */
  lemma {:induction false} RegisteredStays(s: State, acts: seq<Action>)
    requires Inv(s) && s.m.registered
    ensures var t := Run(s, acts);
            t.m.registered && t.h == s.h
    decreases |acts|
  {
    hide Inv, Next;
    if acts != [] {
      NextKeepsInv(s, acts[0]);
      NextStaysRegistered(s, acts[0]);
      RegisteredStays(Next(s, acts[0]), acts[1..]);
    }
  }

  /**
   * A failure at true time `now` sets a delay of `d`. A call at true time `t`,
   * within one turn of the clock, is refused exactly while the delay lasts if and
   * only if clock and next attempt time have both wrapped since, or neither has.
   */
  lemma RetryHonoured(m: Manager, now: nat, t: nat)
    requires m.failures <= 15 && now <= t < now + U32
    ensures var d := Doubled(INITIAL_MS, Bump(m.failures) - 1, MAX_MS);
            (t % U32 < Retry(m, now % U32).nextAtMs <==> t < now + d)
            <==> (t / U32 == now / U32 <==> now % U32 + d < U32)
  {
    var d := Doubled(INITIAL_MS, Bump(m.failures) - 1, MAX_MS);
    assert d <= MAX_MS;
    DeadlineHonest(now, d, t);
  }

  /** Instance: the first failure six seconds before the clock wraps; a quarter of an hour after the wrap calls are still refused. */
  lemma RefusedAfterWrap(m: Manager)
    requires m.failures == 0
    ensures var now, t := U32 - 6000, U32 + 1000000;
            t - now > INITIAL_MS && Retry(m, now).nextAtMs == U32 - 1000 && t % U32 < Retry(m, now).nextAtMs
  {
    assert Doubled(INITIAL_MS, 0, MAX_MS) == INITIAL_MS by {
      assert Pow2(0) == 1;
    }
  }

  // ------------------------------------------------------------ the object

  datatype Input = Input(saveOk: bool, doneMs: nat, wifi: bool, nowMs: nat, settings: Option<Settings>, hasId: bool,
                         createOk: bool, createMs: nat)

  /** The actions of one call of `handle`; those of branches not taken are not enabled. */
  function Call(e: Input): seq<Action> {
    [Poll, TakeVerdict(e.saveOk, e.doneMs), Decide(e.wifi, e.nowMs, e.settings, e.hasId), ClearSucceeded, ClearCompleted,
     Create(e.createOk, e.createMs), MarkRunning]
  }

  /** An idle manager after the actions of `handle` up to its decision. */
  function Decision(s: State, e: Input): State {
    Next(Next(Next(s, Call(e)[0]), Call(e)[1]), Call(e)[2])
  }

  /** The settings name a registration to make. */
  predicate Able(e: Input) {
    && e.settings.Some? && !(e.settings.value.deviceRegistered && e.settings.value.mqttValid)
    && e.settings.value.apiValid && e.hasId
  }

  lemma Decides(s: State, e: Input)
    requires s.pc == Idle
    ensures var d := Decision(s, e);
            var won := s.flags.completed && s.flags.succeeded && e.saveOk;
            var due := if s.flags.completed && !won then Retry(s.m, e.doneMs).nextAtMs else s.m.nextAtMs;
            var wanted := !s.m.registered && !won && e.wifi && (s.flags.completed || !s.m.running) && e.nowMs >= due && Able(e);
            && d.pc == (if wanted then Starting(e.settings.value) else Idle)
            && d.h.workers == s.h.workers && (d.m.running <==> s.m.running && !s.flags.completed)
  {
    hide Retry;
    RetryKeeps(s.m.(running := false), e.doneMs);
    RetryReads(s.m, s.m.(running := false), e.doneMs);
    RetryKeeps(Next(Next(s, Call(e)[0]), Call(e)[1]).m, e.nowMs);
  }

  /** From the decision on: a worker is started, or nothing more happens. */
  lemma FromDecision(d: State, e: Input)
    requires d.pc == Idle || d.pc.Starting?
    ensures var t := Run(d, Call(e)[3..]);
            if d.pc == Idle then t == d
            else
              && t.pc == Idle && (e.createOk ==> t.m == d.m.(snapshot := d.pc.settings, running := true))
              && t.h.workers == (if e.createOk then d.h.workers + [Worker(d.pc.settings, Trying, false)] else d.h.workers)
              && t.flags == Flags(false, false)
              && (!e.createOk ==> t.m == Retry(d.m.(snapshot := d.pc.settings), e.createMs))
  {
    hide Run, Retry;
    RunCall(d, e);
    if d.pc == Idle {
      RunIdle(d, Call(e)[3..]);
    }
    RunFour(d, ClearSucceeded, ClearCompleted, Create(e.createOk, e.createMs), MarkRunning);
  }

  /**
   * One undisturbed call of an idle manager starts a worker if and only if the
   * device is not registered, the network is up, no worker is running, the wait
   * is over, the settings are there and name an API, the device has an id and the
   * task can be created; a verdict that was waiting is taken first. The worker
   * gets the settings just read.
   */
  lemma StartsExactlyWhen(s: State, e: Input)
    requires s.pc == Idle
    ensures var t := Run(s, Call(e));
            var won := s.flags.completed && s.flags.succeeded && e.saveOk;
            var due := if s.flags.completed && !won then Retry(s.m, e.doneMs).nextAtMs else s.m.nextAtMs;
            var starts := && !s.m.registered && !won && e.wifi && (s.flags.completed || !s.m.running) && e.nowMs >= due
                          && e.settings.Some? && !(e.settings.value.deviceRegistered && e.settings.value.mqttValid)
                          && e.settings.value.apiValid && e.hasId && e.createOk;
            && t.pc == Idle
            && t.h.workers == (if starts then s.h.workers + [Worker(e.settings.value, Trying, false)] else s.h.workers)
            && (t.m.running <==> starts || (s.m.running && !s.flags.completed))
            && (starts ==> t.m.snapshot == e.settings.value && t.flags == Flags(false, false))
  {
    hide Run, Retry, Next;
    RunCall(s, e);
    Decides(s, e);
    FromDecision(Decision(s, e), e);
    if Decision(s, e).pc.Starting? {
      RetryKeeps(Decision(s, e).m.(snapshot := e.settings.value), e.createMs);
    }
  }

  /** What an idle manager that is due makes of the settings: registered from the cache, a retry, or a worker; only a retry moves the schedule. */
  lemma SchedulesRetryWhen(s: State, e: Input)
    requires s.pc == Idle && !s.flags.completed && !s.m.registered && e.wifi && !s.m.running && e.nowMs >= s.m.nextAtMs
    ensures var t := Run(s, Call(e));
            var cached := e.settings.Some? && e.settings.value.deviceRegistered && e.settings.value.mqttValid;
            var able := e.settings.Some? && e.settings.value.apiValid && e.hasId;
            if cached then t.m == s.m.(registered := true) && t.h.cached
            else if !able then t.m == Retry(s.m, e.nowMs)
            else if e.createOk then t.m == s.m.(snapshot := e.settings.value, running := true)
            else t.m == Retry(s.m.(snapshot := e.settings.value), e.createMs)
  {
    hide Run, Retry;
    RunCall(s, e);
    FromDecision(Decision(s, e), e);
  }

  lemma RetryKeeps(m: Manager, nowMs: nat)
    ensures var r := Retry(m, nowMs); r.registered == m.registered && r.running == m.running && r.snapshot == m.snapshot
  {}

  lemma RetryReads(m: Manager, n: Manager, nowMs: nat)
    ensures m.failures == n.failures ==>
              Retry(m, nowMs).failures == Retry(n, nowMs).failures && Retry(m, nowMs).nextAtMs == Retry(n, nowMs).nextAtMs
  {}

  class DeviceRegistrationManager {
    var completed: bool
    var succeeded: bool
    var registered: bool
    var running: bool
    var snapshot: Settings
    var failures: nat
    var nextAttemptAtMs: nat
    ghost var h: History

    ghost function At(pc: Pc): State
      reads this
    {
      State(Flags(completed, succeeded), Manager(registered, running, snapshot, failures, nextAttemptAtMs), pc, h)
    }

    method ScheduleRetry(nowMs: nat)
      requires failures <= 15
      modifies `failures, `nextAttemptAtMs
      ensures failures <= 15
      ensures failures == Bump(old(failures))
      ensures nextAttemptAtMs == (nowMs + Doubled(INITIAL_MS, failures - 1, MAX_MS)) % U32
    {
      if failures < 15 {
        failures := failures + 1;
      }
      var delayMs := RetryDelay(failures);
      nextAttemptAtMs := (nowMs + delayMs) % U32;
    }

    method CompleteRegistrationIfReady(saveOk: bool, nowMs: nat)
      requires failures <= 15
      modifies this
      ensures failures <= 15
      ensures At(Deciding) == Next(Next(old(At(Idle)), Poll), TakeVerdict(saveOk, nowMs))
      ensures old(completed) && old(succeeded) && saveOk ==> registered && failures == 0 && nextAttemptAtMs == old(nextAttemptAtMs)
    {
      if !completed {
        return;
      }
      completed := false;
      running := false;
      h := h.(taken := h.taken + [Verdict(snapshot, succeeded)]);
      if succeeded {
        if saveOk {
          h := h.(saved := h.saved + [snapshot.(deviceRegistered := true)]);
          registered := true;
          failures := 0;
          return;
        }
      }
      ScheduleRetry(nowMs);
    }

    method StartRegistrationTask(settings: Settings, createOk: bool, nowMs: nat)
      requires failures <= 15
      modifies this
      ensures failures <= 15
      ensures At(Idle) == Run(old(At(Starting(settings))), [ClearSucceeded, ClearCompleted, Create(createOk, nowMs), MarkRunning])
    {
      ghost var s := At(Starting(settings));
      RunFour(s, ClearSucceeded, ClearCompleted, Create(createOk, nowMs), MarkRunning);
      snapshot := settings;
      succeeded := false;
      completed := false;
      if createOk {
        h := h.(workers := h.workers + [Worker(settings, Trying, false)]);
        running := true;
        return;
      }
      ScheduleRetry(nowMs);
    }

    /** One undisturbed call is the seven actions in a row. */
    method Handle(e: Input)
      requires failures <= 15
      modifies this
      ensures failures <= 15
      ensures At(Idle) == Run(old(At(Idle)), Call(e))
    {
      hide Run;
      RunCall(At(Idle), e);
      CompleteRegistrationIfReady(e.saveOk, e.doneMs);
      ghost var d := At(Deciding);
      RunIdle(Decided(d, Call(e)[2]), Call(e)[3..]);
      if registered || !e.wifi {
        return;
      }
      if running {
        return;
      }
      if e.nowMs < nextAttemptAtMs {
        return;
      }
      if e.settings.None? {
        ScheduleRetry(e.nowMs);
        return;
      }
      if e.settings.value.deviceRegistered {
        if e.settings.value.mqttValid {
          registered := true;
          h := h.(cached := true);
          return;
        }
      }
      if !e.settings.value.apiValid {
        ScheduleRetry(e.nowMs);
        return;
      }
      if !e.hasId {
        ScheduleRetry(e.nowMs);
        return;
      }
      StartRegistrationTask(e.settings.value, e.createOk, e.createMs);
    }
  }

  lemma RunFour(s: State, a: Action, b: Action, c: Action, d: Action)
    ensures Run(s, [a, b, c, d]) == Next(Next(Next(Next(s, a), b), c), d)
  {
    hide Next;
    var t := Next(Next(s, a), b);
    assert [a, b, c, d][1..] == [b, c, d] && [b, c, d][1..] == [c, d] && [c, d][1..] == [d];
    var u := Next(t, c);
    assert Run(u, [d]) == Run(Next(u, d), []) by { assert [d][1..] == []; }
    assert Run(t, [c, d]) == Run(u, [d]);
  }

  lemma RunCall(s: State, e: Input)
    ensures Call(e)[3..] == [ClearSucceeded, ClearCompleted, Create(e.createOk, e.createMs), MarkRunning]
    ensures Run(s, Call(e)) == Run(Next(Next(Next(s, Call(e)[0]), Call(e)[1]), Call(e)[2]), Call(e)[3..])
  {
    hide Next;
    var c := Call(e);
    var t := Next(s, c[0]);
    assert c[1..][1..] == c[2..] && c[2..][1..] == c[3..] && c[1..][0] == c[1] && c[2..][0] == c[2];
    assert Run(t, c[1..]) == Run(Next(Next(t, c[1]), c[2]), c[3..]);
  }

  /** With `handle` idle, the actions that start a worker do nothing. */
  lemma {:induction false} RunIdle(s: State, acts: seq<Action>)
    requires forall i :: 0 <= i < |acts| ==> acts[i].ClearSucceeded? || acts[i].ClearCompleted? || acts[i].Create? || acts[i].MarkRunning?
    ensures s.pc == Idle ==> Run(s, acts) == s
    decreases |acts|
  {
    if acts != [] && s.pc == Idle {
      RunIdle(s, acts[1..]);
    }
  }
}
