/**
 * Binary capabilities (lights, LEDs, plugs, valves) over an output pin: which
 * states reach the persistent store, and what a reboot restores.
 *
 * `held` is the outside world forcing the pin to a level. The LED's blink timer
 * is part of the capability; the other capabilities simply never blink. The
 * store is one record; the identity it is filed under is fixed.
 */
module Persistence {
  import opened Bytes

  const U64: nat := 0x1_0000_0000_0000_0000

  /** The command and state texts; any other text is Other. */
  datatype Word = On | Off | Open | Closed | Toggle | Unknown | Other(text: string)

  /** `interpreted`: a valve interpreter is set. `storage`: there is a store and the capability has a name. */
  datatype Config = Config(highIsOn: bool, valveWords: bool, interpreted: bool, storage: bool)

  function OnWord(c: Config): Word {
    if c.valveWords then Open else On
  }

  function OffWord(c: Config): Word {
    if c.valveWords then Closed else Off
  }

  function WordFor(c: Config, on: bool): Word {
    if on then OnWord(c) else OffWord(c)
  }

  // ------------------------------------------------------------ the adapter

  /** The level written to the pin, the adapter's own record of it, and the level forced from outside. */
  datatype Pin = Pin(high: bool, pinState: bool, held: Option<bool>)

  function Level(c: Config, on: bool): bool {
    on == c.highIsOn
  }

  function Read(p: Pin): bool {
    if p.held.Some? then p.held.value else p.high
  }

  function StateValue(c: Config, p: Pin): Word {
    if Read(p) == c.highIsOn then On else Off
  }

  function HardwareApplied(c: Config, p: Pin, command: Word): (Pin, bool) {
    match command
    case On => (p.(pinState := Level(c, true), high := Level(c, true)), true)
    case Off => (p.(pinState := Level(c, false), high := Level(c, false)), true)
    case Toggle => (p.(pinState := !Read(p), high := !Read(p)), true)
    case _ => (p, false)
  }

  /** The text form: on and off leave the adapter's own record alone. */
  function TextApplied(c: Config, p: Pin, command: Word): (Pin, bool) {
    match command
    case On => (p.(high := Level(c, true)), true)
    case Off => (p.(high := Level(c, false)), true)
    case Toggle =>
      var q := p.(high := !Read(p));
      (q.(pinState := Read(q)), true)
    case _ => (p, false)
  }

  // -------------------------------------------------- the valve interpreter

  function InterpretCommand(command: Word): Word {
    match command
    case Open => On
    case Closed => Off
    case Toggle => Toggle
    case _ => Other("")
  }

  function InterpretState(state: Word): Word {
    match state
    case On => Open
    case Off => Closed
    case _ => Unknown
  }

  // --------------------------------------------------------- the capability

  datatype Blink = Blink(active: bool, intervalMs: nat, lastToggleMs: nat, transient: bool)

  /** `saves`: the values passed to requestSave, in order. */
  datatype State = State(pin: Pin, value: Word, stable: Option<bool>, blink: Blink, saves: seq<bool>)

  function Confirmed(c: Config, p: Pin): Word {
    if c.interpreted then InterpretState(StateValue(c, p)) else StateValue(c, p)
  }

  function Sent(c: Config, p: Pin, command: Word): (Pin, bool) {
    if c.interpreted then HardwareApplied(c, p, InterpretCommand(command)) else TextApplied(c, p, command)
  }

  predicate Stable(c: Config, w: Word) {
    w == OnWord(c) || w == OffWord(c)
  }

  function Persisted(c: Config, s: State, w: Word): State {
    var on := w == OnWord(c);
    if !Stable(c, w) || s.blink.transient || s.stable == Some(on) then s
    else s.(stable := Some(on), saves := if c.storage then s.saves + [on] else s.saves)
  }

  function Synced(c: Config, s: State): State {
    var w := Confirmed(c, s.pin);
    if w == s.value then s else Persisted(c, s.(value := w), w)
  }

  function Seeded(c: Config, s: State, w: Word): State {
    if Stable(c, w) then s.(value := w, stable := Some(w == OnWord(c))) else s.(value := w)
  }

  const STILL: Blink := Blink(false, 0, 0, false)

  /** `setup`, with what the store holds; nothing but pin, value and baseline changes. */
  function SetUp(c: Config, s: State, stored: Option<bool>): State {
    var p := s.pin.(high := s.pin.pinState);
    var q := if c.storage && stored.Some? then Sent(c, p, WordFor(c, stored.value)).0 else p;
    Seeded(c, s.(pin := q), Confirmed(c, q))
  }

  function Constructed(c: Config, held: Option<bool>): State {
    State(Pin(Level(c, false), Level(c, false), held), OffWord(c), None, STILL, [])
  }

  /** A freshly constructed capability, set up. */
  function Booted(c: Config, stored: Option<bool>, held: Option<bool>): State {
    SetUp(c, Constructed(c, held), stored)
  }

  /** The clock is read as 64 bits and the subtraction wraps there; the stored time has 32. */
  function Since(now: nat, last: nat): int {
    if now >= last then now - last else now - last + U64
  }

  predicate TimerDue(b: Blink, now: nat) {
    b.active && b.intervalMs != 0 && Since(now, b.lastToggleMs) >= b.intervalMs
  }

  function Handled(c: Config, s: State, now: nat): State {
    if TimerDue(s.blink, now) then
      var command := if s.value == OnWord(c) then Off else On;
      var t := Synced(c, s.(pin := Sent(c, s.pin, command).0, blink := s.blink.(lastToggleMs := now % U32, transient := true)));
      t.(blink := t.blink.(transient := false))
    else Synced(c, s)
  }

  function Commanded(c: Config, s: State, command: Word): State {
    if s.blink.active then
      var t := Synced(c, s.(pin := Sent(c, s.pin, command).0, blink := s.blink.(active := false, intervalMs := 0)));
      Persisted(c, t, t.value)
    else s.(pin := Sent(c, s.pin, command).0)
  }

  function BlinkSet(c: Config, s: State, intervalMs: nat, now: nat): State {
    if intervalMs == 0 then
      var t := s.(blink := s.blink.(active := false, intervalMs := 0));
      if s.blink.active then Persisted(c, t, t.value) else t
    else s.(blink := s.blink.(active := true, intervalMs := intervalMs, lastToggleMs := now % U32))
  }

  datatype Action = Handle(now: nat) | Command(command: Word) | SetBlink(intervalMs: nat, now: nat) | Force(held: Option<bool>)

  function Next(c: Config, s: State, a: Action): State {
    match a
    case Handle(now) => Handled(c, s, now)
    case Command(w) => Commanded(c, s, w)
    case SetBlink(i, now) => BlinkSet(c, s, i, now)
    case Force(h) => s.(pin := s.pin.(held := h))
  }

  function Run(c: Config, s: State, acts: seq<Action>): State
    decreases |acts|
  {
    if acts == [] then s else Run(c, Next(c, s, acts[0]), acts[1..])
  }

  // -------------------------------------------------------------- invariant

  predicate Alternating(seed: Option<bool>, saves: seq<bool>) {
    && (forall i :: 0 <= i < |saves| - 1 ==> saves[i] != saves[i + 1])
    && (saves != [] && seed.Some? ==> saves[0] != seed.value)
  }

  /** The vocabulary is the one the read-back speaks. */
  predicate Matched(c: Config) {
    c.valveWords == c.interpreted
  }

  predicate Inv(c: Config, seed: Option<bool>, s: State) {
    && Alternating(seed, s.saves)
    && (c.storage ==> s.stable == if s.saves == [] then seed else Some(s.saves[|s.saves| - 1]))
    && (!c.storage ==> s.saves == [])
    && !s.blink.transient
    && (s.blink.active <==> s.blink.intervalMs != 0)
    && (!s.blink.active && Stable(c, s.value) ==> s.stable == Some(s.value == OnWord(c)))
    && (if Matched(c) then Stable(c, s.value) && s.stable.Some? else s.stable.None? && !Stable(c, s.value))
  }

  lemma ConfirmedStable(c: Config, p: Pin)
    ensures Stable(c, Confirmed(c, p)) <==> Matched(c)
    ensures Matched(c) ==> Confirmed(c, p) == WordFor(c, Read(p) == c.highIsOn)
  {}

  /** A state between two calls, whatever came before. */
  predicate Quiet(c: Config, s: State) {
    && !s.blink.transient && (s.blink.active <==> s.blink.intervalMs != 0)
    && (!Matched(c) ==> s.stable.None?)
  }

  /** Set-up starts the account of save requests afresh, also in a capability already in use. */
  lemma SetUpInv(c: Config, p: State, stored: Option<bool>)
    requires Quiet(c, p)
    ensures var s := SetUp(c, p, stored).(saves := []);
            Inv(c, s.stable, s) && s.value == Confirmed(c, s.pin)
  {
    hide Sent;
  }

  lemma BootedInv(c: Config, stored: Option<bool>, held: Option<bool>)
    ensures var s := Booted(c, stored, held);
            Inv(c, s.stable, s) && s.saves == [] && s.value == Confirmed(c, s.pin) && s.pin.held == held
  {}

  lemma AlternatesOn(seed: Option<bool>, saves: seq<bool>, on: bool)
    requires Alternating(seed, saves)
    requires (if saves == [] then seed else Some(saves[|saves| - 1])) != Some(on)
    ensures Alternating(seed, saves + [on])
  {}

  lemma PersistedKeeps(c: Config, seed: Option<bool>, s: State, w: Word)
    requires Alternating(seed, s.saves)
    requires c.storage ==> s.stable == if s.saves == [] then seed else Some(s.saves[|s.saves| - 1])
    requires !c.storage ==> s.saves == []
    ensures var t := Persisted(c, s, w);
            && Alternating(seed, t.saves)
            && (c.storage ==> t.stable == if t.saves == [] then seed else Some(t.saves[|t.saves| - 1]))
            && (!c.storage ==> t.saves == [])
            && (Stable(c, w) && !s.blink.transient ==> t.stable == Some(w == OnWord(c)))
            && t.pin == s.pin && t.value == s.value && t.blink == s.blink
            && (!Stable(c, w) || s.blink.transient ==> t == s)
            && (s.stable.Some? ==> t.stable.Some?)
  {
    var on := w == OnWord(c);
    if Stable(c, w) && !s.blink.transient && s.stable != Some(on) && c.storage {
      AlternatesOn(seed, s.saves, on);
    }
  }

  lemma SyncedKeeps(c: Config, seed: Option<bool>, s: State)
    requires Inv(c, seed, s.(blink := s.blink.(transient := false))) && (s.blink.transient ==> s.blink.active)
    ensures var t := Synced(c, s);
            Inv(c, seed, t.(blink := t.blink.(transient := false)))
    ensures Synced(c, s).blink == s.blink && Synced(c, s).pin == s.pin && Synced(c, s).value == Confirmed(c, s.pin)
  {
    hide Alternating, Confirmed;
    ConfirmedStable(c, s.pin);
    var w := Confirmed(c, s.pin);
    PersistedKeeps(c, seed, s.(value := w), w);
  }

  lemma NextKeepsInv(c: Config, seed: Option<bool>, s: State, a: Action)
    requires Inv(c, seed, s)
    ensures Inv(c, seed, Next(c, s, a))
  {
    hide Alternating, Confirmed, Sent, Synced, Persisted;
    match a
    case Handle(now) =>
      if TimerDue(s.blink, now) {
        var command := if s.value == OnWord(c) then Off else On;
        SyncedKeeps(c, seed, s.(pin := Sent(c, s.pin, command).0, blink := s.blink.(lastToggleMs := now % U32, transient := true)));
      } else {
        SyncedKeeps(c, seed, s);
      }
    case Command(w) =>
      if s.blink.active {
        LeaveKeepsInv(c, seed, s.(pin := Sent(c, s.pin, w).0, blink := s.blink.(active := false, intervalMs := 0)));
      }
    case SetBlink(i, now) =>
      if i == 0 && s.blink.active {
        var t := s.(blink := s.blink.(active := false, intervalMs := 0));
        PersistedKeeps(c, seed, t, t.value);
      }
    case Force(h) =>
  }

  /** The blink is over but the value need not be the stable one yet. */
  lemma LeaveKeepsInv(c: Config, seed: Option<bool>, s: State)
    requires Inv(c, seed, s.(blink := Blink(true, 1, 0, false)))
    requires s.blink.intervalMs == 0 && !s.blink.active && !s.blink.transient
    ensures var t := Synced(c, s);
            Inv(c, seed, Persisted(c, t, t.value))
  {
    hide Alternating, Confirmed, Persisted;
    ConfirmedStable(c, s.pin);
    var w := Confirmed(c, s.pin);
    PersistedKeeps(c, seed, s.(value := w), w);
    var t := Synced(c, s);
    PersistedKeeps(c, seed, t, t.value);
  }

  lemma {:induction false} RunKeepsInv(c: Config, seed: Option<bool>, s: State, acts: seq<Action>)
    requires Inv(c, seed, s)
    ensures Inv(c, seed, Run(c, s, acts))
    decreases |acts|
  {
    hide Inv, Next;
    if acts != [] {
      NextKeepsInv(c, seed, s, acts[0]);
      RunKeepsInv(c, seed, Next(c, s, acts[0]), acts[1..]);
    }
  }

  // ------------------------------------------------------------ the results

  /**
   * After a set-up, the first or a later one, whatever is commanded, blinked or
   * forced on the pin: the save requests made since strictly alternate, starting
   * opposite to the seeded state, and outside blinking the value is the last stable one.
   */
  lemma SavesAlternate(c: Config, p: State, stored: Option<bool>, acts: seq<Action>)
    requires Quiet(c, p)
    ensures var boot := SetUp(c, p, stored).(saves := []);
            var s := Run(c, boot, acts);
            && Alternating(boot.stable, s.saves)
            && (!s.blink.active && Stable(c, s.value) ==> s.stable == Some(s.value == OnWord(c)))
            && (c.storage && s.saves != [] ==> s.stable == Some(s.saves[|s.saves| - 1]))
            && (!c.storage || !Matched(c) ==> s.saves == [])
            && Quiet(c, s)
  {
    hide Run, SetUp;
    var boot := SetUp(c, p, stored).(saves := []);
    SetUpInv(c, p, stored);
    RunKeepsInv(c, boot.stable, boot, acts);
  }

  /** Earlier requests have no influence: a run makes the same ones after them. */
  lemma {:induction false} RequestsAdd(c: Config, s: State, acts: seq<Action>)
    ensures Adds(s, Run(c, s, acts), Run(c, s.(saves := []), acts))
    decreases |acts|
  {
    hide Next;
    if acts != [] {
      NextAdds(c, s, acts[0]);
      var n, m := Next(c, s, acts[0]), Next(c, s.(saves := []), acts[0]);
      RequestsAdd(c, n, acts[1..]);
      RequestsAdd(c, m, acts[1..]);
    }
  }

  predicate Adds(s: State, t: State, u: State) {
    t.saves == s.saves + u.saves && t.(saves := []) == u.(saves := [])
  }

  lemma PersistedAdds(c: Config, p: State, s: State, u: State, w: Word)
    requires Adds(p, s, u)
    ensures Adds(p, Persisted(c, s, w), Persisted(c, u, w))
  {}

  lemma SyncedAdds(c: Config, p: State, s: State, u: State)
    requires Adds(p, s, u)
    ensures Adds(p, Synced(c, s), Synced(c, u))
  {
    hide Confirmed, Persisted;
    var w := Confirmed(c, s.pin);
    PersistedAdds(c, p, s.(value := w), u.(value := w), w);
  }

  lemma NextAdds(c: Config, s: State, a: Action)
    ensures Adds(s, Next(c, s, a), Next(c, s.(saves := []), a))
  {
    hide Sent, Synced, Persisted;
    var u := s.(saves := []);
    match a
    case Handle(now) =>
      var command := if s.value == OnWord(c) then Off else On;
      var pin, blink := Sent(c, s.pin, command).0, s.blink.(lastToggleMs := now % U32, transient := true);
      SyncedAdds(c, s, s.(pin := pin, blink := blink), u.(pin := pin, blink := blink));
      SyncedAdds(c, s, s, u);
    case Command(w) =>
      var pin, blink := Sent(c, s.pin, w).0, s.blink.(active := false, intervalMs := 0);
      var x, y := s.(pin := pin, blink := blink), u.(pin := pin, blink := blink);
      SyncedAdds(c, s, x, y);
      PersistedAdds(c, s, Synced(c, x), Synced(c, y), Synced(c, x).value);
    case SetBlink(i, now) =>
      var blink := s.blink.(active := false, intervalMs := 0);
      PersistedAdds(c, s, s.(blink := blink), u.(blink := blink), s.value);
    case Force(h) =>
  }

  predicate OnlyHandles(acts: seq<Action>) {
    forall i :: 0 <= i < |acts| ==> acts[i].Handle?
  }

  /** The value is what the pin reads, and nothing forces the pin. */
  predicate InStep(c: Config, s: State) {
    s.value == Confirmed(c, s.pin) && s.pin.held.None?
  }

  lemma HandleSilent(c: Config, s: State, now: nat)
    requires s.blink.active && InStep(c, s)
    ensures var t := Handled(c, s, now);
            t.saves == s.saves && t.stable == s.stable && t.blink.active && InStep(c, t) && t.blink.intervalMs == s.blink.intervalMs
  {}

  /** However long it blinks, the timer's toggles are applied and confirmed but never requested. */
  lemma {:induction false} BlinkSilent(c: Config, s: State, acts: seq<Action>)
    requires s.blink.active && InStep(c, s) && OnlyHandles(acts)
    ensures var t := Run(c, s, acts);
            t.saves == s.saves && t.stable == s.stable && t.blink.active && InStep(c, t)
    decreases |acts|
  {
    hide Handled, InStep;
    if acts != [] {
      HandleSilent(c, s, acts[0].now);
      BlinkSilent(c, Next(c, s, acts[0]), acts[1..]);
    }
  }

  /** Ending a blink requests the state it stopped in, once, and only if that is not the last stable one. */
  lemma LeavingBlinkSavesOnce(c: Config, s: State, intervalMs: nat, now: nat, acts: seq<Action>, later: nat)
    requires Matched(c) && c.storage && !s.blink.transient && s.stable.Some?
    requires InStep(c, s) && OnlyHandles(acts) && intervalMs > 0
    ensures var b := Run(c, BlinkSet(c, s, intervalMs, now), acts);
            var e := BlinkSet(c, b, 0, later);
            var on := b.value == OnWord(c);
            && e.saves == (if s.stable == Some(on) then s.saves else s.saves + [on])
            && e.stable == Some(on) && !e.blink.active && e.value == b.value
  {
    hide Run, Confirmed;
    var b0 := BlinkSet(c, s, intervalMs, now);
    BlinkSilent(c, b0, acts);
    var b := Run(c, b0, acts);
    ConfirmedStable(c, b.pin);
    NotTransient(c, b0, acts);
  }

  lemma {:induction false} NotTransient(c: Config, s: State, acts: seq<Action>)
    requires !s.blink.transient && OnlyHandles(acts)
    ensures !Run(c, s, acts).blink.transient
    decreases |acts|
  {
    if acts != [] {
      NotTransient(c, Next(c, s, acts[0]), acts[1..]);
    }
  }

  /** What the store holds once every request has been accepted. */
  function Store(initial: Option<bool>, saves: seq<bool>): Option<bool> {
    if saves == [] then initial else Some(saves[|saves| - 1])
  }

  /**
   * Restoring goes through the interpreter and the adapter and comes back as the
   * saved state, without a new request; with nothing saved it is the adapter's record.
   */
  lemma RestoreRoundTrip(c: Config, p: State, stored: Option<bool>)
    requires Matched(c) && c.storage && p.pin.held.None?
    ensures var on := if stored.Some? then stored.value else p.pin.pinState == c.highIsOn;
            var s := SetUp(c, p, stored);
            && s.value == WordFor(c, on) == Confirmed(c, s.pin) && StateValue(c, s.pin) == (if on then On else Off)
            && s.stable == Some(on) && s.saves == p.saves && s.blink == p.blink
  {}

  /**
   * A reboot comes up in the last stable state exactly when something was saved
   * since the boot, or the pin could be set at that boot.
   */
  lemma RebootRestores(c: Config, initial: Option<bool>, held: Option<bool>, acts: seq<Action>)
    requires Matched(c) && c.storage
    ensures var s := Run(c, Booted(c, initial, held), acts);
            s.stable.Some? &&
            (Booted(c, Store(initial, s.saves), None).value == WordFor(c, s.stable.value)
             <==> s.saves != [] || (held.Some? ==> (held.value == c.highIsOn <==> initial == Some(true))))
  {
    hide Run;
    var boot := Booted(c, initial, held);
    BootedInv(c, initial, held);
    RunKeepsInv(c, boot.stable, boot, acts);
    var s := Run(c, boot, acts);
    hide SetUp;
    RestoreRoundTrip(c, Constructed(c, None), Store(initial, s.saves));
    HeldBoot(c, initial, held);
  }

  lemma HeldBoot(c: Config, initial: Option<bool>, held: Option<bool>)
    requires Matched(c) && c.storage
    ensures var on := initial.Some? && initial.value;
            Booted(c, initial, held).stable == Some(on) <==> (held.Some? ==> held.value == Level(c, on))
  {}

  /**
   * Within one turn of the clock from the last toggle the timer is due exactly when
   * the interval is over or the clock has wrapped, so it is never late, and early
   * exactly when the clock wraps before the interval is over.
   */
  lemma DueExactlyWhen(b: Blink, last: nat, now: nat)
    requires b.active && 0 < b.intervalMs < U32 && b.lastToggleMs == last % U32
    requires last <= now < last + U32
    ensures TimerDue(b, now % U32) <==> now - last >= b.intervalMs || now / U32 != last / U32
  {
    if now / U32 == last / U32 {
      assert now % U32 - last % U32 == now - last;
    } else {
      assert now / U32 == last / U32 + 1;
      assert now % U32 < last % U32;
    }
  }

  // ------------------------------------------------- from command to pin

  /** The command is one the configuration understands. */
  predicate Understood(c: Config, w: Word) {
    w == Toggle || (if c.interpreted then w == Open || w == Closed else w == On || w == Off)
  }

  /**
   * On a pin nobody holds, blinking or not: an understood command followed by one
   * `handle` leaves the pin and the value at the state commanded, for a toggle at
   * the opposite of what the pin read before. A command during a blink is
   * confirmed at once. Any other text leaves the pin alone.
   */
  lemma CommandTakesEffect(c: Config, s: State, w: Word, now: nat)
    requires Matched(c) && s.pin.held.None?
    ensures var t := Run(c, s, [Command(w), Handle(now)]);
            var on := if w == Toggle then Read(s.pin) != c.highIsOn else w == Open || w == On;
            && !t.blink.active
            && (if Understood(c, w) then
                  && Read(t.pin) == t.pin.high == (if on then c.highIsOn else !c.highIsOn)
                  && t.value == (if c.valveWords then (if on then Open else Closed) else (if on then On else Off))
                  && (s.blink.active ==> Commanded(c, s, w).value == t.value)
                else t.pin == s.pin)
  {
    var acts := [Command(w), Handle(now)];
    assert acts[1..] == [Handle(now)] && acts[1..][1..] == [];
    hide Commanded, Handled;
    assert Run(c, s, acts) == Handled(c, Commanded(c, s, w), now) by {
      assert Run(c, Commanded(c, s, w), acts[1..]) == Run(c, Handled(c, Commanded(c, s, w), now), []);
    }
    CommandThenHandle(c, s, w, now);
  }

  lemma CommandThenHandle(c: Config, s: State, w: Word, now: nat)
    requires Matched(c) && s.pin.held.None?
    ensures var t := Handled(c, Commanded(c, s, w), now);
            var on := if w == Toggle then Read(s.pin) != c.highIsOn else w == Open || w == On;
            && !t.blink.active
            && (if Understood(c, w) then
                  && Read(t.pin) == t.pin.high == (if on then c.highIsOn else !c.highIsOn)
                  && t.value == (if c.valveWords then (if on then Open else Closed) else (if on then On else Off))
                  && (s.blink.active ==> Commanded(c, s, w).value == t.value)
                else t.pin == s.pin)
  {
    hide Persisted;
    var p := Sent(c, s.pin, w).0;
    var x := s.(pin := p, blink := s.blink.(active := false, intervalMs := 0));
    PersistedSaves(c, x.(value := Confirmed(c, p)), Confirmed(c, p));
    PersistedSaves(c, Synced(c, x), Synced(c, x).value);
    var y := Commanded(c, s, w);
    PersistedSaves(c, y.(value := Confirmed(c, y.pin)), Confirmed(c, y.pin));
  }

  lemma PersistedSaves(c: Config, s: State, w: Word)
    ensures var t := Persisted(c, s, w); t.pin == s.pin && t.value == s.value && t.blink == s.blink
  {}

  /**
   * While it blinks, each call at which the timer is due inverts the level read
   * from the pin and the value, and starts the next interval; no other call
   * touches the pin. Behind an interpreter the timer's commands are not
   * understood, and the pin never moves.
   */
  lemma DueInverts(c: Config, s: State, now: nat)
    requires Matched(c) && InStep(c, s)
    ensures var t := Handled(c, s, now);
            && InStep(c, t)
            && (if TimerDue(s.blink, now) then
                  && Read(t.pin) == (if c.interpreted then Read(s.pin) else !Read(s.pin))
                  && t.blink == Blink(true, s.blink.intervalMs, now % 0x1_0000_0000, false)
                else t.pin == s.pin && t.blink == s.blink)
            && t.value == (if Read(t.pin) == c.highIsOn then (if c.valveWords then Open else On) else (if c.valveWords then Closed else Off))
  {
    ConfirmedStable(c, s.pin);
  }

  /** Setting an interval starts a blink from this moment; setting none ends it. */
  lemma BlinkStartsAndEnds(c: Config, s: State, intervalMs: nat, now: nat)
    ensures var t := BlinkSet(c, s, intervalMs, now);
            && t.pin == s.pin && t.value == s.value && (t.blink.active <==> intervalMs > 0) && t.blink.intervalMs == intervalMs
            && (intervalMs > 0 ==> t.blink.lastToggleMs == now % 0x1_0000_0000 && t.saves == s.saves)
  {}

  // ------------------------------------------------------------ the objects

  class OutputHardwareAdapter {
    const c: Config
    var pinHigh: bool         // the level last written to the pin
    var pinState: bool
    var held: Option<bool>    // the level the outside world forces on the pin

    ghost function View(): Pin
      reads this
    {
      Pin(pinHigh, pinState, held)
    }

    constructor (c: Config, held: Option<bool>)
      ensures this.c == c && pinState == Level(c, false) && this.held == held
    {
      this.c := c;
      this.held := held;
      pinHigh := false;
      pinState := if c.highIsOn then false else true;
    }

    function DigitalRead(): (level: bool)
      reads this
      ensures level == Read(View())
    {
      if held.Some? then held.value else pinHigh
    }

    method Setup()
      modifies `pinHigh
      ensures pinHigh == pinState
    {
      pinHigh := pinState;
    }

    method ApplyHardwareCommand(command: Word) returns (accepted: bool)
      modifies this
      ensures (View(), accepted) == HardwareApplied(c, old(View()), command)
      ensures accepted <==> command == On || command == Off || command == Toggle
      ensures accepted ==> pinState == pinHigh == if command == Toggle then !old(DigitalRead()) else (command == On <==> c.highIsOn)
      ensures !accepted ==> View() == old(View())
    {
      if command == On {
        pinState := if c.highIsOn then true else false;
      } else if command == Off {
        pinState := if c.highIsOn then false else true;
      } else if command == Toggle {
        pinState := !DigitalRead();
      } else {
        return false;
      }
      pinHigh := pinState;
      return true;
    }

    method ApplyText(command: Word) returns (accepted: bool)
      modifies this
      ensures (View(), accepted) == TextApplied(c, old(View()), command)
      ensures accepted <==> command == On || command == Off || command == Toggle
      ensures accepted ==> pinHigh == if command == Toggle then !old(DigitalRead()) else (command == On <==> c.highIsOn)
      ensures pinState == if command == Toggle then DigitalRead() else old(pinState)
      ensures !accepted ==> View() == old(View())
    {
      if command == On {
        pinHigh := if c.highIsOn then true else false;
      } else if command == Off {
        pinHigh := if c.highIsOn then false else true;
      } else if command == Toggle {
        pinHigh := !DigitalRead();
        pinState := DigitalRead();
      } else {
        return false;
      }
      return true;
    }

    function GetStateValue(): (w: Word)
      reads this
      ensures w == StateValue(c, View())
    {
      if DigitalRead() == (if c.highIsOn then true else false) then On else Off
    }
  }

  class BinaryCapability {
    const c: Config
    const adapter: OutputHardwareAdapter
    var value: Word
    var hasStableRequest: bool
    var lastStableIsOn: bool
    var transientCycle: bool
    var blinking: bool
    var blinkInterval: nat
    var lastToggleTs: nat
    var saves: seq<bool>      // the calls of requestSave

    ghost predicate Valid() {
      adapter.c == c
    }

    ghost function View(): State
      reads this, adapter
    {
      State(adapter.View(), value, if hasStableRequest then Some(lastStableIsOn) else None,
            Blink(blinking, blinkInterval, lastToggleTs, transientCycle), saves)
    }

    constructor (c: Config, adapter: OutputHardwareAdapter)
      requires adapter.c == c
      ensures Valid() && this.c == c && this.adapter == adapter
      ensures View() == State(adapter.View(), OffWord(c), None, STILL, [])
    {
      this.c, this.adapter := c, adapter;
      value := OffWord(c);
      hasStableRequest, lastStableIsOn, transientCycle := false, false, false;
      blinking, blinkInterval, lastToggleTs := false, 0, 0;
      saves := [];
    }

    function ReadConfirmedState(): (w: Word)
      requires Valid()
      reads this, adapter
      ensures w == Confirmed(c, adapter.View())
    {
      if c.interpreted then InterpretState(adapter.GetStateValue()) else adapter.GetStateValue()
    }

    method SendCommand(command: Word) returns (accepted: bool)
      requires Valid()
      modifies adapter
      ensures (adapter.View(), accepted) == Sent(c, old(adapter.View()), command)
    {
      if c.interpreted {
        accepted := adapter.ApplyHardwareCommand(InterpretCommand(command));
      } else {
        accepted := adapter.ApplyText(command);
      }
    }

    method SeedStableBaseline(confirmed: Word)
      requires Valid() && value == confirmed
      modifies `hasStableRequest, `lastStableIsOn
      ensures View() == Seeded(c, old(View()), confirmed)
    {
      if confirmed != OnWord(c) && confirmed != OffWord(c) {
        return;
      }
      hasStableRequest := true;
      lastStableIsOn := confirmed == OnWord(c);
    }

    method RequestPersistIfStable(confirmed: Word)
      requires Valid()
      modifies `hasStableRequest, `lastStableIsOn, `saves
      ensures View() == Persisted(c, old(View()), confirmed)
    {
      if confirmed != OnWord(c) && confirmed != OffWord(c) {
        return;
      }
      if transientCycle {
        return;
      }
      var newIsOn := confirmed == OnWord(c);
      if hasStableRequest && lastStableIsOn == newIsOn {
        return;
      }
      hasStableRequest := true;
      lastStableIsOn := newIsOn;
      if !c.storage {
        return;
      }
      saves := saves + [newIsOn];
    }

    method SyncFromHardware()
      requires Valid()
      modifies `value, `hasStableRequest, `lastStableIsOn, `saves
      ensures View() == Synced(c, old(View()))
    {
      var hwState := ReadConfirmedState();
      if hwState != value {
        value := hwState;
        RequestPersistIfStable(hwState);
      }
    }

    /** `stored` is what the store's cache holds for this capability. */
    method Setup(stored: Option<bool>)
      requires Valid()
      modifies this, adapter
      ensures View() == SetUp(c, old(View()), stored)
    {
      adapter.Setup();
      if c.storage && stored.Some? {
        var target := if stored.value then OnWord(c) else OffWord(c);
        var accepted := SendCommand(target);
        if accepted {
          var confirmed := ReadConfirmedState();
          if confirmed == target {
            value := confirmed;
            SeedStableBaseline(confirmed);
            return;
          }
        }
      }
      var current := ReadConfirmedState();
      value := current;
      SeedStableBaseline(current);
    }

    method Handle(now: nat)
      requires Valid() && !transientCycle
      modifies this, adapter
      ensures View() == Handled(c, old(View()), now)
    {
      var cycle := false;
      if blinking && blinkInterval != 0 {
        if Since(now, lastToggleTs) >= blinkInterval {
          lastToggleTs := now % U32;
          cycle := true;
          transientCycle := true;
          if value == OnWord(c) {
            var _ := SendCommand(Off);
          } else {
            var _ := SendCommand(On);
          }
        }
      }
      SyncFromHardware();
      if cycle {
        transientCycle := false;
      }
    }

    method ApplyCommand(command: Word)
      requires Valid()
      modifies this, adapter
      ensures View() == Commanded(c, old(View()), command)
    {
      var replacesBlink := blinking;
      if replacesBlink {
        blinking := false;
        blinkInterval := 0;
      }
      var _ := SendCommand(command);
      if replacesBlink {
        SyncFromHardware();
        RequestPersistIfStable(value);
      }
    }

    method SetBlink(intervalMs: nat, now: nat)
      requires Valid()
      modifies this
      ensures View() == BlinkSet(c, old(View()), intervalMs, now)
    {
      if intervalMs == 0 {
        var wasBlinking := blinking;
        blinking := false;
        blinkInterval := 0;
        if wasBlinking {
          RequestPersistIfStable(value);
        }
        return;
      }
      blinkInterval := intervalMs;
      blinking := true;
      lastToggleTs := now % U32;
    }
  }
}
