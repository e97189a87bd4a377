/**
 * The readiness gate: a level that only rises, eight subscription slots, and
 * callbacks that may call the gate again while they run.
 *
 * `SettingsGateImpl` holds the slots and performs the two synchronous pieces
 * (collecting what has become ready, and registering). `Step` puts them under
 * arbitrary callback bodies: a stack of unfinished `setLevel` loops, of which
 * only the innermost can advance.
 */
module SettingsGate {
  import opened Bytes

  /** None = 0, Available = 1, Synced = 2, Syncing = 3; compared by number. */
  type Level = n: nat | n <= 3
  const NONE: Level := 0
  const AVAILABLE: Level := 1
  const SYNCED: Level := 2
  const SYNCING: Level := 3

  const MAX_SUBS: nat := 8

  datatype Result = Ok | InvalidArg | NoMem

  /** A callback, told apart by the order in which requests were accepted. */
  type Id = nat

  datatype Slot = Free | Used(want: Level, cb: Id)

  function Max(a: Level, b: Level): Level {
    if b > a then b else a
  }

  // --------------------------------------------------------- slot arithmetic

  /** Callbacks waiting for at most `level`, in slot order. */
  function Ready(slots: seq<Slot>, level: Level): seq<Id> {
    if slots == [] then []
    else
      var s := slots[|slots| - 1];
      Ready(slots[..|slots| - 1], level) + (if s.Used? && s.want <= level then [s.cb] else [])
  }

  /** The slots once those callbacks have been taken out. */
  function Cleared(slots: seq<Slot>, level: Level): (r: seq<Slot>)
    ensures |r| == |slots|
    ensures forall i :: 0 <= i < |slots| ==>
              r[i] == if slots[i].Used? && slots[i].want <= level then Free else slots[i]
  {
    seq(|slots|, i requires 0 <= i < |slots| =>
      if slots[i].Used? && slots[i].want <= level then Free else slots[i])
  }

  /** First unused slot, or the number of slots. */
  function FirstFree(slots: seq<Slot>): (i: nat)
    ensures i <= |slots|
    ensures i < |slots| ==> slots[i] == Free
    ensures forall j :: 0 <= j < i ==> slots[j].Used?
  {
    if slots == [] || slots[0] == Free then 0
    else
      var r := FirstFree(slots[1..]);
      assert forall j :: 1 <= j < r + 1 ==> slots[j] == slots[1..][j - 1];
      r + 1
  }

  function Ids(slots: seq<Slot>): multiset<Id> {
    if slots == [] then multiset{}
    else
      Ids(slots[..|slots| - 1]) + (if slots[|slots| - 1].Used? then multiset{slots[|slots| - 1].cb} else multiset{})
  }

  lemma {:induction false} CollectSplits(slots: seq<Slot>, level: Level)
    ensures multiset(Ready(slots, level)) + Ids(Cleared(slots, level)) == Ids(slots)
    decreases |slots|
  {
    if slots != [] {
      var p, c := slots[..|slots| - 1], Cleared(slots, level);
      assert c[..|c| - 1] == Cleared(p, level);
      CollectSplits(p, level);
    }
  }

  lemma {:induction false} IdsUpdate(slots: seq<Slot>, i: nat, s: Slot)
    requires i < |slots| && slots[i] == Free && s.Used?
    ensures Ids(slots[i := s]) == Ids(slots) + multiset{s.cb}
    decreases |slots|
  {
    var n := |slots| - 1;
    if i < n {
      assert slots[i := s][..n] == slots[..n][i := s];
      IdsUpdate(slots[..n], i, s);
    } else {
      assert slots[i := s][..n] == slots[..n];
    }
  }

  lemma {:induction false} IdIn(slots: seq<Slot>, cb: Id)
    ensures cb in Ids(slots) <==> exists i :: 0 <= i < |slots| && slots[i].Used? && slots[i].cb == cb
    decreases |slots|
  {
    if slots != [] {
      var n := |slots| - 1;
      IdIn(slots[..n], cb);
      assert slots == slots[..n] + [slots[n]];
    }
  }

  lemma {:induction false} ReadyIn(slots: seq<Slot>, level: Level, k: nat)
    requires k < |Ready(slots, level)|
    ensures exists i :: 0 <= i < |slots| && slots[i].Used? && slots[i].want <= level && slots[i].cb == Ready(slots, level)[k]
    decreases |slots|
  {
    var n := |slots| - 1;
    if k < |Ready(slots[..n], level)| {
      ReadyIn(slots[..n], level, k);
      var i :| 0 <= i < n && slots[..n][i].Used? && slots[..n][i].want <= level && slots[..n][i].cb == Ready(slots[..n], level)[k];
      assert slots[i] == slots[..n][i];
    }
  }

  // ------------------------------------------------------------- the object

  class SettingsGateImpl {
    var level: Level
    const subs: array<Slot>

    ghost predicate Valid()
      reads this
    {
      subs.Length == MAX_SUBS
    }

    constructor ()
      ensures Valid() && fresh(subs)
      ensures level == NONE && forall i :: 0 <= i < MAX_SUBS ==> subs[i] == Free
    {
      level := NONE;
      subs := new Slot[MAX_SUBS](_ => Free);
    }

    /** First phase of `setLevel`: raise the level, take out what is ready, in slot order. */
    method Collect(newLevel: Level) returns (toCall: seq<Id>)
      requires Valid()
      modifies this`level, subs
      ensures Valid() && level == Max(old(level), newLevel)
      ensures toCall == Ready(old(subs[..]), level)
      ensures subs[..] == Cleared(old(subs[..]), level)
    {
      toCall := [];
      if newLevel > level {
        level := newLevel;
      }
      for i := 0 to subs.Length
        invariant level == Max(old(level), newLevel)
        invariant toCall == Ready(old(subs[..])[..i], level)
        invariant forall j :: 0 <= j < i ==> subs[j] == Cleared(old(subs[..]), level)[j]
        invariant forall j :: i <= j < subs.Length ==> subs[j] == old(subs[j])
      {
        assert old(subs[..])[..i + 1][..i] == old(subs[..])[..i];
        if subs[i].Used? && subs[i].want <= level {
          toCall := toCall + [subs[i].cb];
          subs[i] := Free;
        }
      }
      assert old(subs[..])[..subs.Length] == old(subs[..]);
    }

    /** `runWhenReady` up to its return: `runNow` says that the callback was called on the spot. */
    method RunWhenReady(want: Level, cb: Option<Id>) returns (r: Result, runNow: bool)
      requires Valid()
      modifies subs
      ensures Valid()
      ensures r == (if cb.None? then InvalidArg
                    else if want <= level || FirstFree(old(subs[..])) < MAX_SUBS then Ok else NoMem)
      ensures runNow <==> cb.Some? && want <= level
      ensures subs[..] == if r == Ok && !runNow then old(subs[..])[FirstFree(old(subs[..])) := Used(want, cb.value)]
                          else old(subs[..])
    {
      if cb.None? {
        return InvalidArg, false;
      }
      if want <= level {
        return Ok, true;
      }
      for i := 0 to subs.Length
        invariant subs[..] == old(subs[..])
        invariant forall j :: 0 <= j < i ==> subs[j].Used?
      {
        if subs[i] == Free {
          assert FirstFree(old(subs[..])) == i by {
            assert forall j :: 0 <= j < MAX_SUBS ==> old(subs[..])[j] == subs[j];
          }
          subs[i] := Used(want, cb.value);
          return Ok, false;
        }
      }
      assert forall j :: 0 <= j < MAX_SUBS ==> old(subs[..])[j].Used?;
      return NoMem, false;
    }
  }

  // --------------------------------------------- re-entrant runs of the gate

  datatype Call = Call(cb: Id, level: Level)

  datatype State = State(
    level: Level,
    slots: seq<Slot>,
    frames: seq<seq<Id>>,    // unfinished setLevel loops, innermost last: what each has still to call
    wants: seq<Level>,       // by id: the level each accepted request asked for
    calls: seq<Call>)        // every callback invocation, with the level passed

  datatype Action =
    | SetLevel(newLevel: Level)
    | Request(want: Level)   // runWhenReady with a callback; null callbacks are refused and change nothing
    | Return                 // the running callback returns to the innermost loop

  function Init(): State {
    State(NONE, [Free, Free, Free, Free, Free, Free, Free, Free], [], [], [])
  }

  function Step(s: State, a: Action): State {
    match a
    case SetLevel(l) =>
      var level := Max(s.level, l);
      s.(level := level, slots := Cleared(s.slots, level), frames := s.frames + [Ready(s.slots, level)])
    case Request(want) =>
      var id, i := |s.wants|, FirstFree(s.slots);
      if want <= s.level then
        s.(wants := s.wants + [want], calls := s.calls + [Call(id, s.level)])
      else if i < |s.slots| then
        s.(wants := s.wants + [want], slots := s.slots[i := Used(want, id)])
      else s
    case Return =>
      if s.frames == [] then s
      else
        var top, below := s.frames[|s.frames| - 1], s.frames[..|s.frames| - 1];
        if top == [] then s.(frames := below)
        else s.(frames := below + [top[1..]], calls := s.calls + [Call(top[0], s.level)])
  }

  function Run(s: State, acts: seq<Action>): State
    decreases |acts|
  {
    if acts == [] then s else Run(Step(s, acts[0]), acts[1..])
  }

  // ------------------------------------------------------------ invariants

  function Called(calls: seq<Call>): multiset<Id> {
    if calls == [] then multiset{} else Called(calls[..|calls| - 1]) + multiset{calls[|calls| - 1].cb}
  }

  function Pending(frames: seq<seq<Id>>): multiset<Id> {
    if frames == [] then multiset{} else Pending(frames[..|frames| - 1]) + multiset(frames[|frames| - 1])
  }

  /** Each of the first `n` ids once. */
  function Upto(n: nat): (m: multiset<Id>)
    ensures forall i: Id :: m[i] == if i < n then 1 else 0
  {
    if n == 0 then multiset{} else Upto(n - 1) + multiset{n - 1}
  }

  /** Every accepted callback is in exactly one place: called, due, or registered. */
  ghost predicate Conserved(s: State) {
    Called(s.calls) + Pending(s.frames) + Ids(s.slots) == Upto(|s.wants|)
  }

  /** Registered callbacks want more than the level; due and called ones no more than it. */
  ghost predicate Timely(s: State) {
    && |s.slots| == MAX_SUBS
    && (forall i :: 0 <= i < |s.slots| && s.slots[i].Used? ==>
          s.slots[i].cb < |s.wants| && s.slots[i].want == s.wants[s.slots[i].cb] && s.slots[i].want > s.level)
    && (forall f, k :: 0 <= f < |s.frames| && 0 <= k < |s.frames[f]| ==>
          s.frames[f][k] < |s.wants| && s.wants[s.frames[f][k]] <= s.level)
    && (forall c :: 0 <= c < |s.calls| ==>
          s.calls[c].cb < |s.wants| && s.wants[s.calls[c].cb] <= s.calls[c].level <= s.level)
  }

  lemma InitInv()
    ensures Conserved(Init()) && Timely(Init())
  {
    var f: Slot := Free;
    var eight: seq<Slot> := [f, f, f, f, f, f, f, f];
    NoIds(eight);
  }

  lemma {:induction false} NoIds(slots: seq<Slot>)
    requires forall i :: 0 <= i < |slots| ==> slots[i] == Free
    ensures Ids(slots) == multiset{}
  {
    if slots != [] {
      NoIds(slots[..|slots| - 1]);
    }
  }

  lemma CalledGrows(calls: seq<Call>, c: Call)
    ensures Called(calls + [c]) == Called(calls) + multiset{c.cb}
  {
    assert (calls + [c])[..|calls|] == calls;
  }

  lemma PendingGrows(frames: seq<seq<Id>>, f: seq<Id>)
    ensures Pending(frames + [f]) == Pending(frames) + multiset(f)
  {
    assert (frames + [f])[..|frames|] == frames;
  }

  lemma SetLevelConserves(s: State, l: Level)
    requires Conserved(s)
    ensures Conserved(Step(s, SetLevel(l)))
  {
    hide Called, Pending, Ids, Ready;
    var level := Max(s.level, l);
    CollectSplits(s.slots, level);
    PendingGrows(s.frames, Ready(s.slots, level));
  }

  lemma RequestConserves(s: State, want: Level)
    requires Conserved(s)
    ensures Conserved(Step(s, Request(want)))
  {
    hide Called, Pending, Ids, FirstFree;
    var id, i := |s.wants|, FirstFree(s.slots);
    if want <= s.level {
      CalledGrows(s.calls, Call(id, s.level));
    } else if i < |s.slots| {
      IdsUpdate(s.slots, i, Used(want, id));
    }
  }

  lemma ReturnConserves(s: State)
    requires Conserved(s)
    ensures Conserved(Step(s, Return))
  {
    hide Called, Pending, Ids;
    if s.frames != [] {
      var top, below := s.frames[|s.frames| - 1], s.frames[..|s.frames| - 1];
      assert s.frames == below + [top];
      PendingGrows(below, top);
      if top == [] {
        assert multiset(top) == multiset{};
      } else {
        PendingGrows(below, top[1..]);
        CalledGrows(s.calls, Call(top[0], s.level));
        assert top == [top[0]] + top[1..];
      }
    }
  }

  lemma StepConserves(s: State, a: Action)
    requires Conserved(s)
    ensures Conserved(Step(s, a))
  {
    hide Conserved, Step;
    match a
    case SetLevel(l) => SetLevelConserves(s, l);
    case Request(want) => RequestConserves(s, want);
    case Return => ReturnConserves(s);
  }

  lemma StepTimely(s: State, a: Action)
    requires Timely(s)
    ensures Timely(Step(s, a))
  {
    var t := Step(s, a);
    match a
    case SetLevel(l) =>
      forall f, k | 0 <= f < |t.frames| && 0 <= k < |t.frames[f]|
        ensures t.frames[f][k] < |t.wants| && t.wants[t.frames[f][k]] <= t.level
      {
        if f == |s.frames| {
          ReadyIn(s.slots, t.level, k);
        } else {
          assert t.frames[f] == s.frames[f];
        }
      }
    case Request(want) =>
    case Return =>
      if s.frames != [] {
        var n := |s.frames| - 1;
        forall f, k | 0 <= f < |t.frames| && 0 <= k < |t.frames[f]|
          ensures t.frames[f][k] < |t.wants| && t.wants[t.frames[f][k]] <= t.level
        {
          if f == n {
            assert t.frames[n][k] == s.frames[n][k + 1];
          } else {
            assert t.frames[f] == s.frames[f];
          }
        }
      }
  }

  lemma {:induction false} RunInv(s: State, acts: seq<Action>)
    requires Conserved(s) && Timely(s)
    ensures Conserved(Run(s, acts)) && Timely(Run(s, acts)) && Run(s, acts).level >= s.level
    decreases |acts|
  {
    hide Conserved, Timely;
    if acts != [] {
      StepConserves(s, acts[0]);
      StepTimely(s, acts[0]);
      RunInv(Step(s, acts[0]), acts[1..]);
    }
  }

  // ---------------------------------------------------------- what follows

  /** How often a callback has been called. */
  function TimesCalled(s: State, cb: Id): nat {
    Called(s.calls)[cb]
  }

  /**
   * In every run, re-entrant or not: the level never falls; every call passes at
   * least the level asked for; no callback is called twice; and once control has
   * left the gate a callback has been called exactly if its level was reached.
   */
  lemma GateRuns(acts: seq<Action>, more: seq<Action>)
    ensures var s := Run(Init(), acts);
            && Run(s, more).level >= s.level
            && (forall i :: 0 <= i < |s.slots| && s.slots[i].Used? ==> s.slots[i].want > s.level)
            && (forall c :: 0 <= c < |s.calls| ==> s.calls[c].cb < |s.wants| && s.wants[s.calls[c].cb] <= s.calls[c].level)
            && (forall cb: Id :: TimesCalled(s, cb) <= 1)
            && (s.frames == [] ==>
                  forall cb: Id :: cb < |s.wants| ==> (TimesCalled(s, cb) == 1 <==> s.wants[cb] <= s.level))
  {
    hide Called, Run, Conserved;
    InitInv();
    RunInv(Init(), acts);
    var s := Run(Init(), acts);
    RunInv(s, more);
    forall cb: Id
      ensures TimesCalled(s, cb) <= 1
      ensures s.frames == [] && cb < |s.wants| ==> (TimesCalled(s, cb) == 1 <==> s.wants[cb] <= s.level)
    {
      CalledOnce(s, cb);
    }
  }

  lemma CalledOnce(s: State, cb: Id)
    requires Conserved(s) && Timely(s)
    ensures TimesCalled(s, cb) <= 1
    ensures s.frames == [] && cb < |s.wants| ==> (TimesCalled(s, cb) == 1 <==> s.wants[cb] <= s.level)
  {
    hide Called, Pending, Ids, Upto;
    assert (Called(s.calls) + Pending(s.frames) + Ids(s.slots))[cb] == Upto(|s.wants|)[cb];
    if s.frames == [] && cb < |s.wants| {
      NoFrames();
      IdIn(s.slots, cb);
      CalledIn(s.calls, cb);
    }
  }

  lemma NoFrames()
    ensures Pending([]) == multiset{}
  {}

  lemma {:induction false} CalledIn(calls: seq<Call>, cb: Id)
    ensures cb in Called(calls) <==> exists c :: 0 <= c < |calls| && calls[c].cb == cb
    decreases |calls|
  {
    if calls != [] {
      var n := |calls| - 1;
      CalledIn(calls[..n], cb);
      assert calls == calls[..n] + [calls[n]];
    }
  }

  /** A request is refused only when all eight slots wait for levels still to come. */
  lemma RefusedOnlyWhenFull(acts: seq<Action>, want: Level)
    ensures var s := Run(Init(), acts);
            Step(s, Request(want)) == s ==> want > s.level && forall i :: 0 <= i < MAX_SUBS ==> |s.slots| == MAX_SUBS && s.slots[i].Used?
  {
    InitInv();
    RunInv(Init(), acts);
    var s := Run(Init(), acts);
    if want <= s.level {
      assert |Step(s, Request(want)).wants| == |s.wants| + 1;
    } else if FirstFree(s.slots) < |s.slots| {
      assert |Step(s, Request(want)).wants| == |s.wants| + 1;
    }
  }
}
