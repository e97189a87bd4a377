/**
 * The hand-off of a fetched settings update from the fetch task to the
 * transport task: a sequence counter around a word-by-word copy, and a flag.
 *
 * The two tasks are interleaved one shared access at a time, under sequential
 * consistency. `setPendingUpdate` is WLoad, WBegin, WWord*, WEnd, WSetFlag; the
 * retry loop of `handle` is RPoll, RLoad1, RWord*, RLoad2, RClear, RApply. An
 * action that is not enabled leaves the state alone, so every list of actions
 * is an interleaving.
 */
module Seqlock {

  const MODULUS: nat := 0x1_0000_0000   // the counter is a uint32
  const HALF: nat := 0x8000_0000

  /** A settings update, as the words of the struct. */
  type Update = seq<int>

  datatype Writer =
    | WIdle
    | WLoaded(seen: nat, v: Update)
    | WCopy(seen: nat, v: Update, i: nat)
    | WFlag

  datatype Reader =
    | RIdle
    | RTry
    | RCopy(seq1: nat, local: Update, start: nat)   // `start`: accesses to the counter before seq1 was read
    | RGot(snapshot: Update)
    | RHave(snapshot: Update)

  datatype State = State(
    // shared memory
    seqNo: nat, words: Update, hasPending: bool,
    // the two tasks
    w: Writer, r: Reader,
    // history
    count: nat,                // stores to the counter so far, without wrap-around
    written: seq<Update>,      // initial contents, then every update begun
    applied: seq<Update>,      // every snapshot applied
    accepted: nat,             // index in `written` of the last update complete when a snapshot was accepted
    worst: nat,                // most updates completed within one accepted attempt
    flagged: nat,              // index of the last update whose flag was raised
    overtaken: bool)           // that flag went up between an acceptance of an older update and the reader's clear

  datatype Action =
    | WLoad(v: Update) | WBegin | WWord | WEnd | WSetFlag
    | RPoll | RLoad1 | RWord | RLoad2 | RClear | RApply

  function Init(first: Update): State {
    State(0, first, false, WIdle, RIdle, 0, [first], [], 0, 0, 0, false)
  }

  function Step(s: State, a: Action): State {
    if a.RPoll? || a.RLoad1? || a.RWord? || a.RLoad2? || a.RClear? || a.RApply? then ReaderStep(s, a) else WriterStep(s, a)
  }

  function WriterStep(s: State, a: Action): State {
    match a
    case WLoad(v) =>
      if s.w.WIdle? && |v| == |s.words| then s.(w := WLoaded(s.seqNo, v)) else s
    case WBegin =>
      if s.w.WLoaded? then
        s.(seqNo := (s.w.seen + 1) % MODULUS, count := s.count + 1, written := s.written + [s.w.v], w := WCopy(s.w.seen, s.w.v, 0))
      else s
    case WWord =>
      if s.w.WCopy? && s.w.i < |s.words| && s.w.i < |s.w.v| then
        s.(words := s.words[s.w.i := s.w.v[s.w.i]], w := s.w.(i := s.w.i + 1))
      else s
    case WEnd =>
      if s.w.WCopy? && s.w.i == |s.words| then
        s.(seqNo := (s.w.seen + 2) % MODULUS, count := s.count + 1, w := WFlag)
      else s
    case WSetFlag =>
      if s.w.WFlag? && s.written != [] then
        s.(hasPending := true, flagged := |s.written| - 1, w := WIdle,
           overtaken := s.r.RGot? && s.accepted < |s.written| - 1)
      else s
    case _ => s
  }

  function ReaderStep(s: State, a: Action): State {
    match a
    case RPoll =>
      if s.r.RIdle? && s.hasPending then s.(r := RTry) else s
    case RLoad1 =>
      if s.r.RTry? && s.seqNo % 2 == 0 then s.(r := RCopy(s.seqNo, [], s.count)) else s
    case RWord =>
      if s.r.RCopy? && |s.r.local| < |s.words| then s.(r := s.r.(local := s.r.local + [s.words[|s.r.local|]])) else s
    case RLoad2 =>
      if s.r.RCopy? && |s.r.local| == |s.words| then
        if s.r.seq1 == s.seqNo && s.seqNo % 2 == 0 then
          var during := if s.count >= s.r.start then (s.count - s.r.start) / 2 else 0;
          s.(r := RGot(s.r.local), accepted := s.count / 2, worst := if during > s.worst then during else s.worst)
        else s.(r := RTry)
      else s
    case RClear =>
      if s.r.RGot? then s.(hasPending := false, r := RHave(s.r.snapshot)) else s
    case RApply =>
      if s.r.RHave? then s.(applied := s.applied + [s.r.snapshot], r := RIdle) else s
    case _ => s
  }

  function Run(s: State, acts: seq<Action>): State
    decreases |acts|
  {
    if acts == [] then s else Run(Step(s, acts[0]), acts[1..])
  }

  // ------------------------------------------------------- the invariant

  ghost predicate WriterInv(s: State) {
    && s.seqNo == s.count % MODULUS
    && |s.written| == (s.count + 1) / 2 + 1
    && (forall k :: 0 <= k < |s.written| ==> |s.written[k]| == |s.words|)
    && (s.w.WCopy? <==> s.count % 2 == 1)
    && (!s.w.WCopy? ==> s.words == s.written[|s.written| - 1])
    && (s.w.WLoaded? ==> s.w.seen == s.seqNo && |s.w.v| == |s.words|)
    && (s.w.WCopy? ==>
          && s.w.seen == (s.count - 1) % MODULUS
          && s.w.v == s.written[|s.written| - 1]
          && s.w.i <= |s.words| && s.words[..s.w.i] == s.w.v[..s.w.i])
  }

  /** Until the counter moves, what has been copied is a prefix of one update. */
  ghost predicate CopyInv(s: State) {
    s.r.RCopy? ==>
      && s.r.start % 2 == 0 && s.r.start <= s.count && s.r.seq1 == s.r.start % MODULUS
      && |s.r.local| <= |s.words|
      && (s.count == s.r.start ==> s.r.local == s.words[..|s.r.local|])
  }

  /** Short of 2^31 updates inside one attempt, every snapshot is one complete update. */
  ghost predicate SnapshotInv(s: State) {
    && s.accepted < |s.written|
    && (s.worst < HALF ==>
          && (s.r.RGot? || s.r.RHave? ==> s.r.snapshot == s.written[s.accepted])
          && (forall k :: 0 <= k < |s.applied| ==> s.applied[k] in s.written)
          && (!s.r.RGot? && !s.r.RHave? && s.applied != [] ==> s.applied[|s.applied| - 1] == s.written[s.accepted]))
    && (!s.r.RGot? && !s.r.RHave? && s.applied == [] ==> s.accepted == 0)
  }

  /** The flag is down over an unseen update exactly when the reader's clear wiped out its flag. */
  ghost predicate FlagInv(s: State) {
    && s.flagged + (if s.w.WCopy? || s.w.WFlag? then 2 else 1) == |s.written|
    && (s.r.RTry? || s.r.RCopy? || s.r.RGot? ==> s.hasPending)
    && (s.overtaken ==> s.accepted < s.flagged && (s.r.RGot? || (!s.hasPending && (s.r.RHave? || s.r.RIdle?))))
    && (s.accepted < s.flagged && !s.overtaken ==> s.hasPending && !s.r.RGot?)
  }

  ghost predicate Inv(s: State) {
    WriterInv(s) && CopyInv(s) && SnapshotInv(s) && FlagInv(s)
  }

  lemma InitInv(first: Update)
    ensures Inv(Init(first))
  {}

  lemma WrapNext(c: nat, k: nat)
    ensures (c % MODULUS + k) % MODULUS == (c + k) % MODULUS
  {}

  lemma BeginKeepsInv(s: State)
    requires WriterInv(s)
    ensures WriterInv(WriterStep(s, WBegin))
  {
    WrapNext(s.count, 1);
  }

  lemma WordKeepsInv(s: State)
    requires WriterInv(s)
    ensures WriterInv(WriterStep(s, WWord))
  {
    var t := WriterStep(s, WWord);
    if t != s {
      assert t.words[..t.w.i] == s.words[..s.w.i] + [s.w.v[s.w.i]];
    }
  }

  lemma EndKeepsInv(s: State)
    requires WriterInv(s)
    ensures WriterInv(WriterStep(s, WEnd))
  {
    if s.w.WCopy? && s.w.i == |s.words| {
      WrapNext(s.count - 1, 2);
      assert s.words == s.words[..s.w.i] && s.w.v == s.w.v[..s.w.i];
    }
  }

  lemma WriterKeepsWriterInv(s: State, a: Action)
    requires WriterInv(s)
    ensures WriterInv(WriterStep(s, a))
  {
    match a
    case WBegin => BeginKeepsInv(s);
    case WWord => WordKeepsInv(s);
    case WEnd => EndKeepsInv(s);
    case _ =>
  }

  lemma WriterKeepsReader(s: State, a: Action)
    requires Inv(s)
    ensures CopyInv(WriterStep(s, a)) && SnapshotInv(WriterStep(s, a))
  {}

  lemma WriterKeepsFlag(s: State, a: Action)
    requires WriterInv(s) && SnapshotInv(s) && FlagInv(s)
    ensures FlagInv(WriterStep(s, a))
  {}

  lemma ReaderKeepsCopy(s: State, a: Action)
    requires WriterInv(s) && CopyInv(s)
    ensures WriterInv(ReaderStep(s, a)) && CopyInv(ReaderStep(s, a))
  {}

  /** Equal counter values fewer than 2^32 stores apart are the same store. */
  lemma ReaderKeepsSnapshot(s: State, a: Action)
    requires Inv(s)
    ensures SnapshotInv(ReaderStep(s, a))
  {
    var t := ReaderStep(s, a);
    if a.RLoad2? && t != s && t.r.RGot? {
      assert s.seqNo % 2 == s.count % 2;
      if t.worst < HALF {
        SameStore(s.r.start, s.count);
        assert s.words[..|s.words|] == s.words;
      }
    }
  }

  lemma SameStore(start: nat, now: nat)
    requires start <= now && start % MODULUS == now % MODULUS && (now - start) / 2 < HALF
    ensures start == now
  {}

  lemma ReaderKeepsFlag(s: State, a: Action)
    requires WriterInv(s) && SnapshotInv(s) && FlagInv(s)
    ensures FlagInv(ReaderStep(s, a))
  {
    if a.RLoad2? && s.seqNo % 2 == 0 {
      assert s.seqNo % 2 == s.count % 2;
    }
  }

  lemma StepInv(s: State, a: Action)
    requires Inv(s)
    ensures Inv(Step(s, a))
  {
    hide WriterInv, CopyInv, SnapshotInv, FlagInv, WriterStep, ReaderStep;
    WriterKeepsWriterInv(s, a);
    WriterKeepsReader(s, a);
    WriterKeepsFlag(s, a);
    ReaderKeepsCopy(s, a);
    ReaderKeepsSnapshot(s, a);
    ReaderKeepsFlag(s, a);
  }

  lemma {:induction false} RunInv(s: State, acts: seq<Action>)
    requires Inv(s)
    ensures Inv(Run(s, acts))
    decreases |acts|
  {
    hide Inv, Step;
    if acts != [] {
      StepInv(s, acts[0]);
      RunInv(Step(s, acts[0]), acts[1..]);
    }
  }

  // ------------------------------------------------------ what is guaranteed

  /** Every snapshot handed to `applyPendingUpdate` is one update written by one call. */
  ghost predicate Untorn(s: State) {
    forall k :: 0 <= k < |s.applied| ==> s.applied[k] in s.written
  }

  /** No interleaving in which at most `b` updates complete inside one accepted attempt tears a snapshot. */
  ghost predicate SafeUpTo(b: nat, width: nat) {
    forall first: Update, acts: seq<Action> ::
      |first| == width && Run(Init(first), acts).worst <= b ==> Untorn(Run(Init(first), acts))
  }

  /** The copy is safe exactly as long as the 32-bit counter cannot come round within one attempt. */
  lemma SeqlockSafety(b: nat, width: nat)
    requires width >= 2
    ensures SafeUpTo(b, width) <==> b < 0x8000_0000
  {
    if b < HALF {
      forall first: Update, acts: seq<Action> | |first| == width && Run(Init(first), acts).worst <= b
        ensures Untorn(Run(Init(first), acts))
      {
        InitInv(first);
        RunInv(Init(first), acts);
      }
    } else {
      var first, acts := TornRun(width);
      assert !Untorn(Run(Init(first), acts));
    }
  }

  /** Quiescent: the writer is between calls and `handle` would find nothing pending. */
  predicate Quiescent(s: State) {
    (s.w.WIdle? || s.w.WLoaded?) && s.r.RIdle? && !s.hasPending
  }

  /**
   * At rest the last update is the one in force, unless the reader's clear wiped
   * out its flag: exactly when that flag went up after an older update had been
   * accepted and before the flag was cleared.
   */
  lemma LastUpdateApplied(first: Update, acts: seq<Action>)
    ensures var s := Run(Init(first), acts);
            Quiescent(s) ==>
              && (s.accepted == |s.written| - 1 <==> !s.overtaken)
              && (!s.overtaken && s.worst < 0x8000_0000 && |s.written| > 1 ==>
                    s.applied != [] && s.applied[|s.applied| - 1] == s.written[|s.written| - 1])
  {
    InitInv(first);
    RunInv(Init(first), acts);
  }

  // -------------------------------------------------- the interleavings that fail

  lemma {:induction false} RunConcat(s: State, p: seq<Action>, q: seq<Action>)
    ensures Run(s, p + q) == Run(Run(s, p), q)
    decreases |p|
  {
    hide Step;
    if p == [] {
      assert p + q == q;
    } else {
      assert (p + q)[1..] == p[1..] + q;
      RunConcat(Step(s, p[0]), p[1..], q);
    }
  }

  function Repeat<T>(a: T, n: nat): seq<T> {
    if n == 0 then [] else [a] + Repeat(a, n - 1)
  }

  /** One undisturbed call of `setPendingUpdate(v)`. */
  function Call(v: Update): seq<Action> {
    [WLoad(v), WBegin] + Repeat(WWord, |v|) + [WEnd, WSetFlag]
  }

  lemma {:induction false} CopyRun(s: State, n: nat)
    requires s.w.WCopy? && |s.w.v| == |s.words| && s.w.i + n == |s.words|
    requires s.words[..s.w.i] == s.w.v[..s.w.i]
    ensures Run(s, Repeat(WWord, n)) == s.(words := s.w.v, w := s.w.(i := |s.words|))
    decreases n
  {
    if n == 0 {
      assert s.words[..s.w.i] == s.words && s.w.v[..s.w.i] == s.w.v;
    } else {
      var t := Step(s, WWord);
      assert t.words[..t.w.i] == s.words[..s.w.i] + [s.w.v[s.w.i]];
      CopyRun(t, n - 1);
      assert Repeat(WWord, n)[1..] == Repeat(WWord, n - 1);
    }
  }

  lemma RunNil(s: State)
    ensures Run(s, []) == s
  {}

  lemma RunCons(s: State, a: Action, rest: seq<Action>)
    ensures Run(s, [a] + rest) == Run(Step(s, a), rest)
  {
    hide Step;
    assert ([a] + rest)[1..] == rest;
  }

  lemma Run2(s: State, a: Action, b: Action)
    ensures Run(s, [a, b]) == Step(Step(s, a), b)
  {
    hide Step, Run;
    assert [a, b] == [a] + ([b] + []);
    RunCons(s, a, [b] + []);
    RunCons(Step(s, a), b, []);
    RunNil(Step(Step(s, a), b));
  }

  lemma Run3(s: State, a: Action, b: Action, c: Action)
    ensures Run(s, [a, b, c]) == Step(Step(Step(s, a), b), c)
  {
    hide Step, Run;
    assert [a, b, c] == [a] + [b, c];
    RunCons(s, a, [b, c]);
    Run2(Step(s, a), b, c);
  }

  lemma SomethingWritten(s: State)
    requires WriterInv(s)
    ensures s.written != []
  {}

  lemma CallRun(s: State, v: Update)
    requires Inv(s) && s.w.WIdle? && |v| == |s.words|
    ensures Run(s, Call(v)) ==
            s.(seqNo := (s.seqNo + 2) % MODULUS, words := v, hasPending := true, count := s.count + 2,
               written := s.written + [v], flagged := |s.written|,
               overtaken := s.r.RGot? && s.accepted < |s.written|)
  {
    hide Run, Repeat, WriterInv, CopyInv, SnapshotInv, FlagInv;
    SomethingWritten(s);
    var a, b, c: seq<Action> := [WLoad(v), WBegin], Repeat(WWord, |v|), [WEnd, WSetFlag];
    Run2(s, WLoad(v), WBegin);
    var s1 := Step(Step(s, WLoad(v)), WBegin);
    assert s1.words[..0] == v[..0];
    CopyRun(s1, |v|);
    var s2 := s1.(words := v, w := s1.w.(i := |v|));
    RunConcat(s, a + b, c);
    RunConcat(s, a, b);
    Run2(s2, WEnd, WSetFlag);
  }

  function Calls(v: Update, n: nat): seq<Action> {
    if n == 0 then [] else Calls(v, n - 1) + Call(v)
  }

  /** `n` undisturbed calls move the counter by 2n, modulo 2^32, and nothing the reader holds. */
  lemma {:induction false} CallsRun(s: State, v: Update, n: nat)
    requires Inv(s) && s.w.WIdle? && |v| == |s.words| && n > 0
    ensures var t := Run(s, Calls(v, n));
            && Inv(t) && t.w.WIdle? && t.r == s.r && t.applied == s.applied && t.worst == s.worst
            && t.words == v && t.count == s.count + 2 * n && t.seqNo == (s.count + 2 * n) % MODULUS
            && (forall k :: 0 <= k < |t.written| ==> t.written[k] == v || t.written[k] in s.written)
  {
    hide Call, WriterInv, CopyInv, SnapshotInv, FlagInv;
    RunConcat(s, Calls(v, n - 1), Call(v));
    var m := s;
    if n > 1 {
      CallsRun(s, v, n - 1);
      m := Run(s, Calls(v, n - 1));
    } else {
      assert Calls(v, 0) == [] && Run(s, []) == s;
    }
    CallRun(m, v);
    RunInv(m, Call(v));
    CounterValue(Run(m, Call(v)));
  }

  lemma CounterValue(s: State)
    requires Inv(s)
    ensures s.seqNo == s.count % MODULUS
  {}

  lemma {:induction false} ReadRun(s: State, n: nat)
    requires s.r.RCopy? && |s.r.local| + n == |s.words|
    ensures Run(s, Repeat(RWord, n)) == s.(r := s.r.(local := s.r.local + s.words[|s.r.local|..]))
    decreases n
  {
    if n == 0 {
      assert s.r.local + s.words[|s.r.local|..] == s.r.local;
    } else {
      var t := Step(s, RWord);
      assert t.r.local + s.words[|t.r.local|..] == s.r.local + s.words[|s.r.local|..];
      ReadRun(t, n - 1);
      assert Repeat(RWord, n)[1..] == Repeat(RWord, n - 1);
    }
  }

  function Const(x: int, n: nat): (v: Update)
    ensures |v| == n && forall i :: 0 <= i < n ==> v[i] == x
  {
    seq(n, _ => x)
  }

  /** After one call and the reader's first load and first word. */
  lemma HeldUp(first: Update)
    requires first != []
    ensures var s := Run(Run(Init(first), Call(first)), [RPoll, RLoad1, RWord]);
            && Inv(s) && s.w == WIdle && s.r == RCopy(2, [first[0]], 2) && s.count == 2 && s.words == first
            && s.written == [first, first] && s.applied == [] && s.worst == 0
  {
    hide Call, WriterInv, CopyInv, SnapshotInv, FlagInv, Run;
    var s0 := Init(first);
    InitInv(first);
    CallRun(s0, first);
    RunInv(s0, Call(first));
    var s1 := Run(s0, Call(first));
    Run3(s1, RPoll, RLoad1, RWord);
    RunInv(s1, [RPoll, RLoad1, RWord]);
  }

  /** The attempt resumes over a full turn of the counter and is accepted. */
  lemma ResumedAfterWrap(s: State, ones: Update)
    requires Inv(s) && s.w == WIdle && s.r.RCopy? && s.r.seq1 == s.r.start == s.count == 2 && |s.r.local| == 1
    requires s.applied == [] && s.worst == 0 && |ones| == |s.words|
    ensures var acts := Calls(ones, HALF) + Repeat(RWord, |ones| - 1) + [RLoad2, RClear, RApply];
            var t := Run(s, acts);
            && t.worst == HALF && t.applied == [s.r.local + ones[1..]]
            && forall k :: 0 <= k < |t.written| ==> t.written[k] == ones || t.written[k] in s.written
  {
    hide Call, Calls, WriterInv, SnapshotInv, FlagInv, Run, Repeat;
    var n := |ones|;
    var c, d, e: seq<Action> := Calls(ones, HALF), Repeat(RWord, n - 1), [RLoad2, RClear, RApply];
    CallsRun(s, ones, HALF);
    var s3 := Run(s, c);
    ReadRun(s3, n - 1);
    var s4 := Run(s3, d);
    Run3(s4, RLoad2, RClear, RApply);
    RunConcat(s, c + d, e);
    RunConcat(s, c, d);
  }

  /** The reader is held up after its first word while exactly 2^31 updates complete. */
  lemma TornRun(width: nat) returns (first: Update, acts: seq<Action>)
    requires width >= 2
    ensures |first| == width && Run(Init(first), acts).worst == HALF
    ensures !Untorn(Run(Init(first), acts))
  {
    hide Call, Calls, Inv, Run, Repeat;
    first := Const(0, width);
    var ones := Const(1, width);
    var s0 := Init(first);
    var b: seq<Action> := [RPoll, RLoad1, RWord];
    var rest := Calls(ones, HALF) + Repeat(RWord, width - 1) + [RLoad2, RClear, RApply];
    acts := Call(first) + b + rest;
    HeldUp(first);
    var s2 := Run(Run(s0, Call(first)), b);
    ResumedAfterWrap(s2, ones);
    RunConcat(s0, Call(first) + b, rest);
    RunConcat(s0, Call(first), b);
    var t := Run(s0, acts);
    var torn := [first[0]] + ones[1..];
    assert t.applied[0] == torn;
    assert torn[0] == 0 && torn[1] == 1 && first[1] == 0 && ones[0] == 1;
    assert t.applied[0] !in t.written;
  }

  /** A full attempt up to acceptance. */
  function Attempt(width: nat): seq<Action> {
    [RPoll, RLoad1] + Repeat(RWord, width) + [RLoad2, RLoad1]
  }

  lemma UndisturbedAttempt(s: State)
    requires s.r == RIdle && s.hasPending && s.seqNo % 2 == 0
    ensures Run(s, Attempt(|s.words|)) == s.(r := RGot(s.words), accepted := s.count / 2)
  {
    hide Run, Repeat, WriterStep;
    var a, b, c: seq<Action> := [RPoll, RLoad1], Repeat(RWord, |s.words|), [RLoad2, RLoad1];
    Run2(s, RPoll, RLoad1);
    var s1 := s.(r := RCopy(s.seqNo, [], s.count));
    ReadRun(s1, |s.words|);
    assert [] + s.words[0..] == s.words;
    var s2 := s.(r := RCopy(s.seqNo, s.words, s.count));
    Run2(s2, RLoad2, RLoad1);
    RunConcat(s, a + b, c);
    RunConcat(s, a, b);
  }

  /** An update whose flag goes up between an acceptance and the clear is never applied by later polling. */
  lemma UpdateLost(v1: Update, v2: Update) returns (acts: seq<Action>)
    requires |v1| == |v2|
    ensures var s := Run(Init(v1), acts);
            && Quiescent(s) && s.overtaken && s.worst == 0
            && s.written == [v1, v1, v2] && s.applied == [v1]
            && forall a: Action :: ReaderStep(s, a) == s
  {
    hide Call, Attempt, WriterInv, CopyInv, SnapshotInv, FlagInv, Run;
    var s0 := Init(v1);
    var a, b, c, d: seq<Action> := Call(v1), Attempt(|v1|), Call(v2), [RClear, RApply];
    acts := a + b + c + d;
    InitInv(v1);
    CallRun(s0, v1);
    RunInv(s0, a);
    var s1 := Run(s0, a);
    UndisturbedAttempt(s1);
    RunInv(s1, b);
    var s2 := Run(s1, b);
    CallRun(s2, v2);
    Run2(Run(s2, c), RClear, RApply);
    RunConcat(s0, a + b + c, d);
    RunConcat(s0, a + b, c);
    RunConcat(s0, a, b);
  }
}
