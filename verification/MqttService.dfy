/**
 * The MQTT service: a four-state connection machine under two gates, its topic
 * list, its offline queue and its reconnect statistics.
 *
 * The functions on `View` say what one call does, given what the client, the
 * clock, the gates and the settings answer during it; `Service` is the object
 * and is proved to do exactly that. The laws are about every run.
 */
module MqttService {
  import opened Bytes
  import opened Backoff
  import opened MqttQueue

  const MAX_TOPICS: nat := 12
  const FALLBACK_THRESHOLD: nat := 3
  const CONNECT_TIMEOUT_MS: nat := 15000

  datatype State = Idle | Connecting | Online | BackoffWaiting
  datatype Reason = NoReason | NetworkGateClosed | ConnectTimeout | ConnectionLost | ClientInitFailed

  datatype Reconnects = Reconnects(disconnects: nat, reconnects: nat, timeouts: nat, lastOfflineMs: nat,
                                   maxOfflineMs: nat, lastBackoffMs: nat, lastAttempts: nat, reason: Reason)

  datatype Policy = Policy(retry: RetryPolicy, clearQueueOnReconnect: bool)

  datatype Profile = Primary | Secondary | Tertiary

  /** The broker part of the settings: the profile asked for, the valid ones, and those that name a host. */
  datatype Brokers = Brokers(requested: Profile, valid: set<Profile>, hosts: set<Profile>)

  /** Answers met during one call. `later` is the clock wherever the call reads it again. */
  datatype Env = Env(now: nat, later: nat, networkReady: bool, gateReady: bool, connected: bool, stillConnected: bool,
                     publishOk: bool, settings: Option<Brokers>, initOk: bool, networkStill: bool, jitter: nat, raised: bool)

  /** The connection machine proper. */
  datatype Link = Link(st: State, attempt: nat, next: nat, bit: bool, observed: bool)

  /** Since when the service has been offline (0: it is not), and what has been counted. */
  datatype Session = Session(since: nat, stats: Reconnects)

  datatype Setup = Setup(settingsReady: bool, begun: bool, initialized: bool, profile: Profile, fallback: bool,
                         topic: Option<string>, policy: Policy)

  /** The stored topics, and every topic passed to the client so far. */
  datatype Topics = Topics(stored: seq<string>, sent: seq<string>)

  datatype View = View(link: Link, off: Session, cfg: Setup, topics: Topics, queue: Fifo)

  // --------------------------------------------------------- specification

  const NO_STATS := Reconnects(0, 0, 0, 0, 0, 0, 0, NoReason)

  function Disconnected(o: Session, why: Reason, now: nat): Session {
    var s := o.stats.(reason := why);
    if o.since == 0 then Session(now, s.(disconnects := s.disconnects + 1)) else Session(o.since, s)
  }

  function Connected(o: Session, now: nat): Session {
    if o.since == 0 then o
    else
      var away := (now - o.since) % U32;
      Session(0, o.stats.(lastOfflineMs := away, reconnects := o.stats.reconnects + 1,
                          maxOfflineMs := if away > o.stats.maxOfflineMs then away else o.stats.maxOfflineMs))
  }

  function NextAttempt(attempt: nat): nat {
    (attempt + 1) % U32
  }

  function Delay(p: RetryPolicy, attempt: nat, jitter: nat): nat {
    (Doubled(p.initialBackoffMs, Min(attempt, p.maxFastRetries), p.maxBackoffMs) + jitter) % U32
  }

  /** A disconnection is noted and the next attempt scheduled. */
  function Failed(v: View, why: Reason, now: nat, later: nat, jitter: nat): View {
    RetryScheduled(v.(off := Disconnected(v.off, why, now)), later, jitter)
  }

  function RetryScheduled(v: View, now: nat, jitter: nat): View {
    var attempt := NextAttempt(v.link.attempt);
    var backoff := Delay(v.cfg.policy.retry, attempt, jitter);
    v.(link := Link(BackoffWaiting, attempt, (now + backoff) % U32, false, v.link.observed),
       off := v.off.(stats := v.off.stats.(lastBackoffMs := backoff, lastAttempts := attempt)))
  }

  /** The profile the settings ask for, or the primary one. */
  function Selected(b: Brokers): Profile {
    if b.requested != Primary && b.requested in b.valid then b.requested else Primary
  }

  /** The profile to connect to: from the fourth attempt on another valid one, in the order primary, secondary, tertiary. */
  function Target(b: Brokers, attempt: nat): Profile {
    var s := Selected(b);
    if attempt < FALLBACK_THRESHOLD then s
    else if s != Primary && Primary in b.valid then Primary
    else if s != Secondary && Secondary in b.valid then Secondary
    else if s != Tertiary && Tertiary in b.valid then Tertiary
    else s
  }

  function Added(t: Topics, topic: Option<string>, connected: bool): Topics {
    if topic.None? || topic.value == "" || topic.value in t.stored || |t.stored| >= MAX_TOPICS then t
    else Topics(t.stored + [topic.value], if connected then t.sent + [topic.value] else t.sent)
  }

  function GateReported(cfg: Setup, policy: Policy, topic: Option<string>, gateReady: bool): Setup {
    cfg.(begun := true, topic := topic, policy := policy, settingsReady := gateReady, fallback := false)
  }

  /** `begin` forgets everything but the topics. */
  function Begun(v: View, policy: Policy, topic: Option<string>, e: Env): View {
    View(Link(BackoffWaiting, 0, e.later, false, false), Session(e.later, NO_STATS),
         GateReported(v.cfg, policy, topic, e.gateReady), Added(v.topics, topic, e.connected), Reset(v.queue))
  }

  function Parked(v: View): View {
    v.(link := v.link.(st := Idle, next := 0))
  }

  function ConnectStarted(v: View, e: Env): View {
    if !v.cfg.settingsReady || e.settings.None? then Parked(v)
    else
      var b := e.settings.value;
      var target := Target(b, v.link.attempt);
      var w := v.(cfg := v.cfg.(profile := target, fallback := target != Selected(b)));
      if target !in b.hosts then Parked(w)
      else ClientStarted(if w.cfg.initialized then w else Begun(w, w.cfg.policy, w.cfg.topic, e), e)
  }

  function ClientStarted(v: View, e: Env): View {
    var now := Clock(v.cfg, e.later);
    if !e.initOk then Failed(v, ClientInitFailed, now, now, e.jitter)
    else
      var w := v.(cfg := v.cfg.(initialized := true));
      if !e.networkStill then w.(link := w.link.(st := BackoffWaiting, next := (now + 1000) % U32))
      else w.(link := w.link.(st := Connecting, next := (now + CONNECT_TIMEOUT_MS) % U32))
  }

  /** Before `begin` there is no clock and every reading is 0. */
  function Clock(cfg: Setup, t: nat): nat {
    if cfg.begun then t else 0
  }

  function QueueOnConnect(q: Fifo, policy: Policy): Fifo {
    if policy.clearQueueOnReconnect && q.queued != [] then Reset(q) else q
  }

  function WentOnline(v: View, now: nat, e: Env): View {
    View(v.link.(st := Online, attempt := 0, bit := true), Connected(v.off, now), v.cfg.(fallback := false),
         v.topics.(sent := v.topics.sent + v.topics.stored),
         Drained(QueueOnConnect(v.queue, v.cfg.policy), e.stillConnected, e.publishOk))
  }

  predicate TimedOut(next: nat, now: nat) {
    next != 0 && now >= next
  }

  function CountTimeout(o: Session): Session {
    o.(stats := o.stats.(timeouts := o.stats.timeouts + 1))
  }

  /** The state switch, reached when both gates are open. */
  function Switched(v: View, now: nat, e: Env): View {
    match v.link.st
    case Idle => v
    case Connecting =>
      if e.connected then WentOnline(v, now, e)
      else if TimedOut(v.link.next, now) then
        RetryScheduled(v.(off := CountTimeout(Disconnected(v.off, ConnectTimeout, now))), Clock(v.cfg, e.later), e.jitter)
      else v
    case BackoffWaiting => if now >= v.link.next then ConnectStarted(v, e) else v
    case Online =>
      if !e.connected then Failed(v, ConnectionLost, now, Clock(v.cfg, e.later), e.jitter)
      else v.(queue := Drained(v.queue, e.stillConnected, e.publishOk))
  }

  predicate Linked(v: View) {
    v.link.st.Connecting? || v.link.st.Online?
  }

  function GatesClosed(v: View, now: nat): View {
    v.(link := v.link.(bit := false, st := Idle, next := 0),
       off := if Linked(v) then Disconnected(v.off, NetworkGateClosed, now) else v.off)
  }

  function Steered(v: View, wasObserved: bool, now: nat, e: Env): View {
    if wasObserved && Linked(v) then Failed(v, ConnectionLost, now, Clock(v.cfg, e.later), e.jitter)
    else if !e.networkReady || !e.gateReady then GatesClosed(v, now)
    else if v.link.st.Idle? then Switched(v.(link := v.link.(st := BackoffWaiting, next := now)), now, e)
    else Switched(v, now, e)
  }

  function Handled(v: View, e: Env): View {
    var w := v.(cfg := v.cfg.(settingsReady := e.gateReady), link := v.link.(observed := false));
    var r := Steered(w, v.link.observed, Clock(v.cfg, e.now), e);
    r.(link := r.link.(observed := r.link.observed || e.raised))
  }

  function Stopped(v: View, now: nat, raised: bool): View {
    v.(link := v.link.(bit := false, st := Idle, next := 0, observed := raised),
       off := Disconnected(v.off, NetworkGateClosed, Clock(v.cfg, now)))
  }

  function SettingsBecameReady(v: View, now: nat): View {
    var w := v.(cfg := v.cfg.(settingsReady := true));
    if v.cfg.begun && (v.link.st.Idle? || (v.link.st.BackoffWaiting? && v.link.next == 0))
    then w.(link := w.link.(st := BackoffWaiting, next := now)) else w
  }

  function Published(v: View, topic: Option<string>, payload: seq<Byte>, retain: bool, connected: bool, ok: bool): View {
    if connected && ok then v else v.(queue := Enqueued(v.queue, topic, payload, retain))
  }

  datatype Event =
    | Begin(policy: Policy, topic: Option<string>, e: Env)
    | Stop(now: nat, raised: bool)
    | Handle(e: Env)
    | SettingsReady(now: nat)
    | ClientDisconnected
    | Subscribe(topic: Option<string>, connected: bool)
    | Publish(topic: Option<string>, payload: seq<Byte>, retain: bool, connected: bool, ok: bool)

  function Next(v: View, ev: Event): View {
    match ev
    case Begin(p, t, e) => var b := Begun(v, p, t, e); b.(link := b.link.(observed := e.raised))
    case Stop(now, raised) => Stopped(v, now, raised)
    case Handle(e) => Handled(v, e)
    case SettingsReady(now) => SettingsBecameReady(v, now)
    case ClientDisconnected => v.(link := v.link.(observed := true))
    case Subscribe(t, c) => v.(topics := Added(v.topics, t, c))
    case Publish(t, p, r, c, ok) => Published(v, t, p, r, c, ok)
  }

  function Run(v: View, evs: seq<Event>): View
    decreases |evs|
  {
    if evs == [] then v else Run(Next(v, evs[0]), evs[1..])
  }

  function Fresh(policy: Policy): View {
    View(Link(Idle, 0, 0, false, false), Session(0, NO_STATS), Setup(false, false, false, Primary, false, None, policy),
         Topics([], []), Empty())
  }

  // -------------------------------------------------------------- invariants

  ghost predicate TopicSet(s: seq<string>) {
    && (forall i, j :: 0 <= i < j < |s| ==> s[i] != s[j])
    && |s| <= 12 && "" !in s
  }

  /** The published connectivity bit is the Online state, and there is no link before `begin`. */
  ghost predicate LinkInv(v: View) {
    && (v.link.bit <==> v.link.st.Online?)
    && (v.cfg.initialized || Linked(v) ==> v.cfg.begun)
  }

  /** A `handle` that gets as far as the first configuration of the client, and so begins again. */
  predicate FirstAttempt(v: View, e: Env) {
    && !v.cfg.initialized && e.networkReady && e.gateReady
    && (v.link.st.Idle? || (v.link.st.BackoffWaiting? && Clock(v.cfg, e.now) >= v.link.next))
    && e.settings.Some? && Target(e.settings.value, v.link.attempt) in e.settings.value.hosts
  }

  /** A `handle` that leaves Online. */
  predicate LeavesOnline(v: View, e: Env) {
    v.link.st.Online? && (v.link.observed || !e.networkReady || !e.gateReady || !e.connected)
  }

  /** The event starts the account afresh, at the clock reading `later`. */
  predicate Restarts(v: View, ev: Event) {
    ev.Begin? || (ev.Handle? && FirstAttempt(v, ev.e))
  }

  /** The event takes a clock reading of 0 as the beginning of an offline time. */
  predicate StampsZero(v: View, ev: Event) {
    match ev
    case Begin(_, _, e) => e.later == 0
    case Stop(now, _) => v.cfg.begun && v.link.st.Online? && now == 0
    case Handle(e) => (LeavesOnline(v, e) && e.now == 0) || (FirstAttempt(v, e) && e.later == 0)
    case _ => false
  }

  lemma ConnectStartedInv(v: View, e: Env)
    requires LinkInv(v) && v.link.st.BackoffWaiting?
    ensures LinkInv(ConnectStarted(v, e)) && !ConnectStarted(v, e).link.st.Online?
  {
    hide Delay, Target, Selected, Added, Reset;
  }

  lemma SwitchedInv(v: View, now: nat, e: Env)
    requires LinkInv(v)
    ensures LinkInv(Switched(v, now, e))
    ensures Switched(v, now, e).link.st.Online? && !v.link.st.Online? ==> v.link.st.Connecting? && e.connected
  {
    hide ConnectStarted, Delay, Drained;
    if v.link.st.BackoffWaiting? {
      ConnectStartedInv(v, e);
    }
  }

  lemma HandledInv(v: View, e: Env)
    requires LinkInv(v)
    ensures LinkInv(Handled(v, e))
    ensures Handled(v, e).link.st.Online? && !v.link.st.Online? ==>
              v.link.st.Connecting? && !v.link.observed && e.networkReady && e.gateReady && e.connected
  {
    hide Switched, Delay;
    var now := Clock(v.cfg, e.now);
    var w := v.(cfg := v.cfg.(settingsReady := e.gateReady), link := v.link.(observed := false));
    SwitchedInv(w, now, e);
    if v.link.st.Idle? {
      SwitchedInv(w.(link := w.link.(st := BackoffWaiting, next := now)), now, e);
    }
  }

  lemma NextInv(v: View, ev: Event)
    requires LinkInv(v)
    ensures LinkInv(Next(v, ev))
    ensures Next(v, ev).link.st.Online? && !v.link.st.Online? ==>
              v.link.st.Connecting? && !v.link.observed && ev.Handle? && ev.e.networkReady && ev.e.gateReady && ev.e.connected
  {
    hide Handled, Added, Reset, Enqueued;
    if ev.Handle? {
      HandledInv(v, ev.e);
    }
  }

  lemma {:induction false} RunInv(v: View, evs: seq<Event>)
    requires LinkInv(v)
    ensures LinkInv(Run(v, evs))
    decreases |evs|
  {
    hide LinkInv, Next;
    if evs != [] {
      NextInv(v, evs[0]);
      RunInv(Next(v, evs[0]), evs[1..]);
    }
  }

  // ------------------------------------------------------ the offline account

  /** What the account is about. */
  datatype Ledger = Ledger(begun: bool, online: bool, since: nat, disconnects: nat, reconnects: nat)

  function LedgerOf(v: View): Ledger {
    Ledger(v.cfg.begun, v.link.st.Online?, v.off.since, v.off.stats.disconnects, v.off.stats.reconnects)
  }

  function Anew(now: nat): Ledger {
    Ledger(true, false, now, 0, 0)
  }

  function Lost(l: Ledger, now: nat): Ledger {
    if l.since == 0 then l.(online := false, since := now, disconnects := l.disconnects + 1) else l.(online := false)
  }

  function Back(l: Ledger): Ledger {
    if l.since == 0 then l.(online := true) else l.(online := true, since := 0, reconnects := l.reconnects + 1)
  }

  /** Entries other than those of a fresh start or of leaving Online. */
  predicate Entered(l: Ledger, n: Ledger) {
    n == l || (l.begun && !l.online && (n == Back(l) || n == Lost(l, n.since)))
  }

  /** Once begun, offline time is being measured exactly while not Online, and the counters say so. */
  ghost predicate Counted(l: Ledger) {
    l.begun ==> (l.online <==> l.since == 0) && l.reconnects == l.disconnects + (if l.online then 1 else 0)
  }

  /**
   * An account that no event but a fresh start can put right: an offline time
   * that began at 0 is open, or a disconnection has been counted too often.
   */
  ghost predicate Broken(l: Ledger) {
    var surplus := l.disconnects + (if l.online then 1 else 0) - l.reconnects;
    && l.begun && (l.online ==> l.since == 0)
    && (surplus > 0 || (surplus == 0 && !l.online && l.since == 0))
  }

  lemma ConnectStartedLedger(v: View, e: Env)
    requires LinkInv(v) && v.link.st.BackoffWaiting? && v.cfg.settingsReady
    ensures var l, n := LedgerOf(v), LedgerOf(ConnectStarted(v, e));
            if !v.cfg.initialized && e.settings.Some? && Target(e.settings.value, v.link.attempt) in e.settings.value.hosts
            then n == Anew(e.later) || n == Lost(Anew(e.later), e.later)
            else Entered(l, n)
  {
    hide Delay, Target, Selected, Added, Reset;
  }

  lemma SwitchedLedger(v: View, now: nat, e: Env)
    requires LinkInv(v) && !v.link.st.BackoffWaiting?
    ensures var l, n := LedgerOf(v), LedgerOf(Switched(v, now, e));
            if l.online && !e.connected then n == Lost(l, now) else Entered(l, n)
  {
    hide Delay, Drained, QueueOnConnect;
  }

  /** What a `handle` enters. */
  lemma HandledLedger(v: View, e: Env)
    requires LinkInv(v)
    ensures var l, n := LedgerOf(v), LedgerOf(Handled(v, e));
            if FirstAttempt(v, e) then n == Anew(e.later) || n == Lost(Anew(e.later), e.later)
            else if LeavesOnline(v, e) then n == Lost(l, e.now)
            else Entered(l, n)
  {
    hide Delay, Target, Switched, ConnectStarted;
    var now := Clock(v.cfg, e.now);
    var w := v.(cfg := v.cfg.(settingsReady := e.gateReady), link := v.link.(observed := false));
    if v.link.st.Idle? {
      w := w.(link := w.link.(st := BackoffWaiting, next := now));
    }
    if v.link.observed && Linked(v) {
      FailedLedger(w, ConnectionLost, now, Clock(v.cfg, e.later), e.jitter);
    } else if e.networkReady && e.gateReady {
      if w.link.st.BackoffWaiting? {
        WaitingSwitch(w, now, e);
        ConnectStartedLedger(w, e);
      } else {
        SwitchedLedger(w, now, e);
      }
    }
  }

  lemma FailedLedger(v: View, why: Reason, now: nat, later: nat, jitter: nat)
    ensures LedgerOf(Failed(v, why, now, later, jitter)) == Lost(LedgerOf(v), now)
  {
    hide Delay;
  }

  lemma WaitingSwitch(v: View, now: nat, e: Env)
    requires v.link.st.BackoffWaiting?
    ensures Switched(v, now, e) == if now >= v.link.next then ConnectStarted(v, e) else v
  {
    hide ConnectStarted;
  }

  /** What any event enters. */
  lemma NextLedger(v: View, ev: Event)
    requires LinkInv(v)
    ensures var l, n := LedgerOf(v), LedgerOf(Next(v, ev));
            match ev
            case Begin(_, _, e) => n == Anew(e.later)
            case Stop(now, _) => n == Lost(l, if l.begun then now else 0)
            case Handle(e) =>
              if FirstAttempt(v, e) then n == Anew(e.later) || n == Lost(Anew(e.later), e.later)
              else if LeavesOnline(v, e) then n == Lost(l, e.now)
              else Entered(l, n)
            case _ => n == l
  {
    hide Handled, Added, Reset, Enqueued, FirstAttempt;
    if ev.Handle? {
      HandledLedger(v, ev.e);
    }
  }

  /** One step keeps the account exactly when it does not take 0 for the beginning of an offline time. */
  lemma CountedExactlyWhen(v: View, ev: Event)
    requires LinkInv(v) && Counted(LedgerOf(v))
    ensures Counted(LedgerOf(Next(v, ev))) <==> !StampsZero(v, ev)
    ensures StampsZero(v, ev) ==> Broken(LedgerOf(Next(v, ev)))
  {
    hide Next, FirstAttempt;
    NextLedger(v, ev);
    NeverBoth(v, ev);
  }

  lemma NeverBoth(v: View, ev: Event)
    ensures ev.Handle? ==> !(FirstAttempt(v, ev.e) && LeavesOnline(v, ev.e))
    ensures ev.Handle? && LeavesOnline(v, ev.e) ==> LedgerOf(v).online
    ensures LinkInv(v) && LedgerOf(v).online ==> LedgerOf(v).begun
  {
    hide Target;
  }

  lemma StaysBroken(v: View, ev: Event)
    requires LinkInv(v) && Broken(LedgerOf(v)) && !Restarts(v, ev)
    ensures Broken(LedgerOf(Next(v, ev)))
  {
    hide Next, FirstAttempt;
    NextLedger(v, ev);
  }

  lemma RestartDecides(v: View, ev: Event)
    requires LinkInv(v) && Restarts(v, ev)
    ensures var n := LedgerOf(Next(v, ev));
            if StampsZero(v, ev) then Broken(n) else Counted(n)
  {
    hide Next, FirstAttempt;
    NextLedger(v, ev);
    NeverBoth(v, ev);
  }

  lemma BrokenIsNotCounted(l: Ledger)
    requires Broken(l)
    ensures !Counted(l)
  {}

  /** Whether the account is in order after the run, given whether it is at its start. */
  predicate InOrder(v: View, evs: seq<Event>, ok: bool)
    decreases |evs|
  {
    if evs == [] then ok
    else InOrder(Next(v, evs[0]), evs[1..], !StampsZero(v, evs[0]) && (ok || Restarts(v, evs[0])))
  }

  lemma {:induction false} RunAccount(v: View, evs: seq<Event>, ok: bool)
    requires LinkInv(v) && (if ok then Counted(LedgerOf(v)) else Broken(LedgerOf(v)))
    ensures Counted(LedgerOf(Run(v, evs))) <==> InOrder(v, evs, ok)
    decreases |evs|
  {
    hide LinkInv, Counted, Broken, LedgerOf, StampsZero, Restarts, Next;
    if evs == [] {
      if !ok {
        BrokenIsNotCounted(LedgerOf(v));
      }
    } else {
      var ev := evs[0];
      NextInv(v, ev);
      if Restarts(v, ev) {
        RestartDecides(v, ev);
      } else if ok {
        CountedExactlyWhen(v, ev);
      } else {
        StaysBroken(v, ev);
      }
      RunAccount(Next(v, ev), evs[1..], !StampsZero(v, ev) && (ok || Restarts(v, ev)));
    }
  }

  // ------------------------------------------------------ topics and queue

  ghost predicate Grows(a: View, b: View) {
    && (TopicSet(a.topics.stored) ==> TopicSet(b.topics.stored) && a.topics.stored <= b.topics.stored)
    && (Balanced(a.queue) ==> Balanced(b.queue))
  }

  lemma AddedGrows(t: Topics, topic: Option<string>, connected: bool)
    requires TopicSet(t.stored)
    ensures TopicSet(Added(t, topic, connected).stored) && t.stored <= Added(t, topic, connected).stored
  {}

  lemma ResetBalanced(q: Fifo)
    requires Balanced(q)
    ensures Balanced(Reset(q))
  {}

  lemma BegunGrows(v: View, policy: Policy, topic: Option<string>, e: Env)
    ensures Grows(v, Begun(v, policy, topic, e))
  {
    hide TopicSet, Balanced;
    if TopicSet(v.topics.stored) {
      AddedGrows(v.topics, topic, e.connected);
    }
    if Balanced(v.queue) {
      ResetBalanced(v.queue);
    }
  }

  lemma ConnectStartedGrows(v: View, e: Env)
    ensures Grows(v, ConnectStarted(v, e))
  {
    hide TopicSet, Balanced, Begun, Target, Selected, Delay;
    if v.cfg.settingsReady && e.settings.Some? {
      var b := e.settings.value;
      var w := v.(cfg := v.cfg.(profile := Target(b, v.link.attempt), fallback := Target(b, v.link.attempt) != Selected(b)));
      BegunGrows(w, w.cfg.policy, w.cfg.topic, e);
    }
  }

  lemma QueueOnline(q: Fifo, policy: Policy, connected: bool, publishOk: bool)
    ensures Balanced(q) ==> Balanced(Drained(QueueOnConnect(q, policy), connected, publishOk))
  {
    if Balanced(q) {
      ResetBalanced(q);
      DrainBalanced(QueueOnConnect(q, policy), connected, publishOk);
    }
  }

  lemma SwitchedGrows(v: View, now: nat, e: Env)
    ensures Grows(v, Switched(v, now, e))
  {
    hide TopicSet, Balanced, ConnectStarted, Delay, QueueOnConnect;
    match v.link.st
    case Idle =>
    case Connecting => QueueOnline(v.queue, v.cfg.policy, e.stillConnected, e.publishOk);
    case BackoffWaiting => ConnectStartedGrows(v, e);
    case Online =>
      if Balanced(v.queue) {
        DrainBalanced(v.queue, e.stillConnected, e.publishOk);
      }
  }

  lemma HandledGrows(v: View, e: Env)
    ensures Grows(v, Handled(v, e))
  {
    hide TopicSet, Balanced, Switched, Delay;
    var now := Clock(v.cfg, e.now);
    var w := v.(cfg := v.cfg.(settingsReady := e.gateReady), link := v.link.(observed := false));
    SwitchedGrows(w, now, e);
    SwitchedGrows(w.(link := w.link.(st := BackoffWaiting, next := now)), now, e);
  }

  /** Topics are only ever added, and the queue stays balanced. */
  lemma NextGrows(v: View, ev: Event)
    ensures Grows(v, Next(v, ev))
  {
    hide TopicSet, Balanced, Handled, Begun, Added;
    match ev
    case Begin(p, t, e) => BegunGrows(v, p, t, e);
    case Handle(e) => HandledGrows(v, e);
    case Subscribe(t, c) =>
      if TopicSet(v.topics.stored) {
        AddedGrows(v.topics, t, c);
      }
    case Publish(t, p, r, c, ok) =>
      if Balanced(v.queue) {
        EnqueueBalanced(v.queue, t, p, r);
      }
    case _ =>
  }

  lemma {:induction false} RunGrows(v: View, evs: seq<Event>)
    requires TopicSet(v.topics.stored) && Balanced(v.queue)
    ensures TopicSet(Run(v, evs).topics.stored) && v.topics.stored <= Run(v, evs).topics.stored && Balanced(Run(v, evs).queue)
    decreases |evs|
  {
    hide TopicSet, Balanced, Next;
    if evs != [] {
      NextGrows(v, evs[0]);
      RunGrows(Next(v, evs[0]), evs[1..]);
    }
  }

  // -------------------------------------------------------- discarded messages

  /** A `handle` that goes online under the policy of clearing the queue. */
  predicate ClearsOnConnect(v: View, e: Env) {
    && v.link.st.Connecting? && !v.link.observed && e.networkReady && e.gateReady && e.connected
    && v.cfg.policy.clearQueueOnReconnect
  }

  /** The event empties the queue without sending. */
  predicate Discards(v: View, ev: Event) {
    ev.Begin? || (ev.Handle? && (FirstAttempt(v, ev.e) || ClearsOnConnect(v, ev.e)))
  }

  lemma ConnectStartedQueue(v: View, e: Env)
    requires v.link.st.BackoffWaiting? && v.cfg.settingsReady
    ensures ConnectStarted(v, e).queue ==
            if !v.cfg.initialized && e.settings.Some? && Target(e.settings.value, v.link.attempt) in e.settings.value.hosts
            then Reset(v.queue) else v.queue
  {
    hide Delay, Target, Selected, Added, Reset;
  }

  lemma SwitchedQueue(v: View, now: nat, e: Env)
    requires !v.link.st.BackoffWaiting?
    ensures Switched(v, now, e).queue.discarded == v.queue.discarded +
            if v.link.st.Connecting? && e.connected && v.cfg.policy.clearQueueOnReconnect then |v.queue.queued| else 0
  {
    hide Delay;
  }

  lemma FailedQueue(v: View, why: Reason, now: nat, later: nat, jitter: nat)
    ensures Failed(v, why, now, later, jitter).queue == v.queue
  {
    hide Delay;
  }

  lemma HandledQueue(v: View, e: Env)
    ensures Handled(v, e).queue.discarded == v.queue.discarded +
            if FirstAttempt(v, e) || ClearsOnConnect(v, e) then |v.queue.queued| else 0
  {
    hide Delay, Target, Switched, ConnectStarted, Failed;
    var now := Clock(v.cfg, e.now);
    var w := v.(cfg := v.cfg.(settingsReady := e.gateReady), link := v.link.(observed := false));
    if v.link.st.Idle? {
      w := w.(link := w.link.(st := BackoffWaiting, next := now));
    }
    if v.link.observed && Linked(v) {
      FailedQueue(w, ConnectionLost, now, Clock(v.cfg, e.later), e.jitter);
    } else if e.networkReady && e.gateReady {
      if w.link.st.BackoffWaiting? {
        WaitingSwitch(w, now, e);
        ConnectStartedQueue(w, e);
      } else {
        SwitchedQueue(w, now, e);
      }
    }
  }

  /** An event discards the whole queue, or nothing; the first exactly when it is one of the three kinds of Discards. */
  lemma DiscardsExactlyWhen(v: View, ev: Event)
    ensures Next(v, ev).queue.discarded == v.queue.discarded + if Discards(v, ev) then |v.queue.queued| else 0
  {
    hide Handled, Added, FirstAttempt, ClearsOnConnect;
    if ev.Handle? {
      HandledQueue(v, ev.e);
    }
  }

  lemma FreshInv(policy: Policy)
    ensures var v := Fresh(policy); LinkInv(v) && Counted(LedgerOf(v)) && TopicSet(v.topics.stored) && Balanced(v.queue)
  {}

  // ------------------------------------------------------------- what follows

  /** In every run the connectivity bit is set exactly in the Online state. */
  lemma BitMeansOnline(policy: Policy, evs: seq<Event>)
    ensures var v := Run(Fresh(policy), evs); v.link.bit <==> v.link.st.Online?
  {
    FreshInv(policy);
    RunInv(Fresh(policy), evs);
  }

  /** Online is entered only from Connecting, by a `handle` that finds both gates open and the client connected. */
  lemma OnlineEntry(policy: Policy, evs: seq<Event>, ev: Event)
    ensures var v := Run(Fresh(policy), evs);
            !v.link.st.Online? && Next(v, ev).link.st.Online? ==>
              v.link.st.Connecting? && !v.link.observed && ev.Handle? && ev.e.networkReady && ev.e.gateReady && ev.e.connected
  {
    hide Next;
    FreshInv(policy);
    RunInv(Fresh(policy), evs);
    NextInv(Run(Fresh(policy), evs), ev);
  }

  /** Going online subscribes every stored topic, in order, each once; the list holds no duplicates. */
  lemma EveryTopicResubscribed(policy: Policy, evs: seq<Event>, e: Env)
    ensures var v := Run(Fresh(policy), evs);
            v.link.st.Connecting? && Handled(v, e).link.st.Online? ==>
              Handled(v, e).topics == Topics(v.topics.stored, v.topics.sent + v.topics.stored) && TopicSet(v.topics.stored)
  {
    hide TopicSet, Balanced, Delay, Drained, QueueOnConnect, Run;
    FreshInv(policy);
    RunGrows(Fresh(policy), evs);
  }

  /** Topics are stored for good, in order, without duplicates. */
  lemma TopicsNeverLost(policy: Policy, evs: seq<Event>, more: seq<Event>)
    ensures var v := Run(Fresh(policy), evs);
            TopicSet(v.topics.stored) && v.topics.stored <= Run(v, more).topics.stored
  {
    hide Run, TopicSet, Balanced;
    FreshInv(policy);
    RunGrows(Fresh(policy), evs);
    RunGrows(Run(Fresh(policy), evs), more);
  }

  /**
   * Over every run: Online holds exactly when the offline time is 0, and
   * reconnects minus disconnects is 1 online and 0 otherwise, if and only if no
   * event since the last fresh start took a clock reading of 0 for the beginning
   * of an offline time.
   */
  lemma OfflineAccounting(policy: Policy, evs: seq<Event>)
    ensures var v := Run(Fresh(policy), evs);
            InOrder(Fresh(policy), evs, true) <==>
            (v.cfg.begun ==>
              && (v.link.st.Online? <==> v.off.since == 0)
              && v.off.stats.reconnects == v.off.stats.disconnects + (if v.link.st.Online? then 1 else 0))
  {
    hide Run, InOrder;
    FreshInv(policy);
    RunAccount(Fresh(policy), evs, true);
  }

  /** A clock that never reads 0, from any state in order on. */
  lemma {:induction false} PositiveClock(v: View, evs: seq<Event>)
    requires forall i :: 0 <= i < |evs| ==> Positive(evs[i])
    ensures InOrder(v, evs, true)
    decreases |evs|
  {
    hide Next;
    if evs != [] {
      assert Positive(evs[0]);
      PositiveClock(Next(v, evs[0]), evs[1..]);
    }
  }

  /** No clock reading of the event is 0. */
  predicate Positive(ev: Event) {
    match ev
    case Begin(_, _, e) => e.now > 0 && e.later > 0
    case Stop(now, _) => now > 0
    case Handle(e) => e.now > 0 && e.later > 0
    case SettingsReady(now) => now > 0
    case _ => true
  }

  /** After a zero reading a second stop counts a second disconnection for the one connection. */
  lemma SecondStopCounts(v: View)
    requires Counted(LedgerOf(v)) && v.cfg.begun && v.link.st.Online?
    ensures Stopped(Stopped(v, 0, false), 5, false).off.stats.disconnects == v.off.stats.disconnects + 2
  {}

  /** All goes well at clock reading 1, with the primary broker. */
  const CALM: Env := Env(1, 1, true, true, true, true, true, Some(Brokers(Primary, {Primary}, {Primary})), true, true, 0, false)

  /** Instance, from the start: connect, go online, stop at a reading of 0, stop again. One connection, two disconnections. */
  lemma ZeroReadingCountsTwice(policy: Policy)
    ensures var evs := [Handle(CALM), Handle(CALM), Stop(0, false), Stop(5, false)];
            var s := Run(Fresh(policy), evs).off.stats;
            s.reconnects == 1 && s.disconnects == 2
  {
    hide Drained, QueueOnConnect, Added, Reset, Delay;
    var evs := [Handle(CALM), Handle(CALM), Stop(0, false), Stop(5, false)];
    assert evs[1..] == [Handle(CALM), Stop(0, false), Stop(5, false)] && evs[1..][1..] == evs[2..] == [Stop(0, false), Stop(5, false)];
    var v1 := Next(Fresh(policy), Handle(CALM));
    assert v1.link.st.Connecting? && !v1.link.observed && v1.off.since == 1 && v1.off.stats == NO_STATS && v1.cfg.begun;
    var v2 := Next(v1, Handle(CALM));
    assert v2.link.st.Online? && v2.off.since == 0 && v2.off.stats.reconnects == 1 && v2.off.stats.disconnects == 0 && v2.cfg.begun;
    SecondStopCounts(v2);
    var v3 := Stopped(v2, 0, false);
    var v4 := Stopped(v3, 5, false);
    hide Next;
    assert Run(v2, evs[2..]) == v4 by { TwoStops(v2); }
    assert Run(v1, evs[1..]) == Run(v2, evs[2..]);
    assert Run(Fresh(policy), evs) == Run(v1, evs[1..]);
  }

  lemma TwoStops(v: View)
    ensures Run(v, [Stop(0, false), Stop(5, false)]) == Stopped(Stopped(v, 0, false), 5, false)
  {
    hide Stopped;
    var w := Stopped(v, 0, false);
    assert [Stop(0, false), Stop(5, false)][1..] == [Stop(5, false)] && [Stop(5, false)][1..] == [];
    assert Run(w, [Stop(5, false)]) == Run(Stopped(w, 5, false), []);
  }

  /** Over a whole run of the service the queue loses nothing but what a reset discards. */
  lemma QueueAccount(policy: Policy, evs: seq<Event>)
    ensures var q := Run(Fresh(policy), evs).queue;
            q.sent <= q.accepted && q.accepted[|q.sent|..] == q.queued
            && q.stats.enqueued == q.stats.drained + q.discarded + |q.queued|
  {
    FreshInv(policy);
    RunGrows(Fresh(policy), evs);
  }

  /** The first connection attempt runs `begin` again, and with it drops whatever was queued before. */
  lemma FirstAttemptDropsQueue(v: View, e: Env)
    requires v.link.st.BackoffWaiting? && !v.cfg.initialized && v.cfg.settingsReady && e.settings.Some?
    requires Target(e.settings.value, v.link.attempt) in e.settings.value.hosts
    ensures ConnectStarted(v, e).queue.queued == []
    ensures ConnectStarted(v, e).queue.discarded == v.queue.discarded + |v.queue.queued|
  {
    hide Delay, Target, Selected, Added;
  }

  /** The deadline stored by an attempt that starts at true time `start`. */
  function ConnectDeadline(start: nat): nat {
    (start % U32 + CONNECT_TIMEOUT_MS) % U32
  }

  /**
   * An attempt starts at true time `start`; `t` is a true time within one turn of
   * the clock. The attempt is timed out when its 15 seconds are over, and only
   * then, if and only if the clock has not wrapped since and the deadline is at
   * most 2^32, or the clock has wrapped and the deadline is beyond.
   */
  lemma TimeoutHonest(start: nat, t: nat)
    requires start <= t < start + U32
    ensures (TimedOut(ConnectDeadline(start), t % U32) <==> t - start >= CONNECT_TIMEOUT_MS)
            <==> (t / U32 == start / U32 <==> start % U32 + CONNECT_TIMEOUT_MS <= U32)
  {
    var s, e := start % U32, start / U32;
    assert start == U32 * e + s && t == U32 * (t / U32) + t % U32;
    assert t / U32 == e || t / U32 == e + 1;
    if s + CONNECT_TIMEOUT_MS >= U32 {
      assert (s + CONNECT_TIMEOUT_MS) % U32 == s + CONNECT_TIMEOUT_MS - U32;
    }
  }

  /** An attempt started exactly 15 seconds before the clock wraps never times out, because its deadline of 0 means none. */
  lemma NeverTimesOut(start: nat)
    ensures (forall now: nat :: now < U32 ==> !TimedOut(ConnectDeadline(start), now)) <==> start % U32 == U32 - CONNECT_TIMEOUT_MS
  {
    var d := ConnectDeadline(start);
    if d != 0 {
      assert TimedOut(d, d);
    }
  }

  /** Such an attempt waits for the client through every later call that finds the gates open and the client still silent. */
  lemma {:induction false} ConnectingForGood(v: View, evs: seq<Event>)
    requires v.link.st.Connecting? && v.link.next == 0 && !v.link.observed
    requires forall i :: 0 <= i < |evs| ==> Silent(evs[i])
    ensures var w := Run(v, evs).link; w.st.Connecting? && w.next == 0 && !w.observed
    decreases |evs|
  {
    if evs != [] {
      assert Silent(evs[0]);
      ConnectingForGood(Next(v, evs[0]), evs[1..]);
    }
  }

  predicate Silent(ev: Event) {
    ev.Handle? && ev.e.networkReady && ev.e.gateReady && !ev.e.connected && !ev.e.raised
  }

  // --------------------------------------------------- one call, and its waits

  /** Both gates are open. */
  predicate Open(e: Env) {
    e.networkReady && e.gateReady
  }

  /** A `handle` that finds the client lost or silent, a gate closed, or the client connected. */
  lemma LinkedMoves(v: View, e: Env)
    requires LinkInv(v) && (v.link.st.Connecting? || v.link.st.Online?)
    ensures var w := Handled(v, e);
            if v.link.observed || (Open(e) && !e.connected && (v.link.st.Online? || (v.link.next != 0 && e.now >= v.link.next))) then
              && w.link.st.BackoffWaiting? && w.link.attempt == (v.link.attempt + 1) % 0x1_0000_0000 && !w.link.bit
              && w.off.stats.reason == (if v.link.observed || v.link.st.Online? then ConnectionLost else ConnectTimeout)
              && w.off.stats.timeouts == v.off.stats.timeouts + (if v.link.observed || v.link.st.Online? then 0 else 1)
            else if !Open(e) then
              w.link == Link(Idle, v.link.attempt, 0, false, e.raised) && w.off.stats.reason == NetworkGateClosed
            else if e.connected then
              && w.link.st.Online? && w.link.bit && (v.link.st.Connecting? ==> w.link.attempt == 0)
              && (v.link.st.Online? ==> w.off == v.off)
            else
              w.link == v.link.(observed := e.raised) && w.off == v.off
  {
    hide Delay, Drained, QueueOnConnect;
  }

  /** A `handle` of a service that is idle or waiting: it starts an attempt when it is time, and what comes of that. */
  lemma UnlinkedMoves(v: View, e: Env)
    requires LinkInv(v) && (v.link.st.Idle? || v.link.st.BackoffWaiting?)
    ensures var w := Handled(v, e);
            var now := if v.cfg.begun then e.now else 0;
            if !Open(e) then w.link == Link(Idle, v.link.attempt, 0, false, e.raised) && w.off == v.off
            else if v.link.st.BackoffWaiting? && now < v.link.next then w.link == v.link.(observed := e.raised) && w.off == v.off
            else if e.settings.None? || Target(e.settings.value, v.link.attempt) !in e.settings.value.hosts then
              w.link.st.Idle? && w.link.next == 0 && w.link.attempt == v.link.attempt && w.off == v.off
            else
              && w.cfg.begun && w.cfg.profile == Target(e.settings.value, v.link.attempt)
              && (!e.initOk ==> w.link.st.BackoffWaiting? && w.off.stats.reason == ClientInitFailed
                                && w.link.attempt == if v.cfg.initialized then (v.link.attempt + 1) % 0x1_0000_0000 else 1)
              && (e.initOk ==> w.cfg.initialized && w.link.attempt == if v.cfg.initialized then v.link.attempt else 0)
              && (e.initOk && !e.networkStill ==> w.link.st.BackoffWaiting? && w.link.next == (e.later + 1000) % 0x1_0000_0000)
              && (e.initOk && e.networkStill ==> w.link.st.Connecting? && w.link.next == (e.later + 15000) % 0x1_0000_0000)
  {
    hide Delay, Target, Selected, Added, Reset, Switched, ConnectStarted;
    var now := Clock(v.cfg, e.now);
    var w := v.(cfg := v.cfg.(settingsReady := e.gateReady), link := v.link.(observed := false));
    if v.link.st.Idle? {
      w := w.(link := w.link.(st := BackoffWaiting, next := now));
    }
    WaitingSwitch(w, now, e);
    StartMoves(w, e);
  }

  lemma StartMoves(v: View, e: Env)
    requires LinkInv(v) && v.link.st.BackoffWaiting?
    ensures var w := ConnectStarted(v, e);
            v.cfg.settingsReady ==>
            if e.settings.None? || Target(e.settings.value, v.link.attempt) !in e.settings.value.hosts then
              w.link == v.link.(st := Idle, next := 0) && w.off == v.off
            else
              && w.cfg.begun && w.cfg.profile == Target(e.settings.value, v.link.attempt)
              && (!e.initOk ==> w.link.st.BackoffWaiting? && w.off.stats.reason == ClientInitFailed
                                && w.link.attempt == if v.cfg.initialized then (v.link.attempt + 1) % 0x1_0000_0000 else 1)
              && (e.initOk ==> w.cfg.initialized && w.link.attempt == if v.cfg.initialized then v.link.attempt else 0)
              && (e.initOk && !e.networkStill ==> w.link.st.BackoffWaiting? && w.link.next == (e.later + 1000) % 0x1_0000_0000)
              && (e.initOk && e.networkStill ==> w.link.st.Connecting? && w.link.next == (e.later + 15000) % 0x1_0000_0000)
  {
    hide Delay, Target, Selected, Added, Reset;
  }

  /** A call of `handle` at a true time; the clock reads that time modulo 2^32. */
  datatype Call = Call(at: nat, e: Env)

  function Events(calls: seq<Call>): seq<Event> {
    if calls == [] then [] else [Handle(calls[0].e)] + Events(calls[1..])
  }

  lemma RunCalls(v: View, calls: seq<Call>)
    requires calls != []
    ensures Run(v, Events(calls)) == Run(Handled(v, calls[0].e), Events(calls[1..]))
  {
    hide Handled;
    assert Events(calls)[1..] == Events(calls[1..]);
  }

  /**
   * A later call of an attempt that started at true time `start`: it finds the
   * gates open and the client silent, within one turn of the clock, and the clock
   * has wrapped since the start exactly if the deadline lies beyond 2^32.
   */
  predicate SilentCall(x: Call, start: nat) {
    && Silent(Handle(x.e)) && x.e.now == x.at % 0x1_0000_0000 && start <= x.at < start + 0x1_0000_0000
    && (x.at / 0x1_0000_0000 == start / 0x1_0000_0000 <==> start % 0x1_0000_0000 + 15000 <= 0x1_0000_0000)
  }

  /** An attempt is under way with the deadline of one that started at true time `start`. */
  predicate Attempting(v: View, start: nat) {
    v.cfg.begun && v.link.st.Connecting? && !v.link.observed && v.link.next == ConnectDeadline(start)
  }

  lemma SilentStep(v: View, x: Call, start: nat)
    requires LinkInv(v) && Attempting(v, start) && SilentCall(x, start)
    ensures var w := Handled(v, x.e);
            if x.at - start >= 15000 then
              w.link.st.BackoffWaiting? && w.off.stats.timeouts == v.off.stats.timeouts + 1 && w.off.stats.reason == ConnectTimeout
            else Attempting(w, start) && LinkInv(w) && w.off == v.off
  {
    hide Handled, ConnectDeadline;
    TimeoutHonest(start, x.at);
    LinkedMoves(v, x.e);
    HandledInv(v, x.e);
  }

  lemma {:induction false} SilentCalls(v: View, start: nat, calls: seq<Call>)
    requires LinkInv(v) && Attempting(v, start)
    requires forall i :: 0 <= i < |calls| ==> SilentCall(calls[i], start)
    requires forall i :: 0 <= i < |calls| - 1 ==> calls[i].at < start + 15000
    ensures var w := Run(v, Events(calls));
            if calls == [] || calls[|calls| - 1].at < start + 15000 then w.link.st.Connecting? && w.off == v.off
            else w.link.st.BackoffWaiting? && w.off.stats.timeouts == v.off.stats.timeouts + 1 && w.off.stats.reason == ConnectTimeout
    decreases |calls|
  {
    hide Handled, LinkInv, ConnectDeadline, SilentCall;
    if calls != [] {
      RunCalls(v, calls);
      SilentStep(v, calls[0], start);
      if |calls| > 1 {
        SilentCalls(Handled(v, calls[0].e), start, calls[1..]);
      }
    }
  }

  lemma AttemptStarts(v: View, e: Env, start: nat)
    requires LinkInv(v) && !v.link.st.Connecting? && Handled(v, e).link.st.Connecting?
    requires e.later == start % 0x1_0000_0000 && !e.raised
    ensures LinkInv(Handled(v, e)) && Attempting(Handled(v, e), start)
  {
    hide Handled, Target;
    HandledInv(v, e);
    if v.link.st.Online? {
      LinkedMoves(v, e);
    } else {
      UnlinkedMoves(v, e);
      HandledObserved(v, e);
    }
  }

  lemma HandledObserved(v: View, e: Env)
    ensures !e.raised ==> !Handled(v, e).link.observed
  {
    hide Delay, Target, Selected, Added, Reset, Drained, QueueOnConnect;
  }

  /**
   * From any run: a `handle` enters Connecting at true time `start`, and calls
   * follow that find the gates open and the client silent. At every call before
   * `start` + 15000 the service is still Connecting; the first call from then on
   * counts one timeout and leaves to wait for the next attempt.
   */
  lemma AttemptTiming(policy: Policy, before: seq<Event>, e: Env, start: nat, calls: seq<Call>)
    requires !Run(Fresh(policy), before).link.st.Connecting? && Handled(Run(Fresh(policy), before), e).link.st.Connecting?
    requires e.later == start % 0x1_0000_0000 && !e.raised
    requires forall i :: 0 <= i < |calls| ==> SilentCall(calls[i], start)
    requires forall i :: 0 <= i < |calls| - 1 ==> calls[i].at < start + 15000
    ensures var v := Handled(Run(Fresh(policy), before), e);
            var w := Run(v, Events(calls));
            if calls == [] || calls[|calls| - 1].at < start + 15000 then w.link.st.Connecting? && w.off == v.off
            else w.link.st.BackoffWaiting? && w.off.stats.timeouts == v.off.stats.timeouts + 1 && w.off.stats.reason == ConnectTimeout
  {
    hide Handled, Run, LinkInv, SilentCall, Attempting;
    FreshInv(policy);
    RunInv(Fresh(policy), before);
    AttemptStarts(Run(Fresh(policy), before), e, start);
    SilentCalls(Handled(Run(Fresh(policy), before), e), start, calls);
  }

  /** For one such call at any reading the wrap condition is exact: without it the call times out early, or not at all. */
  lemma AttemptHonestExactly(policy: Policy, before: seq<Event>, e: Env, start: nat, x: Call)
    requires !Run(Fresh(policy), before).link.st.Connecting? && Handled(Run(Fresh(policy), before), e).link.st.Connecting?
    requires e.later == start % 0x1_0000_0000 && !e.raised
    requires Silent(Handle(x.e)) && x.e.now == x.at % 0x1_0000_0000 && start <= x.at < start + 0x1_0000_0000
    ensures var w := Handled(Handled(Run(Fresh(policy), before), e), x.e);
            (w.link.st.BackoffWaiting? <==> x.at - start >= 15000) <==> SilentCall(x, start)
  {
    hide Handled, Run, LinkInv, ConnectDeadline;
    FreshInv(policy);
    RunInv(Fresh(policy), before);
    AttemptStarts(Run(Fresh(policy), before), e, start);
    TimeoutHonest(start, x.at);
    LinkedMoves(Handled(Run(Fresh(policy), before), e), x.e);
  }

  /** The wait after a failure at true time `start` that is to last `d`: a later call with the gates open, as far as the clock is honest. */
  predicate OpenCall(x: Call, start: nat, d: nat) {
    && Open(x.e) && x.e.now == x.at % 0x1_0000_0000 && start <= x.at < start + 0x1_0000_0000
    && (x.at / 0x1_0000_0000 == start / 0x1_0000_0000 <==> start % 0x1_0000_0000 + d < 0x1_0000_0000)
  }

  predicate AwaitingRetry(v: View, start: nat, d: nat) {
    v.cfg.begun && v.link.st.BackoffWaiting? && v.link.next == (start % 0x1_0000_0000 + d) % 0x1_0000_0000
  }

  /** Nothing in the call's answers stands in the way of an attempt. */
  predicate Reachable(v: View, e: Env) {
    e.settings.Some? && Target(e.settings.value, v.link.attempt) in e.settings.value.hosts && e.initOk && e.networkStill
  }

  lemma OpenStep(v: View, x: Call, start: nat, d: nat)
    requires LinkInv(v) && AwaitingRetry(v, start, d) && d < 0x1_0000_0000 && OpenCall(x, start, d)
    ensures var w := Handled(v, x.e);
            if x.at - start >= d then Reachable(v, x.e) ==> w.link.st.Connecting?
            else AwaitingRetry(w, start, d) && LinkInv(w) && w.link.attempt == v.link.attempt
  {
    hide Handled, Target;
    DeadlineHonest(start, d, x.at);
    UnlinkedMoves(v, x.e);
    HandledInv(v, x.e);
    HandledBegun(v, x.e);
  }

  lemma HandledBegun(v: View, e: Env)
    ensures v.cfg.begun ==> Handled(v, e).cfg.begun
  {
    hide Delay, Target, Selected, Added, Reset, Drained, QueueOnConnect;
  }

  lemma {:induction false} OpenCalls(v: View, start: nat, d: nat, calls: seq<Call>)
    requires LinkInv(v) && AwaitingRetry(v, start, d) && d < 0x1_0000_0000
    requires forall i :: 0 <= i < |calls| ==> OpenCall(calls[i], start, d)
    requires forall i :: 0 <= i < |calls| - 1 ==> calls[i].at < start + d
    ensures var w := Run(v, Events(calls));
            if calls == [] || calls[|calls| - 1].at < start + d then w.link.st.BackoffWaiting? && w.link.attempt == v.link.attempt
            else Reachable(v, calls[|calls| - 1].e) ==> w.link.st.Connecting?
    decreases |calls|
  {
    hide Handled, LinkInv, OpenCall, Target;
    if calls != [] {
      RunCalls(v, calls);
      OpenStep(v, calls[0], start, d);
      if |calls| > 1 {
        OpenCalls(Handled(v, calls[0].e), start, d, calls[1..]);
      }
    }
  }

  /**
   * From any run: a `handle` loses or gives up the connection at true time `start`,
   * and calls follow that find the gates open. The service waits until the delay
   * min(initial * 2^min(attempt, maxFastRetries), maximum) + jitter is over, and
   * the first call from then on makes the next attempt.
   */
  lemma RetryTiming(policy: Policy, before: seq<Event>, e: Env, start: nat, d: nat, calls: seq<Call>)
    requires Linked(Run(Fresh(policy), before)) && Handled(Run(Fresh(policy), before), e).link.st.BackoffWaiting?
    requires e.later == start % 0x1_0000_0000
    requires var v := Run(Fresh(policy), before);
             var p, n := v.cfg.policy.retry, (v.link.attempt + 1) % 0x1_0000_0000;
             d == (Min(p.initialBackoffMs * Pow2(Min(n, p.maxFastRetries)), p.maxBackoffMs) + e.jitter) % 0x1_0000_0000
    requires forall i :: 0 <= i < |calls| ==> OpenCall(calls[i], start, d)
    requires forall i :: 0 <= i < |calls| - 1 ==> calls[i].at < start + d
    ensures var v := Handled(Run(Fresh(policy), before), e);
            var w := Run(v, Events(calls));
            if calls == [] || calls[|calls| - 1].at < start + d then w.link.st.BackoffWaiting? && w.link.attempt == v.link.attempt
            else Reachable(v, calls[|calls| - 1].e) ==> w.link.st.Connecting?
  {
    hide Handled, Run, LinkInv, OpenCall, Reachable;
    FreshInv(policy);
    RunInv(Fresh(policy), before);
    RetryStarts(Run(Fresh(policy), before), e, start);
    OpenCalls(Handled(Run(Fresh(policy), before), e), start, d, calls);
  }

  lemma RetryStarts(v: View, e: Env, start: nat)
    requires LinkInv(v) && Linked(v) && Handled(v, e).link.st.BackoffWaiting? && e.later == start % 0x1_0000_0000
    ensures LinkInv(Handled(v, e))
    ensures AwaitingRetry(Handled(v, e), start, Delay(v.cfg.policy.retry, (v.link.attempt + 1) % 0x1_0000_0000, e.jitter))
  {
    hide Delay, Drained, QueueOnConnect;
    HandledInv(v, e);
  }

  /**
   * Below three failures the selected profile is used, which is the one asked for
   * if it is valid; from then on the first other valid one, if there is any.
   */
  lemma FallbackTarget(b: Brokers, attempt: nat)
    ensures Selected(b) == if b.requested in b.valid then b.requested else Primary
    ensures attempt < 3 ==> Target(b, attempt) == Selected(b)
    ensures attempt >= 3 ==>
              (Target(b, attempt) != Selected(b) <==> exists p :: p in b.valid && p != Selected(b))
    ensures Target(b, attempt) != Selected(b) ==> Target(b, attempt) in b.valid
    ensures Target(b, attempt) != Selected(b) && Target(b, attempt) != Primary ==> Selected(b) == Primary || Primary !in b.valid
    ensures Target(b, attempt) != Selected(b) && Target(b, attempt).Tertiary? ==> Selected(b) == Secondary || Secondary !in b.valid
  {
    if p: Profile :| p in b.valid && p != Selected(b) {
      match p
      case Primary =>
      case Secondary =>
      case Tertiary =>
    }
  }

  // -------------------------------------------------------------- the object

  /**
   * The fields of the source, in the groups of `View`: `link` holds _state, _attempt,
   * _nextActionAtMs, the MQTT_CONNECTED bit and _clientDisconnectObserved; `off` holds
   * _offlineSinceMs and _reconnectStats; `cfg` the rest.
   */
  class Service {
    var link: Link
    var off: Session
    var cfg: Setup
    var subs: seq<string>
    ghost var sent: seq<string>     // every topic passed to the client
    const queue: OfflineQueue

    ghost predicate Valid()
      reads this, queue, queue.slots
    {
      queue.Valid() && link.attempt < U32 && ValidPolicy(cfg.policy.retry) && |subs| <= MAX_TOPICS
    }

    ghost function Abs(): View
      reads this, queue
    {
      View(link, off, cfg, Topics(subs, sent), queue.history)
    }

    constructor (policy: Policy)
      requires ValidPolicy(policy.retry)
      ensures Valid() && Abs() == Fresh(policy) && fresh(queue) && fresh(queue.slots)
    {
      link, off := Link(Idle, 0, 0, false, false), Session(0, NO_STATS);
      cfg := Setup(false, false, false, Primary, false, None, policy);
      subs, sent := [], [];
      queue := new OfflineQueue();
    }

    method MarkDisconnected(why: Reason, now: nat)
      modifies this`off
      ensures off == Disconnected(old(off), why, now)
    {
      if off.since == 0 {
        off := off.(since := now);
        off := off.(stats := off.stats.(disconnects := off.stats.disconnects + 1));
      }
      off := off.(stats := off.stats.(reason := why));
    }

    method MarkConnected(now: nat)
      requires Valid()
      modifies this`off, this`cfg, queue
      ensures Valid() && off == Connected(old(off), now) && cfg == old(cfg).(fallback := false)
      ensures queue.history == QueueOnConnect(old(queue.history), cfg.policy)
      ensures old(off.since) != 0 ==>
                var away := (now - old(off.since)) % 0x1_0000_0000;
                && off.stats.lastOfflineMs == away
                && off.stats.maxOfflineMs == if away > old(off.stats.maxOfflineMs) then away else old(off.stats.maxOfflineMs)
    {
      if off.since != 0 {
        var offlineMs := (now - off.since) % U32;
        var stats := off.stats.(lastOfflineMs := offlineMs);
        if offlineMs > stats.maxOfflineMs {
          stats := stats.(maxOfflineMs := offlineMs);
        }
        stats := stats.(reconnects := stats.reconnects + 1);
        off := Session(0, stats);
      }
      cfg := cfg.(fallback := false);
      if cfg.policy.clearQueueOnReconnect && queue.count > 0 {
        queue.Clear();
      }
    }

    method ComputeBackoffMs(jitter: nat) returns (backoff: nat)
      requires Valid()
      ensures backoff == Delay(cfg.policy.retry, link.attempt, jitter)
    {
      var base := ComputeBackoffBase(cfg.policy.retry, link.attempt);
      backoff := (base + jitter) % U32;
    }

    method ScheduleRetry(now: nat, jitter: nat)
      requires Valid()
      modifies this`link, this`off
      ensures Valid() && Abs() == RetryScheduled(old(Abs()), now, jitter)
      ensures link.attempt == (old(link.attempt) + 1) % 0x1_0000_0000 == off.stats.lastAttempts
      ensures link.st == BackoffWaiting && !link.bit && link.next == (now + off.stats.lastBackoffMs) % 0x1_0000_0000
    {
      hide Delay, Ring, Balanced;
      link := link.(attempt := (link.attempt + 1) % U32);
      var backoff := ComputeBackoffMs(jitter);
      off := off.(stats := off.stats.(lastBackoffMs := backoff, lastAttempts := link.attempt));
      link := link.(bit := false, st := BackoffWaiting, next := (now + backoff) % U32);
    }

    /** `connected` and `clientOk` are the client's answers; `ok` is what the caller is told. */
    method Subscribe(topic: Option<string>, connected: bool, clientOk: bool) returns (ok: bool)
      requires |subs| <= MAX_TOPICS
      modifies this`subs, this`sent
      ensures |subs| <= MAX_TOPICS && Topics(subs, sent) == Added(old(Topics(subs, sent)), topic, connected)
      ensures ok <==> (&& topic.Some? && topic.value != ""
                       && (topic.value in old(subs) || (|old(subs)| < 12 && (connected ==> clientOk))))
      ensures topic.Some? && topic.value != "" && |old(subs)| < 12 ==> topic.value in subs
      ensures subs == old(subs) ==> sent == old(sent)
      ensures subs != old(subs) ==> topic.Some? && subs == old(subs) + [topic.value]
                                    && sent == if connected then old(sent) + [topic.value] else old(sent)
    {
      if topic.None? || topic.value == "" {
        return false;
      }
      for i := 0 to |subs|
        invariant topic.value !in subs[..i]
      {
        if subs[i] == topic.value {
          return true;
        }
      }
      assert subs[..|subs|] == subs;
      if |subs| < MAX_TOPICS {
        subs := subs + [topic.value];
      } else {
        return false;
      }
      if connected {
        sent := sent + [topic.value];
        return clientOk;
      }
      return true;
    }

    method Begin(policy: Policy, topic: Option<string>, e: Env) returns (ok: bool)
      requires Valid() && ValidPolicy(policy.retry)
      modifies this, queue
      ensures Valid() && Abs() == Begun(old(Abs()), policy, topic, e) && ok == e.initOk
      ensures link == Link(BackoffWaiting, 0, e.later, false, false)
      ensures cfg == old(cfg).(begun := true, policy := policy, topic := topic, settingsReady := e.gateReady, fallback := false)
    {
      hide Reset, Ring, Balanced, Added, Delay;
      cfg := cfg.(begun := true, topic := topic, policy := policy, settingsReady := false, fallback := false);
      link := Link(Idle, 0, 0, false, false);
      off := Session(0, NO_STATS);
      if e.gateReady {
        OnSettingsReady(e.later);
      }
      queue.Clear();
      var added := Subscribe(topic, e.connected, true);
      link := link.(st := BackoffWaiting, next := e.later);
      off := off.(since := e.later);
      return e.initOk;
    }

    method OnSettingsReady(now: nat)
      modifies this`cfg, this`link
      ensures Abs() == SettingsBecameReady(old(Abs()), now) && cfg.settingsReady
      ensures cfg.begun && (old(link.st) == Idle || (old(link.st) == BackoffWaiting && old(link.next) == 0)) ==>
                link.st == BackoffWaiting && link.next == now
    {
      cfg := cfg.(settingsReady := true);
      if cfg.begun {
        if link.st == Idle || (link.st == BackoffWaiting && link.next == 0) {
          link := link.(st := BackoffWaiting, next := now);
        }
      }
    }

    method StartConnect(e: Env)
      requires Valid()
      modifies this, queue
      ensures Valid() && Abs() == ConnectStarted(old(Abs()), e)
    {
      hide ClientStarted, Begun, Target, Selected, Ring, Balanced, Delay;
      if !cfg.settingsReady {
        link := link.(st := Idle, next := 0);
        return;
      }
      if e.settings.None? {
        link := link.(st := Idle, next := 0);
        return;
      }
      var b := e.settings.value;
      var target := Target(b, link.attempt);
      cfg := cfg.(profile := target, fallback := target != Selected(b));
      if target !in b.hosts {
        link := link.(st := Idle, next := 0);
        return;
      }
      var ok := e.initOk;
      if !cfg.initialized {
        ok := Begin(cfg.policy, cfg.topic, e);
      }
      StartClient(ok, e);
    }

    /** The tail of `startConnect`, once the client has been configured. */
    method StartClient(ok: bool, e: Env)
      requires Valid() && ok == e.initOk
      modifies this
      ensures Valid() && Abs() == ClientStarted(old(Abs()), e)
    {
      hide RetryScheduled, Disconnected, Ring, Balanced;
      var now := if cfg.begun then e.later else 0;
      if !ok {
        MarkDisconnected(ClientInitFailed, now);
        ScheduleRetry(now, e.jitter);
        return;
      }
      cfg := cfg.(initialized := true);
      if !e.networkStill {
        link := link.(st := BackoffWaiting, next := (now + 1000) % U32);
        return;
      }
      link := link.(st := Connecting, next := (now + CONNECT_TIMEOUT_MS) % U32);
    }

    method ResubscribeAll()
      modifies this`sent
      ensures sent == old(sent) + subs
    {
      for i := 0 to |subs|
        invariant sent == old(sent) + subs[..i]
      {
        sent := sent + [subs[i]];
      }
      assert subs[..|subs|] == subs;
    }

    method Handle(e: Env)
      requires Valid()
      modifies this, queue
      ensures Valid() && Abs() == Handled(old(Abs()), e)
    {
      hide Steered, Ring, Balanced;
      var now := if cfg.begun then e.now else 0;
      cfg := cfg.(settingsReady := e.gateReady);
      var raised := link.observed;
      link := link.(observed := false);
      Steer(raised, now, e);
      link := link.(observed := link.observed || e.raised);
    }

    method Steer(raised: bool, now: nat, e: Env)
      requires Valid() && cfg.settingsReady == e.gateReady
      modifies this, queue
      ensures Valid() && Abs() == Steered(old(Abs()), raised, now, e)
    {
      hide RetryScheduled, Disconnected, Switched, Ring, Balanced;
      var canConnect := e.networkReady && cfg.settingsReady;
      if raised && (link.st == Online || link.st == Connecting) {
        MarkDisconnected(ConnectionLost, now);
        ScheduleRetry(if cfg.begun then e.later else 0, e.jitter);
        return;
      }
      if canConnect && link.st == Idle {
        link := link.(st := BackoffWaiting, next := now);
      }
      if !canConnect {
        if link.st == Connecting || link.st == Online {
          MarkDisconnected(NetworkGateClosed, now);
        }
        link := link.(bit := false, st := Idle, next := 0);
        return;
      }
      Switch(now, e);
    }

    method Switch(now: nat, e: Env)
      requires Valid()
      modifies this, queue
      ensures Valid() && Abs() == Switched(old(Abs()), now, e)
    {
      hide RetryScheduled, Disconnected, WentOnline, ConnectStarted, Drained, Ring, Balanced;
      match link.st
      case Idle =>
      case Connecting =>
        if e.connected {
          GoOnline(now, e);
        } else if link.next != 0 && now >= link.next {
          MarkDisconnected(ConnectTimeout, now);
          off := off.(stats := off.stats.(timeouts := off.stats.timeouts + 1));
          ScheduleRetry(if cfg.begun then e.later else 0, e.jitter);
        }
      case BackoffWaiting =>
        if now >= link.next {
          StartConnect(e);
        }
      case Online =>
        if !e.connected {
          LoseConnection(now, e);
        } else {
          var offered := queue.Drain(e.stillConnected, e.publishOk);
        }
    }

    method GoOnline(now: nat, e: Env)
      requires Valid()
      modifies this, queue
      ensures Valid() && Abs() == WentOnline(old(Abs()), now, e)
      ensures link == old(link).(st := Online, attempt := 0, bit := true) && !cfg.fallback && sent == old(sent) + old(subs)
    {
      hide Connected, QueueOnConnect, Drained, Ring, Balanced;
      MarkConnected(now);
      link := link.(st := Online, attempt := 0);
      link := link.(bit := true);
      ResubscribeAll();
      var offered := queue.Drain(e.stillConnected, e.publishOk);
    }

    method LoseConnection(now: nat, e: Env)
      requires Valid()
      modifies this
      ensures Valid() && Abs() == Failed(old(Abs()), ConnectionLost, now, Clock(old(cfg), e.later), e.jitter)
    {
      hide Delay, Disconnected, Ring, Balanced;
      MarkDisconnected(ConnectionLost, now);
      link := link.(bit := false);
      ScheduleRetry(if cfg.begun then e.later else 0, e.jitter);
    }

    method Stop(now: nat, raised: bool)
      requires Valid()
      modifies this
      ensures Valid() && Abs() == Stopped(old(Abs()), now, raised)
      ensures link == Link(Idle, old(link.attempt), 0, false, raised) && off.stats.reason == NetworkGateClosed
    {
      hide Ring, Balanced;
      link := link.(observed := false);
      link := link.(bit := false);
      MarkDisconnected(NetworkGateClosed, if cfg.begun then now else 0);
      link := link.(st := Idle, next := 0);
      link := link.(observed := raised);
    }

    method Publish(topic: Option<string>, payload: seq<Byte>, retain: bool, connected: bool, clientOk: bool)
      returns (ok: bool)
      requires Valid()
      modifies queue, queue.slots
      ensures Valid() && Abs() == Published(old(Abs()), topic, payload, retain, connected, clientOk)
      ensures ok <==> (connected && clientOk) || Judge(topic, |payload|, |old(queue.history.queued)|) == Accepted
    {
      hide Enqueued, Judge;
      if connected {
        if clientOk {
          return true;
        }
      }
      ok := queue.Enqueue(topic, payload, retain);
    }
  }
}
