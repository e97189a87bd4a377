/**
 * The offline queue of the MQTT service: a ring of fixed slots, proved to be a
 * bounded first-in first-out queue.
 *
 * `Fifo` is that queue; `OfflineQueue` is the ring with its head, tail, count
 * and statistics.
 */
module MqttQueue {
  import opened Bytes

  const QUEUE_LEN: nat := 16
  const MAX_PAYLOAD: nat := 256
  const MAX_TOPIC_LEN: nat := 128

  datatype Msg = Msg(topic: string, payload: seq<Byte>, retain: bool)

  datatype Verdict = Accepted | InvalidTopic | TopicTooLong | PayloadTooBig | QueueFull

  /** `drops` counts the refusals of each kind. */
  datatype Stats = Stats(enqueued: nat, drained: nat, invalidTopic: nat, topicTooLong: nat, payloadTooBig: nat, full: nat)

  /** A bounded queue with its history: everything accepted and sent since the last reset. */
  datatype Fifo = Fifo(queued: seq<Msg>, accepted: seq<Msg>, sent: seq<Msg>, stats: Stats, discarded: nat)

  function Empty(): Fifo {
    Fifo([], [], [], Stats(0, 0, 0, 0, 0, 0), 0)
  }

  function Judge(topic: Option<string>, len: nat, queued: nat): Verdict {
    if topic.None? || topic.value == "" then InvalidTopic
    else if |topic.value| >= MAX_TOPIC_LEN then TopicTooLong
    else if len > MAX_PAYLOAD then PayloadTooBig
    else if queued >= QUEUE_LEN then QueueFull
    else Accepted
  }

  function Enqueued(q: Fifo, topic: Option<string>, payload: seq<Byte>, retain: bool): Fifo {
    match Judge(topic, |payload|, |q.queued|)
    case Accepted =>
      var m := Msg(topic.value, payload, retain);
      q.(queued := q.queued + [m], accepted := q.accepted + [m], stats := q.stats.(enqueued := q.stats.enqueued + 1))
    case InvalidTopic => q.(stats := q.stats.(invalidTopic := q.stats.invalidTopic + 1))
    case TopicTooLong => q.(stats := q.stats.(topicTooLong := q.stats.topicTooLong + 1))
    case PayloadTooBig => q.(stats := q.stats.(payloadTooBig := q.stats.payloadTooBig + 1))
    case QueueFull => q.(stats := q.stats.(full := q.stats.full + 1))
  }

  /** One call of `drainQueue`: the oldest message leaves if the client takes it. */
  function Drained(q: Fifo, connected: bool, publishOk: bool): Fifo {
    if q.queued == [] || !connected || !publishOk then q
    else q.(queued := q.queued[1..], sent := q.sent + [q.queued[0]], stats := q.stats.(drained := q.stats.drained + 1))
  }

  /** `begin` and the reconnect policy empty the queue without sending. */
  function Reset(q: Fifo): Fifo {
    Fifo([], [], [], q.stats, q.discarded + |q.queued|)
  }

  ghost predicate Balanced(q: Fifo) {
    && |q.queued| <= QUEUE_LEN
    && q.accepted == q.sent + q.queued
    && q.stats.enqueued == q.stats.drained + q.discarded + |q.queued|
  }

  /** A message is refused for one reason, the first of these that holds, and every call is counted once. */
  lemma CountedOnce(q: Fifo, topic: Option<string>, payload: seq<Byte>, retain: bool)
    ensures var n, s := Enqueued(q, topic, payload, retain), q.stats;
            n.stats == if topic == None || topic == Some("") then s.(invalidTopic := s.invalidTopic + 1)
                       else if |topic.value| >= 128 then s.(topicTooLong := s.topicTooLong + 1)
                       else if |payload| > 256 then s.(payloadTooBig := s.payloadTooBig + 1)
                       else if |q.queued| >= 16 then s.(full := s.full + 1)
                       else s.(enqueued := s.enqueued + 1)
  {}

  lemma EnqueueBalanced(q: Fifo, topic: Option<string>, payload: seq<Byte>, retain: bool)
    requires Balanced(q)
    ensures Balanced(Enqueued(q, topic, payload, retain))
  {
    if Judge(topic, |payload|, |q.queued|) == Accepted {
      var m := Msg(topic.value, payload, retain);
      assert q.sent + q.queued + [m] == q.sent + (q.queued + [m]);
    }
  }

  lemma DrainBalanced(q: Fifo, connected: bool, publishOk: bool)
    requires Balanced(q)
    ensures Balanced(Drained(q, connected, publishOk))
  {
    if q.queued != [] {
      assert q.sent + [q.queued[0]] + q.queued[1..] == q.sent + q.queued;
    }
  }

  datatype Op =
    | Enqueue(topic: Option<string>, payload: seq<Byte>, retain: bool)
    | Drain(connected: bool, publishOk: bool)
    | Clear

  function Apply(q: Fifo, op: Op): Fifo {
    match op
    case Enqueue(t, p, r) => Enqueued(q, t, p, r)
    case Drain(c, ok) => Drained(q, c, ok)
    case Clear => Reset(q)
  }

  function Run(q: Fifo, ops: seq<Op>): Fifo
    decreases |ops|
  {
    if ops == [] then q else Run(Apply(q, ops[0]), ops[1..])
  }

  lemma {:induction false} RunBalanced(q: Fifo, ops: seq<Op>)
    requires Balanced(q)
    ensures Balanced(Run(q, ops))
    decreases |ops|
  {
    if ops != [] {
      match ops[0] {
        case Enqueue(t, p, r) => EnqueueBalanced(q, t, p, r);
        case Drain(c, ok) => DrainBalanced(q, c, ok);
        case Clear =>
      }
      RunBalanced(Apply(q, ops[0]), ops[1..]);
    }
  }

  /** Over every run: sent messages are a prefix of the accepted ones, and every accepted message is accounted for. */
  lemma Conservation(ops: seq<Op>)
    ensures var q := Run(Empty(), ops);
            && q.sent <= q.accepted && q.accepted[|q.sent|..] == q.queued
            && q.stats.enqueued == q.stats.drained + q.discarded + |q.queued|
            && ((forall i :: 0 <= i < |ops| ==> !ops[i].Clear?) ==> q.discarded == 0)
  {
    RunBalanced(Empty(), ops);
    if forall i :: 0 <= i < |ops| ==> !ops[i].Clear? {
      NothingDiscarded(Empty(), ops);
    }
  }

  lemma {:induction false} NothingDiscarded(q: Fifo, ops: seq<Op>)
    requires forall i :: 0 <= i < |ops| ==> !ops[i].Clear?
    ensures Run(q, ops).discarded == q.discarded
    decreases |ops|
  {
    if ops != [] {
      assert forall i :: 0 <= i < |ops[1..]| ==> ops[1..][i] == ops[i + 1];
      NothingDiscarded(Apply(q, ops[0]), ops[1..]);
    }
  }

  // ---------------------------------------------------------------- the ring

  /** The `n` slots of a ring from `head` on. */
  function Ring(slots: seq<Msg>, head: nat, n: nat): (r: seq<Msg>)
    requires head < |slots| == QUEUE_LEN && n <= QUEUE_LEN
    ensures |r| == n && forall i :: 0 <= i < n ==> r[i] == slots[(head + i) % QUEUE_LEN]
  {
    seq(n, i requires 0 <= i < n => slots[(head + i) % QUEUE_LEN])
  }

  lemma RingPush(slots: seq<Msg>, head: nat, n: nat, m: Msg)
    requires head < |slots| == QUEUE_LEN && n < QUEUE_LEN
    ensures Ring(slots[(head + n) % QUEUE_LEN := m], head, n + 1) == Ring(slots, head, n) + [m]
  {
    var slots' := slots[(head + n) % QUEUE_LEN := m];
    forall i | 0 <= i < n ensures Ring(slots', head, n + 1)[i] == Ring(slots, head, n)[i] {
      DistinctSlots(head, i, n);
    }
  }

  lemma DistinctSlots(head: nat, i: nat, n: nat)
    requires i < n < QUEUE_LEN
    ensures (head + i) % QUEUE_LEN != (head + n) % QUEUE_LEN
  {}

  lemma RingPop(slots: seq<Msg>, head: nat, n: nat)
    requires head < |slots| == QUEUE_LEN && 0 < n <= QUEUE_LEN
    ensures Ring(slots, (head + 1) % QUEUE_LEN, n - 1) == Ring(slots, head, n)[1..]
  {
    forall i | 0 <= i < n - 1
      ensures Ring(slots, (head + 1) % QUEUE_LEN, n - 1)[i] == Ring(slots, head, n)[1..][i]
    {
      NextSlot(head, i);
    }
  }

  lemma WrapSucc(x: nat)
    ensures (x % QUEUE_LEN + 1) % QUEUE_LEN == (x + 1) % QUEUE_LEN
  {}

  lemma NextSlot(head: nat, i: nat)
    ensures ((head + 1) % QUEUE_LEN + i) % QUEUE_LEN == (head + (i + 1)) % QUEUE_LEN
  {}

  class OfflineQueue {
    const slots: array<Msg>
    var head: nat
    var tail: nat
    var count: nat
    var stats: Stats
    ghost var history: Fifo

    ghost predicate Valid()
      reads this, slots
    {
      && slots.Length == QUEUE_LEN && head < QUEUE_LEN && count <= QUEUE_LEN
      && tail == (head + count) % QUEUE_LEN
      && history.queued == Ring(slots[..], head, count) && history.stats == stats
      && Balanced(history)
    }

    constructor ()
      ensures Valid() && history == Empty() && fresh(slots)
    {
      slots := new Msg[QUEUE_LEN](_ => Msg("", [], false));
      head, tail, count, stats := 0, 0, 0, Stats(0, 0, 0, 0, 0, 0);
      history := Empty();
    }

    method Enqueue(topic: Option<string>, payload: seq<Byte>, retain: bool) returns (ok: bool)
      requires Valid()
      modifies this, slots
      ensures Valid() && history == Enqueued(old(history), topic, payload, retain)
      ensures ok <==> Judge(topic, |payload|, |old(history.queued)|) == Accepted
      ensures ok <==> topic.Some? && 1 <= |topic.value| < 128 && |payload| <= 256 && |old(history.queued)| < 16
      ensures history.queued == if ok then old(history.queued) + [Msg(topic.value, payload, retain)] else old(history.queued)
    {
      hide Balanced;
      EnqueueBalanced(history, topic, payload, retain);
      WrapSucc(head + count);
      history := Enqueued(history, topic, payload, retain);
      if topic.None? || topic.value == "" {
        stats := stats.(invalidTopic := stats.invalidTopic + 1);
        return false;
      }
      if |topic.value| >= MAX_TOPIC_LEN {
        stats := stats.(topicTooLong := stats.topicTooLong + 1);
        return false;
      }
      if |payload| > MAX_PAYLOAD {
        stats := stats.(payloadTooBig := stats.payloadTooBig + 1);
        return false;
      }
      if count >= QUEUE_LEN {
        stats := stats.(full := stats.full + 1);
        return false;
      }
      var m := Msg(topic.value, payload, retain);
      RingPush(slots[..], head, count, m);
      ghost var was := slots[..];
      slots[tail] := m;
      assert slots[..] == was[tail := m];
      tail := (tail + 1) % QUEUE_LEN;
      count := count + 1;
      stats := stats.(enqueued := stats.enqueued + 1);
      return true;
    }

    /** `publishOk` is the client's answer, should it be asked; `offered` is the message it is asked to take. */
    method Drain(connected: bool, publishOk: bool) returns (offered: Option<Msg>)
      requires Valid()
      modifies this
      ensures Valid() && history == Drained(old(history), connected, publishOk)
      ensures offered == if old(history.queued) == [] || !connected then None else Some(old(history.queued[0]))
      ensures old(history.queued) != [] && connected && publishOk ==>
                history.sent == old(history.sent) + [old(history.queued[0])] && history.queued == old(history.queued)[1..]
      ensures old(history.queued) == [] || !connected || !publishOk ==> history == old(history)
    {
      if count == 0 || !connected {
        return None;
      }
      offered := Some(slots[head]);
      if !publishOk {
        return;
      }
      hide Balanced;
      RingPop(slots[..], head, count);
      NextSlot(head, count - 1);
      DrainBalanced(history, connected, publishOk);
      history := Drained(history, connected, publishOk);
      head := (head + 1) % QUEUE_LEN;
      count := count - 1;
      stats := stats.(drained := stats.drained + 1);
    }

    method Clear()
      requires Valid()
      modifies this
      ensures Valid() && history == Reset(old(history))
    {
      history := Reset(history);
      head, tail, count := 0, 0, 0;
    }
  }
}
