/**
 * The newline receiver of the serial transport and the publisher that feeds it.
 *
 * `Messages` says which payloads a byte stream carries, from the stream alone;
 * `LineChannel.Pump` is the byte loop with its fixed buffer, and is proved to
 * deliver exactly those, however the stream is cut into reads.
 */
module SerialLines {
  import opened Bytes

  const LF: Byte := 10
  const CR: Byte := 13
  const BUFFER: nat := 779   // sizeof(rxEnc_)
  const RAW: nat := 768      // sizeof(raw_)

  // ------------------------------------------------ what a stream contains

  /** The bytes after the last newline. */
  function Tail(s: seq<Byte>): seq<Byte> {
    if s == [] || s[|s| - 1] == LF then [] else Tail(s[..|s| - 1]) + [s[|s| - 1]]
  }

  /** The newline-terminated lines, oldest first. */
  function Lines(s: seq<Byte>): seq<seq<Byte>> {
    if s == [] then []
    else if s[|s| - 1] == LF then Lines(s[..|s| - 1]) + [Tail(s[..|s| - 1])]
    else Lines(s[..|s| - 1])
  }

  function WithoutCr(s: seq<Byte>): seq<Byte> {
    if s == [] then []
    else WithoutCr(s[..|s| - 1]) + (if s[|s| - 1] == CR then [] else [s[|s| - 1]])
  }

  function Last<T>(s: seq<T>, n: nat): seq<T>
    requires n <= |s|
  {
    s[|s| - n..]
  }

  /** What the buffer holds of a line: a full buffer is thrown away together with the byte that overflows it. */
  function Kept(line: seq<Byte>): seq<Byte> {
    var text := WithoutCr(line);
    Last(text, |text| % (BUFFER + 1))
  }

  predicate Deliverable(msg: seq<Byte>) {
    1 <= |msg| < RAW
  }

  /** The messages delivered for a list of complete lines. */
  function Messages(lines: seq<seq<Byte>>): seq<seq<Byte>> {
    if lines == [] then []
    else
      var m := Kept(lines[|lines| - 1]);
      Messages(lines[..|lines| - 1]) + (if Deliverable(m) then [m] else [])
  }

  // ----------------------------------------------------------- the channel

  class LineChannel {
    var started: bool
    const rxEnc: array<Byte>
    var rxEncLen: nat
    var rx: seq<Byte>                // bytes waiting in the UART
    var tx: seq<Byte>                // bytes written to the UART
    var delivered: seq<seq<Byte>>    // payloads handed to the callback
    ghost var received: seq<Byte>    // every byte read since start

    ghost predicate Valid()
      reads this, rxEnc
    {
      && rxEnc.Length == BUFFER && rxEncLen <= BUFFER
      && rxEnc[..rxEncLen] == Kept(Tail(received))
      && delivered == Messages(Lines(received))
    }

    constructor ()
      ensures Valid() && !started && received == [] && rx == [] && tx == [] && fresh(rxEnc)
    {
      started, rxEncLen, rx, tx, delivered, received := false, 0, [], [], [], [];
      rxEnc := new Byte[BUFFER];
    }

    /** Reads everything available; the deliveries depend only on the bytes read since the start. */
    method Pump()
      requires Valid()
      modifies this`rxEncLen, this`rx, this`delivered, this`received, rxEnc
      ensures Valid()
      ensures started ==> rx == [] && received == old(received) + old(rx)
      ensures !started ==> rx == old(rx) && received == old(received) && delivered == old(delivered)
    {
      hide Tail, Lines, Kept, Messages;
      if !started {
        return;
      }
      while |rx| > 0
        invariant Valid() && started
        invariant received + rx == old(received) + old(rx)
        decreases |rx|
      {
        var b := rx[0];
        rx := rx[1..];
        TakeByte(received, b);
        received := received + [b];
        assert received + rx == old(received) + old(rx);
        if b == CR {
          continue;
        }
        if b == LF {
          if rxEncLen > 0 {
            DecodeAndDispatch(rxEncLen);
            rxEncLen := 0;
          } else {
            rxEncLen := 0;
          }
          continue;
        }
        if rxEncLen < rxEnc.Length {
          rxEnc[rxEncLen] := b;
          rxEncLen := rxEncLen + 1;
          assert rxEnc[..rxEncLen] == rxEnc[..rxEncLen - 1] + [b];
        } else {
          rxEncLen := 0;
        }
      }
    }

    method DecodeAndDispatch(len: nat)
      requires len <= rxEnc.Length
      modifies this`delivered
      ensures delivered == old(delivered) + if Deliverable(rxEnc[..len]) then [rxEnc[..len]] else []
    {
      if len == 0 {
        return;
      }
      if len >= RAW {
        return;
      }
      delivered := delivered + [rxEnc[..len]];
    }

    /** Sends a payload as one line. */
    method Publish(payload: seq<Byte>) returns (ok: bool)
      modifies this`tx
      ensures ok == started
      ensures tx == old(tx) + if ok then payload + [LF] else []
    {
      if !started {
        return false;
      }
      if |payload| > 0 {
        tx := tx + payload;
      }
      tx := tx + [LF];
      assert payload == [] ==> payload + [LF] == [LF];
      return true;
    }
  }

  /** One byte more: how the current line and the finished lines change. */
  lemma TakeByte(s: seq<Byte>, b: Byte)
    ensures b == LF ==> Kept(Tail(s + [b])) == []
                        && Messages(Lines(s + [b])) ==
                           Messages(Lines(s)) + if Deliverable(Kept(Tail(s))) then [Kept(Tail(s))] else []
    ensures b != LF ==> Lines(s + [b]) == Lines(s)
    ensures b == CR ==> Kept(Tail(s + [b])) == Kept(Tail(s))
    ensures b != LF && b != CR ==>
              Kept(Tail(s + [b])) == if |Kept(Tail(s))| < BUFFER then Kept(Tail(s)) + [b] else []
  {
    hide Kept, Messages;
    TakeLast(s, b);
    if b == LF {
      MessagesGrow(Lines(s), Tail(s));
      EmptyLine();
    } else {
      KeptGrows(Tail(s), b);
    }
  }

  lemma TakeLast(s: seq<Byte>, b: Byte)
    ensures Tail(s + [b]) == if b == LF then [] else Tail(s) + [b]
    ensures Lines(s + [b]) == if b == LF then Lines(s) + [Tail(s)] else Lines(s)
  {
    assert (s + [b])[..|s|] == s;
  }

  lemma MessagesGrow(l: seq<seq<Byte>>, line: seq<Byte>)
    ensures Messages(l + [line]) == Messages(l) + if Deliverable(Kept(line)) then [Kept(line)] else []
  {
    hide Kept;
    assert (l + [line])[..|l|] == l;
  }

  lemma EmptyLine()
    ensures Kept([]) == []
  {}

  lemma KeptGrows(line: seq<Byte>, b: Byte)
    ensures b == CR ==> Kept(line + [b]) == Kept(line)
    ensures b != CR ==> Kept(line + [b]) == if |Kept(line)| < BUFFER then Kept(line) + [b] else []
  {
    assert (line + [b])[..|line|] == line;
    var text := WithoutCr(line);
    if b != CR {
      assert WithoutCr(line + [b]) == text + [b];
      LastGrows(text, b, |text| % (BUFFER + 1));
      NextRemainder(|text|);
    } else {
      assert WithoutCr(line + [b]) == text;
    }
  }

  lemma NextRemainder(n: nat)
    ensures (n + 1) % (BUFFER + 1) == if n % (BUFFER + 1) < BUFFER then n % (BUFFER + 1) + 1 else 0
  {}

  lemma LastGrows(text: seq<Byte>, b: Byte, k: nat)
    requires k <= |text|
    ensures Last(text + [b], k + 1) == Last(text, k) + [b] && Last(text + [b], 0) == []
  {}

  // ------------------------------------------------- what this means for users

  function Joined(lines: seq<seq<Byte>>): seq<Byte> {
    if lines == [] then [] else Joined(lines[..|lines| - 1]) + lines[|lines| - 1] + [10]
  }

  /** The stream is its lines, each closed by a newline, followed by the unfinished tail; none contains a newline. */
  lemma {:induction false} LinesPartition(s: seq<Byte>)
    ensures s == Joined(Lines(s)) + Tail(s)
    ensures 10 !in Tail(s) && forall i :: 0 <= i < |Lines(s)| ==> 10 !in Lines(s)[i]
    decreases |s|
  {
    if s != [] {
      var p, b := s[..|s| - 1], s[|s| - 1];
      LinesPartition(p);
      assert s == p + [b];
      if b == LF {
        assert Lines(s)[..|Lines(s)| - 1] == Lines(p);
        assert Joined(Lines(s)) == Joined(Lines(p)) + Tail(p) + [LF];
        assert Joined(Lines(s)) + Tail(s) == Joined(Lines(s));
      }
    }
  }

  lemma ShortLineKeptWhole(line: seq<Byte>)
    requires |WithoutCr(line)| <= BUFFER
    ensures Kept(line) == WithoutCr(line)
  {}

  lemma LineTried(line: seq<Byte>)
    ensures Messages([line]) == if Deliverable(Kept(line)) then [Kept(line)] else []
  {
    hide Kept;
    assert [line][..0] == [] && Messages([]) == [];
  }

  /** A line is delivered whole exactly when it has 1 to 767 bytes besides CR; longer than 779, its last n mod 780 bytes are tried instead. */
  lemma LineDeliveredWhole(line: seq<Byte>)
    ensures Messages([line]) == [WithoutCr(line)] <==> 1 <= |WithoutCr(line)| <= 767
    ensures var text := WithoutCr(line);
            var left := Last(text, |text| % 780);
            Messages([line]) == if 1 <= |left| <= 767 then [left] else []
  {
    hide Messages, WithoutCr;
    LineTried(line);
    var text := WithoutCr(line);
    var left := Kept(line);
    if |text| <= BUFFER {
      ShortLineKeptWhole(line);
    } else {
      assert |left| < |text| && [left][0] == left && [text][0] == text;
    }
  }

  /** The texts of lines short enough for the buffer that are delivered, in order. */
  function ShortMessages(lines: seq<seq<Byte>>): seq<seq<Byte>> {
    if lines == [] then []
    else
      var text := WithoutCr(lines[|lines| - 1]);
      ShortMessages(lines[..|lines| - 1]) + (if Deliverable(text) then [text] else [])
  }

  /** While no line overflows the buffer, the messages of a stream are exactly its lines of 1 to 767 bytes besides CR, in order. */
  lemma {:induction false} ShortLinesDelivered(lines: seq<seq<Byte>>)
    requires forall i :: 0 <= i < |lines| ==> |WithoutCr(lines[i])| <= BUFFER
    ensures Messages(lines) == ShortMessages(lines)
    decreases |lines|
  {
    if lines != [] {
      ShortLineKeptWhole(lines[|lines| - 1]);
      ShortLinesDelivered(lines[..|lines| - 1]);
    }
  }

  /** A line is cleaned of its carriage returns byte by byte. */
  lemma {:induction false} CrDropped(p: seq<Byte>, q: seq<Byte>)
    ensures WithoutCr(p + q) == WithoutCr(p) + WithoutCr(q)
    decreases |q|
  {
    hide WithoutCr;
    if q == [] {
      assert p + q == p;
      NothingWritten();
    } else {
      var n := |q| - 1;
      CrDropped(p, q[..n]);
      assert p + q == (p + q[..n]) + [q[n]] && q == q[..n] + [q[n]];
      OneByte(p + q[..n], q[n]);
      OneByte(q[..n], q[n]);
    }
  }

  lemma NothingWritten()
    ensures WithoutCr([]) == []
  {}

  lemma OneByte(s: seq<Byte>, b: Byte)
    ensures WithoutCr(s + [b]) == WithoutCr(s) + if b == 13 then [] else [b]
  {
    assert (s + [b])[..|s|] == s;
  }

  predicate Sendable(payload: seq<Byte>) {
    1 <= |payload| <= 767 && 10 !in payload && 13 !in payload
  }

  lemma {:induction false} NoCr(s: seq<Byte>)
    requires CR !in s
    ensures WithoutCr(s) == s
    decreases |s|
  {
    if s != [] {
      NoCr(s[..|s| - 1]);
    }
  }

  lemma {:induction false} AppendLine(s: seq<Byte>, line: seq<Byte>)
    requires LF !in line && Tail(s) == []
    ensures Tail(s + line) == line && Lines(s + line) == Lines(s)
    decreases |line|
  {
    if line == [] {
      assert s + line == s;
    } else {
      var p := line[..|line| - 1];
      AppendLine(s, p);
      assert (s + line)[..|s + line| - 1] == s + p;
    }
  }

  lemma EmptyStream()
    ensures Tail([]) == [] && Lines([]) == [] && Messages([]) == []
  {}

  /** Published payloads come back from the line unchanged and in order. */
  lemma {:induction false} PublishedIsDelivered(payloads: seq<seq<Byte>>)
    requires forall i :: 0 <= i < |payloads| ==> Sendable(payloads[i])
    ensures Tail(Joined(payloads)) == []
    ensures Lines(Joined(payloads)) == payloads && Messages(Lines(Joined(payloads))) == payloads
    decreases |payloads|
  {
    hide Tail, Kept, WithoutCr;
    if payloads == [] {
      EmptyStream();
    } else {
      var rest, p := payloads[..|payloads| - 1], payloads[|payloads| - 1];
      PublishedIsDelivered(rest);
      AppendLine(Joined(rest), p);
      var s := Joined(rest) + p;
      assert Joined(payloads) == s + [LF];
      TakeLast(s, LF);
      NoCr(p);
      ShortLineKeptWhole(p);
      assert payloads == rest + [p];
      MessagesGrow(rest, p);
    }
  }

  /** Chunk independence, as a client sees it: two reads deliver what one read of the whole delivers. */
  method TwoReads(a: seq<Byte>, b: seq<Byte>) returns (split: seq<seq<Byte>>, whole: seq<seq<Byte>>)
    ensures split == whole == Messages(Lines(a + b))
  {
    hide Tail, Lines, Kept, Messages;
    var c := new LineChannel();
    c.started, c.rx := true, a;
    c.Pump();
    c.rx := b;
    c.Pump();
    assert c.received == a + b;
    split := c.delivered;
    var d := new LineChannel();
    d.started, d.rx := true, a + b;
    d.Pump();
    assert d.received == a + b;
    whole := d.delivered;
  }
}
