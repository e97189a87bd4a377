/**
 * The binary frame of the serial transport: a fixed header, topic, payload and
 * CRC, COBS-encoded and terminated by 0x00. `SerialSender.SendFrame` builds the
 * frame in its two fixed buffers; `Parse` is the reader the layout calls for.
 */
module Frame {
  import opened Bytes
  import opened Crc
  import Cobs

  const FRAME_VER: Byte := 1
  const MAX_RAW_FRAME: nat := 768
  const MAX_ENC_FRAME: nat := 779
  const HEADER: nat := 15

  /** A message id. */
  type Id = v: int | 0 <= v < U32

  /** `topic` is `None` for a null pointer; a null or empty payload is the empty sequence. */
  datatype Message = Message(kind: Byte, retain: bool, origin: Byte, hops: Byte, id: Id,
                             topic: seq<Byte>, payload: seq<Byte>)

  // --------------------------------------------------- little-endian fields

  function U16Le(v: nat): (b: seq<Byte>)
    ensures |b| == 2
  {
    [(v % 256) as Byte, (v / 256 % 256) as Byte]
  }

  function U32Le(v: nat): (b: seq<Byte>)
    ensures |b| == 4
  {
    U16Le(v % 65536) + U16Le(v / 65536)
  }

  function ReadU16Le(b: seq<Byte>): nat
    requires |b| == 2
  {
    b[0] as nat + 256 * b[1] as nat
  }

  function ReadU32Le(b: seq<Byte>): nat
    requires |b| == 4
  {
    ReadU16Le(b[..2]) + 65536 * ReadU16Le(b[2..])
  }

  lemma U16RoundTrip(v: nat)
    requires v < 65536
    ensures ReadU16Le(U16Le(v)) == v
  {
    assert v / 256 % 256 == v / 256;
  }

  lemma U32RoundTrip(v: nat)
    requires v < 0x1_0000_0000
    ensures ReadU32Le(U32Le(v)) == v
  {
    U16RoundTrip(v % 65536);
    U16RoundTrip(v / 65536);
    assert U32Le(v)[..2] == U16Le(v % 65536) && U32Le(v)[2..] == U16Le(v / 65536);
  }

  // ------------------------------------------------------------ the layout

  function Header(m: Message): (h: seq<Byte>)
    ensures |h| == HEADER
  {
    [FRAME_VER, m.kind, if m.retain then 1 else 0, m.origin, m.hops]
    + U32Le(m.id) + U16Le(|m.topic|) + U32Le(|m.payload|)
  }

  function Body(m: Message): seq<Byte> {
    Header(m) + m.topic + m.payload
  }

  function CrcValue(data: seq<Byte>): (v: nat)
    ensures v < 65536
  {
    assert Pow2(16) == 65536 by {
      assert Pow2(8) == 256;
      assert Pow2(12) == 4096;
    }
    FromBits(Crc16(data))
  }

  function Raw(m: Message): seq<Byte> {
    Body(m) + U16Le(CrcValue(Body(m)))
  }

  /** Room in the raw buffer is the only size limit. */
  predicate Fits(m: Message) {
    HEADER + |m.topic| + |m.payload| + 2 <= MAX_RAW_FRAME
  }

  /** Reads a frame back: version, lengths and CRC must all agree. */
  function Parse(raw: seq<Byte>): Option<Message> {
    if |raw| < HEADER + 2 then None
    else
      var body := raw[..|raw| - 2];
      if raw[0] != FRAME_VER || raw[2] > 1 || ReadU16Le(raw[|raw| - 2..]) != CrcValue(body) then None
      else
        var topicLen, payloadLen := ReadU16Le(raw[9..11]), ReadU32Le(raw[11..15]);
        if HEADER + topicLen + payloadLen != |body| then None
        else Some(Message(raw[1], raw[2] == 1, raw[3], raw[4], ReadU32Le(raw[5..9]),
                          body[HEADER..HEADER + topicLen], body[HEADER + topicLen..]))
  }

  lemma FieldsOf(m: Message, raw: seq<Byte>)
    requires raw == Raw(m)
    ensures |raw| == HEADER + |m.topic| + |m.payload| + 2
    ensures raw[0] == FRAME_VER && raw[1] == m.kind && raw[2] == (if m.retain then 1 else 0)
    ensures raw[3] == m.origin && raw[4] == m.hops
    ensures raw[5..9] == U32Le(m.id) && raw[9..11] == U16Le(|m.topic|) && raw[11..15] == U32Le(|m.payload|)
    ensures raw[..|raw| - 2] == Body(m) && raw[|raw| - 2..] == U16Le(CrcValue(Body(m)))
  {
    hide CrcValue, U32Le, U16Le;
    var h := Header(m);
    var five: seq<Byte> := [FRAME_VER, m.kind, if m.retain then 1 else 0, m.origin, m.hops];
    assert h[5..9] == U32Le(m.id) && h[9..11] == U16Le(|m.topic|) && h[11..15] == U32Le(|m.payload|);
    assert h[..5] == five;
    assert raw[..15] == h;
    assert raw[5..9] == raw[..15][5..9] && raw[9..11] == raw[..15][9..11] && raw[11..15] == raw[..15][11..15];
    assert raw[..5] == five;
  }

  /** The bytes of a frame by position, numbers low byte first, in at most 768 bytes. */
  lemma LayoutOf(m: Message)
    requires Fits(m)
    ensures var raw, t, n := Raw(m), |m.topic|, |Raw(m)|;
            && n == 15 + t + |m.payload| + 2 <= 768
            && raw[0] == 1 && raw[1] == m.kind && raw[2] == (if m.retain then 1 else 0) && raw[3] == m.origin && raw[4] == m.hops
            && raw[5] as int + 0x100 * raw[6] as int + 0x1_0000 * raw[7] as int + 0x100_0000 * raw[8] as int == m.id
            && raw[9] as int + 0x100 * raw[10] as int == t
            && raw[11] as int + 0x100 * raw[12] as int + 0x1_0000 * raw[13] as int + 0x100_0000 * raw[14] as int == |m.payload|
            && raw[15..15 + t] == m.topic && raw[15 + t..n - 2] == m.payload
            && BitsOf(raw[n - 1]) + BitsOf(raw[n - 2]) == Crc16(raw[..n - 2])
  {
    hide Crc16, U32Le, U16Le, Raw, CrcValue, BitsOf;
    var raw, t, n := Raw(m), |m.topic|, |Raw(m)|;
    FieldsOf(m, raw);
    U32RoundTrip(m.id);
    U16RoundTrip(t);
    U32RoundTrip(|m.payload|);
    U16RoundTrip(CrcValue(Body(m)));
    ReadBytes(raw, 5);
    ReadBytes(raw, 11);
    assert raw[9..11] == [raw[9], raw[10]];
    CrcAgrees(Body(m), raw[n - 2..]);
    var crc := Crc16(Body(m));
    assert crc == crc[..8] + crc[8..];
    assert raw[15..15 + t] == raw[..n - 2][15..15 + t] == m.topic && raw[15 + t..n - 2] == raw[..n - 2][15 + t..] == m.payload;
  }

  lemma ReadBytes(raw: seq<Byte>, p: nat)
    requires p + 4 <= |raw|
    ensures ReadU32Le(raw[p..p + 4]) ==
            raw[p] as int + 0x100 * raw[p + 1] as int + 0x1_0000 * raw[p + 2] as int + 0x100_0000 * raw[p + 3] as int
  {
    var b := raw[p..p + 4];
    assert b[..2] == [raw[p], raw[p + 1]] && b[2..] == [raw[p + 2], raw[p + 3]];
  }

  /** A frame reads back as the message it was built from. */
  lemma ParseRaw(m: Message)
    requires Fits(m)
    ensures Parse(Raw(m)) == Some(m)
  {
    hide Raw, CrcValue, U16Le, U32Le, ReadU16Le, ReadU32Le;
    var raw := Raw(m);
    FieldsOf(m, raw);
    U32RoundTrip(m.id);
    U16RoundTrip(|m.topic|);
    U32RoundTrip(|m.payload|);
    U16RoundTrip(CrcValue(Body(m)));
    assert Body(m)[HEADER..HEADER + |m.topic|] == m.topic;
    assert Body(m)[HEADER + |m.topic|..] == m.payload;
  }

  /** A frame whose body was changed inside two adjacent bytes is refused. */
  lemma CorruptBodyRefused(m: Message, p: seq<Byte>, x: seq<Byte>, y: seq<Byte>, q: seq<Byte>)
    requires Body(m) == p + x + q && |x| == |y| <= 2 && x != y
    ensures Parse(p + y + q + U16Le(CrcValue(Body(m)))) == None
  {
    hide Crc16, U16Le;
    CrcDetectsTwoBytes(p, x, y, q);
    CrcValueInjective(p + x + q, p + y + q);
    var raw := p + y + q + U16Le(CrcValue(Body(m)));
    assert raw[..|raw| - 2] == p + y + q && raw[|raw| - 2..] == U16Le(CrcValue(Body(m)));
    U16RoundTrip(CrcValue(Body(m)));
  }

  /** The change of two bytes across the end of the body that the CRC does not see. */
  ghost predicate Blind(m: Message, t: seq<Byte>)
    requires |t| == |Raw(m)|
  {
    var raw, n := Raw(m), |Raw(m)|;
    && |m.topic| + |m.payload| > 0
    && Xor(BitsOf(raw[n - 3]), BitsOf(t[n - 3])) == BLIND_BYTE && Xor(BitsOf(raw[n - 2]), BitsOf(t[n - 2])) == BLIND_CRC
  }

  /**
   * A frame changed inside two adjacent bytes, wherever they lie, is refused
   * exactly unless they are the last of the body and the first of the CRC, changed
   * by 0x89 and 0xA1.
   */
  lemma CorruptFrameRefused(m: Message, t: seq<Byte>, i: nat)
    requires Fits(m) && |t| == |Raw(m)| && t != Raw(m) && i + 2 <= |t| && t[..i] == Raw(m)[..i] && t[i + 2..] == Raw(m)[i + 2..]
    ensures Parse(t) == None <==> !(i == |t| - 3 && Blind(m, t))
  {
    hide Crc16, U16Le, CrcValue, Body, Parse;
    var raw, n := Raw(m), |t|;
    BodyEnds(m);
    if i + 2 <= n - 2 {
      var body := Body(m);
      assert body[..i] == t[..i] && t[..n - 2][i + 2..] == body[i + 2..] by {
        assert t[i + 2..] == raw[i + 2..];
        assert t[..n - 2][i + 2..] == t[i + 2..][..n - 4 - i] && raw[..n - 2][i + 2..] == raw[i + 2..][..n - 4 - i];
      }
      var p, x, y, q := t[..i], body[i..i + 2], t[i..i + 2], body[i + 2..];
      assert body == p + x + q;
      assert t == p + y + q + t[n - 2..];
      assert t[n - 2..] == raw[n - 2..] by {
        assert t[n - 2..] == t[i + 2..][n - 4 - i..] && raw[n - 2..] == raw[i + 2..][n - 4 - i..];
      }
      assert raw == p + x + q + raw[n - 2..];
      CorruptBodyRefused(m, p, x, y, q);
    } else if i == n - 2 {
      assert t[..n - 2] == Body(m);
      SameBody(m, t);
    } else {
      assert t[n - 1..] == raw[n - 1..] && t[..n - 3] == raw[..n - 3];
      AcrossTheEnd(m, t);
    }
  }

  lemma BodyEnds(m: Message)
    ensures var raw := Raw(m);
            && |raw| == HEADER + |m.topic| + |m.payload| + 2 && |Body(m)| == |raw| - 2
            && raw[..|raw| - 2] == Body(m) && raw[|raw| - 2..] == U16Le(CrcValue(Body(m)))
  {
    FieldsOf(m, Raw(m));
  }

  /** With the body as it was, only the stored CRC that belongs to it is accepted. */
  lemma SameBody(m: Message, t: seq<Byte>)
    requires |t| == |Raw(m)| && t[..|t| - 2] == Body(m) && t != Raw(m)
    ensures Parse(t) == None
  {
    hide CrcValue, Body, U16Le;
    BodyEnds(m);
    var n := |t|;
    U16RoundTrip(CrcValue(Body(m)));
    var a, b := t[n - 2..], U16Le(CrcValue(Body(m)));
    assert t == t[..n - 2] + a && Raw(m) == Body(m) + b;
    ReadInjective(a, b);
  }

  lemma ReadInjective(a: seq<Byte>, b: seq<Byte>)
    requires |a| == |b| == 2
    ensures ReadU16Le(a) == ReadU16Le(b) ==> a == b
  {}

  /** The stored CRC in halves. */
  lemma CrcAgrees(data: seq<Byte>, tail: seq<Byte>)
    requires |tail| == 2
    ensures ReadU16Le(tail) == CrcValue(data) <==>
            BitsOf(tail[1]) == Crc16(data)[..8] && BitsOf(tail[0]) == Crc16(data)[8..]
  {
    hide Crc16, FromBits, ToBits, Pow2;
    var crc := Crc16(data);
    HalvesOf(crc);
    FromBitsRoundTrip(crc[..8]);
    FromBitsRoundTrip(crc[8..]);
    EightBitsOf(tail[0]);
    EightBitsOf(tail[1]);
    var hi, lo := FromBits(crc[..8]), FromBits(crc[8..]);
    assert ReadU16Le(tail) == hi * 256 + lo <==> tail[1] as nat == hi && tail[0] as nat == lo;
  }

  lemma EightBitsOf(b: Byte)
    ensures FromBits(BitsOf(b)) == b as nat
  {
    assert Pow2(8) == 256;
    BitsRoundTrip(b as int, 8);
  }

  /** The layout of a frame does not depend on its last body byte, unless that byte is part of the header. */
  lemma SameLayout(m: Message, t: seq<Byte>)
    requires |t| == |Raw(m)| && t[..|t| - 3] == Raw(m)[..|t| - 3]
    requires |m.topic| + |m.payload| > 0 && Fits(m)
    ensures Parse(t) == None <==> ReadU16Le(t[|t| - 2..]) != CrcValue(t[..|t| - 2])
  {
    hide CrcValue, U32Le, U16Le, ReadU16Le, ReadU32Le, Raw;
    var raw, n := Raw(m), |t|;
    FieldsOf(m, raw);
    U16RoundTrip(|m.topic|);
    U32RoundTrip(|m.payload|);
    assert n - 3 >= HEADER;
    assert t[..n - 3][9..11] == t[9..11] && raw[..n - 3][9..11] == raw[9..11];
    assert t[..n - 3][11..15] == t[11..15] && raw[..n - 3][11..15] == raw[11..15];
    assert t[0] == t[..n - 3][0] == raw[0] && t[2] == t[..n - 3][2] == raw[2];
  }

  /** A frame without topic and payload ends in its length field, which no longer fits once it is changed. */
  lemma BareFrame(m: Message, t: seq<Byte>)
    requires |t| == |Raw(m)| && t[..|t| - 3] == Raw(m)[..|t| - 3] && t[|t| - 3] != Raw(m)[|t| - 3]
    requires m.topic == [] && m.payload == []
    ensures Parse(t) == None
  {
    hide CrcValue, Raw;
    var raw := Raw(m);
    FieldsOf(m, raw);
    assert raw[11..15] == [0, 0, 0, 0];
    assert raw[14] == raw[11..15][3] == 0;
    assert t[11..15][3] == t[14] && t[14] > 0;
    assert ReadU32Le(t[11..15]) >= 0x100_0000 by {
      assert t[11..15][2..][1] == t[14];
    }
  }

  /** The two bytes on either side of the end of the body. */
  lemma AcrossTheEnd(m: Message, t: seq<Byte>)
    requires Fits(m) && |t| == |Raw(m)| && t != Raw(m) && t[..|t| - 3] == Raw(m)[..|t| - 3] && t[|t| - 1..] == Raw(m)[|t| - 1..]
    ensures Parse(t) == None <==> !Blind(m, t)
  {
    hide Crc16, U16Le, CrcValue, Body, Parse, Raw, BitsOf, Xor;
    BodyEnds(m);
    var raw, n := Raw(m), |t|;
    var p, b, e := raw[..n - 3], raw[n - 3], t[n - 3];
    assert Body(m) == p + [b] && t[..n - 2] == p + [e];
    XorSelf(b, e);
    if b == e {
      assert t[..n - 2] == Body(m);
      SameBody(m, t);
      assert Zeros(8)[0] != BLIND_BYTE[0];
    } else if |m.topic| + |m.payload| == 0 {
      BareFrame(m, t);
    } else {
      SameLayout(m, t);
      U16RoundTrip(CrcValue(Body(m)));
      assert raw[n - 2..] == [raw[n - 2], raw[n - 1]] && t[n - 2..] == [t[n - 2], t[n - 1]];
      assert t[n - 1] == t[n - 1..][0] && raw[n - 1] == raw[n - 1..][0];
      StoredCrc(p, b, e, raw[n - 1], raw[n - 2], t[n - 2]);
    }
  }

  /** With another last byte `e` the stored CRC `low`, `high` becomes right by one change of `low` only, if by any. */
  lemma StoredCrc(p: seq<Byte>, b: Byte, e: Byte, high: Byte, low: Byte, changed: Byte)
    requires b != e && ReadU16Le([low, high]) == CrcValue(p + [b])
    ensures ReadU16Le([changed, high]) == CrcValue(p + [e]) <==>
            Xor(BitsOf(b), BitsOf(e)) == BLIND_BYTE && Xor(BitsOf(low), BitsOf(changed)) == BLIND_CRC
  {
    hide Crc16, CrcValue, ReadU16Le, BitsOf, Xor, Serial;
    CrcAgrees(p + [b], [low, high]);
    CrcAgrees(p + [e], [changed, high]);
    LastByte(p, b, e);
    XorSelf(b, e);
    ByteDifference(Xor(BitsOf(b), BitsOf(e)));
    HalvesDiffer(Crc16(p + [b]), Crc16(p + [e]), BitsOf(changed));
  }

  lemma XorSelf(b: Byte, e: Byte)
    ensures Xor(BitsOf(b), BitsOf(e)) == Zeros(8) <==> b == e
  {
    hide BitsOf;
    var x, y := BitsOf(b), BitsOf(e);
    if Xor(x, y) == Zeros(8) {
      forall i | 0 <= i < 8 ensures x[i] == y[i] {
        assert Xor(x, y)[i] == Zeros(8)[i];
      }
      BitsOfInjective(b, e);
    }
  }

  /** Equal high halves mean no difference there, and a byte equals the other low half when its difference does. */
  lemma HalvesDiffer(a: Reg, c: Reg, low: seq<bool>)
    requires |low| == 8
    ensures a[..8] == c[..8] <==> Xor(a, c)[..8] == Zeros(8)
    ensures low == c[8..] <==> Xor(a[8..], low) == Xor(a, c)[8..]
  {
    if Xor(a, c)[..8] == Zeros(8) {
      forall i | 0 <= i < 8 ensures a[..8][i] == c[..8][i] {
        assert Xor(a, c)[..8][i] == Zeros(8)[i];
      }
    }
    if Xor(a[8..], low) == Xor(a, c)[8..] {
      forall i | 0 <= i < 8 ensures low[i] == c[8..][i] {
        assert Xor(a[8..], low)[i] == Xor(a, c)[8..][i];
      }
    }
  }

  lemma CrcValueInjective(a: seq<Byte>, b: seq<Byte>)
    ensures CrcValue(a) == CrcValue(b) ==> Crc16(a) == Crc16(b)
  {
    hide Crc16;
    FromBitsRoundTrip(Crc16(a));
    FromBitsRoundTrip(Crc16(b));
  }

  lemma {:induction false} FromBitsRoundTrip(b: seq<bool>)
    ensures ToBits(FromBits(b), |b|) == b
    decreases |b|
  {
    if b != [] {
      FromBitsRoundTrip(b[..|b| - 1]);
      assert b == b[..|b| - 1] + [b[|b| - 1]];
    }
  }

  /** The encoded buffer always has room for a frame that fits the raw buffer. */
  lemma EncodingFits(raw: seq<Byte>)
    requires |raw| <= MAX_RAW_FRAME
    ensures 0 < |Cobs.Encode(raw)| < MAX_ENC_FRAME
  {
    Cobs.EncodeLength(raw);
  }

  // ------------------------------------------------------------ the sender

  class SerialSender {
    var started: bool
    var port: seq<Byte>  // everything written to the UART
    const raw: array<Byte>
    const enc: array<Byte>

    ghost predicate Valid()
      reads this
    {
      raw.Length == MAX_RAW_FRAME && enc.Length == MAX_ENC_FRAME && raw != enc
    }

    constructor ()
      ensures Valid() && !started && port == [] && fresh(raw) && fresh(enc)
    {
      started, port := false, [];
      raw := new Byte[MAX_RAW_FRAME];
      enc := new Byte[MAX_ENC_FRAME];
    }

    /** Writes `bytes` at `p`; everything before `p` stays. */
    method Put(p: nat, bytes: seq<Byte>)
      requires Valid() && p + |bytes| <= raw.Length
      modifies raw
      ensures raw[..p + |bytes|] == old(raw[..p]) + bytes
    {
      for i := 0 to |bytes|
        invariant raw[..p + i] == old(raw[..p]) + bytes[..i]
      {
        raw[p + i] := bytes[i];
        assert raw[..p + i] == old(raw[..p]) + bytes[..i];
        assert raw[..p + i + 1] == raw[..p + i] + [bytes[i]];
      }
    }

    /** Lays header, topic and payload out in the raw buffer. */
    method FillBody(m: Message) returns (p: nat)
      requires Valid() && Fits(m)
      modifies raw
      ensures p == |Body(m)| && raw[..p] == Body(m)
    {
      hide U16Le, U32Le;
      Put(0, [FRAME_VER, m.kind, if m.retain then 1 else 0, m.origin, m.hops]);
      assert raw[..0] == [];
      Put(5, U32Le(m.id));
      Put(9, U16Le(|m.topic|));
      Put(11, U32Le(|m.payload|));
      assert raw[..HEADER] == Header(m);
      Put(HEADER, m.topic);
      p := HEADER + |m.topic|;
      if |m.payload| > 0 {
        Put(p, m.payload);
        p := p + |m.payload|;
      } else {
        assert Body(m) == Header(m) + m.topic;
      }
    }

    /** Succeeds exactly for a started port, a topic, and a message that fits; encoding never fails. */
    method SendFrame(topic: Option<seq<Byte>>, m: Message) returns (ok: bool)
      requires Valid() && (topic.Some? ==> topic.value == m.topic)
      modifies this`port, raw, enc
      ensures Valid() && started == old(started)
      ensures ok <==> started && topic.Some? && 17 + |m.topic| + |m.payload| <= 768
      ensures port == old(port) + if ok then Cobs.Encode(Raw(m)) + [0] else []
    {
      hide Raw, Cobs.Encode, Crc16, CrcBytes;
      if !started || topic.None? {
        return false;
      }
      var totalRaw := HEADER + |m.topic| + |m.payload| + 2;
      if totalRaw > raw.Length {
        return false;
      }
      var p := FillBody(m);
      var crc := Crc16CcittFalse(raw, p);
      Put(p, CrcBytes(crc));
      p := p + 2;
      RawIs(m, crc);
      EncodingFits(Raw(m));
      var encLen := Cobs.CobsEncode(raw, p, enc, enc.Length);
      if encLen == 0 {
        return false;
      }
      port := port + enc[..encLen];
      port := port + [0];
      return true;
    }
  }

  /** The register as the two bytes `write_u16_le` stores. */
  function CrcBytes(crc: Reg): (b: seq<Byte>)
    ensures |b| == 2
  {
    assert Pow2(8) == 256;
    [FromBits(crc[8..]) as Byte, FromBits(crc[..8]) as Byte]
  }

  lemma {:induction false} FromBitsConcat(p: seq<bool>, q: seq<bool>)
    ensures FromBits(p + q) == FromBits(p) * Pow2(|q|) + FromBits(q)
    decreases |q|
  {
    hide Pow2;
    if q == [] {
      assert p + q == p;
      PowerZero();
    } else {
      var q' := q[..|q| - 1];
      assert (p + q)[..|p + q| - 1] == p + q' && (p + q)[|p + q| - 1] == q[|q| - 1];
      FromBitsConcat(p, q');
      DoublePower(FromBits(p), |q|);
    }
  }

  lemma PowerZero()
    ensures Pow2(0) == 1
  {}

  lemma DoublePower(f: nat, n: nat)
    requires n > 0
    ensures f * Pow2(n) == 2 * (f * Pow2(n - 1))
  {}

  lemma RawIs(m: Message, crc: Reg)
    requires crc == Crc16(Body(m))
    ensures Raw(m) == Body(m) + CrcBytes(crc)
  {
    hide Crc16, Body, FromBits, Pow2;
    var hi, lo := FromBits(crc[..8]), FromBits(crc[8..]);
    HalvesOf(crc);
    BytesOf(hi, lo);
  }

  lemma HalvesOf(crc: Reg)
    ensures FromBits(crc) == FromBits(crc[..8]) * 256 + FromBits(crc[8..])
    ensures FromBits(crc[..8]) < 256 && FromBits(crc[8..]) < 256
  {
    hide FromBits;
    assert Pow2(8) == 256;
    assert crc == crc[..8] + crc[8..];
    FromBitsConcat(crc[..8], crc[8..]);
  }

  lemma BytesOf(hi: nat, lo: nat)
    requires hi < 256 && lo < 256
    ensures U16Le(hi * 256 + lo) == [lo as Byte, hi as Byte]
  {
    var v := hi * 256 + lo;
    assert v % 256 == lo && v / 256 == hi;
  }

  // --------------------------------------------------- what a reader receives

  function Raws(ms: seq<Message>): (r: seq<seq<Byte>>)
    ensures |r| == |ms| && forall i :: 0 <= i < |ms| ==> r[i] == Raw(ms[i])
  {
    seq(|ms|, i requires 0 <= i < |ms| => Raw(ms[i]))
  }

  /** A reader that cuts the line at zeros, decodes and parses gets every message sent, in order. */
  lemma FramesReceived(ms: seq<Message>)
    requires forall i :: 0 <= i < |ms| ==> Fits(ms[i])
    ensures var frames := Cobs.Split(Cobs.Wire(Raws(ms)), []);
            |frames| == |ms|
            && forall i :: 0 <= i < |ms| ==> Cobs.Decode(frames[i]).Some? && Parse(Cobs.Decode(frames[i]).value) == Some(ms[i])
  {
    hide Parse, Raw, Cobs.Decode;
    Cobs.WireSplits(Raws(ms));
    forall i | 0 <= i < |ms| ensures Parse(Raws(ms)[i]) == Some(ms[i]) {
      ParseRaw(ms[i]);
    }
  }
}
