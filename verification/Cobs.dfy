/**
 * Consistent-overhead byte stuffing, as the serial transport frames it.
 *
 * `Encode` and `Decode` describe the code block by block; the two methods are
 * the in-place index loops and are proved to compute exactly those functions,
 * including when they give up for lack of room.
 */
module Cobs {
  import opened Bytes

  const MAX_RUN: nat := 254

  /** Length of the longest zero-free prefix of `s`, cut at 254 bytes. */
  function Run(s: seq<Byte>): (k: nat)
    ensures k <= |s| && k <= MAX_RUN
    ensures ZeroFree(s[..k])
    ensures k < |s| && k < MAX_RUN ==> s[k] == 0
  {
    RunFrom(s, 0)
  }

  function RunFrom(s: seq<Byte>, i: nat): (k: nat)
    requires i <= |s| && i <= MAX_RUN && ZeroFree(s[..i])
    ensures i <= k <= |s| && k <= MAX_RUN
    ensures ZeroFree(s[..k])
    ensures k < |s| && k < MAX_RUN ==> s[k] == 0
    decreases |s| - i
  {
    if i < |s| && i < MAX_RUN && s[i] != 0 then
      assert forall j :: 0 <= j < i ==> s[j] == s[..i][j];
      RunFrom(s, i + 1)
    else i
  }

  /** One block per run: its code byte, the run, then the rest of the input. */
  function Encode(s: seq<Byte>): seq<Byte>
    decreases |s|
  {
    var k := Run(s);
    if k == MAX_RUN then [255] + s[..k] + Encode(s[k..])
    else if k == |s| then [(k + 1) as Byte] + s
    else [(k + 1) as Byte] + s[..k] + Encode(s[k + 1..])
  }

  /** Undoes the blocks from left to right; a zero or a truncated block is malformed. */
  function Decode(f: seq<Byte>): Option<seq<Byte>>
    decreases |f|
  {
    if f == [] then Some([])
    else
      var code := f[0];
      if code == 0 || |f| < code as int then None
      else
        var data, rest := f[1..code as int], f[code as int..];
        if rest == [] then Some(data)
        else
          match Decode(rest)
          case None => None
          case Some(d) => Some(data + (if code == 255 then [] else [0]) + d)
  }

  // ------------------------------------------------------------------ laws

  lemma DecodeBlock(code: Byte, data: seq<Byte>, rest: seq<Byte>)
    requires code as int == |data| + 1
    ensures Decode([code] + data + rest) ==
            if rest == [] then Some(data)
            else Prepend(data + (if code == 255 then [] else [0]), Decode(rest))
  {
    var f := [code] + data + rest;
    assert f[0] == code && f[1..code as int] == data && f[code as int..] == rest;
  }

  lemma {:induction false} DecodeEncode(s: seq<Byte>)
    ensures Encode(s) != [] && Decode(Encode(s)) == Some(s)
    decreases |s|
  {
    hide Decode;
    var k := Run(s);
    if k == MAX_RUN {
      DecodeEncode(s[k..]);
      DecodeBlock(255, s[..k], Encode(s[k..]));
      assert s[..k] + [] + s[k..] == s;
    } else if k < |s| {
      DecodeEncode(s[k + 1..]);
      DecodeBlock((k + 1) as Byte, s[..k], Encode(s[k + 1..]));
      assert s[..k] + [0] + s[k + 1..] == s;
    } else {
      DecodeBlock((k + 1) as Byte, s, []);
      assert [(k + 1) as Byte] + s + [] == [(k + 1) as Byte] + s;
    }
  }

  /** Whatever was sent before, a block that opens with zero or is cut off makes the frame malformed. */
  lemma MalformedRefused(s: seq<Byte>, bad: seq<Byte>)
    requires |s| < 254 && ZeroFree(s) && bad != [] && (bad[0] == 0 || |bad| < bad[0] as int)
    ensures Decode(bad) == None && Decode([(|s| + 1) as Byte] + s + bad) == None
  {
    DecodeBlock((|s| + 1) as Byte, s, bad);
  }

  lemma {:induction false} EncodeZeroFree(s: seq<Byte>)
    ensures ZeroFree(Encode(s))
    decreases |s|
  {
    var k := Run(s);
    if k == MAX_RUN {
      EncodeZeroFree(s[k..]);
      ZeroFreeConcat([255] + s[..k], Encode(s[k..]));
    } else if k < |s| {
      EncodeZeroFree(s[k + 1..]);
      ZeroFreeConcat([(k + 1) as Byte] + s[..k], Encode(s[k + 1..]));
    } else {
      assert s[..k] == s;
    }
  }

  lemma ZeroFreeConcat(a: seq<Byte>, b: seq<Byte>)
    requires ZeroFree(b)
    requires forall i :: 0 <= i < |a| ==> a[i] != 0
    ensures ZeroFree(a + b)
  {}

  /** Overhead: at least one byte, at most one more per 254 bytes; exactly that without zeros. */
  lemma {:induction false} EncodeLength(s: seq<Byte>)
    ensures |s| + 1 <= |Encode(s)| <= |s| + 1 + |s| / 254
    ensures ZeroFree(s) ==> |Encode(s)| == |s| + 1 + |s| / 254
    decreases |s|
  {
    var k := Run(s);
    if k == MAX_RUN {
      EncodeLength(s[k..]);
    } else if k < |s| {
      EncodeLength(s[k + 1..]);
    }
  }

  /** Different payloads have different encodings. */
  lemma EncodeInjective(s: seq<Byte>, t: seq<Byte>)
    requires Encode(s) == Encode(t)
    ensures s == t
  {
    DecodeEncode(s);
    DecodeEncode(t);
  }

  // --------------------------------------------------- block-completion steps

  lemma RunOf(p: seq<Byte>, rest: seq<Byte>)
    requires ZeroFree(p) && |p| <= MAX_RUN
    requires |p| == MAX_RUN || rest == [] || rest[0] == 0
    ensures Run(p + rest) == |p|
  {
    var s := p + rest;
    var k := Run(s);
    assert forall i :: 0 <= i < |p| ==> s[i] == p[i];
    assert forall i :: 0 <= i < k ==> s[..k][i] == s[i];
    assert |p| < |s| ==> s[|p|] == rest[0];
  }

  /** A run of fewer than 254 bytes up to a zero is its length plus one, and the run; the zero is left out. */
  lemma CloseAtZero(p: seq<Byte>, rest: seq<Byte>)
    requires ZeroFree(p) && |p| < 254 && rest != [] && rest[0] == 0
    ensures Encode(p + rest) == [(|p| + 1) as Byte] + p + Encode(rest[1..])
  {
    RunOf(p, rest);
    assert (p + rest)[..|p|] == p && (p + rest)[|p| + 1..] == rest[1..];
  }

  /** A run of 254 bytes is 255 and the run, whatever follows. */
  lemma CloseFull(p: seq<Byte>, rest: seq<Byte>)
    requires ZeroFree(p) && |p| == 254
    ensures Encode(p + rest) == [255] + p + Encode(rest)
  {
    RunOf(p, rest);
    assert (p + rest)[..|p|] == p && (p + rest)[|p|..] == rest;
  }

  /** A last run is closed as if a zero followed. */
  lemma CloseAtEnd(p: seq<Byte>)
    requires ZeroFree(p) && |p| < 254
    ensures Encode(p) == [(|p| + 1) as Byte] + p
  {
    assert p + [] == p;
    RunOf(p, []);
  }

  /**
   * The state of the encoding loop. `out` is what has been written, with a slot
   * at `codeAt` for the code byte of the open block; `rest` is still unread.
   * Closing the open block over `rest` yields the code of the whole input.
   */
  ghost predicate Encoding(data: seq<Byte>, out: seq<Byte>, codeAt: nat, code: Byte, rest: seq<Byte>) {
    && codeAt < |out| && |out| == codeAt + code as int && 1 <= code < 255
    && ZeroFree(out[codeAt + 1..])
    && Encode(data) == out[..codeAt] + Encode(out[codeAt + 1..] + rest)
  }

  lemma ReadZero(data: seq<Byte>, out: seq<Byte>, codeAt: nat, code: Byte, rest: seq<Byte>, slot: Byte)
    requires Encoding(data, out, codeAt, code, rest) && rest != [] && rest[0] == 0
    ensures Encoding(data, out[codeAt := code] + [slot], |out|, 1, rest[1..])
    ensures |Encode(data)| > |out|
  {
    hide Encode;
    var pending := out[codeAt + 1..];
    var out' := out[codeAt := code] + [slot];
    CloseAtZero(pending, rest);
    assert out'[..|out|] == out[..codeAt] + ([code] + pending);
    assert out'[|out| + 1..] + rest[1..] == rest[1..];
    assert Encode(data) == out'[..|out|] + Encode(rest[1..]);
    EncodeLength(rest[1..]);
  }

  lemma ReadByte(data: seq<Byte>, out: seq<Byte>, codeAt: nat, code: Byte, rest: seq<Byte>)
    requires Encoding(data, out, codeAt, code, rest) && rest != [] && rest[0] != 0
    ensures |Encode(data)| > |out|
    ensures code < 254 ==> Encoding(data, out + [rest[0]], codeAt, code + 1, rest[1..])
    ensures code == 254 ==> |out + [rest[0]]| == codeAt + 255 && ZeroFree((out + [rest[0]])[codeAt + 1..])
                            && Encode(data) == (out + [rest[0]])[..codeAt] + Encode((out + [rest[0]])[codeAt + 1..] + rest[1..])
  {
    hide Encode;
    var pending := out[codeAt + 1..];
    var out' := out + [rest[0]];
    assert out'[..codeAt] == out[..codeAt] && out'[codeAt + 1..] == pending + [rest[0]];
    assert pending + rest == pending + [rest[0]] + rest[1..];
    EncodeLength(pending + rest);
  }

  lemma FillBlock(data: seq<Byte>, out: seq<Byte>, codeAt: nat, rest: seq<Byte>, slot: Byte)
    requires |out| == codeAt + 255 && ZeroFree(out[codeAt + 1..])
    requires Encode(data) == out[..codeAt] + Encode(out[codeAt + 1..] + rest)
    ensures Encoding(data, out[codeAt := 255] + [slot], |out|, 1, rest)
    ensures |Encode(data)| > |out|
  {
    hide Encode;
    var pending := out[codeAt + 1..];
    var out' := out[codeAt := 255] + [slot];
    CloseFull(pending, rest);
    assert out'[..|out|] == out[..codeAt] + ([255] + pending);
    assert out'[|out| + 1..] + rest == rest;
    assert Encode(data) == out'[..|out|] + Encode(rest);
    EncodeLength(rest);
  }

  lemma Finish(data: seq<Byte>, out: seq<Byte>, codeAt: nat, code: Byte)
    requires Encoding(data, out, codeAt, code, [])
    ensures out[codeAt := code] == Encode(data)
  {
    hide Encode;
    var pending := out[codeAt + 1..];
    assert pending + [] == pending;
    CloseAtEnd(pending);
    assert out[codeAt := code] == out[..codeAt] + ([code] + pending);
  }

  // ------------------------------------------------------------- the loops

  /** Encodes `input[..length]` into `output`; 0 when the code would not leave one spare byte. */
  method CobsEncode(input: array?<Byte>, length: nat, output: array?<Byte>, outMax: nat) returns (n: nat)
    requires input != null ==> length <= input.Length
    requires output != null ==> outMax <= output.Length
    requires input != null ==> input != output
    modifies output
    ensures n == if input == null || output == null || outMax < 2 || |Encode(input[..length])| >= outMax
                 then 0 else |Encode(input[..length])|
    ensures n > 0 ==> n <= output.Length && output[..n] == Encode(input[..length])
  {
    hide Encode;
    if input == null || output == null || outMax < 2 {
      return 0;
    }
    var read, write, codeAt := 0, 1, 0;
    var code: Byte := 1;
    ghost var data := input[..length];
    assert Encoding(data, output[..1], 0, 1, data) by {
      assert output[..1][..0] + Encode(output[..1][1..] + data) == Encode(data) by {
        assert output[..1][1..] + data == data;
      }
    }
    while read < length
      invariant read <= length && codeAt < write < outMax
      invariant input[..length] == data
      invariant Encoding(data, output[..write], codeAt, code, data[read..])
    {
      ghost var out, rest := output[..write], data[read..];
      assert rest[0] == input[read] && rest[1..] == data[read + 1..];
      if input[read] == 0 {
        output[codeAt] := code;
        ReadZero(data, out, codeAt, code, rest, output[write]);
        assert output[..write + 1] == out[codeAt := code] + [output[write]];
        code := 1;
        codeAt, write := write, write + 1;
        if write >= outMax {
          return 0;
        }
        read := read + 1;
      } else {
        ReadByte(data, out, codeAt, code, rest);
        output[write] := input[read];
        assert output[..write + 1] == out + [rest[0]];
        write, read := write + 1, read + 1;
        if write >= outMax {
          return 0;
        }
        code := code + 1;
        if code == 255 {
          FillBlock(data, output[..write], codeAt, data[read..], output[write]);
          out := output[..write];
          output[codeAt] := code;
          assert output[..write + 1] == out[codeAt := code] + [output[write]];
          code := 1;
          codeAt, write := write, write + 1;
          if write >= outMax {
            return 0;
          }
        }
      }
    }
    assert data[read..] == [];
    Finish(data, output[..write], codeAt, code);
    ghost var out := output[..write];
    output[codeAt] := code;
    assert output[..write] == out[codeAt := code];
    return write;
  }

  /** Decodes `input[..length]`; 0 for a malformed frame, for one that does not fit, or for an empty payload. */
  method CobsDecode(input: array?<Byte>, length: nat, output: array?<Byte>, outMax: nat) returns (n: nat)
    requires input != null ==> length <= input.Length
    requires output != null ==> outMax <= output.Length
    requires input != null ==> input != output
    modifies output
    ensures input == null || output == null || length == 0 ==> n == 0
    ensures input != null && output != null && length > 0 ==>
              n == match Decode(input[..length])
                   case None => 0
                   case Some(d) => if |d| <= outMax then |d| else 0
    ensures n > 0 ==> input != null && output != null && n <= output.Length
                      && Decode(input[..length]) == Some(output[..n])
  {
    hide Decode;
    if input == null || output == null || length == 0 {
      return 0;
    }
    var read, write := 0, 0;
    ghost var frame := input[..length];
    assert frame[0..] == frame && Prepend(output[..0], Decode(frame)) == Decode(frame) by {
      if Decode(frame).Some? {
        assert [] + Decode(frame).value == Decode(frame).value;
      }
    }
    while read < length
      invariant read <= length && write <= outMax
      invariant input[..length] == frame
      invariant Decode(frame) == Prepend(output[..write], Decode(frame[read..]))
    {
      ghost var sofar, rest := output[..write], frame[read..];
      var code := input[read];
      assert code == rest[0];
      DecodeHead(rest);
      if code == 0 {
        return 0;
      }
      read := read + 1;
      ghost var base, start := write, read;
      var i := 1;
      while i < code as int
        invariant 1 <= i <= code as int && write <= outMax
        invariant read == start + i - 1 <= length && write == base + i - 1
        invariant input[..length] == frame
        invariant output[..write] == sofar + rest[1..i]
      {
        if read >= length || write >= outMax {
          return 0;
        }
        assert rest[i] == frame[read];
        assert rest[1..i + 1] == rest[1..i] + [frame[read]];
        output[write] := input[read];
        assert output[..write] == sofar + rest[1..i];
        assert output[..write + 1] == output[..write] + [frame[read]];
        write, read := write + 1, read + 1;
        i := i + 1;
      }
      assert rest[code as int..] == frame[read..];
      if code != 255 && read < length {
        if write >= outMax {
          return 0;
        }
        output[write] := 0;
        assert output[..write] == sofar + rest[1..code as int];
        assert output[..write + 1] == sofar + rest[1..code as int] + [0];
        write := write + 1;
      }
      PrependStep(sofar, rest, code);
      assert sofar + rest[1..code as int] + [] == sofar + rest[1..code as int];
    }
    assert frame[read..] == [] && output[..write] + [] == output[..write];
    DecodeBlocksDone();
    return write;
  }

  /** A block whose code byte is zero or reaches past the end spoils the frame; a sound one adds its bytes. */
  lemma DecodeHead(rest: seq<Byte>)
    requires rest != []
    ensures rest[0] == 0 || |rest| < rest[0] as int ==> Decode(rest) == None
    ensures Decode(rest).Some? ==>
              |Decode(rest).value| >= rest[0] as int - 1 + (if rest[0] != 255 && (rest[0] as int) < |rest| then 1 else 0)
  {}

  lemma DecodeBlocksDone()
    ensures Decode([]) == Some([])
  {}

  /** The result of a frame of which `done` has already been written. */
  ghost function Prepend(done: seq<Byte>, rest: Option<seq<Byte>>): Option<seq<Byte>> {
    match rest
    case None => None
    case Some(d) => Some(done + d)
  }

  lemma PrependStep(done: seq<Byte>, rest: seq<Byte>, code: Byte)
    requires rest != [] && code == rest[0] && 1 <= code as int <= |rest|
    ensures Prepend(done, Decode(rest))
         == Prepend(done + rest[1..code as int] + (if code != 255 && (code as int) < |rest| then [0] else []), Decode(rest[code as int..]))
  {
    hide Decode;
    var data, tail := rest[1..code as int], rest[code as int..];
    assert rest == [code] + data + tail;
    DecodeBlock(code, data, tail);
    var z: seq<Byte> := if code != 255 && (code as int) < |rest| then [0] else [];
    if tail == [] {
      DecodeBlocksDone();
      assert done + data + z + [] == done + data;
    } else if Decode(tail).Some? {
      assert done + (data + z + Decode(tail).value) == done + data + z + Decode(tail).value;
    }
  }

  // ------------------------------------------------- 0x00-terminated frames

  /** What the port carries: every encoded message followed by 0x00. */
  function Wire(msgs: seq<seq<Byte>>): seq<Byte> {
    if msgs == [] then [] else Encode(msgs[0]) + [0] + Wire(msgs[1..])
  }

  /** Cuts a byte stream at its zeros; an unterminated tail is dropped. */
  function Split(wire: seq<Byte>, acc: seq<Byte>): seq<seq<Byte>>
    decreases |wire|
  {
    if wire == [] then []
    else if wire[0] == 0 then [acc] + Split(wire[1..], [])
    else Split(wire[1..], acc + [wire[0]])
  }

  lemma {:induction false} SplitOne(f: seq<Byte>, tail: seq<Byte>, acc: seq<Byte>)
    requires ZeroFree(f)
    ensures Split(f + [0] + tail, acc) == [acc + f] + Split(tail, [])
    decreases |f|
  {
    var w := f + [0] + tail;
    if f == [] {
      assert w[1..] == tail && acc + f == acc;
    } else {
      assert w[1..] == f[1..] + [0] + tail;
      assert forall i :: 0 <= i < |f[1..]| ==> f[1..][i] == f[i + 1];
      SplitOne(f[1..], tail, acc + [f[0]]);
      assert acc + [f[0]] + f[1..] == acc + f;
    }
  }

  /** Terminated frames are recovered one for one, and each decodes to the message it carried. */
  lemma {:induction false} WireSplits(msgs: seq<seq<Byte>>)
    ensures |Split(Wire(msgs), [])| == |msgs|
    ensures forall i :: 0 <= i < |msgs| ==> Decode(Split(Wire(msgs), [])[i]) == Some(msgs[i])
  {
    if msgs != [] {
      EncodeZeroFree(msgs[0]);
      SplitOne(Encode(msgs[0]), Wire(msgs[1..]), []);
      assert [] + Encode(msgs[0]) == Encode(msgs[0]);
      DecodeEncode(msgs[0]);
      WireSplits(msgs[1..]);
      forall i | 0 <= i < |msgs| ensures Decode(Split(Wire(msgs), [])[i]) == Some(msgs[i]) {
        if i > 0 {
          assert msgs[i] == msgs[1..][i - 1];
        }
      }
    }
  }
}
