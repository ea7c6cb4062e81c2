/**
 The write-ahead log of consensus messages: framing, decoding, repair after corruption, and the search
 for an end-of-height mark.

 A frame is a 4-byte checksum, a 4-byte big-endian length and the marshalled message. The checksum and
 the marshalling are parameters of which only their inverse relation is assumed.
 */
module Wal {
  import opened Wrappers
  import opened WalMessages

  datatype Timed = Timed(time: int, msg: WalMessage)

  /** A record as marshalled; its message may be absent. */
  datatype Record = Record(time: int, msg: Option<WalProto>)

  datatype Codec = Codec(crc: seq<byte> -> nat, marshal: Record -> seq<byte>, unmarshal: seq<byte> -> Option<Record>)

  const U32 := 0x1_0000_0000
  const MAX_MSG_SIZE_BYTES := 1048576 + 24

  ghost predicate CodecOk(c: Codec)
  {
    && (forall s: seq<byte> :: c.crc(s) < U32)
    && (forall r: Record :: r.msg.Some? ==> |c.marshal(r)| > 0)
    && (forall r: Record :: c.unmarshal(c.marshal(r)) == Some(r))
    && c.unmarshal([]) == Some(Record(0, None))
  }

  // ---- big-endian words ----

  function PutU32(n: nat): (s: seq<byte>)
    requires n < U32
    ensures |s| == 4
  {
    [n / 0x100_0000, n / 0x1_0000 % 0x100, n / 0x100 % 0x100, n % 0x100]
  }

  function GetU32(s: seq<byte>): nat
    requires |s| == 4
  {
    var a: int, b: int, c: int := s[0], s[1], s[2];
    ((a * 0x100 + b) * 0x100 + c) * 0x100 + s[3]
  }

  /** The four bytes at a position, as a big-endian number. */
  function Word(s: seq<byte>, at: nat): int
    requires at + 4 <= |s|
  {
    var a: int, b: int, c: int, d: int := s[at], s[at + 1], s[at + 2], s[at + 3];
    a * 0x100_0000 + b * 0x1_0000 + c * 0x100 + d
  }

  lemma WordIsRead(s: seq<byte>)
    requires |s| == 4
    ensures GetU32(s) == Word(s, 0)
    ensures Word([1, 2, 3, 4], 0) == 0x0102_0304
  {
  }

  lemma WordRoundTrip(n: nat)
    requires n < U32
    ensures GetU32(PutU32(n)) == n
  {
    assert n / 0x100_0000 == n / 0x1_0000 / 0x100 && n / 0x1_0000 == n / 0x100 / 0x100;
  }

  // ---- encoding ----

  function Frame(c: Codec, data: seq<byte>): seq<byte>
    requires c.crc(data) < U32 && |data| < U32
  {
    PutU32(c.crc(data)) + PutU32(|data|) + data
  }

  function RecordOf(t: Timed): Option<Record>
  {
    match WalToProto(t.msg)
    case Ok(p) => Some(Record(t.time, Some(p)))
    case _ => None
  }

  /** The bytes written for a message; none if it cannot be converted or is too long. */
  function Encode(c: Codec, t: Timed): Option<seq<byte>>
  {
    var r := RecordOf(t);
    if r.None? then None
    else
      var data := c.marshal(r.value);
      if |data| > MAX_MSG_SIZE_BYTES || c.crc(data) >= U32 then None else Some(Frame(c, data))
  }

  /** A message that is written as one frame and can be read again. */
  predicate Encodable(c: Codec, t: Timed)
  {
    WalSendable(t.msg) && Encode(c, t).Some?
  }

  function NormalTimed(t: Timed): Timed { t.(msg := WalNormal(t.msg)) }

  // ---- decoding ----

  /** What reading `n` bytes gives: the bytes, the end of the stream, or a failure. */
  datatype Read = Bytes(data: seq<byte>, rest: seq<byte>) | End | ReadFailed

  /**
   A single file fills what it has and leaves the rest of the buffer zero; it ends only when nothing is
   left. A group of files gives all the bytes or ends, and refuses an empty buffer.
   */
  function ReadN(s: seq<byte>, n: nat, group: bool): (r: Read)
    ensures r.Bytes? ==> |r.data| == n && |r.rest| <= |s| && (n > 0 ==> |r.rest| < |s|)
  {
    if group then
      if n == 0 then ReadFailed else if |s| < n then End else Bytes(s[..n], s[n..])
    else
      if n == 0 then Bytes([], s)
      else if |s| == 0 then End
      else if |s| < n then Bytes(s + seq(n - |s|, _ => 0), [])
      else Bytes(s[..n], s[n..])
  }

  datatype Decoded = Message(t: Timed, rest: seq<byte>) | Eof | Corrupt

  function DecodeData(c: Codec, crc: nat, data: seq<byte>, rest: seq<byte>): Decoded
  {
    if c.crc(data) != crc then Corrupt
    else
      match c.unmarshal(data)
      case None => Corrupt
      case Some(r) =>
        match WalFromProto(r.msg)
        case Ok(m) => Message(Timed(r.time, m), rest)
        case _ => Corrupt
  }

  function Decode(c: Codec, s: seq<byte>, group: bool): (d: Decoded)
    ensures d.Message? ==> |d.rest| < |s|
  {
    match ReadN(s, 4, group)
    case End => Eof
    case ReadFailed => Corrupt
    case Bytes(sum, s1) =>
      match ReadN(s1, 4, group)
      case End => Corrupt
      case ReadFailed => Corrupt
      case Bytes(len, s2) =>
        var length := GetU32(len);
        if length > MAX_MSG_SIZE_BYTES then Corrupt
        else
          match ReadN(s2, length, group)
          case Bytes(data, s3) => DecodeData(c, GetU32(sum), data, s3)
          case _ => Corrupt
  }

  /** The decodable messages at the front of a stream. */
  function DecodeAll(c: Codec, s: seq<byte>, group: bool): seq<Timed>
    decreases |s|
  {
    match Decode(c, s, group)
    case Message(t, rest) => [t] + DecodeAll(c, rest, group)
    case _ => []
  }

  /** What decoding stops at. */
  function DecodeEnd(c: Codec, s: seq<byte>, group: bool): Decoded
    decreases |s|
  {
    var d := Decode(c, s, group);
    if d.Message? then DecodeEnd(c, d.rest, group) else d
  }

  function Frames(c: Codec, ts: seq<Timed>): seq<byte>
  {
    if ts == [] then []
    else (if Encode(c, ts[0]).Some? then Encode(c, ts[0]).value else []) + Frames(c, ts[1..])
  }

  // ---- round trip ----

  lemma EncodedFrame(c: Codec, t: Timed)
    requires CodecOk(c) && Encode(c, t).Some?
    ensures RecordOf(t).Some?
    ensures var data := c.marshal(RecordOf(t).value);
        |data| > 0 && c.crc(data) < U32 && |data| <= MAX_MSG_SIZE_BYTES && Encode(c, t).value == Frame(c, data)
  {
  }

  lemma ReadFront(a: seq<byte>, b: seq<byte>, group: bool)
    requires |a| > 0
    ensures ReadN(a + b, |a|, group) == Bytes(a, b)
  {
    assert (a + b)[..|a|] == a && (a + b)[|a|..] == b;
  }

  lemma DecodeFrame(c: Codec, data: seq<byte>, rest: seq<byte>, group: bool)
    requires CodecOk(c) && 0 < |data| <= MAX_MSG_SIZE_BYTES && c.crc(data) < U32
    ensures Decode(c, Frame(c, data) + rest, group) == DecodeData(c, c.crc(data), data, rest)
  {
    var sum, len := PutU32(c.crc(data)), PutU32(|data|);
    assert Frame(c, data) + rest == sum + (len + (data + rest));
    ReadFront(sum, len + (data + rest), group);
    ReadFront(len, data + rest, group);
    ReadFront(data, rest, group);
    WordRoundTrip(c.crc(data));
    WordRoundTrip(|data|);
  }

  /** Decoding one encoded message gives it back in normal form, and the rest of the stream. */
  lemma DecodeEncoded(c: Codec, t: Timed, rest: seq<byte>, group: bool)
    requires CodecOk(c) && Encodable(c, t)
    ensures Decode(c, Encode(c, t).value + rest, group) == Message(NormalTimed(t), rest)
  {
    EncodedFrame(c, t);
    var data := c.marshal(RecordOf(t).value);
    DecodeFrame(c, data, rest, group);
    WalRoundTrip(t.msg);
    hide WalFromProto, WalToProto, WalSendable, WalNormal;
    assert c.unmarshal(data) == Some(RecordOf(t).value);
  }

  function Normals(ts: seq<Timed>): seq<Timed>
  {
    if ts == [] then [] else [NormalTimed(ts[0])] + Normals(ts[1..])
  }

  ghost predicate AllEncodable(c: Codec, ts: seq<Timed>)
  {
    forall i :: 0 <= i < |ts| ==> Encodable(c, ts[i])
  }

  /** Decoding a stream that starts with encoded messages gives them back, then goes on with the rest. */
  lemma {:induction false} StreamRoundTrip(c: Codec, ts: seq<Timed>, rest: seq<byte>, group: bool)
    requires CodecOk(c) && AllEncodable(c, ts)
    ensures DecodeAll(c, Frames(c, ts) + rest, group) == Normals(ts) + DecodeAll(c, rest, group)
    ensures DecodeEnd(c, Frames(c, ts) + rest, group) == DecodeEnd(c, rest, group)
  {
    if ts == [] {
      hide *;
      NoFrames(c, rest);
    } else {
      hide *;
      EncodedFirst(c, ts);
      var first, more := Encode(c, ts[0]).value, Frames(c, ts[1..]) + rest;
      DecodeEncoded(c, ts[0], more, group);
      StreamRoundTrip(c, ts[1..], rest, group);
      assert Frames(c, ts) + rest == first + more;
      DecodeNext(c, first + more, group);
      var ns, rs := Normals(ts[1..]), DecodeAll(c, rest, group);
      assert [NormalTimed(ts[0])] + (ns + rs) == [NormalTimed(ts[0])] + ns + rs;
    }
  }

  lemma NoFrames(c: Codec, rest: seq<byte>)
    ensures Frames(c, []) + rest == rest && Normals([]) == [] && forall us: seq<Timed> :: Normals([]) + us == us
  {
  }

  lemma EncodedFirst(c: Codec, ts: seq<Timed>)
    requires AllEncodable(c, ts) && ts != []
    ensures Encodable(c, ts[0]) && Encode(c, ts[0]).Some? && AllEncodable(c, ts[1..])
    ensures Frames(c, ts) == Encode(c, ts[0]).value + Frames(c, ts[1..])
    ensures Normals(ts) == [NormalTimed(ts[0])] + Normals(ts[1..])
  {
    hide Encode;
    assert Encodable(c, ts[0]);
    EncodableEncodes(c, ts[0]);
  }

  lemma DecodeNext(c: Codec, s: seq<byte>, group: bool)
    requires Decode(c, s, group).Message?
    ensures var d := Decode(c, s, group);
        DecodeAll(c, s, group) == [d.t] + DecodeAll(c, d.rest, group)
            && DecodeEnd(c, s, group) == DecodeEnd(c, d.rest, group)
  {
    hide Decode;
  }

  lemma EncodableEncodes(c: Codec, t: Timed)
    requires Encodable(c, t)
    ensures Encode(c, t).Some?
  {
  }

  // ---- what is written and read, byte by byte ----

  /** A message is written exactly if it converts and its bytes are few enough: checksum, length, bytes. */
  lemma FrameLayout(c: Codec, t: Timed)
    requires CodecOk(c)
    ensures Encode(c, t).Some? <==>
            WalToProto(t.msg).Ok? && |c.marshal(Record(t.time, Some(WalToProto(t.msg).value)))| <= 1048600
    ensures Encode(c, t).Some? ==>
              var f, data := Encode(c, t).value, c.marshal(Record(t.time, Some(WalToProto(t.msg).value)));
              && |f| == 8 + |data| && f[8..] == data
              && Word(f, 0) == c.crc(data) && Word(f, 4) == |data|
  {
    if Encode(c, t).Some? {
      var data := c.marshal(RecordOf(t).value);
      WordRoundTrip(c.crc(data));
      WordRoundTrip(|data|);
      WordIsRead(PutU32(c.crc(data)));
      WordIsRead(PutU32(|data|));
    }
    hide WalToProto, PutU32, GetU32;
  }

  /** Every sendable message of at most that many bytes is written and can be read again. */
  lemma SendableIsEncoded(c: Codec, t: Timed)
    requires CodecOk(c) && WalSendable(t.msg)
    ensures WalToProto(t.msg).Ok?
    ensures |c.marshal(Record(t.time, Some(WalToProto(t.msg).value)))| <= 1048600 ==> Encodable(c, t)
  {
    WalRoundTrip(t.msg);
    FrameLayout(c, t);
    hide Encode, WalToProto, WalFromProto, WalSendable, WalNormal;
  }

  function Zeros(n: nat): seq<byte> { seq(n, _ => 0) }

  /** The stream as a single file shows it: past its end come zeros. */
  function Extended(s: seq<byte>): (r: seq<byte>)
    ensures |r| == |s| + 8 + MAX_MSG_SIZE_BYTES
  {
    s + Zeros(8 + MAX_MSG_SIZE_BYTES)
  }

  /** The bytes of a record of `n` bytes at the front of a stream. */
  function Payload(s: seq<byte>, n: nat): seq<byte>
    requires n <= MAX_MSG_SIZE_BYTES
  {
    Extended(s)[8..8 + n]
  }

  /** The record that the first bytes announce is there and makes a message. */
  predicate Readable(c: Codec, s: seq<byte>)
  {
    var n := Word(Extended(s), 4);
    && n <= MAX_MSG_SIZE_BYTES && c.crc(Payload(s, n)) == Word(Extended(s), 0)
    && c.unmarshal(Payload(s, n)).Some? && WalFromProto(c.unmarshal(Payload(s, n)).value.msg).Ok?
  }

  lemma ReadFile(s: seq<byte>, n: nat)
    requires n <= 8 + MAX_MSG_SIZE_BYTES
    ensures var r := ReadN(s, n, false);
            if s == [] && n > 0 then r == End
            else r == Bytes(Extended(s)[..n], if n <= |s| then s[n..] else [])
  {
    if 0 < |s| < n {
      assert Extended(s)[..n] == s + seq(n - |s|, _ => 0);
    } else {
      assert n <= |s| ==> Extended(s)[..n] == s[..n];
    }
  }

  lemma RestExtended(s: seq<byte>, k: nat, n: nat)
    requires k <= 8 && n <= MAX_MSG_SIZE_BYTES
    ensures var rest := if k <= |s| then s[k..] else [];
            Extended(rest)[..n] == Extended(s)[k..k + n]
  {
    var rest := if k <= |s| then s[k..] else [];
    assert forall i :: 0 <= i < n ==> Extended(rest)[i] == Extended(s)[k + i];
  }

  /**
   What a single file reads as: the end exactly when nothing is left, a message exactly when more than the
   checksum is there and the record it announces, filled up with zeros, is one.
   */
  lemma FileReads(c: Codec, s: seq<byte>)
    ensures var d := Decode(c, s, false);
            var n := Word(Extended(s), 4);
            && (d.Eof? <==> s == [])
            && (d.Message? <==> |s| > 4 && Readable(c, s) && (n > 0 ==> |s| > 8))
            && (d.Message? ==>
                  var r := c.unmarshal(Payload(s, n)).value;
                  && d.t == Timed(r.time, WalFromProto(r.msg).value)
                  && d.rest == if 8 + n <= |s| then s[8 + n..] else [])
  {
    hide WalFromProto;
    var n := Word(Extended(s), 4);
    ReadFile(s, 4);
    WordIsRead(Extended(s)[..4]);
    WordIsRead(Extended(s)[4..8]);
    hide GetU32, Zeros;
    if s != [] {
      var s1 := if 4 <= |s| then s[4..] else [];
      ReadFile(s1, 4);
      RestExtended(s, 4, 4);
      assert Extended(s)[4..8][0] == Extended(s)[4];
      if s1 != [] {
        var s2 := if 4 <= |s1| then s1[4..] else [];
        assert s2 == if 8 <= |s| then s[8..] else [];
        if n <= MAX_MSG_SIZE_BYTES {
          ReadFile(s2, n);
          RestExtended(s, 8, n);
        }
      }
    }
  }

  /** A group of files reads the same, except that every part has to be there in full, and not be empty. */
  lemma GroupReads(c: Codec, s: seq<byte>)
    ensures var d := Decode(c, s, true);
            var n := Word(Extended(s), 4);
            && (d.Eof? <==> |s| < 4)
            && (d.Message? <==> |s| >= 8 && Readable(c, s) && n > 0 && |s| >= 8 + n)
            && (d.Message? ==>
                  var r := c.unmarshal(Payload(s, n)).value;
                  d.t == Timed(r.time, WalFromProto(r.msg).value) && d.rest == s[8 + n..])
  {
    hide WalFromProto;
    var n := Word(Extended(s), 4);
    WordIsRead(Extended(s)[..4]);
    WordIsRead(Extended(s)[4..8]);
    hide GetU32;
    if |s| >= 8 {
      assert Extended(s)[..4] == s[..4] && s[4..][..4] == s[4..8];
      assert s[4..][4..] == s[8..];
      if n <= MAX_MSG_SIZE_BYTES && |s| >= 8 + n {
        assert s[8..][..n] == s[8..8 + n] == Payload(s, n);
        assert s[8..][n..] == s[8 + n..];
      }
    }
  }

  // ---- repair ----

  class Decoder {
    const codec: Codec
    var rd: seq<byte>

    constructor (codec: Codec, rd: seq<byte>)
      ensures this.codec == codec && this.rd == rd
    {
      this.codec, this.rd := codec, rd;
    }

    /** Read the next message off a file. */
    method Next() returns (d: Decoded)
      modifies this
      ensures d == Decode(codec, old(rd), false)
      ensures d.Message? ==> rd == d.rest
    {
      d := Decode(codec, rd, false);
      rd := if d.Message? then d.rest else [];
    }
  }

  /** Copy messages until the first that cannot be read; `ok` is false if one of them could not be written back. */
  method RepairWalFile(c: Codec, src: seq<byte>) returns (ok: bool, dst: seq<byte>)
    ensures ok <==> forall i :: 0 <= i < |DecodeAll(c, src, false)| ==> Encode(c, DecodeAll(c, src, false)[i]).Some?
    ensures ok ==> dst == Frames(c, DecodeAll(c, src, false))
    ensures !ok ==>
              var all := DecodeAll(c, src, false);
              exists n :: 0 <= n < |all| && Encode(c, all[n]).None? && dst == Frames(c, all[..n])
                && forall i :: 0 <= i < n ==> Encode(c, all[i]).Some?
  {
    hide Encode, Decode;
    var dec := new Decoder(c, src);
    dst := [];
    ghost var all, done := DecodeAll(c, src, false), [];
    while true
      invariant dec.codec == c
      invariant all == done + DecodeAll(c, dec.rd, false) && dst == Frames(c, done)
      invariant forall i :: 0 <= i < |done| ==> Encode(c, done[i]).Some?
      decreases |dec.rd|
    {
      var d := dec.Next();
      if !d.Message? {
        break;
      }
      var e := Encode(c, d.t);
      if e.None? {
        assert all[|done|] == d.t && all[..|done|] == done;
        return false, dst;
      }
      FramesAppend(c, done, d.t);
      done := done + [d.t];
      dst := dst + e.value;
    }
    assert all == done && all[..|done|] == done;
    return true, dst;
  }

  lemma {:induction false} FramesAppend(c: Codec, ts: seq<Timed>, t: Timed)
    ensures Frames(c, ts + [t]) == Frames(c, ts) + (if Encode(c, t).Some? then Encode(c, t).value else [])
  {
    hide Encode;
    if ts == [] {
      assert ts + [t] == [t] && [t][1..] == [];
    } else {
      FramesAppend(c, ts[1..], t);
      assert (ts + [t])[1..] == ts[1..] + [t];
    }
  }

  /** A message that was read is sendable and in normal form. */
  lemma DecodedIsNormal(c: Codec, s: seq<byte>, group: bool)
    requires Decode(c, s, group).Message?
    ensures var t := Decode(c, s, group).t; WalSendable(t.msg) && NormalTimed(t) == t
  {
    hide WalFromProto, WalSendable, WalNormal, GetU32;
    var s1 := ReadN(s, 4, group).rest;
    var s2 := ReadN(s1, 4, group).rest;
    var data := ReadN(s2, GetU32(ReadN(s1, 4, group).data), group).data;
    WalReceived(c.unmarshal(data).value.msg);
  }

  lemma {:induction false} AllDecodedNormal(c: Codec, s: seq<byte>, group: bool)
    ensures forall i :: 0 <= i < |DecodeAll(c, s, group)| ==> WalSendable(DecodeAll(c, s, group)[i].msg)
    ensures Normals(DecodeAll(c, s, group)) == DecodeAll(c, s, group)
    decreases |s|
  {
    hide Decode, NormalTimed, WalSendable;
    var d := Decode(c, s, group);
    if d.Message? {
      DecodedIsNormal(c, s, group);
      AllDecodedNormal(c, d.rest, group);
      assert DecodeAll(c, s, group)[1..] == DecodeAll(c, d.rest, group);
    }
  }

  /**
   A repaired file is clean: it decodes to exactly the messages that could be read before, up to a
   proper end, with either kind of reader; and repairing it again changes nothing.
   */
  lemma RepairIsCleanAndIdempotent(c: Codec, src: seq<byte>, group: bool)
    requires CodecOk(c)
    requires forall i :: 0 <= i < |DecodeAll(c, src, false)| ==> Encode(c, DecodeAll(c, src, false)[i]).Some?
    ensures var dst := Frames(c, DecodeAll(c, src, false));
      && DecodeAll(c, dst, group) == DecodeAll(c, src, false)
      && DecodeEnd(c, dst, group) == Eof
      && Frames(c, DecodeAll(c, dst, false)) == dst
  {
    var ts := DecodeAll(c, src, false);
    AllDecodedNormal(c, src, false);
    assert AllEncodable(c, ts);
    StreamRoundTrip(c, ts, [], group);
    StreamRoundTrip(c, ts, [], false);
    assert Frames(c, ts) + [] == Frames(c, ts);
    assert Decode(c, [], group) == Eof && Decode(c, [], false) == Eof;
  }

  /** Normal form is what the bytes say: writing the normal form writes the same bytes. */
  lemma {:induction false} FramesOfNormals(c: Codec, ts: seq<Timed>)
    ensures Frames(c, Normals(ts)) == Frames(c, ts)
  {
    if ts != [] {
      assert WalToProto(WalNormal(ts[0].msg)) == WalToProto(ts[0].msg);
      assert Encode(c, NormalTimed(ts[0])) == Encode(c, ts[0]);
      hide Encode;
      FramesOfNormals(c, ts[1..]);
    }
  }

  /** Whatever follows a written log, repair keeps the log byte for byte and goes on with what follows. */
  lemma RepairKeepsWrittenLog(c: Codec, ts: seq<Timed>, suffix: seq<byte>)
    requires CodecOk(c) && AllEncodable(c, ts)
    ensures Frames(c, DecodeAll(c, Frames(c, ts) + suffix, false)) ==
        Frames(c, ts) + Frames(c, DecodeAll(c, suffix, false))
  {
    StreamRoundTrip(c, ts, suffix, false);
    FramesOfNormals(c, ts);
    FramesConcat(c, Normals(ts), DecodeAll(c, suffix, false));
  }

  lemma {:induction false} FramesConcat(c: Codec, ts: seq<Timed>, us: seq<Timed>)
    ensures Frames(c, ts + us) == Frames(c, ts) + Frames(c, us)
  {
    hide Encode;
    if ts == [] {
      assert ts + us == us;
    } else {
      FramesConcat(c, ts[1..], us);
      assert (ts + us)[1..] == ts[1..] + us;
    }
  }

  // ---- a log cut short ----

  function Filled(data: seq<byte>, n: nat): seq<byte>
    requires n <= |data|
  {
    data[..n] + seq(|data| - n, _ => 0)
  }

  /** The checksum tells the data of a message from the same data cut short and filled with zeros. */
  ghost predicate DetectsCuts(c: Codec, t: Timed)
  {
    RecordOf(t).Some? ==>
      var data := c.marshal(RecordOf(t).value);
      forall n :: 0 <= n < |data| && Filled(data, n) != data ==> c.crc(Filled(data, n)) != c.crc(data)
  }

  lemma CutHead(c: Codec, data: seq<byte>, k: nat)
    requires CodecOk(c) && 0 < |data| <= MAX_MSG_SIZE_BYTES && c.crc(data) < U32 && 0 < k <= 8
    ensures Decode(c, Frame(c, data)[..k], false) == Corrupt
  {
    var s := Frame(c, data)[..k];
    var r1 := ReadN(s, 4, false);
    assert r1.Bytes? && (k <= 4 ==> r1.rest == []);
    if k > 4 {
      var r2 := ReadN(r1.rest, 4, false);
      assert r2.Bytes? && r2.rest == [];
    }
  }

  lemma CutData(c: Codec, data: seq<byte>, k: nat)
    requires CodecOk(c) && 0 < |data| <= MAX_MSG_SIZE_BYTES && c.crc(data) < U32 && 8 < k < 8 + |data|
    ensures Decode(c, Frame(c, data)[..k], false) == DecodeData(c, c.crc(data), Filled(data, k - 8), [])
  {
    var sum, len, cut := PutU32(c.crc(data)), PutU32(|data|), data[..k - 8];
    assert Frame(c, data)[..k] == sum + (len + cut);
    ReadFront(sum, len + cut, false);
    ReadFront(len, cut, false);
    WordRoundTrip(c.crc(data));
    WordRoundTrip(|data|);
  }

  /** A cut frame is corrupt, unless only zeros were cut off. */
  lemma CutFrame(c: Codec, t: Timed, k: nat)
    requires CodecOk(c) && Encodable(c, t) && DetectsCuts(c, t) && 0 < k < |Encode(c, t).value|
    ensures var f := Encode(c, t).value;
      Decode(c, f[..k], false) ==
        if k > 8 && (forall i :: k <= i < |f| ==> f[i] == 0) then Message(NormalTimed(t), [])
        else Corrupt
  {
    EncodedFrame(c, t);
    var data, f := c.marshal(RecordOf(t).value), Encode(c, t).value;
    if k <= 8 {
      CutHead(c, data, k);
    } else {
      CutData(c, data, k);
      FilledIsZeroTail(data, k - 8);
      assert forall i :: k <= i < |f| ==> f[i] == data[i - 8];
      assert forall j :: k - 8 <= j < |data| ==> data[j] == f[j + 8];
      if Filled(data, k - 8) == data {
        DecodeFrame(c, data, [], false);
        DecodeEncoded(c, t, [], false);
        assert f + [] == f;
      }
    }
  }

  lemma FilledIsZeroTail(data: seq<byte>, n: nat)
    requires n <= |data|
    ensures Filled(data, n) == data <==> forall j :: n <= j < |data| ==> data[j] == 0
  {
    assert forall j :: n <= j < |data| ==> Filled(data, n)[j] == 0;
  }

  /**
   A written log cut anywhere: what is read back is the messages of the frames that are complete, and
   also the cut one exactly when it has a length and only zeros were cut off.
   */
  lemma {:induction false} CutLog(c: Codec, ts: seq<Timed>, k: nat) returns (j: nat)
    requires CodecOk(c) && AllEncodable(c, ts) && (forall i :: 0 <= i < |ts| ==> DetectsCuts(c, ts[i]))
    requires k <= |Frames(c, ts)|
    ensures j <= |ts| && DecodeAll(c, Frames(c, ts)[..k], false) == Normals(ts[..j])
    ensures j < |ts| ==> k < |Frames(c, ts[..j + 1])|
    ensures |Frames(c, ts[..j])| <= |Frames(c, ts)|
    ensures |Frames(c, ts[..j])| <= k
         || (j > 0 && |Frames(c, ts[..j - 1])| + 8 < k
             && forall i :: k <= i < |Frames(c, ts[..j])| ==> Frames(c, ts)[i] == 0)
  {
    hide Decode, Encode, Encodable, DetectsCuts;
    j := 0;
    EmptyStream(c);
    if ts == [] || k == 0 {
      assert Frames(c, ts)[..k] == [];
      if ts != [] { FirstFrame(c, ts); }
    } else {
      FirstFrame(c, ts);
      var f, more := Encode(c, ts[0]).value, Frames(c, ts[1..]);
      if k < |f| {
        assert Frames(c, ts)[..k] == f[..k];
        CutFrame(c, ts[0], k);
        if Decode(c, f[..k], false).Message? {
          j := 1;
          assert ts[..1] == [ts[0]] && ts[..0] == [];
          if |ts| > 1 {
            FramesPrefix(c, ts, 2);
            FirstFrame(c, ts[1..]);
          }
        }
      } else {
        j := CutLog(c, ts[1..], k - |f|);
        assert Frames(c, ts)[..k] == f + more[..k - |f|];
        DecodeEncoded(c, ts[0], more[..k - |f|], false);
        assert ts[..j + 1][0] == ts[0] && ts[..j + 1][1..] == ts[1..][..j];
        FramesPrefix(c, ts, j + 1);
        if j + 1 < |ts| { FramesPrefix(c, ts, j + 2); }
        if j > 0 { FramesPrefix(c, ts, j); }
        assert forall i :: k <= i < |Frames(c, ts)| ==> Frames(c, ts)[i] == more[i - |f|];
        j := j + 1;
      }
    }
  }

  lemma EmptyStream(c: Codec)
    ensures Decode(c, [], false) == Eof && DecodeAll(c, [], false) == []
  {
  }

  lemma FramesPrefix(c: Codec, ts: seq<Timed>, j: nat)
    requires CodecOk(c) && AllEncodable(c, ts) && 0 < j <= |ts|
    ensures Encode(c, ts[0]).Some? && Frames(c, ts[..j]) == Encode(c, ts[0]).value + Frames(c, ts[1..][..j - 1])
  {
    FirstFrame(c, ts);
    assert ts[..j][0] == ts[0] && ts[..j][1..] == ts[1..][..j - 1];
  }

  lemma FirstFrame(c: Codec, ts: seq<Timed>)
    requires CodecOk(c) && AllEncodable(c, ts) && ts != []
    ensures Encode(c, ts[0]).Some? && |Encode(c, ts[0]).value| > 8
    ensures Frames(c, ts) == Encode(c, ts[0]).value + Frames(c, ts[1..])
    ensures Frames(c, ts[..1]) == Encode(c, ts[0]).value && Frames(c, ts[..0]) == []
  {
    assert Encodable(c, ts[0]);
    assert ts[..1][1..] == [] && ts[..1] != [] && ts[..1][0] == ts[0];
    EncodedFrame(c, ts[0]);
  }

  // ---- searching for an end-of-height mark ----

  /** What the search sees of one record: an end-of-height mark, another message, or corruption. */
  datatype Entry = Mark(height: int) | Other | Damaged

  datatype Search = Found(rest: seq<Entry>) | NotFound | SearchFailed

  /** A reader opened on a file goes on through all later files. */
  function From(files: seq<seq<Entry>>, index: nat): seq<Entry>
    requires index <= |files|
    decreases |files| - index
  {
    if index == |files| then [] else files[index] + From(files, index + 1)
  }

  /** Marks above zero increase along the log; a mark of zero may come at the head of any file. */
  ghost predicate MarksIncrease(log: seq<Entry>)
  {
    forall i, j :: 0 <= i < j < |log| && log[i].Mark? && log[j].Mark? && log[i].height > 0 && log[j].height > 0 ==>
        log[i].height < log[j].height
  }

  /** The height of the last mark. */
  function LastMark(log: seq<Entry>): Option<int>
  {
    if log == [] then None
    else if log[|log| - 1].Mark? then Some(log[|log| - 1].height)
    else LastMark(log[..|log| - 1])
  }

  /** The last height seen, as the search keeps it. */
  function Seen(last: Option<int>, before: int): int { if last.Some? then last.value else before }

  lemma {:induction false} LastMarkIs(log: seq<Entry>)
    ensures LastMark(log).None? <==> forall i :: 0 <= i < |log| ==> !log[i].Mark?
    ensures LastMark(log).Some? ==>
              exists i :: 0 <= i < |log| && log[i] == Mark(LastMark(log).value)
                  && forall j :: i < j < |log| ==> !log[j].Mark?
  {
    if log != [] && !log[|log| - 1].Mark? {
      LastMarkIs(log[..|log| - 1]);
    }
  }

  lemma {:induction false} FromSuffix(files: seq<seq<Entry>>, index: nat)
    requires index <= |files|
    ensures |From(files, index)| <= |From(files, 0)|
    ensures From(files, 0)[|From(files, 0)| - |From(files, index)|..] == From(files, index)
    decreases index
  {
    if index > 0 {
      FromSuffix(files, index - 1);
      var all, up, here := From(files, 0), From(files, index - 1), From(files, index);
      assert up[|files[index - 1]|..] == here;
      assert all[|all| - |up|..][|files[index - 1]|..] == all[|all| - |here|..];
    }
  }

  /** A smaller last mark rules out the height in the whole log. */
  lemma EarlierMarksAreSmaller(log: seq<Entry>, tail: seq<Entry>, height: int)
    requires |tail| <= |log| && log[|log| - |tail|..] == tail && MarksIncrease(log)
    requires LastMark(tail).Some? && 0 < LastMark(tail).value < height
    ensures Mark(height) !in log
  {
    LastMarkIs(tail);
    var i :| 0 <= i < |tail| && tail[i] == Mark(LastMark(tail).value) && forall j :: i < j < |tail| ==> !tail[j].Mark?;
    var at := |log| - |tail| + i;
    assert log[at] == tail[i];
    forall k | 0 <= k < |log| ensures log[k] != Mark(height) {
      if k > at {
        assert log[k] == tail[k - (|log| - |tail|)];
      }
    }
  }

  /** The log from a file on was read through without finding the height, nor damage that counts. */
  ghost predicate Clean(log: seq<Entry>, height: int, ignoreDamage: bool)
  {
    Mark(height) !in log && (!ignoreDamage ==> Damaged !in log)
  }

  /** Reading a log stops right behind the mark, or at damage that counts, with nothing of the kind before. */
  ghost predicate StopsAt(log: seq<Entry>, n: int, height: int, ignoreDamage: bool, r: Search)
  {
    && 0 <= n < |log| && Clean(log[..n], height, ignoreDamage)
    && if r.Found? then log[n] == Mark(height) && r.rest == log[n + 1..]
       else r.SearchFailed? && log[n] == Damaged && !ignoreDamage
  }

  /** The last mark of a log is smaller: nothing older need be read. */
  predicate GivesUp(log: seq<Entry>, height: int)
  {
    LastMark(log).Some? && 0 < LastMark(log).value < height
  }

  /** How the search ends: reading from file `index` on, all later files having been read through before. */
  ghost predicate EndsAt(files: seq<seq<Entry>>, index: nat, height: int, ignoreDamage: bool, r: Search)
  {
    && index <= |files| && (forall i :: index < i <= |files| ==> !GivesUp(From(files, i), height))
    && if r.NotFound? then
         && Clean(From(files, index), height, ignoreDamage)
         && (index == 0 || GivesUp(From(files, index), height))
       else
         && index < |files| && Clean(From(files, index + 1), height, ignoreDamage)
         && exists n :: StopsAt(From(files, index), n, height, ignoreDamage, r)
  }

  /**
   Scan file by file from the newest, giving up early on a smaller mark. Over increasing marks the answer
   is that of a full scan, unless damage is met first; the reader is left right behind the mark.
   */
  method SearchForEndHeight(files: seq<seq<Entry>>, height: int, ignoreDamage: bool) returns (r: Search)
    requires MarksIncrease(From(files, 0))
    ensures exists index :: EndsAt(files, index, height, ignoreDamage, r)
    ensures r.NotFound? ==> Mark(height) !in From(files, 0)
    ensures r.Found? ==>
              exists n :: 0 <= n < |From(files, 0)| && From(files, 0)[n] == Mark(height)
                  && r.rest == From(files, 0)[n + 1..]
    ensures r.SearchFailed? ==> !ignoreDamage && Damaged in From(files, 0)
  {
    hide StopsAt;
    var lastHeightFound := -1;
    ghost var all := From(files, 0);
    var index := |files|;
    while index > 0
      invariant 0 <= index <= |files|
      invariant lastHeightFound == Seen(LastMark(From(files, index)), -1)
      invariant Clean(From(files, index), height, ignoreDamage)
      invariant forall i :: index <= i <= |files| ==> !GivesUp(From(files, i), height)
    {
      index := index - 1;
      var log := From(files, index);
      FromSuffix(files, index);
      var scanned;
      scanned, lastHeightFound := ScanLog(log, height, ignoreDamage, lastHeightFound);
      if !scanned.NotFound? {
        ScannedInAll(all, log, scanned, height, ignoreDamage);
        assert EndsAt(files, index, height, ignoreDamage, scanned);
        return scanned;
      }
      if LastMark(log).None? {
        NoMarks(files, index);
      }
      if lastHeightFound > 0 && lastHeightFound < height {
        EarlierMarksAreSmaller(all, log, height);
        assert EndsAt(files, index, height, ignoreDamage, NotFound);
        return NotFound;
      }
    }
    assert EndsAt(files, 0, height, ignoreDamage, NotFound);
    return NotFound;
  }

  /** Read a log to its end, or to the mark. */
  method ScanLog(log: seq<Entry>, height: int, ignoreDamage: bool, before: int) returns (r: Search, last: int)
    ensures r.NotFound? ==> Clean(log, height, ignoreDamage) && last == Seen(LastMark(log), before)
    ensures !r.NotFound? ==> exists n :: StopsAt(log, n, height, ignoreDamage, r)
  {
    last := before;
    var n := 0;
    while n < |log|
      invariant n <= |log|
      invariant last == Seen(LastMark(log[..n]), before)
      invariant Clean(log[..n], height, ignoreDamage)
    {
      assert log[..n + 1][..n] == log[..n];
      if log[n].Damaged? && !ignoreDamage {
        assert StopsAt(log, n, height, ignoreDamage, SearchFailed);
        return SearchFailed, last;
      }
      if log[n].Mark? {
        last := log[n].height;
        if log[n].height == height {
          assert StopsAt(log, n, height, ignoreDamage, Found(log[n + 1..]));
          return Found(log[n + 1..]), last;
        }
      }
      assert log[..n + 1] == log[..n] + [log[n]];
      n := n + 1;
    }
    assert log[..|log|] == log;
    return NotFound, last;
  }

  /** What is found in the tail of a log is found in the log. */
  lemma ScannedInAll(all: seq<Entry>, tail: seq<Entry>, r: Search, height: int, ignoreDamage: bool)
    requires |tail| <= |all| && all[|all| - |tail|..] == tail
    requires exists n :: StopsAt(tail, n, height, ignoreDamage, r)
    ensures r.Found? ==> exists n :: 0 <= n < |all| && all[n] == Mark(height) && r.rest == all[n + 1..]
    ensures r.SearchFailed? ==> !ignoreDamage && Damaged in all
  {
    var skip := |all| - |tail|;
    var n :| StopsAt(tail, n, height, ignoreDamage, r);
    assert all[skip + n] == tail[n] && all[skip + n + 1..] == tail[n + 1..];
  }

  lemma NoMarks(files: seq<seq<Entry>>, index: nat)
    requires index < |files| && LastMark(From(files, index)).None?
    ensures LastMark(From(files, index + 1)).None?
  {
    var here, later := From(files, index), From(files, index + 1);
    LastMarkIs(here);
    LastMarkIs(later);
    assert forall i :: 0 <= i < |later| ==> later[i] == here[|files[index]| + i];
  }
}
