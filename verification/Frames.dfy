/** The length-prefixed frames of crates/peyk/src/blob_transfer.rs: a 4-byte
    big-endian length, then that many bytes. */
module Frames {
  import opened Prelude

  const U32_LIMIT := 0x1_0000_0000

  function ToBigEndian(n: nat): (b: Bytes)
    requires n < U32_LIMIT
    ensures |b| == 4
  {
    [n / 0x100_0000, n / 0x1_0000 % 0x100, n / 0x100 % 0x100, n % 0x100]
  }

  function FromBigEndian(b: Bytes): nat
    requires |b| == 4
  {
    (b[0] as int) * 0x100_0000 + (b[1] as int) * 0x1_0000 + (b[2] as int) * 0x100 + b[3] as int
  }

  lemma BigEndianRoundTrip(n: nat)
    requires n < U32_LIMIT
    ensures FromBigEndian(ToBigEndian(n)) == n
  {
    assert n / 0x1_0000 == n / 0x100_0000 * 0x100 + n / 0x1_0000 % 0x100;
    assert n / 0x100 == n / 0x1_0000 * 0x100 + n / 0x100 % 0x100;
  }

  /** Every 4-byte header is the header of exactly one length. */
  lemma BigEndianOnto(b: Bytes)
    requires |b| == 4
    ensures FromBigEndian(b) < U32_LIMIT && ToBigEndian(FromBigEndian(b)) == b
  {
    var n := FromBigEndian(b);
    assert n / 0x100 == (b[0] as int) * 0x1_0000 + (b[1] as int) * 0x100 + b[2] as int;
    assert n / 0x1_0000 == (b[0] as int) * 0x100 + b[1] as int;
    assert n / 0x100_0000 == b[0];
  }

  predicate Framable(payload: Bytes) {
    |payload| < U32_LIMIT
  }

  function Encode(payload: Bytes): (wire: Bytes)
    requires Framable(payload)
    ensures |wire| == 4 + |payload|
  {
    ToBigEndian(|payload|) + payload
  }

  /** On the wire: four bytes of length, most significant first, then the payload. */
  lemma FrameLayout(payload: Bytes)
    requires Framable(payload)
    ensures |payload| < 4_294_967_296
    ensures var w := Encode(payload);
            && w[4..] == payload
            && |payload| == w[0] as int * 16_777_216 + w[1] as int * 65_536 + w[2] as int * 256 + w[3] as int
  {
    BigEndianRoundTrip(|payload|);
  }

  /** What reading one frame off `s` comes to. `Truncated`: the stream ends inside the
      frame. `TooLong`: the header announces more than the reader accepts. */
  datatype FrameRead = Truncated | TooLong | Frame(payload: Bytes, rest: Bytes)

  function Decode(s: Bytes, maxLen: nat): FrameRead {
    if |s| < 4 then Truncated else
    var len := FromBigEndian(s[..4]);
    if len > maxLen then TooLong
    else if |s| < 4 + len then Truncated
    else Frame(s[4..4 + len], s[4 + len..])
  }

  /** The parser inverts the writer and accepts nothing else. */
  lemma DecodeExactlyEncodings(s: Bytes, maxLen: nat, payload: Bytes, rest: Bytes)
    ensures Decode(s, maxLen) == Frame(payload, rest)
            <==> |payload| <= maxLen && Framable(payload) && s == Encode(payload) + rest
  {
    if Decode(s, maxLen) == Frame(payload, rest) {
      BigEndianOnto(s[..4]);
      assert s == s[..4] + s[4..4 + |payload|] + s[4 + |payload|..];
    }
    if |payload| <= maxLen && Framable(payload) && s == Encode(payload) + rest {
      BigEndianRoundTrip(|payload|);
      assert s[..4] == ToBigEndian(|payload|);
      assert s[4..4 + |payload|] == payload;
      assert s[4 + |payload|..] == rest;
    }
  }

  lemma RoundTrip(payload: Bytes, rest: Bytes, maxLen: nat)
    requires Framable(payload) && |payload| <= maxLen
    ensures Decode(Encode(payload) + rest, maxLen) == Frame(payload, rest)
  {
    DecodeExactlyEncodings(Encode(payload) + rest, maxLen, payload, rest);
  }

  /** A frame cut anywhere is never mistaken for a frame; an oversized one is turned down
      as soon as its header is in. */
  lemma CutFrame(payload: Bytes, rest: Bytes, k: nat, maxLen: nat)
    requires Framable(payload) && k < |Encode(payload)|
    ensures var s := (Encode(payload) + rest)[..k];
            Decode(s, maxLen) == if k >= 4 && |payload| > maxLen then TooLong else Truncated
  {
    var s := (Encode(payload) + rest)[..k];
    if k >= 4 {
      assert s[..4] == ToBigEndian(|payload|);
      BigEndianRoundTrip(|payload|);
    }
  }

  lemma Oversized(payload: Bytes, rest: Bytes, maxLen: nat)
    requires Framable(payload) && |payload| > maxLen
    ensures Decode(Encode(payload) + rest, maxLen) == TooLong
  {
    assert (Encode(payload) + rest)[..4] == ToBigEndian(|payload|);
    BigEndianRoundTrip(|payload|);
  }

  /** No encoding is a prefix of another. */
  lemma PrefixFree(p: Bytes, q: Bytes, restP: Bytes, restQ: Bytes)
    requires Framable(p) && Framable(q)
    requires Encode(p) + restP == Encode(q) + restQ
    ensures p == q && restP == restQ
  {
    var max := U32_LIMIT;
    RoundTrip(p, restP, max);
    RoundTrip(q, restQ, max);
  }

  function EncodeAll(payloads: seq<Bytes>): Bytes
    requires forall p | p in payloads :: Framable(p)
  {
    if payloads == [] then [] else Encode(payloads[0]) + EncodeAll(payloads[1..])
  }

  function DecodeAll(s: Bytes, maxLen: nat): Option<seq<Bytes>>
    decreases |s|
  {
    if s == [] then Some([]) else
    match Decode(s, maxLen)
    case Frame(payload, rest) =>
      (match DecodeAll(rest, maxLen)
       case Some(others) => Some([payload] + others)
       case None => None)
    case _ => None
  }

  /** A sequence of frames has one reading, and a stream one sequence of frames. */
  lemma {:induction false} SequenceRoundTrip(payloads: seq<Bytes>, maxLen: nat)
    requires forall p | p in payloads :: Framable(p) && |p| <= maxLen
    ensures DecodeAll(EncodeAll(payloads), maxLen) == Some(payloads)
  {
    if payloads != [] {
      RoundTrip(payloads[0], EncodeAll(payloads[1..]), maxLen);
      SequenceRoundTrip(payloads[1..], maxLen);
      assert payloads == [payloads[0]] + payloads[1..];
    }
  }

  lemma {:induction false} SequenceDecodingSound(s: Bytes, maxLen: nat)
    requires DecodeAll(s, maxLen).Some?
    ensures var ps := DecodeAll(s, maxLen).value;
            (forall p | p in ps :: Framable(p) && |p| <= maxLen) && EncodeAll(ps) == s
    decreases |s|
  {
    if s != [] {
      var Frame(payload, rest) := Decode(s, maxLen);
      DecodeExactlyEncodings(s, maxLen, payload, rest);
      SequenceDecodingSound(rest, maxLen);
    }
  }

  /** One end of a duplex stream. `incoming` is everything that will still arrive before
      the stream ends; `room` is how many more bytes the link carries outwards before it
      breaks. */
  class Stream {
    var incoming: Bytes
    var outgoing: Bytes
    var room: nat

    constructor (incoming: Bytes, room: nat)
      ensures this.incoming == incoming && this.outgoing == [] && this.room == room
    {
      this.incoming, this.outgoing, this.room := incoming, [], room;
    }

    method WriteAll(bytes: Bytes) returns (ok: bool)
      modifies this`outgoing, this`room
      ensures ok <==> |bytes| <= old(room)
      ensures outgoing == old(outgoing) + bytes[..Min(|bytes|, old(room))]
      ensures room == old(room) - Min(|bytes|, old(room))
    {
      var n := Min(|bytes|, room);
      outgoing, room := outgoing + bytes[..n], room - n;
      ok := n == |bytes|;
    }

    method ReadExact(n: nat) returns (bytes: Option<Bytes>)
      modifies this`incoming
      ensures |old(incoming)| >= n ==>
                bytes == Some(old(incoming)[..n]) && incoming == old(incoming)[n..]
      ensures |old(incoming)| < n ==> bytes == None && incoming == []
    {
      if |incoming| >= n {
        bytes, incoming := Some(incoming[..n]), incoming[n..];
      } else {
        bytes, incoming := None, [];
      }
    }

    /** An unframable payload is an error before anything is written. */
    method WriteFrame(payload: Bytes) returns (ok: bool)
      modifies this`outgoing, this`room
      ensures ok <==> |payload| < 4_294_967_296 && 4 + |payload| <= old(room)
      ensures Framable(payload) ==>
                && outgoing == old(outgoing) + Encode(payload)[..Min(|Encode(payload)|, old(room))]
                && room == old(room) - Min(|Encode(payload)|, old(room))
      ensures !Framable(payload) ==> outgoing == old(outgoing) && room == old(room)
    {
      if |payload| >= U32_LIMIT {
        return false;
      }
      var header := ToBigEndian(|payload|);
      ok := WriteAll(header);
      if !ok {
        assert header[..old(room)] == Encode(payload)[..old(room)];
        return;
      }
      ok := WriteAll(payload);
      assert header[..4] == header;
      assert header + payload[..Min(|payload|, old(room) - 4)]
          == Encode(payload)[..Min(|Encode(payload)|, old(room))];
    }

    method ReadFrame(maxLen: nat) returns (payload: Option<Bytes>)
      modifies this`incoming
      ensures match Decode(old(incoming), maxLen)
              case Frame(p, rest) => payload == Some(p) && incoming == rest
              case _ => payload == None
    {
      var header := ReadExact(4);
      if header.None? {
        return None;
      }
      var len := FromBigEndian(header.value);
      if len > maxLen {
        return None;
      }
      payload := ReadExact(len);
      assert old(incoming)[4..][..Min(len, |old(incoming)| - 4)]
          == old(incoming)[4..4 + Min(len, |old(incoming)| - 4)];
      if payload.Some? {
        assert old(incoming)[4..][len..] == old(incoming)[4 + len..];
      }
    }
  }
}
