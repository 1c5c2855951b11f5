/** The mesh wire format, [2B big-endian length][1B type][payload] per frame, and its reader
    (relay-node/mesh/protocol.go, relay-node/mesh/dispatcher.go). */
module Framing {

  type Byte = x: int | 0 <= x < 256

  type Bytes = seq<Byte>

  const PUBKEY_LEN := 32
  const MAX_FRAME := 65535
  const FRAME_HELLO: Byte := 1
  const FRAME_DATAGRAM: Byte := 2

  type Pubkey = k: Bytes | |k| == PUBKEY_LEN witness seq(PUBKEY_LEN, _ => 0)

  /** Go's conversion to uint16. */
  function Uint16(n: nat): nat {
    n % 0x1_0000
  }

  function PutUint16(n: nat): Bytes
    requires n < 0x1_0000
  {
    [n / 256, n % 256]
  }

  function GetUint16(b: Bytes): nat
    requires |b| == 2
  {
    (b[0] as int) * 256 + b[1] as int
  }

  /** A frame as a client writes it: its length field is computed in uint16. */
  function FrameBytes(kind: Byte, payload: Bytes): Bytes {
    PutUint16(Uint16(1 + |payload|)) + [kind] + payload
  }

  datatype ReadResult =
    | Frame(kind: Byte, payload: Bytes, rest: Bytes)
    | EndOfStream
    | OutOfRange

  /** What one readFrame makes of the bytes of a stream that ends there. */
  function ReadOne(s: Bytes): ReadResult {
    if |s| < 2 then EndOfStream
    else
      var n := GetUint16(s[..2]);
      if n < 1 || n > MAX_FRAME then OutOfRange
      else if |s| < 2 + n then EndOfStream
      else Frame(s[2], s[3..2 + n], s[2 + n..])
  }

  /** A connection's incoming bytes. */
  class Stream {
    var unread: Bytes

    constructor (bytes: Bytes)
      ensures unread == bytes
    {
      unread := bytes;
    }

    /** Reads exactly `n` bytes, or all there are and fails. */
    method ReadFull(n: nat) returns (ok: bool, buf: Bytes)
      modifies this
      ensures ok <==> n <= |old(unread)|
      ensures ok ==> buf == old(unread)[..n] && unread == old(unread)[n..]
      ensures !ok ==> unread == []
    {
      if n <= |unread| {
        ok, buf := true, unread[..n];
        unread := unread[n..];
      } else {
        ok, buf := false, unread;
        unread := [];
      }
    }

    method ReadFrame() returns (r: ReadResult)
      modifies this
      ensures r == ReadOne(old(unread))
      ensures r.Frame? ==> unread == r.rest
    {
      ghost var s := unread;
      var ok, lenBuf := ReadFull(2);
      if !ok {
        return EndOfStream;
      }
      var frameLen := GetUint16(lenBuf);
      if frameLen < 1 || frameLen > MAX_FRAME {
        return OutOfRange;
      }
      var body;
      ok, body := ReadFull(frameLen);
      if !ok {
        return EndOfStream;
      }
      assert body == s[2..2 + frameLen];
      r := Frame(body[0], body[1..], unread);
    }
  }

  // ---- Round trips ----

  /** The layout of a frame: two bytes of length, the more significant first, counting the type and payload
      after them; then the type; then the payload. */
  lemma FrameLayout(kind: Byte, payload: Bytes)
    requires |payload| < 65535
    ensures var f := FrameBytes(kind, payload);
            && |f| == 3 + |payload| && f[0] as int * 256 + f[1] as int == 1 + |payload|
            && f[2] == kind && f[3..] == payload
  {
  }

  /** A frame whose payload fits is read back unchanged, whatever follows it; a longer one never is:
      its length wraps. */
  lemma ReadBack(kind: Byte, payload: Bytes, rest: Bytes)
    ensures ReadOne(FrameBytes(kind, payload) + rest) == Frame(kind, payload, rest) <==> |payload| < MAX_FRAME
  {
  }

  /** Conversely, any bytes read as a frame are exactly that frame's bytes: the format is canonical. */
  lemma ReadIsCanonical(s: Bytes)
    requires ReadOne(s).Frame?
    ensures var f := ReadOne(s); |f.payload| < MAX_FRAME && s == FrameBytes(f.kind, f.payload) + f.rest
  {
    var f := ReadOne(s);
    var n := GetUint16(s[..2]);
    assert Uint16(1 + |f.payload|) == n;
    assert PutUint16(n) == s[..2];
    assert s == s[..2] + [s[2]] + s[3..2 + n] + s[2 + n..];
  }

  /** The only length out of range is zero: no two-byte length exceeds the maximum. */
  lemma OutOfRangeIffZero(s: Bytes)
    ensures ReadOne(s).OutOfRange? <==> |s| >= 2 && s[0] == 0 && s[1] == 0
  {
  }

  /** Cut a frame anywhere before its end and the reader sees only the end of the stream. */
  lemma CutFrameEndsStream(kind: Byte, payload: Bytes, k: nat)
    requires |payload| < MAX_FRAME && k < |FrameBytes(kind, payload)|
    ensures ReadOne(FrameBytes(kind, payload)[..k]).EndOfStream?
  {
  }

  datatype Message = Message(kind: Byte, payload: Bytes)

  /** The frames a reader gets out of a stream before its first error. */
  function ReadAll(s: Bytes): seq<Message>
    decreases |s|
  {
    match ReadOne(s)
    case Frame(kind, payload, rest) => [Message(kind, payload)] + ReadAll(rest)
    case _ => []
  }

  function Concat(ms: seq<Message>): Bytes {
    if ms == [] then []
    else Concat(ms[..|ms| - 1]) + FrameBytes(ms[|ms| - 1].kind, ms[|ms| - 1].payload)
  }

  ghost predicate Fits(ms: seq<Message>) {
    forall m :: m in ms ==> |m.payload| < MAX_FRAME
  }

  /** Frames written back to back, then cut off anywhere, parse to exactly those frames. */
  lemma {:induction false} ReadAllOfConcat(ms: seq<Message>, tail: Bytes)
    requires Fits(ms) && ReadOne(tail).EndOfStream?
    ensures ReadAll(Concat(ms) + tail) == ms
  {
    ReadAllAfter(ms, tail);
    assert ReadAll(tail) == [];
  }

  lemma {:induction false} ReadAllAfter(ms: seq<Message>, rest: Bytes)
    requires Fits(ms)
    ensures ReadAll(Concat(ms) + rest) == ms + ReadAll(rest)
  {
    if ms == [] {
      assert Concat(ms) + rest == rest;
      assert ms + ReadAll(rest) == ReadAll(rest);
    } else {
      hide FrameBytes, ReadOne, ReadAll;
      var front, m := ms[..|ms| - 1], ms[|ms| - 1];
      LastFrame(ms, rest);
      hide Concat;
      ReadAllOne(m, rest);
      ReadAllAfter(front, FrameBytes(m.kind, m.payload) + rest);
      LastMessage(ms, ReadAll(rest));
    }
  }

  lemma LastFrame(ms: seq<Message>, rest: Bytes)
    requires ms != []
    ensures var m := ms[|ms| - 1]; Concat(ms) + rest == Concat(ms[..|ms| - 1]) + (FrameBytes(m.kind, m.payload) + rest)
  {
    hide FrameBytes;
  }

  lemma LastMessage(ms: seq<Message>, more: seq<Message>)
    requires ms != []
    ensures ms[..|ms| - 1] + ([ms[|ms| - 1]] + more) == ms + more
  {
  }

  lemma ReadAllOne(m: Message, rest: Bytes)
    requires |m.payload| < MAX_FRAME
    ensures ReadAll(FrameBytes(m.kind, m.payload) + rest) == [m] + ReadAll(rest)
  {
    ReadBack(m.kind, m.payload, rest);
    hide FrameBytes, ReadOne;
  }

  // ---- The rewrite on the way through the dispatcher ----

  /** The header forward writes in front of `size` bytes of ciphertext. */
  function ForwardHeader(src: Pubkey, size: nat): Bytes {
    PutUint16(Uint16(1 + PUBKEY_LEN + size)) + [FRAME_DATAGRAM] + src
  }

  /** For every readable DATAGRAM long enough to forward, what is written is a frame of the same
      length that reads back as the sender's key and the untouched ciphertext. */
  lemma ForwardedFrame(s: Bytes, src: Pubkey, rest: Bytes)
    requires ReadOne(s).Frame? && |ReadOne(s).payload| > PUBKEY_LEN
    ensures var wg := ReadOne(s).payload[PUBKEY_LEN..];
            var out := ForwardHeader(src, |wg|) + wg;
            && out == FrameBytes(FRAME_DATAGRAM, src + wg)
            && out[..2] == s[..2]
            && ReadOne(out + rest) == Frame(FRAME_DATAGRAM, src + wg, rest)
  {
    var f := ReadOne(s);
    ReadIsCanonical(s);
    var wg := f.payload[PUBKEY_LEN..];
    assert |src + wg| == |f.payload|;
    assert ForwardHeader(src, |wg|) + wg == FrameBytes(FRAME_DATAGRAM, src + wg);
    assert FrameBytes(f.kind, f.payload)[..2] == PutUint16(Uint16(1 + |f.payload|));
    ReadBack(FRAME_DATAGRAM, src + wg, rest);
  }
}
