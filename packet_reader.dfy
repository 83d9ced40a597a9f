/**
 * Length-prefixed packet framing: a 4-byte big-endian length, then that
 * many bytes of body, handed to the packet handler. The connection is the
 * sequence of results its successive reads return; the handler's calls
 * are recorded in order. Read deadlines are not modelled.
 */
module PacketReader {
  import opened Wrappers
  import opened GoMath

  type Byte = x: int | 0 <= x < 256

  const LengthNeedSize: nat := 4
  const MaxPacketLength: nat := 4 * 1024 * 1024

  /** What one Read on the connection gives: the bytes it delivers and its error, if any. */
  datatype ReadResult = ReadResult(data: seq<Byte>, err: Option<string>)

  datatype PacketError = ErrLengthTooBig | ReadError(reason: string)

  /** The error of a read past the last scripted result. */
  const EOF := "EOF"

  /** binary.BigEndian.Uint32 */
  function BigEndianUint32(b: seq<Byte>): (n: nat)
    requires |b| == 4
    ensures n < 0x1_0000_0000
  {
    (((b[0] as int) * 256 + b[1]) * 256 + b[2]) * 256 + b[3]
  }

  /** binary.BigEndian.PutUint32: the four bytes of n, most significant first. */
  function PutUint32(n: nat): (b: seq<Byte>)
    requires n < 0x1_0000_0000
    ensures |b| == 4
  {
    [n / 0x100_0000, (n / 0x1_0000) % 256, (n / 256) % 256, n % 256]
  }

  /** Decoding the bytes of a length gives the length back. */
  lemma DecodeEncode(n: nat)
    requires n < 0x1_0000_0000
    ensures BigEndianUint32(PutUint32(n)) == n
  {
    var b := PutUint32(n);
    assert (b[0] as int) * 256 + b[1] == n / 0x1_0000;
    assert ((b[0] as int) * 256 + b[1]) * 256 + b[2] == n / 256;
  }

  /** Encoding a decoded header gives the header back. */
  lemma EncodeDecode(b: seq<Byte>)
    requires |b| == 4
    ensures PutUint32(BigEndianUint32(b)) == b
  {
    var n := BigEndianUint32(b);
    assert n / 256 == ((b[0] as int) * 256 + b[1]) * 256 + b[2];
    assert n / 0x1_0000 == (b[0] as int) * 256 + b[1];
    assert n / 0x100_0000 == b[0];
  }

  /** The next read's result and the results after it; past the end every read is EOF. */
  function NextRead(pending: seq<ReadResult>): (ReadResult, seq<ReadResult>)
  {
    if |pending| == 0 then (ReadResult([], Some(EOF)), []) else (pending[0], pending[1..])
  }

  /** Read(p): the first n bytes of p are overwritten with what the read delivers, n at most len(p). */
  function Fill(p: seq<Byte>, r: ReadResult): (res: (nat, seq<Byte>))
    ensures res.0 <= |p| && res.0 <= |r.data| && |res.1| == |p|
    ensures res.1[..res.0] == r.data[..res.0] && res.1[res.0..] == p[res.0..]
  {
    var n := Min(|r.data|, |p|);
    (n, r.data[..n] + p[n..])
  }

  datatype ReaderState = ReaderState(
    buf: seq<Byte>,
    header: seq<Byte>,
    pending: seq<ReadResult>,
    handled: seq<seq<Byte>>)

  datatype ReadOutcome = ReadOutcome(total: nat, err: Option<PacketError>, state: ReaderState)

  /** ReadPacket on a reader in state s. */
  function ReadPacketStep(s: ReaderState): (o: ReadOutcome)
    requires |s.header| == LengthNeedSize
    ensures |o.state.header| == LengthNeedSize && |o.state.pending| <= |s.pending|
    ensures o.err.Some? ==> o.state.handled == s.handled
    ensures o.err.None? ==> |o.state.handled| == |s.handled| + 1 && o.state.handled[..|s.handled|] == s.handled
  {
    var (r1, rest1) := NextRead(s.pending);
    var (n1, header) := Fill(s.header, r1);
    if r1.err.Some? then ReadOutcome(n1, Some(ReadError(r1.err.value)), s.(header := header, pending := rest1))
    else
      var length := BigEndianUint32(header);
      if length > MaxPacketLength then ReadOutcome(n1, Some(ErrLengthTooBig), s.(header := header, pending := rest1))
      else
        var buf := if |s.buf| < length then seq(length, _ => 0) else s.buf;
        var (r2, rest2) := NextRead(rest1);
        var (n2, body) := Fill(buf[..length], r2);
        var buf' := body + buf[length..];
        var t := s.(buf := buf', header := header, pending := rest2);
        if r2.err.Some? then ReadOutcome(n1 + n2, Some(ReadError(r2.err.value)), t)
        else ReadOutcome(n1 + n2, None, t.(handled := s.handled + [buf'[..length]]))
  }

  class Reader {
    var buf: seq<Byte>
    var header: seq<Byte>
    /** The results the connection's remaining reads return. */
    var pending: seq<ReadResult>
    /** The packets handed to the packet handler, in order. */
    var handled: seq<seq<Byte>>

    function State(): ReaderState
      reads this
    {
      ReaderState(buf, header, pending, handled)
    }

    predicate Valid()
      reads this
    {
      |header| == LengthNeedSize
    }

    /** NewPacketReader over a connection whose reads return `results`. */
    constructor(results: seq<ReadResult>)
      ensures Valid() && State() == ReaderState([], [0, 0, 0, 0], results, [])
    {
      buf := [];
      header := [0, 0, 0, 0];
      pending := results;
      handled := [];
    }

    /** conn.Read(p): the next result is consumed and its bytes copied into p. */
    method Read(p: seq<Byte>) returns (n: nat, filled: seq<Byte>, err: Option<string>)
      modifies this
      ensures var (r, rest) := NextRead(old(pending));
        (n, filled) == Fill(p, r) && err == r.err && pending == rest
      ensures buf == old(buf) && header == old(header) && handled == old(handled)
    {
      var r: ReadResult;
      if |pending| == 0 {
        r := ReadResult([], Some(EOF));
      } else {
        r := pending[0];
        pending := pending[1..];
      }
      n := Min(|r.data|, |p|);
      filled := r.data[..n] + p[n..];
      err := r.err;
    }

    /** The body half of ReadPacket, once the length is known to be
        acceptable. The body read is made even for a length of 0: it reads
        into an empty slice and still uses up one result of the connection. */
    method ReadBody(length: nat, total0: nat) returns (total: nat, err: Option<PacketError>)
      requires length <= MaxPacketLength
      modifies this
      ensures var b := if |old(buf)| < length then seq(length, _ => 0) else old(buf);
        var (r2, rest2) := NextRead(old(pending));
        var (n2, body) := Fill(b[..length], r2);
        var buf' := body + b[length..];
        buf == buf' && pending == rest2 && header == old(header) && total == total0 + n2
        && (r2.err.Some? ==> err == Some(ReadError(r2.err.value)) && handled == old(handled))
        && (r2.err.None? ==> err.None? && handled == old(handled) + [buf'[..length]])
    {
      if |buf| < length {
        buf := seq(length, _ => 0);
      }
      var n, filled, e := Read(buf[..length]);
      buf := filled + buf[length..];
      total := total0 + n;
      if e.Some? {
        return total, Some(ReadError(e.value));
      }
      handled := handled + [buf[..length]];
      err := None;
    }

    method ReadPacket() returns (total: nat, err: Option<PacketError>)
      requires Valid()
      modifies this
      ensures Valid()
      ensures ReadOutcome(total, err, State()) == ReadPacketStep(old(State()))
    {
      total := 0;
      var n, filled, e := Read(header);
      header := filled;
      total := total + n;
      if e.Some? {
        return total, Some(ReadError(e.value));
      }
      var length := BigEndianUint32(header);
      if length > MaxPacketLength {
        return total, Some(ErrLengthTooBig);
      }
      total, err := ReadBody(length, total);
    }
  }

  /** A failed header read returns what it read and its error; the body is not read and no packet is handled. */
  lemma HeaderErrorStops(s: ReaderState)
    requires |s.header| == LengthNeedSize
    requires NextRead(s.pending).0.err.Some?
    ensures var o := ReadPacketStep(s);
      o.err == Some(ReadError(NextRead(s.pending).0.err.value))
      && o.total == Min(|NextRead(s.pending).0.data|, LengthNeedSize)
      && o.state.pending == NextRead(s.pending).1
      && o.state.buf == s.buf && o.state.handled == s.handled
  {
  }

  /**
   * A header announcing more than MaxPacketLength bytes is refused: only
   * the header is read, and neither the buffer nor the handler is touched.
   */
  lemma TooBigIsRefused(s: ReaderState, length: nat)
    requires |s.header| == LengthNeedSize && MaxPacketLength < length < 0x1_0000_0000
    requires |s.pending| > 0 && s.pending[0] == ReadResult(PutUint32(length), None)
    ensures var o := ReadPacketStep(s);
      o.err == Some(ErrLengthTooBig) && o.total == 4
      && o.state.pending == s.pending[1..] && o.state.buf == s.buf && o.state.handled == s.handled
  {
    var (n1, header) := Fill(s.header, s.pending[0]);
    assert header == PutUint32(length);
    DecodeEncode(length);
  }

  /**
   * A complete packet is handled once, with exactly its body; the result
   * counts both reads, and the buffer grows to the length only if it was
   * shorter.
   */
  lemma WholePacketIsHandled(s: ReaderState, body: seq<Byte>)
    requires |s.header| == LengthNeedSize && |body| <= MaxPacketLength
    requires |s.pending| >= 2
    requires s.pending[0] == ReadResult(PutUint32(|body|), None) && s.pending[1] == ReadResult(body, None)
    ensures var o := ReadPacketStep(s);
      o.err.None? && o.total == 4 + |body|
      && o.state.handled == s.handled + [body]
      && o.state.pending == s.pending[2..]
      && |o.state.buf| == (if |s.buf| < |body| then |body| else |s.buf|)
  {
    var length := |body|;
    var (n1, header) := Fill(s.header, s.pending[0]);
    assert header == PutUint32(length);
    DecodeEncode(length);
    var b := if |s.buf| < length then seq(length, _ => 0) else s.buf;
    var (n2, filled) := Fill(b[..length], s.pending[1]);
    assert filled == body;
    assert (filled + b[length..])[..length] == filled;
    assert s.pending[1..][1..] == s.pending[2..];
  }

  /** Whatever happens, the buffer never shrinks; it is reallocated to exactly the length when shorter. */
  lemma BufferNeverShrinks(s: ReaderState)
    requires |s.header| == LengthNeedSize
    ensures var o := ReadPacketStep(s);
      |o.state.buf| >= |s.buf|
      && (|o.state.buf| != |s.buf| ==> |o.state.buf| == BigEndianUint32(o.state.header) <= MaxPacketLength)
  {
  }

  /**
   * The body read is not checked for completeness: a read that delivers
   * fewer bytes than the header announced still hands the handler a packet
   * of the full length, whose tail is what the buffer held before.
   */
  lemma ShortBodyIsHandled(s: ReaderState)
    requires |s.header| == LengthNeedSize && s.buf == []
    requires |s.pending| >= 2
    requires s.pending[0] == ReadResult([0, 0, 0, 3], None) && s.pending[1] == ReadResult([7], None)
    ensures var o := ReadPacketStep(s);
      o.err.None? && o.total == 5 && o.state.handled == s.handled + [[7, 0, 0]]
  {
    var (n1, header) := Fill(s.header, s.pending[0]);
    assert header == [0, 0, 0, 3];
    var (n2, filled) := Fill(seq(3, _ => 0)[..3], s.pending[1]);
    assert filled == [7, 0, 0];
  }
}
