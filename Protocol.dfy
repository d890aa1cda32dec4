/**
 * Length-prefixed framing between the scraping and the processing server
 * (TP2/common/protocol.py). A frame is a 4-byte big-endian unsigned length
 * followed by that many payload bytes. The payload (UTF-8 JSON) is opaque here.
 */
module Protocol {
  import opened Wrappers

  type byte = x: int | 0 <= x < 256

  /** Size of the `!I` header. */
  const HeaderSize: nat := 4
  /** First length that does not fit in an unsigned 32-bit header. */
  const Limit32: int := 0x1_0000_0000
  /** Largest body `recv_message` accepts. */
  const MaxMessage: int := 1_000_000_000

  datatype FrameError =
    | ConnectionClosed      // the stream ended before the bytes asked for arrived
    | InvalidLength(n: int) // declared length is 0 or above the maximum
    | HeaderOverflow        // `struct.pack("!I", n)` with n >= 2^32

  /** `struct.pack("!I", n)`: big-endian, most significant byte first. */
  function EncodeBe32(n: int): (b: seq<byte>)
    requires 0 <= n < Limit32
    ensures |b| == HeaderSize
  {
    [n / 0x100_0000, (n / 0x1_0000) % 256, (n / 256) % 256, n % 256]
  }

  /** `struct.unpack("!I", b)`. */
  function DecodeBe32(b: seq<byte>): (n: int)
    requires |b| == HeaderSize
    ensures 0 <= n < Limit32
  {
    (b[0] as int) * 0x100_0000 + (b[1] as int) * 0x1_0000 + (b[2] as int) * 256 + b[3]
  }

  lemma DecodeEncodeBe32(n: int)
    requires 0 <= n < Limit32
    ensures DecodeBe32(EncodeBe32(n)) == n
  {
    var b := EncodeBe32(n);
    var q1 := n / 256;
    var q2 := q1 / 256;
    assert n == q1 * 256 + b[3];
    assert q1 == q2 * 256 + b[2];
    assert n / 0x1_0000 == q2 by {
      assert n == q2 * 0x1_0000 + (b[2] * 256 + b[3]);
    }
    assert q2 == (b[0] as int) * 256 + b[1] by {
      assert n == (q2 / 256) * 0x100_0000 + (q2 % 256) * 0x1_0000 + b[2] * 256 + b[3];
    }
  }

  lemma EncodeDecodeBe32(b: seq<byte>)
    requires |b| == HeaderSize
    ensures EncodeBe32(DecodeBe32(b)) == b
  {
    var n := DecodeBe32(b);
    var e := EncodeBe32(n);
    assert n / 0x100_0000 == b[0];
    assert n / 0x1_0000 == (b[0] as int) * 256 + b[1];
    assert n / 256 == (b[0] as int) * 0x1_0000 + (b[1] as int) * 256 + b[2];
    assert e[0] == b[0] && e[1] == b[1] && e[2] == b[2] && e[3] == b[3];
  }

  /** The bytes `send_message` hands to `sendall`: header followed by the payload. */
  function Frame(payload: seq<byte>): (r: Result<seq<byte>, FrameError>)
    ensures |payload| >= Limit32 <==> r == Err(HeaderOverflow)
    ensures r.Ok? ==>
              && |r.value| == HeaderSize + |payload|
              && DecodeBe32(r.value[..HeaderSize]) == |payload|
              && r.value[HeaderSize..] == payload
  {
    if |payload| >= Limit32 then Err(HeaderOverflow)
    else
      var f := EncodeBe32(|payload|) + payload;
      assert f[..HeaderSize] == EncodeBe32(|payload|);
      DecodeEncodeBe32(|payload|);
      Ok(f)
  }

  /**
   * What one read of a frame from `stream` yields: the payload and the bytes
   * left after it, or the reason the read fails. `maxLen` is the largest
   * accepted declared length.
   */
  function DecodeFrame(stream: seq<byte>, maxLen: int): (r: Result<(seq<byte>, seq<byte>), FrameError>)
    ensures r.Ok? ==>
              && |stream| >= HeaderSize
              && r.value.0 + r.value.1 == stream[HeaderSize..]
              && 0 < |r.value.0| <= maxLen
              && |r.value.0| == DecodeBe32(stream[..HeaderSize])
    ensures r.Err? ==> r.error != HeaderOverflow
    ensures |stream| < HeaderSize ==> r == Err(ConnectionClosed)
  {
    if |stream| < HeaderSize then Err(ConnectionClosed)
    else
      var n := DecodeBe32(stream[..HeaderSize]);
      if n <= 0 || n > maxLen then Err(InvalidLength(n))
      else if |stream| - HeaderSize < n then Err(ConnectionClosed)
      else
        var body := stream[HeaderSize..];
        assert body[..n] + body[n..] == body;
        Ok((body[..n], body[n..]))
  }

  /** A frame sent by `send_message` is read back intact, and what followed it is left unread. */
  lemma FrameRoundTrip(payload: seq<byte>, rest: seq<byte>, maxLen: int)
    requires 0 < |payload| <= maxLen
    requires |payload| < Limit32
    ensures Frame(payload).Ok?
    ensures DecodeFrame(Frame(payload).value + rest, maxLen) == Ok((payload, rest))
  {
    var f := Frame(payload).value;
    var s := f + rest;
    assert s[..HeaderSize] == f[..HeaderSize];
    assert s[HeaderSize..] == payload + rest;
    assert (payload + rest)[..|payload|] == payload;
    assert (payload + rest)[|payload|..] == rest;
  }

  /** An empty payload can be sent, but the receiver rejects its zero header. */
  lemma EmptyFrameRejected(rest: seq<byte>, maxLen: int)
    ensures Frame([]).Ok? && Frame([]).value == [0, 0, 0, 0]
    ensures DecodeFrame([0, 0, 0, 0] + rest, maxLen) == Err(InvalidLength(0))
  {
    assert EncodeBe32(0) == [0, 0, 0, 0];
    assert ([0, 0, 0, 0] + rest)[..HeaderSize] == [0, 0, 0, 0];
  }

  /** A declared length above the maximum is refused whatever follows the header. */
  lemma OversizedFrameRejected(header: seq<byte>, body: seq<byte>, maxLen: int)
    requires |header| == HeaderSize && DecodeBe32(header) > maxLen
    ensures DecodeFrame(header + body, maxLen) == Err(InvalidLength(DecodeBe32(header)))
  {
    assert (header + body)[..HeaderSize] == header;
  }

  /**
   * `recv_message`'s bound is inclusive: a body of exactly `MaxMessage` bytes
   * is read back, and a header declaring one byte more is refused.
   */
  lemma MaxMessageBoundary(payload: seq<byte>, rest: seq<byte>)
    requires |payload| == MaxMessage
    ensures Frame(payload).Ok?
    ensures DecodeFrame(Frame(payload).value + rest, MaxMessage) == Ok((payload, rest))
    ensures DecodeFrame(EncodeBe32(MaxMessage + 1) + rest, MaxMessage) == Err(InvalidLength(MaxMessage + 1))
  {
    FrameRoundTrip(payload, rest, MaxMessage);
    DecodeEncodeBe32(MaxMessage + 1);
    OversizedFrameRejected(EncodeBe32(MaxMessage + 1), rest, MaxMessage);
  }

  /** `b"".join(chunks)`. */
  function Concat(chunks: seq<seq<byte>>): (r: seq<byte>)
  {
    if chunks == [] then [] else Concat(chunks[..|chunks| - 1]) + chunks[|chunks| - 1]
  }

  /**
   * One end of a TCP connection. `incoming` is every byte the peer will still
   * deliver before closing; `sent` is every byte written so far.
   */
  class Socket {
    var incoming: seq<byte>
    var sent: seq<byte>

    constructor (incoming: seq<byte>)
      ensures this.incoming == incoming && sent == []
    {
      this.incoming := incoming;
      sent := [];
    }

    /**
     * `sock.recv(n)`: the transport may deliver any non-empty prefix of at
     * most `n` bytes; an empty chunk means the peer closed the connection.
     */
    method Recv(n: nat) returns (chunk: seq<byte>)
      requires n > 0
      modifies this`incoming
      ensures |chunk| <= n
      ensures chunk == [] <==> old(incoming) == []
      ensures old(incoming) == chunk + incoming
    {
      if incoming == [] {
        chunk := [];
      } else {
        var k :| 0 < k <= n && k <= |incoming|;
        chunk := incoming[..k];
        incoming := incoming[k..];
      }
    }

    /** `sock.sendall(data)`. */
    method SendAll(data: seq<byte>)
      modifies this`sent
      ensures sent == old(sent) + data
    {
      sent := sent + data;
    }
  }

  /**
   * `recv_all(sock, n)`: exactly `n` bytes, gathered chunk by chunk in arrival
   * order, or `ConnectionClosed` when the stream ends first.
   */
  method RecvAll(sock: Socket, n: nat) returns (r: Result<seq<byte>, FrameError>)
    modifies sock`incoming
    ensures n <= |old(sock.incoming)| ==> r == Ok(old(sock.incoming)[..n]) && sock.incoming == old(sock.incoming)[n..]
    ensures |old(sock.incoming)| < n ==> r == Err(ConnectionClosed) && sock.incoming == []
  {
    var chunks: seq<seq<byte>> := [];
    var remaining := n;
    while remaining > 0
      invariant 0 <= remaining <= n
      invariant Concat(chunks) + sock.incoming == old(sock.incoming)
      invariant |Concat(chunks)| + remaining == n
    {
      var chunk := sock.Recv(remaining);
      if chunk == [] {
        return Err(ConnectionClosed);
      }
      assert Concat(chunks + [chunk]) == Concat(chunks) + chunk by {
        assert (chunks + [chunk])[..|chunks|] == chunks;
      }
      chunks := chunks + [chunk];
      remaining := remaining - |chunk|;
    }
    assert old(sock.incoming)[..n] == Concat(chunks);
    r := Ok(Concat(chunks));
  }

  /**
   * `recv_message`: read the header, check the declared length, read the body.
   * A refused length is reported before any body byte is read.
   */
  method RecvMessage(sock: Socket, maxLen: int) returns (r: Result<seq<byte>, FrameError>)
    modifies sock`incoming
    ensures DecodeFrame(old(sock.incoming), maxLen).Ok? ==>
      r == Ok(DecodeFrame(old(sock.incoming), maxLen).value.0)
      && sock.incoming == DecodeFrame(old(sock.incoming), maxLen).value.1
    ensures DecodeFrame(old(sock.incoming), maxLen).Err? ==> r == Err(DecodeFrame(old(sock.incoming), maxLen).error)
    ensures r.Err? && r.error.InvalidLength? ==> sock.incoming == old(sock.incoming)[HeaderSize..]
    ensures r.Err? && r.error == ConnectionClosed ==> sock.incoming == []
  {
    var header := RecvAll(sock, HeaderSize);
    if header.Err? {
      return Err(header.error);
    }
    var n := DecodeBe32(header.value);
    if n <= 0 || n > maxLen {
      return Err(InvalidLength(n));
    }
    ghost var afterHeader := sock.incoming;
    var body := RecvAll(sock, n);
    if body.Err? {
      return Err(body.error);
    }
    assert afterHeader == old(sock.incoming)[HeaderSize..];
    r := Ok(body.value);
  }

  /** `send_message`: write the frame of `payload`; nothing is written when the length overflows the header. */
  method SendMessage(sock: Socket, payload: seq<byte>) returns (r: Result<(), FrameError>)
    modifies sock`sent
    ensures Frame(payload).Ok? ==> r.Ok? && sock.sent == old(sock.sent) + EncodeBe32(|payload|) + payload
    ensures Frame(payload).Err? ==> r == Err(HeaderOverflow) && sock.sent == old(sock.sent)
  {
    if |payload| >= Limit32 {
      return Err(HeaderOverflow);
    }
    sock.SendAll(EncodeBe32(|payload|) + payload);
    r := Ok(());
  }
}
