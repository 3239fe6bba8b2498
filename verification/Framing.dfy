/** One document in one length-prefixed frame on a byte stream
    (src/gah/authority.py). */
module Framing {
  import opened Common

  const MAX_FRAME := 1048576
  const HEADER := 4
  const BLOCK := 65536

  type byte = b: int | 0 <= b < 256

  datatype FrameError = REQUEST_TIMEOUT | INCOMPLETE_FRAME | FRAME_SIZE | TRAILING_DATA | INVALID_DOCUMENT

  /** canonical_bytes and decode_document, inverse on documents. */
  datatype Codec<!T> = Codec(encode: T -> seq<byte>, decode: seq<byte> -> Option<T>)

  ghost predicate Inverse<T(!new)>(c: Codec<T>) { forall v :: c.decode(c.encode(v)) == Some(v) }

  // ---------- the four-byte header ----------

  /** Big-endian, as struct's "!I". */
  function Pack(n: nat): (h: seq<byte>)
    requires n < 0x1_0000_0000
    ensures |h| == HEADER
  {
    [n / 0x100_0000, n / 0x1_0000 % 256, n / 256 % 256, n % 256]
  }

  function Unpack(h: seq<byte>): (n: nat)
    requires |h| == HEADER
    ensures n < 0x1_0000_0000
  {
    (h[0] as int) * 0x100_0000 + (h[1] as int) * 0x1_0000 + (h[2] as int) * 256 + h[3] as int
  }

  lemma Split(n: nat)
    ensures n == n / 0x100_0000 * 0x100_0000 + n / 0x1_0000 % 256 * 0x1_0000 + n / 256 % 256 * 256 + n % 256
  {
    assert n / 0x1_0000 == n / 256 / 256;
    assert n / 0x100_0000 == n / 256 / 256 / 256;
  }

  lemma UnpackPack(n: nat)
    requires n < 0x1_0000_0000
    ensures Unpack(Pack(n)) == n
  {
    Split(n);
  }

  lemma PackUnpack(h: seq<byte>)
    requires |h| == HEADER
    ensures Pack(Unpack(h)) == h
  {
    var a: int, b: int, c: int, d: int := h[0], h[1], h[2], h[3];
    var n := Unpack(h);
    assert n == 256 * (a * 0x1_0000 + b * 256 + c) + d;
    assert n / 256 == a * 0x1_0000 + b * 256 + c;
    assert n / 256 / 256 == a * 256 + b;
    assert n / 0x1_0000 == n / 256 / 256;
    assert n / 0x100_0000 == n / 256 / 256 / 256;
  }

  // ---------- what a whole stream says ----------

  function Frame(body: seq<byte>): seq<byte>
    requires |body| < 0x1_0000_0000
  {
    Pack(|body|) + body
  }

  function Encode<T>(c: Codec<T>, v: T): Result<seq<byte>, FrameError> {
    var body := c.encode(v);
    if 1 <= |body| <= MAX_FRAME then Ok(Frame(body)) else Err(FRAME_SIZE)
  }

  function Parse<T>(c: Codec<T>, stream: seq<byte>): Result<T, FrameError> {
    if |stream| < HEADER then Err(INCOMPLETE_FRAME)
    else
      var size := Unpack(stream[..HEADER]);
      if !(1 <= size <= MAX_FRAME) then Err(FRAME_SIZE)
      else if |stream| < HEADER + size then Err(INCOMPLETE_FRAME)
      else if |stream| > HEADER + size then Err(TRAILING_DATA)
      else
        var v := c.decode(stream[HEADER..]);
        if v.Some? then Ok(v.value) else Err(INVALID_DOCUMENT)
  }

  /** What is sent is what is received, or it is not sent. */
  lemma RoundTrip<T(!new)>(c: Codec<T>, v: T)
    requires Inverse(c)
    ensures Encode(c, v).Ok? ==> Parse(c, Encode(c, v).value) == Ok(v)
    ensures Encode(c, v).Err? <==> |c.encode(v)| == 0 || |c.encode(v)| > MAX_FRAME
  {
    var body := c.encode(v);
    if 1 <= |body| <= MAX_FRAME {
      UnpackPack(|body|);
      assert Frame(body)[..HEADER] == Pack(|body|) && Frame(body)[HEADER..] == body;
    }
  }

  /** Exactly the streams that are one whole frame of a document are accepted. */
  lemma AcceptsOneFrame<T>(c: Codec<T>, stream: seq<byte>)
    ensures Parse(c, stream).Ok? <==>
              exists body: seq<byte> :: 1 <= |body| <= MAX_FRAME && stream == Frame(body) && c.decode(body).Some?
  {
    if Parse(c, stream).Ok? {
      var body := stream[HEADER..];
      PackUnpack(stream[..HEADER]);
      assert stream == stream[..HEADER] + body;
      assert 1 <= |body| <= MAX_FRAME && stream == Frame(body) && c.decode(body).Some?;
    }
    if body: seq<byte> :| 1 <= |body| <= MAX_FRAME && stream == Frame(body) && c.decode(body).Some? {
      UnpackPack(|body|);
      assert stream[..HEADER] == Pack(|body|) && stream[HEADER..] == body;
    }
  }

  /** A cut frame and a frame with anything after it are both refused. */
  lemma NoCutNoTail<T>(c: Codec<T>, body: seq<byte>, n: nat, tail: seq<byte>)
    requires 1 <= |body| <= MAX_FRAME && n < HEADER + |body| && tail != []
    ensures Parse(c, Frame(body)[..n]) == Err(INCOMPLETE_FRAME)
    ensures Parse(c, Frame(body) + tail) == Err(TRAILING_DATA)
  {
    UnpackPack(|body|);
    if n >= HEADER { assert Frame(body)[..n][..HEADER] == Pack(|body|); }
    assert (Frame(body) + tail)[..HEADER] == Pack(|body|);
  }

  // ---------- the socket ----------

  /** The reading end of a connection whose peer has sent `unread` and shut down
      its side. Every read returns some of it, in any pieces. `late(t)` says
      whether time is up when the deadline is looked at for the t-th time. */
  class Connection {
    const late: nat -> bool
    var looks: nat
    var unread: seq<byte>
    var sent: seq<byte>

    constructor (unread: seq<byte>, late: nat -> bool)
      ensures this.unread == unread && sent == [] && this.late == late && looks == 0
    {
      this.unread, sent, this.late, looks := unread, [], late, 0;
    }

    /** Time was up at one of the looks from `start` on. */
    ghost predicate TimedOut(start: nat)
      reads this`looks
    {
      exists t :: start <= t < looks && late(t)
    }

    method TimeIsUp() returns (up: bool)
      modifies this`looks
      ensures looks == old(looks) + 1 && up == late(old(looks))
      ensures TimedOut(old(looks)) == up
      ensures forall start: nat :: start <= old(looks) ==> (TimedOut(start) <==> old(TimedOut(start)) || up)
    {
      looks := looks + 1;
      return late(looks - 1);
    }

    /** Nothing is returned only at the end of the stream. */
    method Recv(limit: nat) returns (out: Result<seq<byte>, FrameError>)
      requires limit > 0
      modifies this`unread, this`looks
      ensures looks >= old(looks)
      ensures forall start: nat :: start <= old(looks) ==> (TimedOut(start) <==> old(TimedOut(start)) || out.Err?)
      ensures out.Ok? ==> old(unread) == out.value + unread && |out.value| <= limit
                          && (out.value == [] <==> old(unread) == [])
      ensures out.Err? ==> out.error == REQUEST_TIMEOUT && unread == old(unread)
    {
      var up := TimeIsUp();
      if up { return Err(REQUEST_TIMEOUT); }
      if unread == [] { return Ok([]); }
      var size: nat :| 1 <= size <= |unread| && size <= limit by {
        assert 1 <= 1 <= |unread| && 1 <= limit;
      }
      var block := unread[..size];
      unread := unread[size..];
      return Ok(block);
    }

    /** The next `count` bytes, unless time is up or the stream is shorter. */
    method ReadExact(count: nat) returns (out: Result<seq<byte>, FrameError>)
      modifies this`unread, this`looks
      ensures looks >= old(looks)
      ensures forall start: nat :: start <= old(looks) ==>
                (TimedOut(start) <==> old(TimedOut(start)) || out == Err(REQUEST_TIMEOUT))
      ensures out.Ok? ==> |out.value| == count && old(unread) == out.value + unread
      ensures out == Err(INCOMPLETE_FRAME) ==> |old(unread)| < count
      ensures out.Err? ==> out.error == REQUEST_TIMEOUT || out.error == INCOMPLETE_FRAME
    {
      var body: seq<byte> := [];
      while |body| < count
        invariant |body| <= count && old(unread) == body + unread && looks >= old(looks)
        invariant forall start: nat :: start <= old(looks) ==> (TimedOut(start) <==> old(TimedOut(start)))
        decreases count - |body|
      {
        var up := TimeIsUp();
        if up { return Err(REQUEST_TIMEOUT); }
        ghost var rest := unread;
        var block :- Recv(if count - |body| < BLOCK then count - |body| else BLOCK);
        if block == [] { return Err(INCOMPLETE_FRAME); }
        assert body + rest == (body + block) + unread;
        body := body + block;
      }
      return Ok(body);
    }

    /** However the stream is cut into pieces, the outcome is the one the whole
        stream has, except for a timeout, and that only if time was up. */
    method ReceiveFrame<T>(c: Codec<T>) returns (out: Result<T, FrameError>)
      modifies this`unread, this`looks
      ensures out == if TimedOut(old(looks)) then Err(REQUEST_TIMEOUT) else Parse(c, old(unread))
    {
      ghost var stream := unread;
      var header :- ReadExact(HEADER);
      assert stream[..HEADER] == header && stream[HEADER..] == unread;
      var size := Unpack(header);
      if !(1 <= size <= MAX_FRAME) { return Err(FRAME_SIZE); }
      var body :- ReadExact(size);
      var up := TimeIsUp();
      if up { return Err(REQUEST_TIMEOUT); }
      var trailing :- Recv(1);
      if trailing != [] { return Err(TRAILING_DATA); }
      assert stream[HEADER..] == body;
      var v := c.decode(body);
      return if v.Some? then Ok(v.value) else Err(INVALID_DOCUMENT);
    }

    /** If time is up while sending, any part of the frame may have gone out. */
    method SendFrame<T>(c: Codec<T>, v: T) returns (out: Result<(), FrameError>)
      modifies this`sent, this`looks
      ensures Encode(c, v).Err? ==> out == Err(FRAME_SIZE) && sent == old(sent)
      ensures Encode(c, v).Ok? ==>
                if TimedOut(old(looks))
                then out == Err(REQUEST_TIMEOUT) && old(sent) <= sent <= old(sent) + Encode(c, v).value
                else out == Ok(()) && sent == old(sent) + Encode(c, v).value
    {
      var body := c.encode(v);
      if !(1 <= |body| <= MAX_FRAME) { return Err(FRAME_SIZE); }
      var frame := Pack(|body|) + body;
      var up := TimeIsUp();
      if up {
        var accepted: nat :| accepted <= |frame| by { assert 0 <= |frame|; }
        sent := sent + frame[..accepted];
        return Err(REQUEST_TIMEOUT);
      }
      sent := sent + frame;
      return Ok(());
    }
  }

  /** One side sends, the other receives what arrived: unless time is up on one
      side the document arrives unchanged, or is empty or too large to be sent. */
  method Exchange<T(!new)>(c: Codec<T>, v: T, sending: nat -> bool, receiving: nat -> bool) returns (out: Result<T, FrameError>)
    requires Inverse(c)
    ensures (forall t :: !sending(t) && !receiving(t)) ==> out == if Encode(c, v).Ok? then Ok(v) else Err(FRAME_SIZE)
    ensures out == Ok(v) || out == Err(REQUEST_TIMEOUT) || (out == Err(FRAME_SIZE) && Encode(c, v) == Err(FRAME_SIZE))
  {
    var client := new Connection([], sending);
    var gone := client.SendFrame(c, v);
    if gone.Err? { return Err(gone.error); }
    assert client.sent == Encode(c, v).value;
    var server := new Connection(client.sent, receiving);
    RoundTrip(c, v);
    out := server.ReceiveFrame(c);
  }
}
