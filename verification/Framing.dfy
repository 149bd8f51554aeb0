/**
 The mobile link's framing over an ideal cipher. Every message is sealed under
 its number; a sealed message is 16 bytes longer, and opening it under the same
 number gives it back.
 */
module Framing {
  import opened Prelude

  type Bytes = seq<Byte>

  const CHUNK := 32 * 1024
  const MAX_BODY := 32 * 1024 * 1024
  const MAX_FRAME := 65535
  const JSON: Byte := 0
  const DATA: Byte := 1
  const END: Byte := 2
  const PING: Byte := 3

  datatype Frame = Frame(kind: Byte, payload: Bytes)

  /** A value read and what is left of the stream. */
  datatype Read<T> = Read(value: T, rest: Bytes)

  datatype Cipher = Cipher(seal: (nat, Bytes) -> Bytes, open: (nat, Bytes) -> Option<Bytes>)

  ghost predicate Ideal(c: Cipher) {
    forall n, plain :: |plain| + 16 <= MAX_FRAME ==>
      |c.seal(n, plain)| == |plain| + 16 && c.open(n, c.seal(n, plain)) == Some(plain)
  }

  // ---- Wire frames: a big-endian u16 length and that many bytes ----

  function WriteWire(bytes: Bytes): (r: Result<Bytes>)
  {
    if 0 < |bytes| <= MAX_FRAME then Ok([|bytes| / 256, |bytes| % 256] + bytes) else Err
  }

  function LengthOf(high: Byte, low: Byte): (len: nat)
  {
    high as int * 256 + low as int
  }

  function ReadWire(stream: Bytes): (r: Result<Read<Bytes>>)
    ensures r.Ok? ==> |r.value.rest| + 2 < |stream|
  {
    if |stream| < 2 then Err
    else
      var len := LengthOf(stream[0], stream[1]);
      if len == 0 || |stream| < 2 + len then Err else Ok(Read(stream[2..2 + len], stream[2 + len..]))
  }

  /** Reading inverts writing, in front of anything. */
  lemma WireInverts(bytes: Bytes, rest: Bytes)
    requires 0 < |bytes| <= MAX_FRAME
    ensures WriteWire(bytes).Ok? && ReadWire(WriteWire(bytes).value + rest) == Ok(Read(bytes, rest))
  {
    var w := WriteWire(bytes).value;
    var s := w + rest;
    assert LengthOf(s[0], s[1]) == |bytes|;
    assert s[2..2 + |bytes|] == bytes && s[2 + |bytes|..] == rest;
  }

  /** What can be read at all is exactly what writing produces. */
  lemma WireIsWritten(stream: Bytes)
    requires ReadWire(stream).Ok?
    ensures var r := ReadWire(stream).value;
      WriteWire(r.value).Ok? && stream == WriteWire(r.value).value + r.rest
  {
    var r := ReadWire(stream).value;
    var w := WriteWire(r.value).value;
    assert w[0] == stream[0] && w[1] == stream[1];
    assert stream == stream[..2] + stream[2..2 + |r.value|] + stream[2 + |r.value|..];
  }

  // ---- Encrypted frames ----

  function Plain(f: Frame): (p: Bytes)
  {
    [f.kind] + f.payload
  }

  /** `Sender.frame`, as the bytes it puts on the wire. */
  function SendFrame(c: Cipher, n: nat, f: Frame): (r: Result<Bytes>)
  {
    if |f.payload| > CHUNK then Err else WriteWire(c.seal(n, Plain(f)))
  }

  /** `Receiver.frame`. */
  function ReceiveFrame(c: Cipher, n: nat, stream: Bytes): (r: Result<Read<Frame>>)
    ensures r.Ok? ==> |r.value.rest| < |stream|
  {
    var wire := ReadWire(stream);
    if wire.Err? then Err
    else
      var plain := c.open(n, wire.value.value);
      if plain.None? || |plain.value| == 0 || |plain.value| > CHUNK + 1 then Err
      else Ok(Read(Frame(plain.value[0], plain.value[1..]), wire.value.rest))
  }

  /** Every frame a sender accepts fits: its plaintext is 1 to 32769 bytes and the
      sealed message is below the u16 prefix's and the protocol's limit; the
      receiver gets the frame back. */
  lemma FrameRoundTrip(c: Cipher, n: nat, f: Frame, rest: Bytes)
    requires Ideal(c) && |f.payload| <= CHUNK
    ensures 1 <= |Plain(f)| <= 32769 && |c.seal(n, Plain(f))| == |Plain(f)| + 16 <= MAX_FRAME
    ensures SendFrame(c, n, f).Ok?
    ensures ReceiveFrame(c, n, SendFrame(c, n, f).value + rest) == Ok(Read(f, rest))
  {
    WireInverts(c.seal(n, Plain(f)), rest);
    assert Plain(f)[1..] == f.payload;
  }

  predicate Small(frames: seq<Frame>) {
    forall f <- frames :: |f.payload| <= CHUNK
  }

  /** The wire bytes of frames sent one after another, numbered from `n`. */
  function SendAll(c: Cipher, n: nat, frames: seq<Frame>): (s: Bytes)
    decreases frames
  {
    if frames == [] then []
    else
      var first := SendFrame(c, n, frames[0]);
      (if first.Ok? then first.value else []) + SendAll(c, n + 1, frames[1..])
  }

  lemma FirstOfAll(c: Cipher, n: nat, frames: seq<Frame>, rest: Bytes)
    requires Ideal(c) && Small(frames) && frames != []
    ensures ReceiveFrame(c, n, SendAll(c, n, frames) + rest)
      == Ok(Read(frames[0], SendAll(c, n + 1, frames[1..]) + rest))
  {
    FrameRoundTrip(c, n, frames[0], SendAll(c, n + 1, frames[1..]) + rest);
    assert SendAll(c, n, frames) + rest
      == SendFrame(c, n, frames[0]).value + (SendAll(c, n + 1, frames[1..]) + rest);
  }

  // ---- Upload ----

  /** `body.chunks(CHUNK)`. */
  function Chunks(body: Bytes): (chunks: seq<Bytes>)
  {
    if |body| == 0 then []
    else if |body| <= CHUNK then [body]
    else [body[..CHUNK]] + Chunks(body[CHUNK..])
  }

  function DataFrames(chunks: seq<Bytes>): (frames: seq<Frame>)
    ensures |frames| == |chunks|
    ensures forall i :: 0 <= i < |chunks| ==> frames[i] == Frame(DATA, chunks[i])
  {
    seq(|chunks|, i requires 0 <= i < |chunks| => Frame(DATA, chunks[i]))
  }

  function UploadFrames(body: Bytes): (frames: seq<Frame>)
  {
    Upload(Chunks(body))
  }

  /** The server's body loop. */
  function ReadBody(c: Cipher, n: nat, stream: Bytes, body: Bytes): (r: Result<Read<Bytes>>)
    decreases |stream|
  {
    var f := ReceiveFrame(c, n, stream);
    if f.Err? then Err
    else if f.value.value.kind == END then
      if f.value.value.payload == [] then Ok(Read(body, f.value.rest)) else Err
    else if f.value.value.kind != DATA || |body| + |f.value.value.payload| > MAX_BODY then Err
    else ReadBody(c, n + 1, f.value.rest, body + f.value.value.payload)
  }

  lemma {:induction false} ChunksSpell(body: Bytes)
    ensures Flatten(Chunks(body)) == body
    ensures forall chunk <- Chunks(body) :: 0 < |chunk| <= CHUNK
  {
    if |body| > CHUNK {
      ChunksSpell(body[CHUNK..]);
      assert ([body[..CHUNK]] + Chunks(body[CHUNK..]))[1..] == Chunks(body[CHUNK..]);
      assert body[..CHUNK] + body[CHUNK..] == body;
    } else if |body| > 0 {
      assert [body][1..] == [];
    }
  }

  lemma BodyStep(c: Cipher, n: nat, frames: seq<Frame>, body: Bytes, rest: Bytes)
    requires Ideal(c) && Small(frames) && frames != []
    ensures ReadBody(c, n, SendAll(c, n, frames) + rest, body)
      == if frames[0] == Frame(END, []) then Ok(Read(body, SendAll(c, n + 1, frames[1..]) + rest))
         else if frames[0].kind != DATA || |body| + |frames[0].payload| > MAX_BODY then Err
         else ReadBody(c, n + 1, SendAll(c, n + 1, frames[1..]) + rest, body + frames[0].payload)
  {
    FirstOfAll(c, n, frames, rest);
    hide SendAll, ReceiveFrame, Ideal;
  }

  function Upload(chunks: seq<Bytes>): (frames: seq<Frame>)
  {
    DataFrames(chunks) + [Frame(END, [])]
  }

  lemma UploadHead(chunks: seq<Bytes>)
    requires forall chunk <- chunks :: |chunk| <= CHUNK
    ensures var frames := Upload(chunks);
      && Small(frames) && frames != []
      && frames[0] == (if chunks == [] then Frame(END, []) else Frame(DATA, chunks[0]))
      && frames[1..] == (if chunks == [] then [] else Upload(chunks[1..]))
  {
  }

  lemma FlattenHead(chunks: seq<Bytes>, body: Bytes)
    ensures body + Flatten(chunks)
      == if chunks == [] then body else (body + chunks[0]) + Flatten(chunks[1..])
  {
  }

  lemma {:induction false} BodyRead(c: Cipher, n: nat, chunks: seq<Bytes>, body: Bytes, rest: Bytes)
    requires Ideal(c) && (forall chunk <- chunks :: |chunk| <= CHUNK) && |body| <= MAX_BODY
    ensures ReadBody(c, n, SendAll(c, n, Upload(chunks)) + rest, body)
      == if |body + Flatten(chunks)| <= MAX_BODY then Ok(Read(body + Flatten(chunks), rest)) else Err
    decreases chunks
  {
    UploadHead(chunks);
    FlattenHead(chunks, body);
    NothingSent(c, n + 1);
    hide SendAll, ReadBody, Ideal, Upload, Flatten, Small;
    BodyStep(c, n, Upload(chunks), body, rest);
    if chunks == [] {
      assert [] + rest == rest;
    } else if |body + chunks[0]| <= MAX_BODY {
      BodyRead(c, n + 1, chunks[1..], body + chunks[0], rest);
    }
  }

  /** The server rebuilds exactly the bytes sent, for every body up to 32 MiB, and
      refuses every larger one. */
  lemma UploadRoundTrip(c: Cipher, n: nat, body: Bytes, rest: Bytes)
    requires Ideal(c)
    ensures ReadBody(c, n, SendAll(c, n, UploadFrames(body)) + rest, [])
      == if |body| <= MAX_BODY then Ok(Read(body, rest)) else Err
  {
    ChunksSpell(body);
    BodyRead(c, n, Chunks(body), [], rest);
    assert [] + Flatten(Chunks(body)) == body;
  }

  /** Whatever a client sends, an accepted body respects the bound. */
  lemma {:induction false} AcceptedBodyBounded(c: Cipher, n: nat, stream: Bytes, body: Bytes)
    requires |body| <= MAX_BODY && ReadBody(c, n, stream, body).Ok?
    ensures |ReadBody(c, n, stream, body).value.value| <= MAX_BODY
    decreases |stream|
  {
    var f := ReceiveFrame(c, n, stream).value;
    if f.value.kind != END {
      AcceptedBodyBounded(c, n + 1, f.rest, body + f.value.payload);
    }
  }

  // ---- Response ----

  /** What the response loop's select yields: a pulse, or a piece of the body. */
  datatype Tick = Pulse | Piece(data: Bytes)

  function TickFrames(t: Tick): (frames: seq<Frame>)
  {
    match t
    case Pulse => [Frame(PING, [])]
    case Piece(data) => DataFrames(Chunks(data))
  }

  function ResponseFrames(ticks: seq<Tick>): (frames: seq<Frame>)
  {
    if ticks == [] then [Frame(END, [])] else TickFrames(ticks[0]) + ResponseFrames(ticks[1..])
  }

  function BodyOf(ticks: seq<Tick>): (body: Bytes)
  {
    if ticks == [] then []
    else (if ticks[0].Piece? then ticks[0].data else []) + BodyOf(ticks[1..])
  }

  /** What one `mobile_lan_read` returns, and the number of the next frame. */
  datatype Chunk = Chunk(end: bool, data: Bytes, next: nat)

  function MobileLanRead(c: Cipher, n: nat, stream: Bytes): (r: Result<Read<Chunk>>)
    ensures r.Ok? ==> |r.value.rest| < |stream|
    decreases |stream|
  {
    var f := ReceiveFrame(c, n, stream);
    if f.Err? then Err
    else
      var (kind, data) := (f.value.value.kind, f.value.value.payload);
      if kind == DATA then Ok(Read(Chunk(false, data, n + 1), f.value.rest))
      else if kind == END && data == [] then Ok(Read(Chunk(true, [], n + 1), f.value.rest))
      else if kind == PING && data == [] then MobileLanRead(c, n + 1, f.value.rest)
      else Err
  }

  /** Reads until the end, joining the data. */
  function ReadResponse(c: Cipher, n: nat, stream: Bytes): (r: Result<Bytes>)
    decreases |stream|
  {
    var chunk := MobileLanRead(c, n, stream);
    if chunk.Err? then Err
    else if chunk.value.value.end then Ok([])
    else
      var rest := ReadResponse(c, chunk.value.value.next, chunk.value.rest);
      if rest.Err? then Err else Ok(chunk.value.value.data + rest.value)
  }

  /** The data of frames up to the end marker. */
  function Payloads(frames: seq<Frame>): (body: Bytes)
  {
    if frames == [] then [] else (if frames[0].kind == DATA then frames[0].payload else []) + Payloads(frames[1..])
  }

  predicate ResponseFrame(f: Frame) {
    f.kind == DATA || (f.kind == PING && f.payload == [])
  }

  /** Reading a response frame by frame. */
  lemma ResponseStep(c: Cipher, n: nat, frames: seq<Frame>, rest: Bytes)
    requires Ideal(c) && Small(frames) && frames != []
    requires ResponseFrame(frames[0]) || frames[0] == Frame(END, [])
    ensures var later := ReadResponse(c, n + 1, SendAll(c, n + 1, frames[1..]) + rest);
      ReadResponse(c, n, SendAll(c, n, frames) + rest)
      == if frames[0].kind == END then Ok([])
         else if frames[0].kind == PING then later
         else if later.Err? then Err else Ok(frames[0].payload + later.value)
  {
    FirstOfAll(c, n, frames, rest);
    hide SendAll, ReceiveFrame, Ideal;
  }

  function Ended(frames: seq<Frame>): (all: seq<Frame>)
  {
    frames + [Frame(END, [])]
  }

  lemma EndedHead(frames: seq<Frame>)
    requires Small(frames) && forall f <- frames :: ResponseFrame(f)
    ensures var all := Ended(frames);
      && Small(all) && all != []
      && all[0] == (if frames == [] then Frame(END, []) else frames[0])
      && (frames != [] ==> all[1..] == Ended(frames[1..]) && Small(frames[1..]) && ResponseFrame(frames[0]))
  {
  }

  lemma {:induction false} FramesRead(c: Cipher, n: nat, frames: seq<Frame>, rest: Bytes)
    requires Ideal(c) && Small(frames) && forall f <- frames :: ResponseFrame(f)
    ensures ReadResponse(c, n, SendAll(c, n, Ended(frames)) + rest) == Ok(Payloads(frames))
    decreases frames
  {
    EndedHead(frames);
    hide SendAll, ReadResponse, Ideal, Small, Ended;
    ResponseStep(c, n, Ended(frames), rest);
    if frames != [] {
      FramesRead(c, n + 1, frames[1..], rest);
      assert [] + Payloads(frames[1..]) == Payloads(frames[1..]);
    }
  }

  lemma {:induction false} PayloadsAppend(a: seq<Frame>, b: seq<Frame>)
    ensures Payloads(a + b) == Payloads(a) + Payloads(b)
  {
    if a == [] {
      assert a + b == b;
    } else {
      assert (a + b)[1..] == a[1..] + b;
      PayloadsAppend(a[1..], b);
    }
  }

  lemma {:induction false} DataPayloads(chunks: seq<Bytes>)
    ensures Payloads(DataFrames(chunks)) == Flatten(chunks)
  {
    if chunks != [] {
      assert DataFrames(chunks)[1..] == DataFrames(chunks[1..]);
      DataPayloads(chunks[1..]);
    }
  }

  /** The frames before the end marker. */
  function Pieces(ticks: seq<Tick>): (frames: seq<Frame>)
  {
    if ticks == [] then [] else TickFrames(ticks[0]) + Pieces(ticks[1..])
  }

  lemma {:induction false} PiecesSpell(ticks: seq<Tick>)
    ensures ResponseFrames(ticks) == Ended(Pieces(ticks))
    ensures Payloads(Pieces(ticks)) == BodyOf(ticks)
    ensures forall f <- Pieces(ticks) :: ResponseFrame(f) && |f.payload| <= CHUNK
  {
    if ticks != [] {
      PiecesSpell(ticks[1..]);
      PayloadsAppend(TickFrames(ticks[0]), Pieces(ticks[1..]));
      if ticks[0].Piece? {
        ChunksSpell(ticks[0].data);
        DataPayloads(Chunks(ticks[0].data));
      }
    }
  }

  /** For every response and every placement of heartbeats, the phone's reads
      join to exactly the response. */
  lemma ResponseRoundTrip(c: Cipher, n: nat, ticks: seq<Tick>, rest: Bytes)
    requires Ideal(c)
    ensures ReadResponse(c, n, SendAll(c, n, ResponseFrames(ticks)) + rest) == Ok(BodyOf(ticks))
  {
    PiecesSpell(ticks);
    FramesRead(c, n, Pieces(ticks), rest);
  }

  // ---- The upload bound on encoded text ----

  /** Length of unpadded Base64url text for `n` bytes. */
  function EncodedLength(n: nat): (len: nat)
  {
    n / 3 * 4 + if n % 3 == 0 then 0 else n % 3 + 1
  }

  /** `mobile_lan_open`'s bound admits every legal body, and exactly two lengths
      more, which the request itself refuses. */
  lemma UploadBound(n: nat)
    ensures EncodedLength(n) <= MAX_BODY * 4 / 3 + 4 <==> n <= MAX_BODY + 2
  {
    var (q, r) := (n / 3, n % 3);
    assert n == 3 * q + r;
    assert MAX_BODY * 4 / 3 + 4 == 44739246;
  }

  // ---- The two ends of a connection ----

  function SendOneFrame(c: Cipher, n: nat, f: Frame): (s: Bytes)
  {
    SendAll(c, n, [f])
  }

  class Sender {
    const cipher: Cipher
    var next: nat
    var sent: Bytes

    constructor (cipher: Cipher)
      ensures this.cipher == cipher && next == 0 && sent == []
    {
      this.cipher, next, sent := cipher, 0, [];
    }

    method SendOne(kind: Byte, bytes: Bytes) returns (ok: bool)
      requires Ideal(cipher)
      modifies this
      ensures ok <==> |bytes| <= CHUNK
      ensures ok ==> next == old(next) + 1 && sent == old(sent) + SendOneFrame(cipher, old(next), Frame(kind, bytes))
      ensures !ok ==> next == old(next) && sent == old(sent)
    {
      if |bytes| > CHUNK {
        return false;
      }
      var f := Frame(kind, bytes);
      FrameRoundTrip(cipher, next, f, []);
      var wire := WriteWire(cipher.seal(next, Plain(f)));
      assert [f][1..] == [];
      assert SendOneFrame(cipher, next, f) == wire.value + SendAll(cipher, next + 1, []);
      sent := sent + wire.value;
      next := next + 1;
      return true;
    }

    /** The upload loop of `request`. */
    method SendBody(body: Bytes) returns (ok: bool)
      requires Ideal(cipher)
      modifies this
      ensures ok <==> |body| <= MAX_BODY
      ensures ok ==> sent == old(sent) + SendAll(cipher, old(next), UploadFrames(body))
      ensures !ok ==> sent == old(sent)
    {
      if |body| > MAX_BODY {
        return false;
      }
      ChunksSpell(body);
      ok := SendChunks(Chunks(body));
    }

    method SendChunks(chunks: seq<Bytes>) returns (ok: bool)
      requires Ideal(cipher) && forall i :: 0 <= i < |chunks| ==> |chunks[i]| <= CHUNK
      modifies this
      ensures ok && sent == old(sent) + SendAll(cipher, old(next), Upload(chunks))
    {
      ghost var (before, start) := (sent, next);
      UploadAt(cipher, start, chunks, 0);
      hide *;
      for i := 0 to |chunks|
        invariant next == start + i
        invariant sent == before + SendAll(cipher, start, Upload(chunks)[..i])
      {
        UploadAt(cipher, start, chunks, i);
        SentNext(cipher, start, Upload(chunks), i, before);
        ok := SendOne(DATA, chunks[i]);
      }
      UploadAt(cipher, start, chunks, |chunks|);
      SentNext(cipher, start, Upload(chunks), |chunks|, before);
      ok := SendOne(END, []);
    }
  }

  lemma UploadAt(c: Cipher, n: nat, chunks: seq<Bytes>, i: nat)
    requires i <= |chunks|
    ensures |Upload(chunks)| == |chunks| + 1
    ensures Upload(chunks)[i] == if i < |chunks| then Frame(DATA, chunks[i]) else Frame(END, [])
    ensures SendAll(c, n, Upload(chunks)[..0]) == []
    ensures Upload(chunks)[..|chunks| + 1] == Upload(chunks)
  {
  }

  lemma SentNext(c: Cipher, n: nat, frames: seq<Frame>, i: nat, before: Bytes)
    requires i < |frames|
    ensures before + SendAll(c, n, frames[..i + 1])
      == before + SendAll(c, n, frames[..i]) + SendOneFrame(c, n + i, frames[i])
  {
    SendSnoc(c, n, frames[..i], frames[i]);
    assert frames[..i] + [frames[i]] == frames[..i + 1];
  }

  lemma NothingSent(c: Cipher, n: nat)
    ensures SendAll(c, n, []) == []
  {
  }

  lemma {:induction false} SendSnoc(c: Cipher, n: nat, frames: seq<Frame>, last: Frame)
    ensures SendAll(c, n, frames + [last]) == SendAll(c, n, frames) + SendAll(c, n + |frames|, [last])
    decreases frames
  {
    if frames == [] {
      assert frames + [last] == [last];
    } else {
      assert (frames + [last])[1..] == frames[1..] + [last];
      SendSnoc(c, n + 1, frames[1..], last);
    }
  }

  class Receiver {
    const cipher: Cipher
    var next: nat
    var stream: Bytes

    constructor (cipher: Cipher, stream: Bytes)
      ensures this.cipher == cipher && next == 0 && this.stream == stream
    {
      this.cipher, next, this.stream := cipher, 0, stream;
    }

    method ReceiveOne() returns (r: Result<Frame>)
      modifies this
      ensures r.Ok? <==> ReceiveFrame(cipher, old(next), old(stream)).Ok?
      ensures r.Ok? ==> next == old(next) + 1
      ensures r.Ok? ==> Ok(Read(r.value, stream)) == ReceiveFrame(cipher, old(next), old(stream))
      ensures r.Err? ==> stream == old(stream) && next == old(next)
    {
      var read := ReceiveFrame(cipher, next, stream);
      if read.Err? {
        return Err;
      }
      next := next + 1;
      stream := read.value.rest;
      return Ok(read.value.value);
    }

    /** The body loop of `serve_request`. */
    method ReceiveBody() returns (r: Result<Bytes>)
      modifies this
      ensures r.Ok? <==> ReadBody(cipher, old(next), old(stream), []).Ok?
      ensures r.Ok? ==> Ok(Read(r.value, stream)) == ReadBody(cipher, old(next), old(stream), [])
    {
      var body: Bytes := [];
      while true
        invariant ReadBody(cipher, old(next), old(stream), []) == ReadBody(cipher, next, stream, body)
        decreases |stream|
      {
        var f := ReceiveOne();
        if f.Err? {
          return Err;
        }
        if f.value.kind == END {
          if f.value.payload != [] {
            return Err;
          }
          return Ok(body);
        }
        if f.value.kind != DATA || |body| + |f.value.payload| > MAX_BODY {
          return Err;
        }
        body := body + f.value.payload;
      }
    }

    /** The frame loop of `mobile_lan_read`. */
    method ReadChunk() returns (r: Result<Chunk>)
      modifies this
      ensures r.Ok? <==> MobileLanRead(cipher, old(next), old(stream)).Ok?
      ensures r.Ok? ==> Ok(Read(r.value, stream)) == MobileLanRead(cipher, old(next), old(stream))
      ensures r.Ok? ==> next == r.value.next
    {
      while true
        invariant MobileLanRead(cipher, old(next), old(stream)) == MobileLanRead(cipher, next, stream)
        decreases |stream|
      {
        var f := ReceiveOne();
        if f.Err? {
          return Err;
        }
        if f.value.kind == DATA {
          return Ok(Chunk(false, f.value.payload, next));
        }
        if f.value.kind == END && f.value.payload == [] {
          return Ok(Chunk(true, [], next));
        }
        if f.value.kind != PING || f.value.payload != [] {
          return Err;
        }
      }
    }
  }
}
