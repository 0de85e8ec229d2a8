/** Length-prefixed frames: how they are written (proxy/proxy.py) and the three loops that read them
    back (clients/rixi_transport.py, agent/ai_agent_framework.py, proxy/proxy.py). Frames is the one
    account of what a byte stream carries; every loop is proved to yield it, for any split of the
    stream into chunks. */
module Frames {
  import opened Common

  const MAX_FRAME := 0x1_0000_0000

  // ---- big-endian numbers ---------------------------------------------------------------------

  function Pow256(n: nat): (p: nat)
    ensures p > 0
  {
    if n == 0 then 1 else 256 * Pow256(n - 1)
  }

  /** int.from_bytes(b, "big") */
  function FromBytes(b: Bytes): (n: nat)
    ensures n < Pow256(|b|)
  {
    if b == [] then 0 else FromBytes(b[..|b| - 1]) * 256 + b[|b| - 1]
  }

  /** n.to_bytes(len, "big"), for a number that fits. */
  function ToBytes(n: nat, len: nat): (b: Bytes)
    requires n < Pow256(len)
    ensures |b| == len
    decreases len
  {
    if len == 0 then [] else ToBytes(n / 256, len - 1) + [n % 256]
  }

  lemma {:induction false} FromTo(n: nat, len: nat)
    requires n < Pow256(len)
    ensures FromBytes(ToBytes(n, len)) == n
    decreases len
  {
    if len > 0 {
      FromTo(n / 256, len - 1);
      var b := ToBytes(n, len);
      assert b[..|b| - 1] == ToBytes(n / 256, len - 1);
    }
  }

  lemma {:induction false} ToFrom(b: Bytes)
    ensures ToBytes(FromBytes(b), |b|) == b
    decreases |b|
  {
    if b != [] {
      var init, last := b[..|b| - 1], b[|b| - 1];
      ToFrom(init);
      LastDigit(FromBytes(init), last);
      assert b == init + [last];
    }
  }

  lemma LastDigit(q: nat, r: Byte)
    ensures (q * 256 + r) / 256 == q && (q * 256 + r) % 256 == r
  {
  }

  lemma FourBytes()
    ensures Pow256(4) == MAX_FRAME
  {
    assert Pow256(1) == 256 && Pow256(2) == 0x1_0000 && Pow256(3) == 0x100_0000;
  }

  // ---- writing ------------------------------------------------------------------------------------

  function Framed(m: Bytes): (s: Bytes)
    requires |m| < MAX_FRAME
    ensures |s| == 4 + |m|
  {
    FourBytes();
    ToBytes(|m|, 4) + m
  }

  /** RemoteChannel.send_frame, after sealing: a length that does not fit four bytes is an error. */
  function SendFrame(enc: Bytes): Result<Bytes> {
    if |enc| < MAX_FRAME then Ok(Framed(enc)) else Err("int too big to convert")
  }

  ghost predicate Fits(ms: seq<Bytes>) {
    forall m :: m in ms ==> |m| < MAX_FRAME
  }

  function SendAll(ms: seq<Bytes>): Bytes
    requires Fits(ms)
    decreases |ms|
  {
    if ms == [] then [] else Framed(ms[0]) + SendAll(ms[1..])
  }

  // ---- what a stream carries -------------------------------------------------------------------

  function FirstLength(s: Bytes): nat
    requires |s| >= 4
  {
    FromBytes(s[..4])
  }

  /** The stream starts with a whole frame. */
  predicate HasFrame(s: Bytes) {
    |s| >= 4 && |s| >= 4 + FirstLength(s)
  }

  /** The whole frames of a stream, in order. */
  function Frames(s: Bytes): seq<Bytes>
    decreases |s|
  {
    if HasFrame(s) then [s[4..4 + FirstLength(s)]] + Frames(s[4 + FirstLength(s)..]) else []
  }

  /** What follows the last whole frame. */
  function Rest(s: Bytes): Bytes
    decreases |s|
  {
    if HasFrame(s) then Rest(s[4 + FirstLength(s)..]) else s
  }

  /** The length before a frame is four bytes, the most significant first, and then the frame follows. */
  lemma LengthIsBigEndian(s: Bytes)
    requires |s| >= 4
    ensures FirstLength(s) == (s[0] as int) * 0x100_0000 + (s[1] as int) * 0x1_0000 + (s[2] as int) * 0x100 + s[3] as int
  {
    var b := s[..4];
    assert b[..3] == s[..3] && s[..3][..2] == s[..2] && s[..2][..1] == s[..1] && s[..1][..0] == [];
    assert FromBytes(s[..1]) == s[0] as int && FromBytes(s[..2]) == (s[0] as int) * 0x100 + s[1] as int;
    assert FromBytes(s[..3]) == ((s[0] as int) * 0x100 + s[1] as int) * 0x100 + s[2] as int;
  }

  lemma FramedFirst(m: Bytes, tail: Bytes)
    requires |m| < MAX_FRAME
    ensures var s := Framed(m) + tail;
      HasFrame(s) && FirstLength(s) == |m| && s[4..4 + |m|] == m && s[4 + |m|..] == tail
  {
    FourBytes();
    var s := Framed(m) + tail;
    assert s[..4] == ToBytes(|m|, 4);
    FromTo(|m|, 4);
  }

  lemma FramesHead(m: Bytes, tail: Bytes)
    requires |m| < MAX_FRAME
    ensures Frames(Framed(m) + tail) == [m] + Frames(tail)
    ensures Rest(Framed(m) + tail) == Rest(tail)
  {
    FramedFirst(m, tail);
  }

  /** Reading inverts writing: a stream of written frames followed by anything that is not yet a frame
      carries exactly those frames, and the rest is what followed. */
  lemma {:induction false} FramesOfSendAll(ms: seq<Bytes>, tail: Bytes)
    requires Fits(ms)
    ensures Frames(SendAll(ms) + tail) == ms + Frames(tail)
    ensures Rest(SendAll(ms) + tail) == Rest(tail)
    decreases |ms|
  {
    if ms == [] {
      assert SendAll(ms) + tail == tail;
    } else {
      var m, rest := ms[0], SendAll(ms[1..]) + tail;
      FramesOfSendAll(ms[1..], tail);
      FramesHead(m, rest);
      Assoc(Framed(m), SendAll(ms[1..]), tail);
      AssocFrames([m], ms[1..], Frames(tail));
      assert ms == [m] + ms[1..];
    }
  }

  lemma SplitFirst(s: Bytes)
    requires HasFrame(s)
    ensures var n := FirstLength(s); n < MAX_FRAME && s == Framed(s[4..4 + n]) + s[4 + n..]
  {
    FourBytes();
    ToFrom(s[..4]);
  }

  lemma SendAllHead(m: Bytes, ms: seq<Bytes>)
    requires |m| < MAX_FRAME && Fits(ms)
    ensures Fits([m] + ms) && SendAll([m] + ms) == Framed(m) + SendAll(ms)
  {
    assert ([m] + ms)[1..] == ms;
  }

  lemma Assoc(a: Bytes, b: Bytes, c: Bytes)
    ensures (a + b) + c == a + (b + c)
  {
  }

  /** Writing inverts reading: no byte of a stream is lost, added or moved. */
  lemma {:induction false} SendAllOfFrames(s: Bytes)
    ensures Fits(Frames(s)) && SendAll(Frames(s)) + Rest(s) == s
    decreases |s|
  {
    FourBytes();
    if HasFrame(s) {
      var n := FirstLength(s);
      var m, tail := s[4..4 + n], s[4 + n..];
      SendAllOfFrames(tail);
      SplitFirst(s);
      SendAllHead(m, Frames(tail));
      assert Frames(s) == [m] + Frames(tail) && Rest(s) == Rest(tail);
      Assoc(Framed(m), SendAll(Frames(tail)), Rest(tail));
    }
  }

  /** More bytes never change the frames already read. */
  lemma FramesOnlyGrow(s: Bytes, more: Bytes)
    ensures Frames(s + more) == Frames(s) + Frames(Rest(s) + more)
    ensures Rest(s + more) == Rest(Rest(s) + more)
  {
    SendAllOfFrames(s);
    Assoc(SendAll(Frames(s)), Rest(s), more);
    FramesOfSendAll(Frames(s), Rest(s) + more);
  }

  /** A stream of sent messages carries those, and nothing is left over. */
  lemma SentIsRead(stream: Bytes)
    ensures forall ms :: Fits(ms) && SendAll(ms) == stream ==> Frames(stream) == ms && Rest(stream) == []
  {
    forall ms | Fits(ms) && SendAll(ms) == stream ensures Frames(stream) == ms && Rest(stream) == [] {
      FramesOfSendAll(ms, []);
      assert SendAll(ms) + [] == SendAll(ms);
      assert ms + Frames([]) == ms;
    }
  }

  /** No sequence of messages but one makes up a stream. */
  lemma SendAllIsInjective(a: seq<Bytes>, b: seq<Bytes>)
    requires Fits(a) && Fits(b) && SendAll(a) == SendAll(b)
    ensures a == b
  {
    SentIsRead(SendAll(a));
  }

  // ---- the three readers -------------------------------------------------------------------------

  function Flatten(chunks: seq<Bytes>): Bytes
    decreases |chunks|
  {
    if chunks == [] then [] else Flatten(chunks[..|chunks| - 1]) + chunks[|chunks| - 1]
  }

  lemma FlattenSnoc(chunks: seq<Bytes>, k: nat)
    requires k < |chunks|
    ensures Flatten(chunks[..k + 1]) == Flatten(chunks[..k]) + chunks[k]
  {
    assert chunks[..k + 1][..k] == chunks[..k];
  }

  /** What a reader has of the frame it is in: the length once it is read, and the bytes after it. */
  ghost predicate Holds(stream: Bytes, frames: seq<Bytes>, buf: Bytes, need: Option<nat>) {
    && (need.Some? ==> need.value < MAX_FRAME)
    && frames + Frames(Pending(buf, need)) == Frames(stream)
    && Rest(Pending(buf, need)) == Rest(stream)
  }

  ghost function Pending(buf: Bytes, need: Option<nat>): Bytes {
    if need.Some? && need.value < MAX_FRAME then (FourBytes(); ToBytes(need.value, 4) + buf) else buf
  }

  lemma HoldsNothing()
    ensures Holds([], [], [], None)
  {
  }

  lemma PendingMore(buf: Bytes, need: Option<nat>, chunk: Bytes)
    ensures Pending(buf + chunk, need) == Pending(buf, need) + chunk
  {
    if need.Some? && need.value < MAX_FRAME {
      FourBytes();
      Assoc(ToBytes(need.value, 4), buf, chunk);
    }
  }

  lemma AssocFrames(a: seq<Bytes>, b: seq<Bytes>, c: seq<Bytes>)
    ensures (a + b) + c == a + (b + c)
  {
  }

  lemma HoldsMore(stream: Bytes, frames: seq<Bytes>, buf: Bytes, need: Option<nat>, chunk: Bytes)
    requires Holds(stream, frames, buf, need)
    ensures Holds(stream + chunk, frames, buf + chunk, need)
  {
    PendingMore(buf, need, chunk);
    FramesOnlyGrow(stream, chunk);
    FramesOnlyGrow(Pending(buf, need), chunk);
    AssocFrames(frames, Frames(Pending(buf, need)), Frames(Rest(stream) + chunk));
  }

  lemma HoldsLength(stream: Bytes, frames: seq<Bytes>, buf: Bytes)
    requires Holds(stream, frames, buf, None) && |buf| >= 4
    ensures Holds(stream, frames, buf[4..], Some(FromBytes(buf[..4])))
  {
    FourBytes();
    ToFrom(buf[..4]);
    assert Pending(buf[4..], Some(FromBytes(buf[..4]))) == buf[..4] + buf[4..] == buf;
  }

  lemma HoldsFrame(stream: Bytes, frames: seq<Bytes>, buf: Bytes, need: nat)
    requires Holds(stream, frames, buf, Some(need)) && |buf| >= need
    ensures Holds(stream, frames + [buf[..need]], buf[need..], None)
  {
    PendingFrame(buf, need);
    FramesHead(buf[..need], buf[need..]);
    AssocFrames(frames, [buf[..need]], Frames(buf[need..]));
  }

  lemma PendingFrame(buf: Bytes, need: nat)
    requires need < MAX_FRAME && |buf| >= need
    ensures Pending(buf, Some(need)) == Framed(buf[..need]) + buf[need..]
  {
    FourBytes();
    assert buf == buf[..need] + buf[need..];
    Assoc(ToBytes(need, 4), buf[..need], buf[need..]);
  }

  /** A reader that cannot go on has read every frame there is. */
  lemma HoldsAll(stream: Bytes, frames: seq<Bytes>, buf: Bytes, need: Option<nat>)
    requires Holds(stream, frames, buf, need)
    requires if need.Some? then |buf| < need.value else |buf| < 4
    ensures frames == Frames(stream)
  {
    if need.Some? {
      FourBytes();
      var p := Pending(buf, need);
      FromTo(need.value, 4);
      assert p[..4] == ToBytes(need.value, 4);
    }
  }

  /** A chunk arrives. */
  lemma HoldsChunk(chunks: seq<Bytes>, k: nat, frames: seq<Bytes>, buf: Bytes, need: Option<nat>)
    requires k < |chunks| && Holds(Flatten(chunks[..k]), frames, buf, need)
    ensures Holds(Flatten(chunks[..k + 1]), frames, buf + chunks[k], need)
  {
    HoldsMore(Flatten(chunks[..k]), frames, buf, need, chunks[k]);
    FlattenSnoc(chunks, k);
  }

  /** No chunk is left, and the reader cannot go on. */
  lemma ReaderIsDone(chunks: seq<Bytes>, frames: seq<Bytes>, buf: Bytes, need: Option<nat>)
    requires Holds(Flatten(chunks[..|chunks|]), frames, buf, need)
    requires if need.Some? then |buf| < need.value else |buf| < 4
    ensures frames == Frames(Flatten(chunks))
    ensures forall ms :: Fits(ms) && SendAll(ms) == Flatten(chunks) ==> frames == ms
  {
    assert chunks[..|chunks|] == chunks;
    HoldsAll(Flatten(chunks), frames, buf, need);
    SentIsRead(Flatten(chunks));
  }

  /** Transport._consume_stream: the frames it decrypts. */
  method ConsumeStream(chunks: seq<Bytes>) returns (frames: seq<Bytes>)
    ensures frames == Frames(Flatten(chunks))
    ensures forall ms :: Fits(ms) && SendAll(ms) == Flatten(chunks) ==> frames == ms
  {
    frames := [];
    var buf: Bytes := [];
    var need: Option<nat> := None;
    HoldsNothing();
    for k := 0 to |chunks|
      invariant Holds(Flatten(chunks[..k]), frames, buf, need)
      invariant if need.Some? then |buf| < need.value else |buf| < 4
    {
      HoldsChunk(chunks, k, frames, buf, need);
      ghost var stream := Flatten(chunks[..k + 1]);
      buf := buf + chunks[k];
      while true
        invariant Holds(stream, frames, buf, need)
        decreases |buf|, if need.Some? then 1 else 0
      {
        if need.None? {
          if |buf| < 4 {
            break;
          }
          HoldsLength(stream, frames, buf);
          need := Some(FromBytes(buf[..4]));
          buf := buf[4..];
        }
        if |buf| < need.value {
          break;
        }
        HoldsFrame(stream, frames, buf, need.value);
        frames, buf := frames + [buf[..need.value]], buf[need.value..];
        need := None;
      }
    }
    ReaderIsDone(chunks, frames, buf, need);
  }

  /** ProxyServer.stream_response: the frames it decrypts. */
  method StreamResponse(chunks: seq<Bytes>) returns (frames: seq<Bytes>)
    ensures frames == Frames(Flatten(chunks))
    ensures forall ms :: Fits(ms) && SendAll(ms) == Flatten(chunks) ==> frames == ms
  {
    frames := [];
    var buffer: Bytes := [];
    var needBytes: Option<nat> := None;
    HoldsNothing();
    for k := 0 to |chunks|
      invariant Holds(Flatten(chunks[..k]), frames, buffer, needBytes)
      invariant if needBytes.Some? then |buffer| < needBytes.value else |buffer| < 4
    {
      HoldsChunk(chunks, k, frames, buffer, needBytes);
      ghost var stream := Flatten(chunks[..k + 1]);
      buffer := buffer + chunks[k];
      while true
        invariant Holds(stream, frames, buffer, needBytes)
        decreases |buffer|, if needBytes.Some? then 1 else 0
      {
        if needBytes.None? && |buffer| >= 4 {
          HoldsLength(stream, frames, buffer);
          needBytes := Some(FromBytes(buffer[..4]));
          buffer := buffer[4..];
        }
        if needBytes.None? || |buffer| < needBytes.value {
          break;
        }
        HoldsFrame(stream, frames, buffer, needBytes.value);
        frames, buffer := frames + [buffer[..needBytes.value]], buffer[needBytes.value..];
        needBytes := None;
      }
    }
    ReaderIsDone(chunks, frames, buffer, needBytes);
  }

  ghost predicate NoneStops(frames: seq<Bytes>, stops: Bytes -> bool) {
    forall f :: f in frames ==> !stops(f)
  }

  lemma NoneStopsYet(frames: seq<Bytes>, f: Bytes, stops: Bytes -> bool)
    requires NoneStops(frames, stops) && !stops(f)
    ensures NoneStops(frames + [f], stops)
  {
  }

  /** The frames up to and with the first one that stops the reader. */
  function UpTo(frames: seq<Bytes>, stops: Bytes -> bool): seq<Bytes>
    decreases |frames|
  {
    if frames == [] then [] else if stops(frames[0]) then [frames[0]] else [frames[0]] + UpTo(frames[1..], stops)
  }

  lemma {:induction false} UpToSplit(a: seq<Bytes>, b: seq<Bytes>, stops: Bytes -> bool)
    requires NoneStops(a, stops)
    ensures UpTo(a + b, stops) == a + UpTo(b, stops)
    decreases |a|
  {
    if a == [] {
      assert a + b == b;
    } else {
      assert (a + b)[1..] == a[1..] + b;
      UpToSplit(a[1..], b, stops);
    }
  }

  lemma UpToStops(a: seq<Bytes>, f: Bytes, b: seq<Bytes>, stops: Bytes -> bool)
    requires NoneStops(a, stops) && stops(f)
    ensures UpTo(a + [f] + b, stops) == a + [f]
  {
    AssocFrames(a, [f], b);
    UpToSplit(a, [f] + b, stops);
  }

  /** The chunks an agent reads before the 30 seconds are over: it looks at the clock once a chunk. */
  function InTime(chunks: seq<Bytes>, late: nat -> bool, k: nat): seq<Bytes>
    requires k <= |chunks|
    decreases |chunks| - k
  {
    if k == |chunks| || late(k) then chunks[..k] else InTime(chunks, late, k + 1)
  }

  lemma {:induction false} InTimeStartsWith(chunks: seq<Bytes>, late: nat -> bool, k: nat)
    requires k <= |chunks|
    ensures chunks[..k] <= InTime(chunks, late, k) <= chunks
    decreases |chunks| - k
  {
    if k < |chunks| && !late(k) {
      InTimeStartsWith(chunks, late, k + 1);
      assert chunks[..k] <= chunks[..k + 1];
    }
  }

  lemma {:induction false} FlattenStartsWith(a: seq<Bytes>, chunks: seq<Bytes>)
    requires a <= chunks
    ensures Flatten(a) <= Flatten(chunks)
    decreases |chunks|
  {
    if |a| < |chunks| {
      FlattenStartsWith(a, chunks[..|chunks| - 1]);
    } else {
      assert a == chunks;
    }
  }

  /** Of any messages sent, the first are read, and all if no chunk is late and no message stops the reader. */
  lemma AgentReadsBack(chunks: seq<Bytes>, late: nat -> bool, stops: Bytes -> bool, ms: seq<Bytes>)
    requires Fits(ms) && SendAll(ms) == Flatten(chunks)
    ensures var read := UpTo(Frames(Flatten(InTime(chunks, late, 0))), stops);
      read <= ms && ((forall k :: 0 <= k < |chunks| ==> !late(k)) && NoneStops(ms, stops) ==> read == ms)
  {
    AgentReadsAPrefix(chunks, late, stops);
    SentIsRead(Flatten(chunks));
  }

  /** The inner loop of RemoteChannel._process_stream: all frames there are, up to one that stops the reader. */
  method TakeFrames(before: seq<Bytes>, held: Bytes, length: Option<nat>, stops: Bytes -> bool, ghost stream: Bytes)
      returns (frames: seq<Bytes>, buf: Bytes, need: Option<nat>, last: Option<Bytes>)
    requires Holds(stream, before, held, length) && NoneStops(before, stops)
    ensures NoneStops(frames, stops)
    ensures last.None? ==> Holds(stream, frames, buf, need) && if need.Some? then |buf| < need.value else |buf| < 4
    ensures last.Some? ==> Holds(stream, frames + [last.value], buf, None) && stops(last.value)
  {
    frames, buf, need, last := before, held, length, None;
    while true
      invariant Holds(stream, frames, buf, need)
      invariant NoneStops(frames, stops)
      decreases |buf|, if need.Some? then 1 else 0
    {
      if need.None? && |buf| >= 4 {
        HoldsLength(stream, frames, buf);
        need := Some(FromBytes(buf[..4]));
        buf := buf[4..];
      }
      if need.None? || |buf| < need.value {
        return;
      }
      HoldsFrame(stream, frames, buf, need.value);
      var enc := buf[..need.value];
      buf := buf[need.value..];
      need := None;
      if stops(enc) {
        return frames, buf, None, Some(enc);
      }
      NoneStopsYet(frames, enc, stops);
      frames := frames + [enc];
    }
  }

  /** RemoteChannel._process_stream: the frames it decrypts. It stops at the first chunk that is late,
      and after the first frame whose callback asks for it. */
  method ReadChunks(chunks: seq<Bytes>, late: nat -> bool, stops: Bytes -> bool) returns (frames: seq<Bytes>)
    ensures frames == UpTo(Frames(Flatten(InTime(chunks, late, 0))), stops)
  {
    frames := [];
    var buf: Bytes := [];
    var need: Option<nat> := None;
    HoldsNothing();
    var k := 0;
    while k < |chunks| && !late(k)
      invariant k <= |chunks| && InTime(chunks, late, 0) == InTime(chunks, late, k)
      invariant Holds(Flatten(chunks[..k]), frames, buf, need)
      invariant if need.Some? then |buf| < need.value else |buf| < 4
      invariant NoneStops(frames, stops)
    {
      HoldsChunk(chunks, k, frames, buf, need);
      var last;
      frames, buf, need, last := TakeFrames(frames, buf + chunks[k], need, stops, Flatten(chunks[..k + 1]));
      k := k + 1;
      if last.Some? {
        StoppedHere(chunks, late, k, Flatten(chunks[..k]), frames, last.value, buf, stops);
        frames := frames + [last.value];
        return;
      }
    }
    ReadToTheEnd(chunks, late, k, frames, buf, need, stops);
  }

  lemma ReadToTheEnd(chunks: seq<Bytes>, late: nat -> bool, k: nat, frames: seq<Bytes>, buf: Bytes, need: Option<nat>, stops: Bytes -> bool)
    requires k <= |chunks| && (k == |chunks| || late(k))
    requires Holds(Flatten(chunks[..k]), frames, buf, need) && NoneStops(frames, stops)
    requires if need.Some? then |buf| < need.value else |buf| < 4
    ensures frames == UpTo(Frames(Flatten(InTime(chunks, late, k))), stops)
  {
    HoldsAll(Flatten(chunks[..k]), frames, buf, need);
    UpToSplit(frames, [], stops);
    assert frames + [] == frames;
  }

  /** RemoteChannel._process_stream. Whatever messages were sent, it reads the first of them, and all if no
      chunk is late and no message stops it. */
  method ProcessStream(chunks: seq<Bytes>, late: nat -> bool, stops: Bytes -> bool) returns (frames: seq<Bytes>)
    ensures frames == UpTo(Frames(Flatten(InTime(chunks, late, 0))), stops)
    ensures forall ms :: Fits(ms) && SendAll(ms) == Flatten(chunks) ==>
      frames <= ms && ((forall k :: 0 <= k < |chunks| ==> !late(k)) && NoneStops(ms, stops) ==> frames == ms)
  {
    frames := ReadChunks(chunks, late, stops);
    forall ms | Fits(ms) && SendAll(ms) == Flatten(chunks)
      ensures frames <= ms && ((forall k :: 0 <= k < |chunks| ==> !late(k)) && NoneStops(ms, stops) ==> frames == ms)
    {
      AgentReadsBack(chunks, late, stops, ms);
    }
  }

  lemma StoppedHere(chunks: seq<Bytes>, late: nat -> bool, k: nat, stream: Bytes, frames: seq<Bytes>, enc: Bytes, buf: Bytes, stops: Bytes -> bool)
    requires k <= |chunks| && stream == Flatten(chunks[..k])
    requires Holds(stream, frames + [enc], buf, None)
    requires NoneStops(frames, stops) && stops(enc)
    ensures UpTo(Frames(Flatten(InTime(chunks, late, k))), stops) == frames + [enc]
  {
    var all := InTime(chunks, late, k);
    InTimeStartsWith(chunks, late, k);
    FlattenStartsWith(chunks[..k], all);
    var more := Flatten(all)[|stream|..];
    FramesOnlyGrow(stream, more);
    assert Flatten(all) == stream + more;
    var tail := Frames(Rest(stream) + more);
    UpToStops(frames, enc, Frames(buf) + tail, stops);
    AssocFrames(frames + [enc], Frames(buf), tail);
  }

  /** One sent frame is read back; a longer one is refused before anything is sent. */
  lemma SentFrameIsRead(enc: Bytes)
    ensures SendFrame(enc).Ok? <==> |enc| < 0x1_0000_0000
    ensures SendFrame(enc).Ok? ==> Frames(SendFrame(enc).value) == [enc] && Rest(SendFrame(enc).value) == []
  {
    if |enc| < MAX_FRAME {
      FramesHead(enc, []);
      assert Framed(enc) + [] == Framed(enc);
    }
  }

  lemma {:induction false} UpToStartsWith(frames: seq<Bytes>, stops: Bytes -> bool)
    ensures UpTo(frames, stops) <= frames
    ensures NoneStops(frames, stops) ==> UpTo(frames, stops) == frames
    decreases |frames|
  {
    if frames != [] {
      UpToStartsWith(frames[1..], stops);
    }
  }

  lemma {:induction false} NeverLateIsAll(chunks: seq<Bytes>, late: nat -> bool, k: nat)
    requires k <= |chunks| && forall i :: k <= i < |chunks| ==> !late(i)
    ensures InTime(chunks, late, k) == chunks
    decreases |chunks| - k
  {
    if k < |chunks| {
      NeverLateIsAll(chunks, late, k + 1);
    }
  }

  lemma EarlierIsAPrefix(chunks: seq<Bytes>, late: nat -> bool)
    ensures Frames(Flatten(InTime(chunks, late, 0))) <= Frames(Flatten(chunks))
  {
    InTimeStartsWith(chunks, late, 0);
    FlattenStartsWith(InTime(chunks, late, 0), chunks);
    FramesOfAPrefix(Flatten(InTime(chunks, late, 0)), Flatten(chunks));
  }

  /** A stream cut short carries the first of its frames. */
  lemma FramesOfAPrefix(s: Bytes, all: Bytes)
    requires s <= all
    ensures Frames(s) <= Frames(all)
  {
    FramesOnlyGrow(s, all[|s|..]);
    assert s + all[|s|..] == all;
  }

  /** The agent reads the first frames of the stream, and all of them unless it is late or stopped. */
  lemma AgentReadsAPrefix(chunks: seq<Bytes>, late: nat -> bool, stops: Bytes -> bool)
    ensures var read := UpTo(Frames(Flatten(InTime(chunks, late, 0))), stops);
      var all := Frames(Flatten(chunks));
      read <= all &&
      ((forall k :: 0 <= k < |chunks| ==> !late(k)) && NoneStops(all, stops) ==> read == all)
  {
    var early := InTime(chunks, late, 0);
    EarlierIsAPrefix(chunks, late);
    UpToStartsWith(Frames(Flatten(early)), stops);
    if forall k :: 0 <= k < |chunks| ==> !late(k) {
      NeverLateIsAll(chunks, late, 0);
    }
  }
}
