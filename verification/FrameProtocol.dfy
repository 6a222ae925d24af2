/**
  Length-prefixed frames: the client joins compressed collabs into one body
  (`lib/client-api/src/native/http_native.rs`), the server takes them out of a body that arrives
  in arbitrary chunks (`batch_create_collab_handler` in `src/api/workspace.rs`).
 */
module FrameProtocol {
  import opened Integers
  import opened Sequences
  import opened WireFormat

  const HEADER := 4

  /** `u32::to_be_bytes`. */
  function ToBytes(n: nat): (s: Bytes)
    requires n < U32_LIMIT
    ensures |s| == HEADER
  {
    [n / 0x100_0000, n / 0x1_0000 % 0x100, n / 0x100 % 0x100, n % 0x100]
  }

  /** `u32::from_be_bytes`. */
  function FromBytes(s: Bytes): (n: nat)
    requires |s| == HEADER
  {
    (s[0] as int) * 0x100_0000 + (s[1] as int) * 0x1_0000 + (s[2] as int) * 0x100 + s[3]
  }

  lemma HeaderRoundTrip(n: nat)
    requires n < U32_LIMIT
    ensures FromBytes(ToBytes(n)) == n
  {
    var a := n / 0x100;
    var b := a / 0x100;
    assert n / 0x1_0000 == b && n / 0x100_0000 == b / 0x100;
  }

  /** The most significant byte comes first. */
  lemma HeaderBytes(a: Byte, b: Byte, c: Byte, d: Byte)
    ensures var n: nat := 0x100_0000 * a + 0x1_0000 * b + 0x100 * c + d;
      n < U32_LIMIT && ToBytes(n) == [a, b, c, d] && FromBytes([a, b, c, d]) == n
  {
    var high: nat := 0x100 * a + b;
    var middle: nat := 0x100 * high + c;
    var n: nat := 0x100 * middle + d;
    assert n / 0x100 == middle && n % 0x100 == d;
    assert middle / 0x100 == high && middle % 0x100 == c;
    assert high / 0x100 == a && high % 0x100 == b;
    assert n / 0x1_0000 == n / 0x100 / 0x100;
    assert n / 0x100_0000 == n / 0x1_0000 / 0x100;
  }

  /** A frame as the client writes it; the length is cast to `u32`. */
  function Frame(data: Bytes): Bytes {
    ToBytes(|data| % U32_LIMIT) + data
  }

  function FrameAll(frames: seq<Bytes>): Bytes {
    if frames == [] then [] else Frame(frames[0]) + FrameAll(frames[1..])
  }

  /** The frames at the front of a buffer, and what is left. */
  datatype Taken = Taken(frames: seq<Bytes>, rest: Bytes)

  predicate HasFrame(buffer: Bytes) {
    |buffer| >= HEADER && |buffer| >= HEADER + FromBytes(buffer[..HEADER])
  }

  function FirstFrame(buffer: Bytes): Bytes
    requires HasFrame(buffer)
  {
    buffer[HEADER..HEADER + FromBytes(buffer[..HEADER])]
  }

  function AfterFrame(buffer: Bytes): (rest: Bytes)
    requires HasFrame(buffer)
    ensures |rest| < |buffer|
  {
    buffer[HEADER + FromBytes(buffer[..HEADER])..]
  }

  function TakeFrames(buffer: Bytes): (t: Taken)
    ensures !HasFrame(t.rest)
  {
    if HasFrame(buffer) then
      var later := TakeFrames(AfterFrame(buffer));
      Taken([FirstFrame(buffer)] + later.frames, later.rest)
    else Taken([], buffer)
  }

  // Incremental parsing does not depend on the chunks ------------------------------------------------

  lemma FrameStays(buffer: Bytes, more: Bytes)
    requires HasFrame(buffer)
    ensures HasFrame(buffer + more)
    ensures FirstFrame(buffer + more) == FirstFrame(buffer)
    ensures AfterFrame(buffer + more) == AfterFrame(buffer) + more
  {
    assert (buffer + more)[..HEADER] == buffer[..HEADER];
  }

  /** Taking frames early changes nothing: bytes that arrive later continue from the rest. */
  lemma {:induction false} TakeThenMore(buffer: Bytes, more: Bytes)
    ensures var t := TakeFrames(buffer);
      TakeFrames(buffer + more) == Taken(t.frames + TakeFrames(t.rest + more).frames, TakeFrames(t.rest + more).rest)
    decreases |buffer|
  {
    if HasFrame(buffer) {
      FrameStays(buffer, more);
      TakeThenMore(AfterFrame(buffer), more);
      var t := TakeFrames(AfterFrame(buffer));
      assert [FirstFrame(buffer)] + (t.frames + TakeFrames(t.rest + more).frames)
          == ([FirstFrame(buffer)] + t.frames) + TakeFrames(t.rest + more).frames;
    }
  }

  // The two loops --------------------------------------------------------------------------------------

  /** The framing loop of `create_collab_list`. */
  method JoinFrames(frames: seq<Bytes>) returns (framed: Bytes)
    ensures framed == FrameAll(frames)
  {
    framed := [];
    for i := 0 to |frames|
      invariant framed + FrameAll(frames[i..]) == FrameAll(frames)
    {
      var size := |frames[i]| % U32_LIMIT;
      assert frames[i..][1..] == frames[i + 1..];
      assert FrameAll(frames[i..]) == Frame(frames[i]) + FrameAll(frames[i + 1..]);
      framed := framed + ToBytes(size);
      framed := framed + frames[i];
    }
    assert FrameAll(frames[|frames|..]) == [];
  }

  /** A piece of the request body; a failed read is skipped. */
  datatype Chunk = Data(bytes: Bytes) | Failed

  function Joined(chunks: seq<Chunk>): Bytes {
    if chunks == [] then []
    else
      var last := chunks[|chunks| - 1];
      Joined(chunks[..|chunks| - 1]) + (if last.Data? then last.bytes else [])
  }

  /** `frames` have been taken off `buffer`, which leaves `rest` to go on with. */
  predicate Drained(buffer: Bytes, frames: seq<Bytes>, rest: Bytes) {
    TakeFrames(buffer) == Taken(frames + TakeFrames(rest).frames, TakeFrames(rest).rest)
  }

  lemma DrainOneMore(buffer: Bytes, frames: seq<Bytes>, rest: Bytes)
    requires Drained(buffer, frames, rest) && HasFrame(rest)
    ensures Drained(buffer, frames + [FirstFrame(rest)], AfterFrame(rest))
    ensures FirstFrame(rest) in TakeFrames(buffer).frames
  {
    var later := TakeFrames(AfterFrame(rest)).frames;
    Associates(frames, [FirstFrame(rest)], later);
    assert ((frames + [FirstFrame(rest)]) + later)[|frames|] == FirstFrame(rest);
  }

  /** The inner loop over the buffer; `decodes` stands for decompression, parsing and validation. */
  method DrainBuffer(buffer: Bytes, decodes: Bytes -> bool) returns (frames: seq<Bytes>, rest: Bytes, ok: bool)
    ensures ok ==> Taken(frames, rest) == TakeFrames(buffer) && forall f :: f in frames ==> decodes(f)
    ensures !ok ==> exists f :: f in TakeFrames(buffer).frames && !decodes(f)
  {
    frames, rest, ok := [], buffer, true;
    while |rest| >= HEADER
      invariant Drained(buffer, frames, rest)
      invariant forall f :: f in frames ==> decodes(f)
      decreases |rest|
    {
      var size := FromBytes(rest[..HEADER]);
      if |rest| < HEADER + size {
        break;
      }
      var data := rest[HEADER..HEADER + size];
      DrainOneMore(buffer, frames, rest);
      if !decodes(data) {
        ok := false;
        return;
      }
      frames := frames + [data];
      rest := rest[HEADER + size..];
    }
  }

  /** The chunks are some cut of the framing of `sent`, whose frames fit their headers. */
  ghost predicate SentAs(sent: seq<Bytes>, chunks: seq<Chunk>) {
    (forall f :: f in sent ==> |f| < U32_LIMIT) && Joined(chunks) == FrameAll(sent)
  }

  /** Exactly the frames sent come out and nothing is left, unless one of them does not decode. */
  ghost predicate IsReception(sent: seq<Bytes>, decodes: Bytes -> bool, frames: seq<Bytes>, buffer: Bytes, ok: bool) {
    && (ok <==> forall f :: f in sent ==> decodes(f))
    && (ok ==> frames == sent && buffer == [])
  }

  /** The handler's loop over the chunks of the body. */
  method ReceiveFrames(chunks: seq<Chunk>, decodes: Bytes -> bool) returns (frames: seq<Bytes>, buffer: Bytes, ok: bool)
    ensures ok ==> Taken(frames, buffer) == TakeFrames(Joined(chunks)) && forall f :: f in frames ==> decodes(f)
    ensures !ok ==> exists f :: f in TakeFrames(Joined(chunks)).frames && !decodes(f)
    ensures forall sent :: SentAs(sent, chunks) ==> IsReception(sent, decodes, frames, buffer, ok)
  {
    forall sent | SentAs(sent, chunks)
      ensures TakeFrames(Joined(chunks)) == Taken(sent, [])
    {
      FramesRoundTrip(sent);
    }
    frames, buffer, ok := [], [], true;
    for i := 0 to |chunks|
      invariant ok && Taken(frames, buffer) == TakeFrames(Joined(chunks[..i]))
      invariant forall f :: f in frames ==> decodes(f)
    {
      NextChunk(chunks, i);
      if chunks[i].Data? {
        buffer := buffer + chunks[i].bytes;
        var more;
        more, buffer, ok := DrainBuffer(buffer, decodes);
        if !ok {
          return;
        }
        frames := frames + more;
      }
    }
    assert chunks[..|chunks|] == chunks;
  }

  /** What chunk `i` adds to the frames taken so far. */
  lemma NextChunk(chunks: seq<Chunk>, i: nat)
    requires i < |chunks|
    ensures var t, last := TakeFrames(Joined(chunks[..i])), chunks[i];
      if last.Data? then
        && TakeFrames(Joined(chunks[..i + 1])) ==
             Taken(t.frames + TakeFrames(t.rest + last.bytes).frames, TakeFrames(t.rest + last.bytes).rest)
        && forall f :: f in TakeFrames(t.rest + last.bytes).frames ==> f in TakeFrames(Joined(chunks)).frames
      else TakeFrames(Joined(chunks[..i + 1])) == t
  {
    assert chunks[..i + 1][..i] == chunks[..i];
    var t, last := TakeFrames(Joined(chunks[..i])), chunks[i];
    if last.Data? {
      TakeThenMore(Joined(chunks[..i]), last.bytes);
      TakePrefix(chunks, i + 1);
      var upTo, all := TakeFrames(Joined(chunks[..i + 1])).frames, TakeFrames(Joined(chunks)).frames;
      assert forall f :: f in upTo ==> f in all[..|upTo|];
    } else {
      assert Joined(chunks[..i + 1]) == Joined(chunks[..i]);
    }
  }

  /** Frames taken from the first chunks are among those taken from all of them. */
  lemma {:induction false} TakePrefix(chunks: seq<Chunk>, n: nat)
    requires n <= |chunks|
    ensures TakeFrames(Joined(chunks[..n])).frames <= TakeFrames(Joined(chunks)).frames
    decreases |chunks| - n
  {
    if n == |chunks| {
      assert chunks[..n] == chunks;
    } else {
      assert chunks[..n + 1][..n] == chunks[..n];
      var last := chunks[n];
      TakeThenMore(Joined(chunks[..n]), if last.Data? then last.bytes else []);
      TakePrefix(chunks, n + 1);
    }
  }

  // Round trips ----------------------------------------------------------------------------------------

  lemma FrameThenRest(data: Bytes, rest: Bytes)
    ensures var buffer, size := Frame(data) + rest, |data| % U32_LIMIT;
      HasFrame(buffer) && FirstFrame(buffer) == data[..size] && AfterFrame(buffer) == data[size..] + rest
  {
    var buffer, size := Frame(data) + rest, |data| % U32_LIMIT;
    assert buffer[..HEADER] == ToBytes(size);
    HeaderRoundTrip(size);
    assert size <= |data|;
    assert buffer[HEADER..] == data + rest;
  }

  lemma TakeFirst(buffer: Bytes, data: Bytes, rest: Bytes)
    requires HasFrame(buffer) && FirstFrame(buffer) == data && AfterFrame(buffer) == rest
    ensures TakeFrames(buffer) == Taken([data] + TakeFrames(rest).frames, TakeFrames(rest).rest)
  {
  }

  lemma TakeOneMore(data: Bytes, rest: Bytes)
    requires |data| < U32_LIMIT
    ensures TakeFrames(Frame(data) + rest) == Taken([data] + TakeFrames(rest).frames, TakeFrames(rest).rest)
  {
    FrameThenRest(data, rest);
    WholeAndNothing(data, rest);
    TakeFirst(Frame(data) + rest, data, rest);
  }

  lemma WholeAndNothing(data: Bytes, rest: Bytes)
    ensures data[..|data|] == data && data[|data|..] + rest == rest
  {
  }

  lemma {:induction false} FramesRoundTrip(frames: seq<Bytes>)
    requires forall f :: f in frames ==> |f| < U32_LIMIT
    ensures TakeFrames(FrameAll(frames)) == Taken(frames, [])
  {
    if frames != [] {
      TakeOneMore(frames[0], FrameAll(frames[1..]));
      FramesRoundTrip(frames[1..]);
      assert [frames[0]] + frames[1..] == frames;
    }
  }

  /** Frames come back exactly when every one of them fits its 32-bit header. */
  lemma {:induction false} FramesRoundTripIff(frames: seq<Bytes>)
    ensures TakeFrames(FrameAll(frames)) == Taken(frames, []) <==> forall f :: f in frames ==> |f| < U32_LIMIT
  {
    if forall f :: f in frames ==> |f| < U32_LIMIT {
      FramesRoundTrip(frames);
    } else {
      var data, rest := frames[0], FrameAll(frames[1..]);
      if |data| < U32_LIMIT {
        TakeOneMore(data, rest);
        FramesRoundTripIff(frames[1..]);
        var t := TakeFrames(rest);
        assert ([data] + t.frames)[1..] == t.frames;
      } else {
        FrameThenRest(data, rest);
        assert TakeFrames(FrameAll(frames)).frames[0] != data;
      }
    }
  }

  /**
    Wherever the framed body ends, the server's loop yields the frames that lie wholly before the
    end and keeps the bytes behind them in its buffer. With `ReceiveFrames` this holds for every
    way of cutting the body into chunks.
   */
  lemma {:induction false} CutFrames(frames: seq<Bytes>, n: nat) returns (count: nat)
    requires forall f :: f in frames ==> |f| < U32_LIMIT
    requires n <= |FrameAll(frames)|
    ensures FramesBeforeCut(frames, n, count)
  {
    if frames == [] {
      count := 0;
    } else if n < |Frame(frames[0])| {
      count := 0;
      NoFrameBeforeCut(frames, n);
    } else {
      var later := CutFrames(frames[1..], n - |Frame(frames[0])|);
      count := later + 1;
      OneMoreBeforeCut(frames, n, later);
    }
  }

  predicate FramesBeforeCut(frames: seq<Bytes>, n: nat, count: nat)
    requires n <= |FrameAll(frames)|
  {
    var t := TakeFrames(FrameAll(frames)[..n]);
    && count <= |frames|
    && t.frames == frames[..count]
    && FrameAll(frames[..count]) + t.rest == FrameAll(frames)[..n]
    && (count < |frames| ==> n < |FrameAll(frames[..count + 1])|)
  }

  lemma NoFrameInCut(header: Bytes, data: Bytes, n: nat)
    requires |header| == HEADER && FromBytes(header) == |data| && n < HEADER + |data|
    ensures TakeFrames((header + data)[..n]) == Taken([], (header + data)[..n])
  {
    if n >= HEADER {
      CutKeepsHead(header, data, n);
    }
  }

  lemma ShortBufferHasNoFrame(data: Bytes, n: nat)
    requires |data| < U32_LIMIT && n < |Frame(data)|
    ensures TakeFrames(Frame(data)[..n]) == Taken([], Frame(data)[..n])
  {
    var header := FrameOfShort(data);
    NoFrameInCut(header, data, n);
  }

  lemma FrameOfShort(data: Bytes) returns (header: Bytes)
    requires |data| < U32_LIMIT
    ensures |header| == HEADER && FromBytes(header) == |data| && Frame(data) == header + data
  {
    SmallCast(|data|);
    header := ToBytes(|data| % U32_LIMIT);
    HeaderRoundTrip(|data| % U32_LIMIT);
  }

  lemma SmallCast(n: nat)
    requires n < U32_LIMIT
    ensures n % U32_LIMIT == n
  {
  }

  lemma NoFrameBeforeCut(frames: seq<Bytes>, n: nat)
    requires frames != [] && |frames[0]| < U32_LIMIT && n < |Frame(frames[0])|
    ensures FramesBeforeCut(frames, n, 0)
  {
    ShortBufferHasNoFrame(frames[0], n);
    CutOfSum(Frame(frames[0]), FrameAll(frames[1..]), n);
    PrefixFrames(frames, 1);
    assert FrameAll([]) + Frame(frames[0])[..n] == Frame(frames[0])[..n];
  }

  lemma OneMoreBeforeCut(frames: seq<Bytes>, n: nat, later: nat)
    requires frames != [] && |frames[0]| < U32_LIMIT && |Frame(frames[0])| <= n <= |FrameAll(frames)|
    requires FramesBeforeCut(frames[1..], n - |Frame(frames[0])|, later)
    ensures FramesBeforeCut(frames, n, later + 1)
  {
    var head, all := Frame(frames[0]), FrameAll(frames[1..]);
    var tail := all[..n - |head|];
    assert FrameAll(frames)[..n] == head + tail by {
      CutOfSum(head, all, n);
    }
    TakeOneMore(frames[0], tail);
    HeadAndTail(frames, later);
    assert FrameAll(frames[..later + 1]) + TakeFrames(tail).rest == head + tail by {
      PrefixFrames(frames, later + 1);
      Associates(head, FrameAll(frames[1..][..later]), TakeFrames(tail).rest);
    }
    if later + 1 < |frames| {
      PrefixFrames(frames, later + 2);
    }
  }

  lemma PrefixFrames(frames: seq<Bytes>, count: nat)
    requires 0 < count <= |frames|
    ensures FrameAll(frames[..count]) == Frame(frames[0]) + FrameAll(frames[1..][..count - 1])
  {
    assert frames[..count][1..] == frames[1..][..count - 1];
  }
}
