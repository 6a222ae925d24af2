/**
  The tagged encoding of protocol messages and the reader that takes them off a byte stream
  (`lib/realtime-protocol/src/message.rs`), and the hand-written encoder of update broadcasts
  (`lib/realtime/src/server/collaborate/group_broadcast.rs`).
 */
module MessageCodec {
  import opened Integers
  import opened Sequences
  import opened WireFormat
  import opened Wrappers

  const MSG_SYNC := 0
  const MSG_AWARENESS := 1
  const MSG_AUTH := 2
  const MSG_CUSTOM := 3
  const PERMISSION_DENIED := 0
  const PERMISSION_GRANTED := 1
  const MSG_CUSTOM_START_SYNC := 0
  const MSG_SYNC_STEP_1 := 0
  const MSG_SYNC_STEP_2 := 1
  const MSG_SYNC_UPDATE := 2

  /** One client's clock in a state vector. */
  datatype Clock = Clock(client: nat, clock: nat)

  datatype SyncMessage =
    | SyncStep1(stateVector: seq<Clock>)
    | SyncStep2(update: Bytes)
    | Update(update: Bytes)

  /** An authorisation reason and an awareness update are kept as the bytes they travel as. */
  datatype Message =
    | Sync(sync: SyncMessage)
    | Auth(reason: Option<Bytes>)
    | Awareness(awareness: Bytes)
    | SyncCheck(lastSyncAt: int)

  // State vectors ----------------------------------------------------------------------------------

  function EncodeClocks(clocks: seq<Clock>): Bytes {
    if clocks == [] then [] else WriteVar(clocks[0].client) + WriteVar(clocks[0].clock) + EncodeClocks(clocks[1..])
  }

  function DecodeClocks(s: Bytes, n: nat): Parsed<seq<Clock>>
    decreases n
  {
    if n == 0 then Ok([], s)
    else
      match ReadVar(s, U64_LIMIT)
      case Ok(client, s1) =>
        (match ReadVar(s1, U32_LIMIT)
         case Ok(clock, s2) =>
           (match DecodeClocks(s2, n - 1)
            case Ok(clocks, s3) => Ok([Clock(client, clock)] + clocks, s3)
            case EndOfBuffer => EndOfBuffer
            case Invalid => Invalid)
         case EndOfBuffer => EndOfBuffer
         case Invalid => Invalid)
      case EndOfBuffer => EndOfBuffer
      case Invalid => Invalid
  }

  function EncodeStateVector(clocks: seq<Clock>): Bytes {
    WriteVar(|clocks|) + EncodeClocks(clocks)
  }

  function DecodeStateVector(s: Bytes): Parsed<seq<Clock>> {
    match ReadVar(s, U32_LIMIT)
    case Ok(n, rest) => DecodeClocks(rest, n)
    case EndOfBuffer => EndOfBuffer
    case Invalid => Invalid
  }

  predicate ClocksFit(clocks: seq<Clock>) {
    forall c :: c in clocks ==> c.client < U64_LIMIT && c.clock < U32_LIMIT
  }

  lemma ClockRoundTrip(c: Clock, tail: Bytes, n: nat)
    requires c.client < U64_LIMIT && c.clock < U32_LIMIT && DecodeClocks(tail, n).Ok?
    ensures var later := DecodeClocks(tail, n);
      DecodeClocks(WriteVar(c.client) + (WriteVar(c.clock) + tail), n + 1) == Ok([c] + later.value, later.rest)
  {
    VarRoundTrip(c.client, U64_LIMIT, WriteVar(c.clock) + tail);
    VarRoundTrip(c.clock, U32_LIMIT, tail);
  }

  lemma FirstClock(clocks: seq<Clock>, rest: Bytes)
    requires clocks != []
    ensures EncodeClocks(clocks) + rest ==
      WriteVar(clocks[0].client) + (WriteVar(clocks[0].clock) + (EncodeClocks(clocks[1..]) + rest))
  {
    var client, clock, later := WriteVar(clocks[0].client), WriteVar(clocks[0].clock), EncodeClocks(clocks[1..]);
    Associates(client + clock, later, rest);
    Associates(client, clock, later + rest);
  }

  lemma {:induction false} ClocksRoundTrip(clocks: seq<Clock>, rest: Bytes)
    requires ClocksFit(clocks)
    ensures DecodeClocks(EncodeClocks(clocks) + rest, |clocks|) == Ok(clocks, rest)
  {
    if clocks == [] {
      assert EncodeClocks(clocks) + rest == rest;
    } else {
      ClocksRoundTrip(clocks[1..], rest);
      FirstClock(clocks, rest);
      ClockRoundTrip(clocks[0], EncodeClocks(clocks[1..]) + rest, |clocks| - 1);
      assert [clocks[0]] + clocks[1..] == clocks;
    }
  }

  lemma StateVectorRoundTrip(clocks: seq<Clock>)
    requires ClocksFit(clocks) && |clocks| < U32_LIMIT
    ensures DecodeStateVector(EncodeStateVector(clocks)) == Ok(clocks, [])
  {
    VarRoundTrip(|clocks|, U32_LIMIT, EncodeClocks(clocks));
    ClocksRoundTrip(clocks, []);
    assert EncodeClocks(clocks) + [] == EncodeClocks(clocks);
  }

  // Sync metadata ------------------------------------------------------------------------------------

  predicate IsI64(i: int) {
    -0x8000_0000_0000_0000 <= i < 0x8000_0000_0000_0000
  }

  /** `SyncMeta::to_vec`: eight bytes in two's complement. */
  function SyncMetaToVec(lastSyncAt: int): Bytes {
    WriteLE(lastSyncAt % U64_LIMIT, 8)
  }

  /** `SyncMeta::from_vec`; bincode accepts trailing bytes. */
  function SyncMetaFromVec(s: Bytes): Option<int> {
    if |s| < 8 then None
    else
      var n := ReadLE(s[..8]);
      Some(if n < U64_LIMIT / 2 then n else n - U64_LIMIT)
  }

  lemma SyncMetaRoundTrip(lastSyncAt: int)
    requires IsI64(lastSyncAt)
    ensures SyncMetaFromVec(SyncMetaToVec(lastSyncAt)) == Some(lastSyncAt)
  {
    var n: nat := if lastSyncAt < 0 then lastSyncAt + U64_LIMIT else lastSyncAt;
    TwosComplement(lastSyncAt, n);
    var s := WriteLE(n, 8);
    assert s[..8] == s;
    Pow256Of8();
    LERoundTrip(n, 8);
  }

  lemma TwosComplement(i: int, n: nat)
    requires IsI64(i) && n == if i < 0 then i + U64_LIMIT else i
    ensures i % U64_LIMIT == n
  {
  }

  lemma Pow256Of8()
    ensures Pow256(8) == U64_LIMIT
  {
    assert Pow256(4) == U32_LIMIT by {
      assert Pow256(2) == 65536;
    }
    assert Pow256(6) == 65536 * U32_LIMIT;
  }

  // Messages -----------------------------------------------------------------------------------------

  function EncodeSync(m: SyncMessage): Bytes {
    match m
    case SyncStep1(clocks) => WriteVar(MSG_SYNC_STEP_1) + WriteBuf(EncodeStateVector(clocks))
    case SyncStep2(update) => WriteVar(MSG_SYNC_STEP_2) + WriteBuf(update)
    case Update(update) => WriteVar(MSG_SYNC_UPDATE) + WriteBuf(update)
  }

  function Encode(m: Message): Bytes {
    match m
    case Sync(sync) => WriteVar(MSG_SYNC) + EncodeSync(sync)
    case Auth(reason) => WriteVar(MSG_AUTH) + EncodeAuth(reason)
    case Awareness(update) => WriteVar(MSG_AWARENESS) + WriteBuf(update)
    case SyncCheck(at) => WriteVar(MSG_CUSTOM) + EncodeCustom(at)
  }

  function EncodeAuth(reason: Option<Bytes>): Bytes {
    match reason
    case Some(r) => WriteVar(PERMISSION_DENIED) + WriteBuf(r)
    case None => WriteVar(PERMISSION_GRANTED)
  }

  function EncodeCustom(lastSyncAt: int): Bytes {
    WriteVar(MSG_CUSTOM_START_SYNC) + WriteBuf(SyncMetaToVec(lastSyncAt))
  }

  function DecodeSync(s: Bytes): (r: Parsed<SyncMessage>)
    ensures r.Ok? ==> |r.rest| < |s|
  {
    match ReadVar(s, U8_LIMIT)
    case Ok(tag, s1) =>
      if tag == MSG_SYNC_STEP_1 || tag == MSG_SYNC_STEP_2 || tag == MSG_SYNC_UPDATE then
        (match ReadBuf(s1)
         case Ok(buf, s2) =>
           if tag == MSG_SYNC_STEP_1 then
             (match DecodeStateVector(buf)
              case Ok(clocks, _) => Ok(SyncStep1(clocks), s2)
              case EndOfBuffer => EndOfBuffer
              case Invalid => Invalid)
           else if tag == MSG_SYNC_STEP_2 then Ok(SyncStep2(buf), s2)
           else Ok(Update(buf), s2)
         case EndOfBuffer => EndOfBuffer
         case Invalid => Invalid)
      else Invalid
    case EndOfBuffer => EndOfBuffer
    case Invalid => Invalid
  }

  function DecodeAuth(s: Bytes): (r: Parsed<Message>)
    ensures r.Ok? ==> |r.rest| < |s|
  {
    match ReadVar(s, U8_LIMIT)
    case Ok(tag, s1) =>
      if tag == PERMISSION_DENIED then
        (match ReadBuf(s1)
         case Ok(reason, s2) => Ok(Auth(Some(reason)), s2)
         case EndOfBuffer => EndOfBuffer
         case Invalid => Invalid)
      else Ok(Auth(None), s1)
    case EndOfBuffer => EndOfBuffer
    case Invalid => Invalid
  }

  function DecodeCustom(s: Bytes): (r: Parsed<Message>)
    ensures r.Ok? ==> |r.rest| < |s|
  {
    match ReadVar(s, U8_LIMIT)
    case Ok(tag, s1) =>
      if tag == MSG_CUSTOM_START_SYNC then
        (match ReadBuf(s1)
         case Ok(buf, s2) =>
           (match SyncMetaFromVec(buf)
            case Some(at) => Ok(SyncCheck(at), s2)
            case None => Invalid)
         case EndOfBuffer => EndOfBuffer
         case Invalid => Invalid)
      else Invalid
    case EndOfBuffer => EndOfBuffer
    case Invalid => Invalid
  }

  function Decode(s: Bytes): (r: Parsed<Message>)
    ensures r.Ok? ==> |r.rest| < |s|
  {
    match ReadVar(s, U8_LIMIT)
    case Ok(tag, s1) =>
      if tag == MSG_SYNC then
        (match DecodeSync(s1)
         case Ok(m, s2) => Ok(Sync(m), s2)
         case EndOfBuffer => EndOfBuffer
         case Invalid => Invalid)
      else if tag == MSG_AWARENESS then
        (match ReadBuf(s1)
         case Ok(buf, s2) => Ok(Awareness(buf), s2)
         case EndOfBuffer => EndOfBuffer
         case Invalid => Invalid)
      else if tag == MSG_AUTH then DecodeAuth(s1)
      else if tag == MSG_CUSTOM then DecodeCustom(s1)
      else Invalid
    case EndOfBuffer => EndOfBuffer
    case Invalid => Invalid
  }

  /** Integers are in range and lengths fit the 32-bit length prefix. */
  predicate Fits(m: Message) {
    match m
    case Sync(SyncStep1(clocks)) => ClocksFit(clocks) && |clocks| < U32_LIMIT && |EncodeStateVector(clocks)| < U32_LIMIT
    case Sync(SyncStep2(update)) => |update| < U32_LIMIT
    case Sync(Update(update)) => |update| < U32_LIMIT
    case Auth(Some(reason)) => |reason| < U32_LIMIT
    case Auth(None) => true
    case Awareness(update) => |update| < U32_LIMIT
    case SyncCheck(at) => IsI64(at)
  }

  lemma TagRoundTrip(tag: nat, rest: Bytes)
    requires tag < 128
    ensures ReadVar([tag] + rest, U8_LIMIT) == Ok(tag, rest) && WriteVar(tag) == [tag]
  {
    SmallVar(tag);
    VarRoundTrip(tag, U8_LIMIT, rest);
  }

  function SyncTag(m: SyncMessage): nat {
    match m
    case SyncStep1(_) => MSG_SYNC_STEP_1
    case SyncStep2(_) => MSG_SYNC_STEP_2
    case Update(_) => MSG_SYNC_UPDATE
  }

  function SyncBuffer(m: SyncMessage): Bytes {
    if m.SyncStep1? then EncodeStateVector(m.stateVector) else m.update
  }

  lemma SyncParts(m: SyncMessage)
    ensures EncodeSync(m) == [SyncTag(m)] + WriteBuf(SyncBuffer(m))
  {
    SmallVar(SyncTag(m));
  }

  lemma SyncRoundTrip(m: SyncMessage, rest: Bytes)
    requires Fits(Sync(m))
    ensures DecodeSync(EncodeSync(m) + rest) == Ok(m, rest)
  {
    var buf := WriteBuf(SyncBuffer(m));
    SyncParts(m);
    Associates([SyncTag(m)], buf, rest);
    TagRoundTrip(SyncTag(m), buf + rest);
    BufRoundTrip(SyncBuffer(m), rest);
    if m.SyncStep1? {
      StateVectorRoundTrip(m.stateVector);
    }
  }

  lemma DeniedRoundTrip(reason: Bytes, rest: Bytes)
    requires |reason| < U32_LIMIT
    ensures DecodeAuth([PERMISSION_DENIED] + (WriteBuf(reason) + rest)) == Ok(Auth(Some(reason)), rest)
  {
    TagRoundTrip(PERMISSION_DENIED, WriteBuf(reason) + rest);
    BufRoundTrip(reason, rest);
  }

  lemma AuthParts(reason: Option<Bytes>)
    ensures EncodeAuth(reason) ==
      if reason.Some? then [PERMISSION_DENIED] + WriteBuf(reason.value) else [PERMISSION_GRANTED]
  {
    SmallVar(PERMISSION_DENIED);
    SmallVar(PERMISSION_GRANTED);
  }

  lemma AuthRoundTrip(reason: Option<Bytes>, rest: Bytes)
    requires Fits(Auth(reason))
    ensures DecodeAuth(EncodeAuth(reason) + rest) == Ok(Auth(reason), rest)
  {
    AuthParts(reason);
    match reason
    case Some(r) =>
      Associates([PERMISSION_DENIED], WriteBuf(r), rest);
      DeniedRoundTrip(r, rest);
    case None =>
      TagRoundTrip(PERMISSION_GRANTED, rest);
  }

  lemma CustomRoundTrip(at: int, rest: Bytes)
    requires IsI64(at)
    ensures DecodeCustom(EncodeCustom(at) + rest) == Ok(SyncCheck(at), rest)
  {
    var buf := SyncMetaToVec(at);
    SmallVar(MSG_CUSTOM_START_SYNC);
    Associates([MSG_CUSTOM_START_SYNC], WriteBuf(buf), rest);
    TagRoundTrip(MSG_CUSTOM_START_SYNC, WriteBuf(buf) + rest);
    BufRoundTrip(buf, rest);
    SyncMetaRoundTrip(at);
  }

  function TagOf(m: Message): nat {
    match m
    case Sync(_) => MSG_SYNC
    case Auth(_) => MSG_AUTH
    case Awareness(_) => MSG_AWARENESS
    case SyncCheck(_) => MSG_CUSTOM
  }

  function EncodeBody(m: Message): Bytes {
    match m
    case Sync(sync) => EncodeSync(sync)
    case Auth(reason) => EncodeAuth(reason)
    case Awareness(update) => WriteBuf(update)
    case SyncCheck(at) => EncodeCustom(at)
  }

  lemma MessageParts(m: Message)
    ensures Encode(m) == [TagOf(m)] + EncodeBody(m)
  {
    SmallVar(TagOf(m));
  }

  lemma BodyRoundTrip(m: Message, rest: Bytes)
    requires Fits(m)
    ensures Decode([TagOf(m)] + (EncodeBody(m) + rest)) == Ok(m, rest)
  {
    TagRoundTrip(TagOf(m), EncodeBody(m) + rest);
    match m
    case Sync(sync) => SyncRoundTrip(sync, rest);
    case Awareness(update) => BufRoundTrip(update, rest);
    case Auth(reason) => AuthRoundTrip(reason, rest);
    case SyncCheck(at) => CustomRoundTrip(at, rest);
  }

  /** Decoding what was encoded gives the message back and leaves exactly what followed it. */
  lemma MessageRoundTrip(m: Message, rest: Bytes)
    requires Fits(m)
    ensures Decode(Encode(m) + rest) == Ok(m, rest)
  {
    MessageParts(m);
    Associates([TagOf(m)], EncodeBody(m), rest);
    BodyRoundTrip(m, rest);
  }

  lemma CutBehindTag(tag: Byte, body: Bytes, k: nat)
    requires 0 < k <= |body| + 1
    ensures ([tag] + body)[..k] == [tag] + body[..k - 1]
  {
    CutOfSum([tag], body, k);
  }

  lemma SyncTruncated(m: SyncMessage, k: nat)
    requires Fits(Sync(m)) && k < |EncodeSync(m)|
    ensures DecodeSync(EncodeSync(m)[..k]).EndOfBuffer?
  {
    SyncParts(m);
    if k > 0 {
      var inner := WriteBuf(SyncBuffer(m))[..k - 1];
      CutBehindTag(SyncTag(m), WriteBuf(SyncBuffer(m)), k);
      TagRoundTrip(SyncTag(m), inner);
      BufTruncated(SyncBuffer(m), k - 1);
    }
  }

  lemma AuthTruncated(reason: Option<Bytes>, k: nat)
    requires Fits(Auth(reason)) && k < |EncodeAuth(reason)|
    ensures DecodeAuth(EncodeAuth(reason)[..k]).EndOfBuffer?
  {
    AuthParts(reason);
    if k > 0 {
      var inner := WriteBuf(reason.value)[..k - 1];
      CutBehindTag(PERMISSION_DENIED, WriteBuf(reason.value), k);
      TagRoundTrip(PERMISSION_DENIED, inner);
      BufTruncated(reason.value, k - 1);
    }
  }

  lemma CustomTruncated(at: int, k: nat)
    requires IsI64(at) && k < |EncodeCustom(at)|
    ensures DecodeCustom(EncodeCustom(at)[..k]).EndOfBuffer?
  {
    SmallVar(MSG_CUSTOM_START_SYNC);
    if k > 0 {
      var buf := SyncMetaToVec(at);
      var inner := WriteBuf(buf)[..k - 1];
      CutBehindTag(MSG_CUSTOM_START_SYNC, WriteBuf(buf), k);
      TagRoundTrip(MSG_CUSTOM_START_SYNC, inner);
      BufTruncated(buf, k - 1);
    }
  }

  lemma BodyTruncated(m: Message, k: nat)
    requires Fits(m) && k < |EncodeBody(m)|
    ensures Decode([TagOf(m)] + EncodeBody(m)[..k]).EndOfBuffer?
  {
    TagRoundTrip(TagOf(m), EncodeBody(m)[..k]);
    match m
    case Sync(sync) => SyncTruncated(sync, k);
    case Awareness(update) => BufTruncated(update, k);
    case Auth(reason) => AuthTruncated(reason, k);
    case SyncCheck(at) => CustomTruncated(at, k);
  }

  /** A proper prefix of an encoding reads as the end of the stream, never as a message or an error. */
  lemma MessageTruncated(m: Message, k: nat)
    requires Fits(m) && k < |Encode(m)|
    ensures Decode(Encode(m)[..k]).EndOfBuffer?
  {
    MessageParts(m);
    if k > 0 {
      CutBehindTag(TagOf(m), EncodeBody(m), k);
      BodyTruncated(m, k - 1);
    }
  }

  // Streams of messages -----------------------------------------------------------------------------

  /** How a stream of messages stops. */
  datatype Ending = Exhausted | Broken

  datatype Stream = Stream(messages: seq<Message>, ending: Ending)

  /** Everything a `MessageReader` yields before the end of the buffer or the first error. */
  function ReadAll(s: Bytes): Stream
    decreases |s|
  {
    match Decode(s)
    case Ok(m, rest) =>
      var later := ReadAll(rest);
      Stream([m] + later.messages, later.ending)
    case EndOfBuffer => Stream([], Exhausted)
    case Invalid => Stream([], Broken)
  }

  function EncodeAll(ms: seq<Message>): Bytes {
    if ms == [] then [] else Encode(ms[0]) + EncodeAll(ms[1..])
  }

  ghost predicate IsSuffix(a: Bytes, b: Bytes) {
    exists n :: 0 <= n <= |b| && a == b[n..]
  }

  /** `MessageReader`: an iterator over the messages left in a buffer. */
  class MessageReader {
    var rest: Bytes

    constructor (s: Bytes)
      ensures rest == s
    {
      rest := s;
    }

    /**
      `next`; `Some(None)` stands for `Some(Err(_))`. A short read or an error leaves the cursor
      anywhere behind the bytes it has looked at.
     */
    method Next() returns (item: Option<Option<Message>>)
      modifies this
      ensures match Decode(old(rest))
        case Ok(m, tail) => item == Some(Some(m)) && rest == tail
        case EndOfBuffer => item == None && IsSuffix(rest, old(rest))
        case Invalid => item == Some(None) && IsSuffix(rest, old(rest))
    {
      match Decode(rest) {
        case Ok(m, tail) =>
          rest := tail;
          item := Some(Some(m));
        case EndOfBuffer =>
          Advance();
          item := None;
        case Invalid =>
          Advance();
          item := Some(None);
      }
    }

    /** How far a failing read gets depends on the reader underneath. */
    method Advance()
      modifies this
      ensures IsSuffix(rest, old(rest))
    {
      var n: nat :| n <= |rest|;
      rest := rest[n..];
    }

    /** The loops over a reader in the client and the server: stop at the end or at an error. */
    method Collect() returns (messages: seq<Message>, ending: Ending)
      modifies this
      ensures Stream(messages, ending) == ReadAll(old(rest))
    {
      messages, ending := [], Exhausted;
      ghost var all := ReadAll(rest);
      while true
        invariant all == Continued(messages, rest)
        decreases |rest|
      {
        ContinueOnce(messages, rest);
        var item := Next();
        if item == None {
          return;
        }
        if item == Some(None) {
          ending := Broken;
          return;
        }
        messages := messages + [item.value.value];
      }
    }
  }

  /** The stream that begins with `messages` and goes on with what is in `s`. */
  ghost function Continued(messages: seq<Message>, s: Bytes): Stream {
    Stream(messages + ReadAll(s).messages, ReadAll(s).ending)
  }

  lemma ContinueOnce(messages: seq<Message>, s: Bytes)
    ensures match Decode(s)
      case Ok(m, rest) => Continued(messages, s) == Continued(messages + [m], rest)
      case EndOfBuffer => Continued(messages, s) == Stream(messages, Exhausted)
      case Invalid => Continued(messages, s) == Stream(messages, Broken)
  {
    if Decode(s).Ok? {
      var later := ReadAll(Decode(s).rest).messages;
      assert messages + ([Decode(s).value] + later) == (messages + [Decode(s).value]) + later;
    }
  }

  /** Reading a concatenation of encodings gives exactly the messages that were encoded. */
  lemma {:induction false} StreamRoundTrip(ms: seq<Message>)
    requires forall m :: m in ms ==> Fits(m)
    ensures ReadAll(EncodeAll(ms)) == Stream(ms, Exhausted)
  {
    if ms != [] {
      MessageRoundTrip(ms[0], EncodeAll(ms[1..]));
      StreamRoundTrip(ms[1..]);
      assert [ms[0]] + ms[1..] == ms;
    }
  }

  /** `count` messages lie wholly within the first `n` bytes, and no more. */
  predicate WhollyWithin(ms: seq<Message>, n: nat, count: nat) {
    && count <= |ms|
    && |EncodeAll(ms[..count])| <= n
    && (count < |ms| ==> n < |EncodeAll(ms[..count + 1])|)
  }

  /** Reading a truncated stream gives exactly the messages that lie wholly before the cut. */
  lemma {:induction false} StreamTruncated(ms: seq<Message>, n: nat) returns (count: nat)
    requires forall m :: m in ms ==> Fits(m)
    requires n <= |EncodeAll(ms)|
    ensures WhollyWithin(ms, n, count)
    ensures ReadAll(EncodeAll(ms)[..n]) == Stream(ms[..count], Exhausted)
  {
    if ms == [] {
      count := 0;
    } else if n < |Encode(ms[0])| {
      count := 0;
      CutInFirst(ms, n);
    } else {
      var later := StreamTruncated(ms[1..], n - |Encode(ms[0])|);
      count := later + 1;
      CutAfterFirst(ms, n, later);
    }
  }

  lemma CutInFirst(ms: seq<Message>, n: nat)
    requires ms != [] && Fits(ms[0]) && n < |Encode(ms[0])|
    ensures WhollyWithin(ms, n, 0)
    ensures ReadAll(EncodeAll(ms)[..n]) == Stream([], Exhausted)
  {
    CutOfSum(Encode(ms[0]), EncodeAll(ms[1..]), n);
    MessageTruncated(ms[0], n);
    PrefixEncoding(ms, 1);
  }

  lemma ReadOneMore(m: Message, s: Bytes)
    requires Fits(m)
    ensures ReadAll(Encode(m) + s) == Stream([m] + ReadAll(s).messages, ReadAll(s).ending)
  {
    MessageRoundTrip(m, s);
  }

  lemma CutAfterFirst(ms: seq<Message>, n: nat, later: nat)
    requires ms != [] && Fits(ms[0]) && |Encode(ms[0])| <= n <= |EncodeAll(ms)|
    requires WhollyWithin(ms[1..], n - |Encode(ms[0])|, later)
    requires ReadAll(EncodeAll(ms[1..])[..n - |Encode(ms[0])|]) == Stream(ms[1..][..later], Exhausted)
    ensures WhollyWithin(ms, n, later + 1)
    ensures ReadAll(EncodeAll(ms)[..n]) == Stream(ms[..later + 1], Exhausted)
  {
    var cut := EncodeAll(ms[1..])[..n - |Encode(ms[0])|];
    CountAfterFirst(ms, n, later);
    CutOfSum(Encode(ms[0]), EncodeAll(ms[1..]), n);
    assert EncodeAll(ms)[..n] == Encode(ms[0]) + cut;
    ReadOneMore(ms[0], cut);
    HeadAndTail(ms, later);
  }

  lemma CountAfterFirst(ms: seq<Message>, n: nat, later: nat)
    requires ms != [] && |Encode(ms[0])| <= n
    requires WhollyWithin(ms[1..], n - |Encode(ms[0])|, later)
    ensures WhollyWithin(ms, n, later + 1)
  {
    PrefixEncoding(ms, later + 1);
    if later + 1 < |ms| {
      PrefixEncoding(ms, later + 2);
    }
  }

  lemma PrefixEncoding(ms: seq<Message>, count: nat)
    requires 0 < count <= |ms|
    ensures EncodeAll(ms[..count]) == Encode(ms[0]) + EncodeAll(ms[1..][..count - 1])
  {
    assert ms[..count][1..] == ms[1..][..count - 1];
  }

  /** The number of messages before a cut is unique, so the lemma above pins the result down. */
  lemma {:induction false} WhollyWithinIsUnique(ms: seq<Message>, n: nat, a: nat, b: nat)
    requires WhollyWithin(ms, n, a) && WhollyWithin(ms, n, b)
    ensures a == b
  {
    if a < b {
      EncodingGrows(ms, a + 1, b);
    } else if b < a {
      EncodingGrows(ms, b + 1, a);
    }
  }

  lemma {:induction false} EncodingGrows(ms: seq<Message>, a: nat, b: nat)
    requires a <= b <= |ms|
    ensures |EncodeAll(ms[..a])| <= |EncodeAll(ms[..b])|
  {
    if a > 0 {
      PrefixEncoding(ms, a);
      PrefixEncoding(ms, b);
      EncodingGrows(ms[1..], a - 1, b - 1);
    }
  }

  // Broadcast payloads ----------------------------------------------------------------------------------

  /** `gen_update_message` writes the two tags and the buffer by hand. */
  method GenUpdateMessage(update: Bytes) returns (payload: Bytes)
    ensures payload == Encode(Sync(Update(update)))
  {
    payload := [];
    payload := payload + WriteVar(MSG_SYNC);
    payload := payload + WriteVar(MSG_SYNC_UPDATE);
    payload := payload + WriteBuf(update);
  }

  // The bytes themselves ---------------------------------------------------------------------------------

  lemma TwoTags(a: Byte, b: Byte, rest: Bytes)
    requires a < 128 && b < 128
    ensures WriteVar(a) + ([b] + rest) == [a, b] + rest && WriteVar(b) == [b]
  {
    SmallVar(a);
    SmallVar(b);
    Associates([a], [b], rest);
    assert [a] + [b] == [a, b];
  }

  /** The two tags in front of each kind of sync message. */
  lemma SyncTagBytes(m: SyncMessage)
    ensures match m
      case SyncStep1(clocks) => Encode(Sync(m)) == [0, 0] + WriteBuf(EncodeStateVector(clocks))
      case SyncStep2(update) => Encode(Sync(m)) == [0, 1] + WriteBuf(update)
      case Update(update) => Encode(Sync(m)) == [0, 2] + WriteBuf(update)
  {
    SyncParts(m);
    TwoTags(0, SyncTag(m), WriteBuf(SyncBuffer(m)));
  }

  /** The tags in front of the other messages. */
  lemma TagBytes(m: Message)
    ensures match m
      case Sync(_) => Encode(m)[0] == 0
      case Awareness(update) => Encode(m) == [1] + WriteBuf(update)
      case Auth(Some(reason)) => Encode(m) == [2, 0] + WriteBuf(reason)
      case Auth(None) => Encode(m) == [2, 1]
      case SyncCheck(at) => Encode(m) == [3, 0] + WriteBuf(SyncMetaToVec(at))
  {
    match m
    case Sync(_) => SmallVar(0);
    case Awareness(_) => SmallVar(1);
    case Auth(Some(reason)) => TwoTags(2, 0, WriteBuf(reason));
    case Auth(None) => TwoTags(2, 1, []);
    case SyncCheck(at) => TwoTags(3, 0, WriteBuf(SyncMetaToVec(at)));
  }

  /** A short buffer is its length in one byte and its bytes, and longer ones have the high bits set. */
  lemma BufferBytes(b: Bytes)
    ensures |b| < 0x80 ==> WriteBuf(b) == [|b|] + b
    ensures 0x80 <= |b| < 0x4000 ==> WriteBuf(b) == [|b| % 0x80 + 0x80, |b| / 0x80] + b
  {
    if 0x80 <= |b| < 0x4000 {
      assert WriteVar(|b|) == [128 + |b| % 128] + WriteVar(|b| / 128);
    }
  }

  /** The eight bytes of a timestamp, low byte first. */
  lemma SyncMetaBytes(b: Byte, c: Byte)
    ensures SyncMetaToVec(b + 0x100 * c) == [b, c, 0, 0, 0, 0, 0, 0]
  {
    var n: nat := b + 0x100 * c;
    assert n % U64_LIMIT == n;
    LowBytes(b, c);
  }

  /** A timestamp of -1 is all ones. */
  lemma MinusOneBytes()
    ensures SyncMetaToVec(-1) == [255, 255, 255, 255, 255, 255, 255, 255]
  {
    var n: nat := Pow256(8) - 1;
    Pow256Of8();
    assert -1 % U64_LIMIT == n;
    AllOnes(8);
    assert seq(8, i => 255) == [255, 255, 255, 255, 255, 255, 255, 255];
  }

  lemma LowBytes(b: Byte, c: Byte)
    ensures WriteLE(b + 0x100 * c, 8) == [b, c, 0, 0, 0, 0, 0, 0]
  {
    var n: nat := b + 0x100 * c;
    assert n % 256 == b && n / 256 == c;
    assert WriteLE(n, 8) == [b] + WriteLE(c, 7);
    assert WriteLE(c, 7) == [c] + WriteLE(0, 6);
    Zeros(6);
  }

  lemma {:induction false} Zeros(k: nat)
    ensures WriteLE(0, k) == seq(k, i => 0)
  {
    if k > 0 {
      Zeros(k - 1);
    }
  }

  lemma {:induction false} AllOnes(k: nat)
    ensures WriteLE(Pow256(k) - 1, k) == seq(k, i => 255)
  {
    if k > 0 {
      var p := Pow256(k - 1);
      assert 256 * p - 1 == 256 * (p - 1) + 255;
      AllOnes(k - 1);
    }
  }
}
