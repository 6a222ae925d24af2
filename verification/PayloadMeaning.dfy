/**
  What the bytes of a payload mean to the protocol: the messages that a `MessageReader` takes off
  them (`MessageCodec`), read as steps of the y-sync exchange (`CollabMessages`). How `yrs` decodes
  an update is a parameter; `None` stands for bytes it cannot decode.
 */
module PayloadMeaning {
  import opened Integers
  import opened Wrappers
  import opened WireFormat
  import opened YrsDocument
  import opened CollabMessages
  import Codec = MessageCodec

  /** A state vector as a map; of two clocks for one client the later one counts. */
  function ClocksOf(clocks: seq<Codec.Clock>): StateVector {
    if clocks == [] then map[]
    else ClocksOf(clocks[..|clocks| - 1])[clocks[|clocks| - 1].client := clocks[|clocks| - 1].clock]
  }

  function Meaning(m: Codec.Message, decode: Bytes -> Option<set<Op>>): YMessage {
    match m
    case Sync(SyncStep1(clocks)) => SyncStep1(ClocksOf(clocks))
    case Sync(SyncStep2(update)) => (match decode(update) case Some(ops) => SyncStep2(ops) case None => BadUpdate)
    case Sync(Update(update)) => (match decode(update) case Some(ops) => Update(ops) case None => BadUpdate)
    case Auth(reason) => Auth(reason.Some?)
    case Awareness(_) => Awareness
    case SyncCheck(_) => Custom
  }

  function Meanings(ms: seq<Codec.Message>, decode: Bytes -> Option<set<Op>>): Payload {
    if ms == [] then [] else [Meaning(ms[0], decode)] + Meanings(ms[1..], decode)
  }

  /** The payload that bytes stand for: what is read before they end or cannot be read. */
  function PayloadOf(bytes: Bytes, decode: Bytes -> Option<set<Op>>): Payload {
    Meanings(Codec.ReadAll(bytes).messages, decode)
  }

  /** Sending a payload as bytes does not change what it means. */
  lemma PayloadRoundTrip(ms: seq<Codec.Message>, decode: Bytes -> Option<set<Op>>)
    requires forall m :: m in ms ==> Codec.Fits(m)
    ensures PayloadOf(Codec.EncodeAll(ms), decode) == Meanings(ms, decode)
  {
    Codec.StreamRoundTrip(ms);
  }

  lemma {:induction false} MeaningsOfPrefix(ms: seq<Codec.Message>, n: nat, decode: Bytes -> Option<set<Op>>)
    requires n <= |ms|
    ensures |Meanings(ms, decode)| == |ms| && Meanings(ms[..n], decode) == Meanings(ms, decode)[..n]
  {
    if ms != [] {
      if n > 0 {
        assert ms[..n][1..] == ms[1..][..n - 1];
        MeaningsOfPrefix(ms[1..], n - 1, decode);
      } else {
        MeaningsOfPrefix(ms[1..], 0, decode);
      }
    }
  }

  /** A payload that is cut short means its first messages, and nothing else. */
  lemma CutPayload(ms: seq<Codec.Message>, n: nat, decode: Bytes -> Option<set<Op>>) returns (count: nat)
    requires forall m :: m in ms ==> Codec.Fits(m)
    requires n <= |Codec.EncodeAll(ms)|
    ensures Codec.WhollyWithin(ms, n, count)
    ensures |Meanings(ms, decode)| == |ms|
    ensures PayloadOf(Codec.EncodeAll(ms)[..n], decode) == Meanings(ms, decode)[..count]
  {
    count := Codec.StreamTruncated(ms, n);
    MeaningsOfPrefix(ms, count, decode);
  }

  /** The payload of a broadcast, as `gen_update_message` writes it, means the one update. */
  lemma BroadcastMeansUpdate(update: Bytes, decode: Bytes -> Option<set<Op>>)
    requires |update| < U32_LIMIT && decode(update).Some?
    ensures PayloadOf(Codec.Encode(Codec.Sync(Codec.Update(update))), decode) == [Update(decode(update).value)]
  {
    OneMessage(Codec.Sync(Codec.Update(update)), decode);
  }

  /** What the bytes of each single sync message mean, tags spelled out. */
  lemma SyncBytesMean(m: Codec.SyncMessage, decode: Bytes -> Option<set<Op>>)
    requires Codec.Fits(Codec.Sync(m))
    ensures match m
      case SyncStep1(clocks) =>
        PayloadOf([0, 0] + WriteBuf(Codec.EncodeStateVector(clocks)), decode) == [SyncStep1(ClocksOf(clocks))]
      case SyncStep2(update) =>
        PayloadOf([0, 1] + WriteBuf(update), decode) ==
          [if decode(update).Some? then SyncStep2(decode(update).value) else BadUpdate]
      case Update(update) =>
        PayloadOf([0, 2] + WriteBuf(update), decode) ==
          [if decode(update).Some? then Update(decode(update).value) else BadUpdate]
  {
    OneMessage(Codec.Sync(m), decode);
    Codec.SyncTagBytes(m);
  }

  /** What the bytes of the other single messages mean. */
  lemma AwarenessBytesMean(update: Bytes, decode: Bytes -> Option<set<Op>>)
    requires |update| < U32_LIMIT
    ensures PayloadOf([1] + WriteBuf(update), decode) == [Awareness]
    ensures PayloadOf([2, 0] + WriteBuf(update), decode) == [Auth(true)]
  {
    OneMessage(Codec.Awareness(update), decode);
    Codec.TagBytes(Codec.Awareness(update));
    OneMessage(Codec.Auth(Some(update)), decode);
    Codec.TagBytes(Codec.Auth(Some(update)));
  }

  lemma OtherBytesMean(at: int, decode: Bytes -> Option<set<Op>>)
    requires Codec.IsI64(at)
    ensures PayloadOf([2, 1], decode) == [Auth(false)]
    ensures PayloadOf([3, 0] + WriteBuf(Codec.SyncMetaToVec(at)), decode) == [Custom]
  {
    OneMessage(Codec.Auth(None), decode);
    Codec.TagBytes(Codec.Auth(None));
    OneMessage(Codec.SyncCheck(at), decode);
    Codec.TagBytes(Codec.SyncCheck(at));
  }

  predicate LastOf(clocks: seq<Codec.Clock>, client: nat, i: int) {
    && 0 <= i < |clocks| && clocks[i].client == client
    && forall j :: i < j < |clocks| ==> clocks[j].client != client
  }

  /** A client's last clock in the list is the one that counts, and no other client gets one. */
  lemma {:induction false} ClocksOfLast(clocks: seq<Codec.Clock>, client: nat)
    ensures client in ClocksOf(clocks) <==> exists i :: 0 <= i < |clocks| && clocks[i].client == client
    ensures forall i :: LastOf(clocks, client, i) ==> ClocksOf(clocks)[client] == clocks[i].clock
  {
    if clocks != [] {
      var init := clocks[..|clocks| - 1];
      ClocksOfLast(init, client);
      forall i | LastOf(clocks, client, i)
        ensures ClocksOf(clocks)[client] == clocks[i].clock
      {
        if i < |init| {
          assert clocks[|init|].client != client;
          assert LastOf(init, client, i);
        }
      }
    }
  }

  lemma OneMessage(m: Codec.Message, decode: Bytes -> Option<set<Op>>)
    requires Codec.Fits(m)
    ensures PayloadOf(Codec.Encode(m), decode) == [Meaning(m, decode)]
  {
    PayloadRoundTrip([m], decode);
    assert [m][1..] == [];
    assert Codec.EncodeAll([m]) == Codec.Encode(m) + [] == Codec.Encode(m);
    assert Meanings([m], decode) == [Meaning(m, decode)] + [];
  }
}
