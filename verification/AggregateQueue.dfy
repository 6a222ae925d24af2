/**
  The queue that gathers the messages of all collab objects into one websocket message a second
  (`lib/client-api/src/ws/msg_queue.rs`). The size of a message is a parameter; sending the map is
  not modelled.
 */
module AggregateQueue {
  import opened PriorityHeap
  import opened CollabMessages

  const MAXIMUM_INIT_SYNC := 10

  function TotalSize(size: ClientMessage -> nat, s: seq<ClientMessage>): nat {
    if s == [] then 0 else TotalSize(size, s[..|s| - 1]) + size(s[|s| - 1])
  }

  function InitSyncs(s: seq<ClientMessage>): nat {
    if s == [] then 0 else InitSyncs(s[..|s| - 1]) + if s[|s| - 1].ClientInitSync? then 1 else 0
  }

  /** The messages of one object, in order. */
  function Of(s: seq<ClientMessage>, objectId: string): seq<ClientMessage> {
    if s == [] then []
    else Of(s[..|s| - 1], objectId) + if s[|s| - 1].objectId == objectId then [s[|s| - 1]] else []
  }

  /** A batch that `next_batch_message` closes after its last message. */
  predicate Full(size: ClientMessage -> nat, maxInit: nat, maxSize: nat, s: seq<ClientMessage>) {
    InitSyncs(s) > maxInit || TotalSize(size, s) > maxSize
  }

  ghost predicate IsBatch(size: ClientMessage -> nat, maxInit: nat, maxSize: nat,
                          heap: multiset<ClientMessage>, batch: seq<ClientMessage>, rest: multiset<ClientMessage>) {
    && Pops(MessageRank, heap, batch, rest)
    && (forall k :: 0 <= k < |batch| ==> !Full(size, maxInit, maxSize, batch[..k]))
    && (rest == multiset{} || Full(size, maxInit, maxSize, batch))
  }

  /** `messages` holds the batch, split by object. */
  ghost predicate SplitByObject(messages: map<string, seq<ClientMessage>>, batch: seq<ClientMessage>) {
    && (forall m :: m in batch ==> m.objectId in messages)
    && (forall o :: o in messages ==> messages[o] != [] && messages[o] == Of(batch, o))
  }

  function Held(messages: map<string, seq<ClientMessage>>, objectId: string): seq<ClientMessage> {
    if objectId in messages then messages[objectId] else []
  }

  lemma SplitOneMore(messages: map<string, seq<ClientMessage>>, batch: seq<ClientMessage>, m: ClientMessage)
    requires SplitByObject(messages, batch)
    ensures SplitByObject(messages[m.objectId := Held(messages, m.objectId) + [m]], batch + [m])
  {
    assert (batch + [m])[..|batch|] == batch;
    if m.objectId !in messages {
      NoneOf(batch, m.objectId);
    }
  }

  lemma {:induction false} NoneOf(s: seq<ClientMessage>, objectId: string)
    requires forall m :: m in s ==> m.objectId != objectId
    ensures Of(s, objectId) == []
  {
    if s != [] {
      NoneOf(s[..|s| - 1], objectId);
    }
  }

  lemma TotalsOneMore(size: ClientMessage -> nat, batch: seq<ClientMessage>, m: ClientMessage)
    ensures TotalSize(size, batch + [m]) == TotalSize(size, batch) + size(m)
    ensures InitSyncs(batch + [m]) == InitSyncs(batch) + if m.ClientInitSync? then 1 else 0
  {
    assert (batch + [m])[..|batch|] == batch;
  }

  /** The loop's state after popping `batch`: no proper prefix of it closed the batch. */
  ghost predicate Gathered(size: ClientMessage -> nat, maxInit: nat, maxSize: nat,
                           heap: multiset<ClientMessage>, batch: seq<ClientMessage>, rest: multiset<ClientMessage>) {
    && Pops(MessageRank, heap, batch, rest)
    && forall k :: 0 <= k < |batch| ==> !Full(size, maxInit, maxSize, batch[..k])
  }

  lemma GatherOneMore(size: ClientMessage -> nat, maxInit: nat, maxSize: nat,
                      heap: multiset<ClientMessage>, batch: seq<ClientMessage>, rest: multiset<ClientMessage>, m: ClientMessage)
    requires Gathered(size, maxInit, maxSize, heap, batch, rest) && !Full(size, maxInit, maxSize, batch)
    requires IsTop(MessageRank, rest, m)
    ensures Gathered(size, maxInit, maxSize, heap, batch + [m], rest - multiset{m})
  {
    PopOneMore(MessageRank, heap, batch, rest, m);
    assert batch[..|batch|] == batch;
    assert forall k :: 0 <= k <= |batch| ==> (batch + [m])[..k] == batch[..k];
  }

  /** `messages` is a batch taken off `heap`, in the order `batch`. */
  ghost predicate IsBatchOf(size: ClientMessage -> nat, maxInit: nat, maxSize: nat, heap: multiset<ClientMessage>,
                            messages: map<string, seq<ClientMessage>>, batch: seq<ClientMessage>,
                            rest: multiset<ClientMessage>) {
    IsBatch(size, maxInit, maxSize, heap, batch, rest) && SplitByObject(messages, batch)
  }

  /** `messages` is some batch taken off `heap`. */
  ghost predicate IsSomeBatch(size: ClientMessage -> nat, maxInit: nat, maxSize: nat, heap: multiset<ClientMessage>,
                              messages: map<string, seq<ClientMessage>>, rest: multiset<ClientMessage>) {
    exists batch :: IsBatchOf(size, maxInit, maxSize, heap, messages, batch, rest)
  }

  lemma BatchDone(size: ClientMessage -> nat, maxInit: nat, maxSize: nat, heap: multiset<ClientMessage>,
                  messages: map<string, seq<ClientMessage>>, batch: seq<ClientMessage>, rest: multiset<ClientMessage>)
    requires Gathered(size, maxInit, maxSize, heap, batch, rest) && SplitByObject(messages, batch)
    requires rest == multiset{} || Full(size, maxInit, maxSize, batch)
    ensures IsSomeBatch(size, maxInit, maxSize, heap, messages, rest)
  {
    assert IsBatchOf(size, maxInit, maxSize, heap, messages, batch, rest);
  }

  /** The loop's variables: what has been popped into `messages`, and its totals. */
  ghost predicate Collected(size: ClientMessage -> nat, maxInit: nat, maxSize: nat, heap: multiset<ClientMessage>,
                            messages: map<string, seq<ClientMessage>>, batch: seq<ClientMessage>,
                            rest: multiset<ClientMessage>, total: nat, initSyncs: nat) {
    && Gathered(size, maxInit, maxSize, heap, batch, rest)
    && SplitByObject(messages, batch)
    && total == TotalSize(size, batch) && initSyncs == InitSyncs(batch)
  }

  lemma CollectOneMore(size: ClientMessage -> nat, maxInit: nat, maxSize: nat, heap: multiset<ClientMessage>,
                       messages: map<string, seq<ClientMessage>>, batch: seq<ClientMessage>,
                       rest: multiset<ClientMessage>, total: nat, initSyncs: nat, m: ClientMessage)
    requires Collected(size, maxInit, maxSize, heap, messages, batch, rest, total, initSyncs)
    requires total <= maxSize && initSyncs <= maxInit && IsTop(MessageRank, rest, m)
    ensures Collected(size, maxInit, maxSize, heap, messages[m.objectId := Held(messages, m.objectId) + [m]],
                      batch + [m], rest - multiset{m}, total + size(m), initSyncs + if m.ClientInitSync? then 1 else 0)
  {
    GatherOneMore(size, maxInit, maxSize, heap, batch, rest, m);
    SplitOneMore(messages, batch, m);
    TotalsOneMore(size, batch, m);
  }

  /** `next_batch_message`. */
  method NextBatchMessage(size: ClientMessage -> nat, maxInit: nat, maxSize: nat, heap: multiset<ClientMessage>)
    returns (messages: map<string, seq<ClientMessage>>, rest: multiset<ClientMessage>)
    ensures IsSomeBatch(size, maxInit, maxSize, heap, messages, rest)
  {
    messages, rest := map[], heap;
    ghost var batch: seq<ClientMessage> := [];
    var total: nat, initSyncs: nat := 0, 0;
    PopNone(MessageRank, heap);
    while rest != multiset{}
      invariant Collected(size, maxInit, maxSize, heap, messages, batch, rest, total, initSyncs)
      invariant total <= maxSize && initSyncs <= maxInit
      decreases |rest|
    {
      var msg, left := Pop(MessageRank, rest);
      CollectOneMore(size, maxInit, maxSize, heap, messages, batch, rest, total, initSyncs, msg);
      total := total + size(msg);
      if msg.ClientInitSync? {
        initSyncs := initSyncs + 1;
      }
      messages := messages[msg.objectId := Held(messages, msg.objectId) + [msg]];
      batch, rest := batch + [msg], left;
      if initSyncs > maxInit {
        break;
      }
      if total > maxSize {
        break;
      }
    }
    BatchDone(size, maxInit, maxSize, heap, messages, batch, rest);
  }

  /** `AggregateMessageQueue`. */
  class AggregateMessageQueue {
    const maximumPayloadSize: nat
    var queue: multiset<ClientMessage>

    constructor (maximumPayloadSize: nat)
      ensures this.maximumPayloadSize == maximumPayloadSize && queue == multiset{}
    {
      this.maximumPayloadSize := maximumPayloadSize;
      queue := multiset{};
    }

    method Push(msgs: seq<ClientMessage>)
      modifies this
      ensures queue == old(queue) + multiset(msgs)
    {
      for i := 0 to |msgs|
        invariant queue == old(queue) + multiset(msgs[..i])
      {
        assert msgs[..i + 1] == msgs[..i] + [msgs[i]];
        queue := queue + multiset{msgs[i]};
      }
      assert msgs[..|msgs|] == msgs;
    }

    method Clear()
      modifies this
      ensures queue == multiset{}
    {
      queue := multiset{};
    }

    /** One turn of the sender task; an empty map is not sent. */
    method Tick(size: ClientMessage -> nat) returns (messages: map<string, seq<ClientMessage>>)
      modifies this
      ensures IsSomeBatch(size, MAXIMUM_INIT_SYNC, maximumPayloadSize, old(queue), messages, queue)
    {
      messages, queue := NextBatchMessage(size, MAXIMUM_INIT_SYNC, maximumPayloadSize, queue);
    }
  }

  // One batch ------------------------------------------------------------------------------------------

  /** Splitting by object drops, repeats and reorders nothing. */
  lemma SplitKeepsMessages(messages: map<string, seq<ClientMessage>>, batch: seq<ClientMessage>, m: ClientMessage)
    requires SplitByObject(messages, batch)
    ensures multiset(batch)[m] == multiset(Held(messages, m.objectId))[m]
  {
    CountOf(batch, m);
    if m.objectId !in messages {
      assert m !in batch;
    }
  }

  lemma CountOfSnoc(s: seq<ClientMessage>, last: ClientMessage, m: ClientMessage)
    ensures multiset(s + [last])[m] == multiset(s)[m] + if last == m then 1 else 0
  {
    assert multiset(s + [last]) == multiset(s) + multiset{last};
  }

  lemma {:induction false} CountOf(s: seq<ClientMessage>, m: ClientMessage)
    ensures multiset(Of(s, m.objectId))[m] == multiset(s)[m]
  {
    if s != [] {
      var init, last := s[..|s| - 1], s[|s| - 1];
      CountOf(init, m);
      assert s == init + [last];
      CountOfSnoc(init, last, m);
      CountOfSnoc(Of(init, m.objectId), last, m);
    }
  }

  /** A batch goes over the size limit by its last message alone, and holds one init sync too many at most. */
  lemma BatchBounds(size: ClientMessage -> nat, maxInit: nat, maxSize: nat,
                    heap: multiset<ClientMessage>, batch: seq<ClientMessage>, rest: multiset<ClientMessage>)
    requires IsBatch(size, maxInit, maxSize, heap, batch, rest)
    ensures InitSyncs(batch) <= maxInit + 1
    ensures batch != [] ==> TotalSize(size, batch) <= maxSize + size(batch[|batch| - 1])
    ensures heap != multiset{} ==> batch != [] && |rest| < |heap|
  {
    if batch != [] {
      assert !Full(size, maxInit, maxSize, batch[..|batch| - 1]);
    } else {
      assert heap == rest;
    }
  }

  /**
    A batch closes with the first message that takes it over one of the two limits, and only then:
    everything before that message is within both, and messages are left only behind such a one.
   */
  lemma BatchIsMaximal(size: ClientMessage -> nat, maxInit: nat, maxSize: nat,
                       heap: multiset<ClientMessage>, batch: seq<ClientMessage>, rest: multiset<ClientMessage>, k: nat)
    requires IsBatch(size, maxInit, maxSize, heap, batch, rest) && k <= |batch|
    ensures k < |batch| ==> InitSyncs(batch[..k]) <= maxInit && TotalSize(size, batch[..k]) <= maxSize
    ensures InitSyncs(batch) <= maxInit && TotalSize(size, batch) <= maxSize ==>
      rest == multiset{} && multiset(batch) == heap
  {
    if k < |batch| {
      assert !Full(size, maxInit, maxSize, batch[..k]);
    }
  }

  /** What that means for a turn of the sender, which sends at most ten init syncs before the last message. */
  lemma TickIsMaximal(size: ClientMessage -> nat, maxSize: nat, heap: multiset<ClientMessage>, batch: seq<ClientMessage>,
                      rest: multiset<ClientMessage>, k: nat)
    requires Step(size, maxSize, heap, Tick(batch), rest) && k <= |batch|
    ensures k < |batch| ==> InitSyncs(batch[..k]) <= 10 && TotalSize(size, batch[..k]) <= maxSize
    ensures rest != multiset{} ==> InitSyncs(batch) > 10 || TotalSize(size, batch) > maxSize
  {
    BatchIsMaximal(size, MAXIMUM_INIT_SYNC, maxSize, heap, batch, rest, k);
  }

  /** Splitting by object keeps the priority order within each object. */
  lemma {:induction false} OfSorted(s: seq<ClientMessage>, objectId: string)
    requires Sorted(MessageRank, s)
    ensures Sorted(MessageRank, Of(s, objectId))
    ensures forall m :: m in Of(s, objectId) ==> m in s
  {
    if s != [] {
      OfSorted(s[..|s| - 1], objectId);
      var last := s[|s| - 1];
      forall m | m in s[..|s| - 1]
        ensures NotAfter(MessageRank(m), MessageRank(last))
      {
        var k :| 0 <= k < |s| - 1 && s[k] == m;
      }
    }
  }

  // Many batches ---------------------------------------------------------------------------------------

  datatype Event =
    | Push(msgs: seq<ClientMessage>)
    | Tick(batch: seq<ClientMessage>)

  /** The queue evolves through the events from `heap` to `rest`. */
  ghost predicate Run(size: ClientMessage -> nat, maxSize: nat, heap: multiset<ClientMessage>,
                      events: seq<Event>, rest: multiset<ClientMessage>)
    decreases |events|
  {
    if events == [] then heap == rest
    else
      exists mid :: Step(size, maxSize, heap, events[0], mid) && Run(size, maxSize, mid, events[1..], rest)
  }

  ghost predicate Step(size: ClientMessage -> nat, maxSize: nat, heap: multiset<ClientMessage>, event: Event,
                       rest: multiset<ClientMessage>) {
    match event
    case Push(msgs) => rest == heap + multiset(msgs)
    case Tick(batch) => IsBatch(size, MAXIMUM_INIT_SYNC, maxSize, heap, batch, rest)
  }

  function Pushed(events: seq<Event>): multiset<ClientMessage> {
    if events == [] then multiset{}
    else (if events[0].Push? then multiset(events[0].msgs) else multiset{}) + Pushed(events[1..])
  }

  function Sent(events: seq<Event>): seq<ClientMessage> {
    if events == [] then []
    else (if events[0].Tick? then events[0].batch else []) + Sent(events[1..])
  }

  /** In every run each queued message is sent once or still queued, and nothing else is sent. */
  lemma {:induction false} NothingLostOrRepeated(size: ClientMessage -> nat, maxSize: nat,
                                                 heap: multiset<ClientMessage>, events: seq<Event>, rest: multiset<ClientMessage>)
    requires Run(size, maxSize, heap, events, rest)
    ensures heap + Pushed(events) == multiset(Sent(events)) + rest
    decreases |events|
  {
    if events != [] {
      var mid :| Step(size, maxSize, heap, events[0], mid) && Run(size, maxSize, mid, events[1..], rest);
      NothingLostOrRepeated(size, maxSize, mid, events[1..], rest);
      var pushed, sent := if events[0].Push? then multiset(events[0].msgs) else multiset{},
        if events[0].Tick? then events[0].batch else [];
      assert heap + pushed == multiset(sent) + mid;
      Conserved(heap, pushed, multiset(sent), mid, Pushed(events[1..]), multiset(Sent(events[1..])), rest);
    }
  }

  lemma Conserved<T>(a: multiset<T>, p: multiset<T>, s: multiset<T>, mid: multiset<T>,
                     q: multiset<T>, t: multiset<T>, b: multiset<T>)
    requires a + p == s + mid && mid + q == t + b
    ensures a + (p + q) == (s + t) + b
  {
    assert a + (p + q) == (a + p) + q;
    assert (s + mid) + q == s + (mid + q);
    assert s + (t + b) == (s + t) + b;
  }

  /** Without new messages, successive batches send the queue in one priority order. */
  lemma {:induction false} BatchesFollowPriority(size: ClientMessage -> nat, maxSize: nat,
                                                 heap: multiset<ClientMessage>, events: seq<Event>, rest: multiset<ClientMessage>)
    requires Run(size, maxSize, heap, events, rest)
    requires forall e :: e in events ==> e.Tick?
    ensures Pops(MessageRank, heap, Sent(events), rest)
    decreases |events|
  {
    if events == [] {
      PopNone(MessageRank, heap);
    } else {
      var mid :| Step(size, maxSize, heap, events[0], mid) && Run(size, maxSize, mid, events[1..], rest);
      BatchesFollowPriority(size, maxSize, mid, events[1..], rest);
      PopsCompose(heap, events[0].batch, mid, Sent(events[1..]), rest);
    }
  }

  lemma PopsCompose(heap: multiset<ClientMessage>, a: seq<ClientMessage>, mid: multiset<ClientMessage>,
                    b: seq<ClientMessage>, rest: multiset<ClientMessage>)
    requires Pops(MessageRank, heap, a, mid) && Pops(MessageRank, mid, b, rest)
    ensures Pops(MessageRank, heap, a + b, rest)
  {
    assert multiset(a + b) == multiset(a) + multiset(b);
    assert forall y :: y in b ==> y in multiset(b) && y in mid;
    assert forall y :: y in rest ==> y in mid;
  }

  /** Enough ticks empty the queue: each message of `heap` is then sent exactly once. */
  lemma {:induction false} TicksDrain(size: ClientMessage -> nat, maxSize: nat,
                                      heap: multiset<ClientMessage>, events: seq<Event>, rest: multiset<ClientMessage>)
    requires Run(size, maxSize, heap, events, rest)
    requires (forall e :: e in events ==> e.Tick?) && |events| >= |heap|
    ensures rest == multiset{} && multiset(Sent(events)) == heap
    decreases |events|
  {
    NothingLostOrRepeated(size, maxSize, heap, events, rest);
    NothingPushed(events);
    if events != [] {
      var mid :| Step(size, maxSize, heap, events[0], mid) && Run(size, maxSize, mid, events[1..], rest);
      BatchBounds(size, MAXIMUM_INIT_SYNC, maxSize, heap, events[0].batch, mid);
      if heap == multiset{} {
        assert mid == multiset{};
      }
      TicksDrain(size, maxSize, mid, events[1..], rest);
    }
  }

  lemma {:induction false} NothingPushed(events: seq<Event>)
    requires forall e :: e in events ==> e.Tick?
    ensures Pushed(events) == multiset{}
  {
    if events != [] {
      NothingPushed(events[1..]);
      assert events[0] in events;
      assert Pushed(events) == multiset{} + Pushed(events[1..]);
    }
  }
}
