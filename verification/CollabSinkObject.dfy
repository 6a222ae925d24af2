/**
  `CollabSink`: the client's sending queue, as the object whose methods change it in place
  (`lib/client-api/src/collab_sync/sink.rs`). Each method is proved to do what `SinkSpec` says.
  A `try_lock` that fails is a call that is not made.
 */
module CollabSinkObject {
  import opened PriorityHeap
  import opened CollabMessages
  import opened SinkSpec

  lemma BatchGrows(
    queue: multiset<ClientMessage>, flying: set<MsgId>, batch: seq<ClientMessage>, rest: multiset<ClientMessage>,
    item: ClientMessage)
    requires BatchPrefix(queue, flying, batch, rest) && |batch| < MAX_BATCH
    requires batch != [] ==> !batch[|batch| - 1].ClientInitSync?
    requires IsTop(MessageRank, rest, item) && item.id !in flying
    ensures BatchPrefix(queue, flying, batch + [item], rest - multiset{item})
  {
    PopOneMore(MessageRank, queue, batch, rest, item);
  }

  /** The loop pops one message more than it selects when it stops at a flying one or is full. */
  lemma BatchStops(
    queue: multiset<ClientMessage>, flying: set<MsgId>, batch: seq<ClientMessage>, rest: multiset<ClientMessage>,
    item: ClientMessage)
    requires BatchPrefix(queue, flying, batch, rest) && IsTop(MessageRank, rest, item)
    requires |batch| == MAX_BATCH || item.id in flying
    ensures IsBatch(queue, flying, batch, rest)
  {
  }

  lemma PushedBack(rest: multiset<ClientMessage>, requeue: seq<ClientMessage>, item: ClientMessage)
    requires item in rest
    ensures (rest - multiset{item}) + multiset(requeue + [item]) == rest + multiset(requeue)
  {
    assert multiset(requeue + [item]) == multiset(requeue) + multiset{item};
    assert rest == (rest - multiset{item}) + multiset{item};
  }

  /**
    The loop of `get_next_batch_item`: pop, remember what to push back, stop at a flying message,
    after an init sync or when the batch is full. `behind` is what lies behind the batch.
   */
  method GetNextBatchItem(queue: multiset<ClientMessage>, flying: set<MsgId>)
    returns (items: seq<ClientMessage>, requeued: multiset<ClientMessage>, ghost behind: multiset<ClientMessage>)
    ensures IsBatch(queue, flying, items, behind)
    ensures requeued == queue
  {
    var rest, requeue: seq<ClientMessage> := queue, [];
    items, behind := [], queue;
    PopNone(MessageRank, queue);
    assert queue + multiset(requeue) == queue;
    while rest != multiset{}
      invariant rest == behind && rest + multiset(requeue) == queue
      invariant BatchPrefix(queue, flying, items, behind)
      invariant items != [] ==> !items[|items| - 1].ClientInitSync?
      decreases |rest|
    {
      var item;
      item, rest := Pop(MessageRank, rest);
      PushedBack(behind, requeue, item);
      requeue := requeue + [item];
      if |items| > 20 || item.id in flying {
        BatchStops(queue, flying, items, behind, item);
        break;
      }
      BatchGrows(queue, flying, items, behind, item);
      items, behind := items + [item], rest;
      if item.ClientInitSync? {
        break;
      }
    }
    requeued := rest + multiset(requeue);
  }

  /** `items` is what the merge loop keeps of `queue`, popped in the order `popped`. */
  ghost predicate KeptOf(config: SinkConfig, flying: set<MsgId>, queue: multiset<ClientMessage>,
                         popped: seq<ClientMessage>, items: seq<ClientMessage>) {
    && multiset(popped) == queue
    && Sorted(MessageRank, popped)
    && items == MergePass(config, flying, popped)
  }

  /** The loop of `merge` over the popped messages. */
  method MergeLoop(config: SinkConfig, flying: set<MsgId>, queue: multiset<ClientMessage>) returns (items: seq<ClientMessage>)
    ensures exists popped :: KeptOf(config, flying, queue, popped, items)
  {
    var rest := queue;
    ghost var popped: seq<ClientMessage> := [];
    items := [];
    PopNone(MessageRank, queue);
    while rest != multiset{}
      invariant Pops(MessageRank, queue, popped, rest)
      invariant items == MergePass(config, flying, popped)
      decreases |rest|
    {
      ghost var before := rest;
      var next;
      next, rest := Pop(MessageRank, rest);
      PopOneMore(MessageRank, queue, popped, before, next);
      PassOfSnoc(config, flying, popped, next);
      popped := popped + [next];
      items := MergeOne(config, flying, items, next);
    }
    assert KeptOf(config, flying, queue, popped, items);
  }

  /** One turn of the merge loop. */
  method MergeOne(config: SinkConfig, flying: set<MsgId>, items: seq<ClientMessage>, next: ClientMessage)
    returns (items': seq<ClientMessage>)
    ensures items' == MergeNext(config, flying, items, next)
  {
    if next.id in flying {
      return items + [next];
    }
    if items != [] {
      var last := items[|items| - 1];
      if last.id !in flying && config.sizeOf(last.payload) < config.maxPayload && last.ClientUpdateSync? {
        var merged := Merge(last, next, config.sizeOf, config.maxPayload);
        if merged.Merged? {
          return items[|items| - 1 := merged.message];
        } else if merged.Unchanged? {
          return items;
        }
      }
    }
    items' := items + [next];
  }

  class CollabSink {
    const config: SinkConfig
    var messageQueue: multiset<ClientMessage>
    var flyingMessages: set<MsgId>
    var msgIdCounter: MsgId
    var paused: bool
    var status: SinkStatus

    constructor (config: SinkConfig, paused: bool)
      ensures View() == EmptySink(paused) && this.config == config
    {
      this.config := config;
      this.messageQueue := multiset{};
      this.flyingMessages := {};
      this.msgIdCounter := 0;
      this.paused := paused;
      this.status := SinkStatus.Init;
    }

    function View(): Sink
      reads this
    {
      Sink(messageQueue, flyingMessages, msgIdCounter, paused, status)
    }

    /** `make` builds the message from the id it is given; `merge` may find its locks held. */
    method QueueMsg(make: MsgId -> ClientMessage)
      requires forall id :: make(id).id == id
      modifies this
      ensures Queued(config, old(View()), make(old(msgIdCounter)), View())
    {
      if !status.Syncing? {
        status := Syncing;
      }
      var id := msgIdCounter;
      msgIdCounter := msgIdCounter + 1;
      messageQueue := messageQueue + multiset{make(id)};
      if * {
        MergeMessages();
      }
    }

    method QueueInitSync(make: MsgId -> ClientMessage)
      modifies this
      ensures View() == InitQueued(old(View()), make(old(msgIdCounter)))
    {
      if !status.Syncing? {
        status := Syncing;
      }
      Clear();
      var id := msgIdCounter;
      msgIdCounter := msgIdCounter + 1;
      messageQueue := messageQueue + multiset{make(id)};
    }

    /** Peeks at the top of the queue; the answer does not depend on how ties are broken. */
    method CanQueueInitSync() returns (ok: bool)
      ensures ok <==> !HasInit(messageQueue)
    {
      ok := true;
      if messageQueue != multiset{} {
        var top, _ := Pop(MessageRank, messageQueue);
        ok := !top.ClientInitSync?;
        assert forall m :: m in messageQueue && m.ClientInitSync? ==> NotAfter(MessageRank(top), MessageRank(m));
      }
    }

    method Clear()
      modifies this
      ensures View() == Cleared(old(View()))
    {
      messageQueue := multiset{};
      flyingMessages := {};
    }

    method PauseSink()
      modifies this
      ensures View() == old(View()).(paused := true, status := Pause)
    {
      paused := true;
      status := Pause;
    }

    method Resume()
      modifies this
      ensures View() == old(View()).(paused := false)
    {
      paused := false;
    }

    method Tick()
      modifies this
      ensures View() == TimerFired(old(View()))
    {
      flyingMessages := {};
    }

    /** `validate_response` for a message that carries an id. */
    method ValidateResponse(id: MsgId) returns (valid: bool)
      modifies this
      ensures Acknowledged(old(View()), id, valid, View())
    {
      ghost var before := View();
      valid := false;
      if id !in flyingMessages {
        return;
      }
      if messageQueue != multiset{} {
        var current, rest := Pop(MessageRank, messageQueue);
        messageQueue := rest;
        if current.id != id {
          messageQueue := messageQueue + multiset{current};
        } else {
          valid := true;
          flyingMessages := flyingMessages - {id};
        }
        if messageQueue == multiset{} {
          status := Finished;
        }
        assert AcknowledgedTop(before, id, current, valid, View());
      } else {
        status := Finished;
      }
    }

    /**
      `process_next_msg` with its send as one step: nothing happens while paused; otherwise the
      batch is handed to the network, or the send fails and its ids stop flying.
     */
    method ProcessNextMsg(sendSucceeds: bool) returns (sent: seq<ClientMessage>, ghost behind: multiset<ClientMessage>)
      modifies this
      ensures old(paused) || !sendSucceeds ==> sent == [] && View() == old(View())
      ensures !old(paused) && sendSucceeds ==>
        IsBatch(old(messageQueue), old(flyingMessages), sent, behind) && View() == WithFlying(old(View()), sent)
    {
      sent, behind := [], multiset{};
      if paused {
        return;
      }
      var items;
      items, messageQueue, behind := GetNextBatchItem(messageQueue, flyingMessages);
      flyingMessages := flyingMessages + set m | m in items :: m.id;
      if items == [] {
        return;
      }
      if sendSucceeds {
        sent := items;
      } else {
        flyingMessages := flyingMessages - set m | m in items :: m.id;
        assert flyingMessages == old(flyingMessages);
      }
    }

    /** `merge`: pop everything, fold updates together, push the result back. */
    method MergeMessages()
      modifies this`messageQueue
      ensures MergedQueue(config, flyingMessages, old(messageQueue), messageQueue)
    {
      if config.disableMerge {
        return;
      }
      var items := MergeLoop(config, flyingMessages, messageQueue);
      ghost var popped :| KeptOf(config, flyingMessages, messageQueue, popped, items);
      assert MergedVia(config, flyingMessages, messageQueue, popped, multiset(items));
      messageQueue := multiset(items);
    }
  }
}
