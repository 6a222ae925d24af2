/**
  Acknowledgements over whole runs of the sending queue: queueing, merging, clearing, sending,
  the timer and arbitrary acknowledgements (late, duplicated or made up), in any order.
 */
module AckDiscipline {
  import opened PriorityHeap
  import opened CollabMessages
  import opened SinkSpec
  import opened SinkMerge

  /** A sink and the messages it has accepted an acknowledgement for, in order. */
  datatype History = History(sink: Sink, accepted: seq<ClientMessage>)

  datatype SinkEvent =
    | QueueMsg(message: ClientMessage)
    | QueueInitSync(message: ClientMessage)
    | Clear
    | Response(id: MsgId, valid: bool, top: ClientMessage)
    | ProcessNext(batch: seq<ClientMessage>)
    | SendFails(ids: set<MsgId>)
    | Tick
    | PauseSink
    | Resume

  ghost predicate SinkStep(cfg: SinkConfig, h: History, e: SinkEvent, h': History) {
    match e
    case QueueMsg(m) => Queued(cfg, h.sink, m, h'.sink) && h'.accepted == h.accepted
    case QueueInitSync(m) => m.id == h.sink.nextId && m.ClientInitSync? && h' == h.(sink := InitQueued(h.sink, m))
    case Clear => h' == h.(sink := Cleared(h.sink))
    case Response(id, valid, top) =>
      && (if id !in h.sink.flying || h.sink.queue == multiset{} then Acknowledged(h.sink, id, valid, h'.sink)
          else AcknowledgedTop(h.sink, id, top, valid, h'.sink))
      && h'.accepted == if valid then h.accepted + [top] else h.accepted
    case ProcessNext(batch) =>
      && h' == h.(sink := WithFlying(h.sink, batch))
      && exists behind :: IsBatch(h.sink.queue, h.sink.flying, batch, behind)
    case SendFails(ids) => h' == h.(sink := SendFailed(h.sink, ids))
    case Tick => h' == h.(sink := TimerFired(h.sink))
    case PauseSink => h' == h.(sink := h.sink.(paused := true, status := Pause))
    case Resume => h' == h.(sink := h.sink.(paused := false))
  }

  ghost predicate IsRun(cfg: SinkConfig, run: seq<History>) {
    && run != []
    && run[0].accepted == []
    && (exists paused :: run[0].sink == EmptySink(paused))
    && forall i :: 0 <= i < |run| - 1 ==> CanStep(cfg, run[i], run[i + 1])
  }

  ghost predicate CanStep(cfg: SinkConfig, h: History, h': History) {
    exists e :: SinkStep(cfg, h, e, h')
  }

  /** Neither of the two init syncs. */
  predicate IsUpdate(m: ClientMessage) {
    m.ClientUpdateSync? || m.ClientAwarenessSync?
  }

  ghost predicate FreshAndDistinct(h: History) {
    && UniqueIds(h.sink.queue)
    && (forall m :: m in h.sink.queue ==> m.id < h.sink.nextId)
    && (forall m :: m in h.accepted ==> m.id < h.sink.nextId)
    && (forall m, a :: m in h.sink.queue && a in h.accepted ==> m.id != a.id)
    && (forall i, j :: 0 <= i < j < |h.accepted| ==> h.accepted[i].id != h.accepted[j].id)
  }

  ghost predicate UpdatesAscend(h: History) {
    && (forall m, a :: m in h.sink.queue && a in h.accepted && IsUpdate(m) && IsUpdate(a) ==> a.id < m.id)
    && (forall i, j :: 0 <= i < j < |h.accepted| && IsUpdate(h.accepted[i]) && IsUpdate(h.accepted[j])
          ==> h.accepted[i].id < h.accepted[j].id)
  }

  ghost predicate Disciplined(h: History) {
    FreshAndDistinct(h) && UpdatesAscend(h)
  }

  lemma NewerKeep(h: History, h': History)
    requires Disciplined(h) && h'.accepted == h.accepted && h'.sink.nextId == h.sink.nextId + 1
    requires UniqueIds(h'.sink.queue)
    requires forall k :: k in h'.sink.queue ==> NewerThanAccepted(h, k) && k.id <= h.sink.nextId
    ensures Disciplined(h')
  {
  }

  lemma QueueMsgKeeps(cfg: SinkConfig, h: History, m: ClientMessage, h': History)
    requires Disciplined(h) && SinkStep(cfg, h, QueueMsg(m), h')
    ensures Disciplined(h')
  {
    var pushed := h.sink.queue + multiset{m};
    SnocUnique(h.sink.queue, m);
    MergeKeepsIds(cfg, h.sink.flying, pushed, h'.sink.queue);
    PushedIsNewer(h, m);
    DrawnIsNewer(h, pushed, h'.sink.queue);
    NewerKeep(h, h');
  }

  lemma PushedIsNewer(h: History, m: ClientMessage)
    requires Disciplined(h) && m.id == h.sink.nextId
    ensures forall k :: k in h.sink.queue + multiset{m} ==> NewerThanAccepted(h, k) && k.id <= h.sink.nextId
  {
  }

  lemma DrawnIsNewer(h: History, pushed: multiset<ClientMessage>, queue': multiset<ClientMessage>)
    requires forall k :: k in pushed ==> NewerThanAccepted(h, k) && k.id <= h.sink.nextId
    requires forall k :: k in queue' ==> exists m :: m in pushed && m.id == k.id && MessageRank(m) == MessageRank(k)
    ensures forall k :: k in queue' ==> NewerThanAccepted(h, k) && k.id <= h.sink.nextId
  {
    forall k | k in queue'
      ensures NewerThanAccepted(h, k) && k.id <= h.sink.nextId
    {
      var m :| m in pushed && m.id == k.id && MessageRank(m) == MessageRank(k);
    }
  }

  ghost predicate NewerThanAccepted(h: History, k: ClientMessage) {
    forall a :: a in h.accepted ==> k.id != a.id && (IsUpdate(k) && IsUpdate(a) ==> a.id < k.id)
  }

  /** What remains when the top of a queue with unique ids is popped. */
  lemma PopKeepsUnique(queue: multiset<ClientMessage>, top: ClientMessage)
    requires UniqueIds(queue) && IsTop(MessageRank, queue, top)
    ensures UniqueIds(queue - multiset{top})
    ensures forall m :: m in queue - multiset{top} <==> m in queue && m != top
    ensures forall m :: m in queue && m != top ==> m.id != top.id && (IsUpdate(m) && IsUpdate(top) ==> top.id < m.id)
  {
    forall m | m in queue && m != top
      ensures m.id != top.id && (IsUpdate(m) && IsUpdate(top) ==> top.id < m.id)
    {
      assert NotAfter(MessageRank(top), MessageRank(m));
    }
  }

  lemma ResponseKeeps(cfg: SinkConfig, h: History, id: MsgId, valid: bool, top: ClientMessage, h': History)
    requires Disciplined(h) && SinkStep(cfg, h, Response(id, valid, top), h')
    ensures Disciplined(h')
    ensures valid ==> IsTop(MessageRank, h.sink.queue, top) && top.id == id && id in h.sink.flying
  {
    if valid {
      PopKeepsUnique(h.sink.queue, top);
      AcceptStaysDistinct(h, top, h');
      AcceptStaysAscending(h, top, h');
    } else {
      assert h'.sink.queue == h.sink.queue && h'.sink.nextId == h.sink.nextId;
    }
  }

  /** `top` leaves the queue and is newer than everything accepted before. */
  ghost predicate Taken(h: History, top: ClientMessage, h': History) {
    && top in h.sink.queue
    && h'.accepted == h.accepted + [top] && h'.sink.nextId == h.sink.nextId
    && UniqueIds(h'.sink.queue)
    && (forall m :: m in h'.sink.queue <==> m in h.sink.queue && m != top)
    && (forall m :: m in h.sink.queue && m != top ==> m.id != top.id && (IsUpdate(m) && IsUpdate(top) ==> top.id < m.id))
  }

  lemma AcceptedAre(h: History, top: ClientMessage, h': History)
    requires Taken(h, top, h')
    ensures forall a :: a in h'.accepted <==> a in h.accepted || a == top
  {
  }

  lemma AcceptStaysDistinct(h: History, top: ClientMessage, h': History)
    requires FreshAndDistinct(h) && Taken(h, top, h')
    ensures FreshAndDistinct(h')
  {
    AcceptedAre(h, top, h');
    assert forall i :: 0 <= i < |h.accepted| ==> h.accepted[i] in h.accepted;
  }

  lemma AcceptStaysAscending(h: History, top: ClientMessage, h': History)
    requires UpdatesAscend(h) && Taken(h, top, h')
    ensures UpdatesAscend(h')
  {
    AcceptedAre(h, top, h');
    assert forall i :: 0 <= i < |h.accepted| ==> h.accepted[i] in h.accepted;
  }

  /** Taking messages away, or handing out an id, breaks no discipline. */
  lemma ShrinkKeeps(h: History, h': History)
    requires Disciplined(h) && h'.accepted == h.accepted && h'.sink.nextId >= h.sink.nextId
    requires h'.sink.queue == h.sink.queue || h'.sink.queue == multiset{}
    ensures Disciplined(h')
  {
  }

  lemma InitKeeps(h: History, m: ClientMessage, h': History)
    requires Disciplined(h) && m.id == h.sink.nextId && m.ClientInitSync?
    requires h' == h.(sink := InitQueued(h.sink, m))
    ensures Disciplined(h')
  {
    assert forall k :: k in h'.sink.queue ==> k == m;
  }

  lemma StepKeeps(cfg: SinkConfig, h: History, e: SinkEvent, h': History)
    requires Disciplined(h) && SinkStep(cfg, h, e, h')
    ensures Disciplined(h')
  {
    if e.QueueMsg? {
      QueueMsgKeeps(cfg, h, e.message, h');
    } else if e.Response? {
      ResponseKeeps(cfg, h, e.id, e.valid, e.top, h');
    } else if e.QueueInitSync? {
      InitKeeps(h, e.message, h');
    } else {
      ShrinkKeeps(h, h');
    }
  }

  /**
    In every run, no id is accepted twice and the ids of accepted updates strictly increase,
    across retries, merges, clears and duplicated acknowledgements; and (previous lemma) an id is
    accepted only while it is flying and its message is at the head of the queue.
   */
  lemma {:induction false} RunsAreDisciplined(cfg: SinkConfig, run: seq<History>, n: nat)
    requires IsRun(cfg, run) && n < |run|
    ensures Disciplined(run[n])
  {
    if n > 0 {
      RunsAreDisciplined(cfg, run, n - 1);
      var h, h' := run[n - 1], run[n - 1 + 1];
      assert CanStep(cfg, h, h');
      var e :| SinkStep(cfg, h, e, h');
      StepKeeps(cfg, h, e, h');
    }
  }
}
