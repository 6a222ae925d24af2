/**
  What each operation of the client's sending queue does (`CollabSink` in
  `lib/client-api/src/collab_sync/sink.rs`), stated on values. Operations that pop the heap are
  relations, because equal priorities leave the outcome open.
 */
module SinkSpec {
  import opened PriorityHeap
  import opened YrsDocument
  import opened CollabMessages

  datatype SinkStatus = Init | Syncing | Finished | Pause

  datatype SinkConfig = SinkConfig(maxPayload: nat, disableMerge: bool, sizeOf: Payload -> nat)

  /** The fields of `CollabSink` that its methods change. */
  datatype Sink = Sink(
    queue: multiset<ClientMessage>,
    flying: set<MsgId>,
    nextId: MsgId,
    paused: bool,
    status: SinkStatus)

  ghost predicate HasInit(queue: multiset<ClientMessage>) {
    exists m :: m in queue && m.ClientInitSync?
  }

  /** Some queued message carries `op`. */
  ghost predicate Carries(queue: multiset<ClientMessage>, op: Op) {
    exists m :: m in queue && op in MessageOps(m)
  }

  ghost predicate UniqueIds(queue: multiset<ClientMessage>) {
    && (forall m :: m in queue ==> queue[m] == 1)
    && (forall a, b :: a in queue && b in queue && a.id == b.id ==> a == b)
  }

  // Batch selection ----------------------------------------------------------------------------

  const MAX_BATCH := 21

  function Ids(s: seq<ClientMessage>): set<MsgId> {
    set m | m in s :: m.id
  }

  /** Why the selection loop stops after `batch`. */
  ghost predicate BatchEnds(flying: set<MsgId>, batch: seq<ClientMessage>, rest: multiset<ClientMessage>) {
    || |batch| == MAX_BATCH
    || (batch != [] && batch[|batch| - 1].ClientInitSync?)
    || rest == multiset{}
    || exists m :: IsTop(MessageRank, rest, m) && m.id in flying
  }

  /** The messages selected so far are the front of the queue and none of them is flying. */
  ghost predicate BatchPrefix(
    queue: multiset<ClientMessage>, flying: set<MsgId>, batch: seq<ClientMessage>, rest: multiset<ClientMessage>)
  {
    && Pops(MessageRank, queue, batch, rest)
    && |batch| <= MAX_BATCH
    && (forall m :: m in batch ==> m.id !in flying)
    && (forall i :: 0 <= i < |batch| - 1 ==> !batch[i].ClientInitSync?)
  }

  /** A possible result of `get_next_batch_item`: the batch, and the messages behind it. */
  ghost predicate IsBatch(
    queue: multiset<ClientMessage>, flying: set<MsgId>, batch: seq<ClientMessage>, rest: multiset<ClientMessage>)
  {
    BatchPrefix(queue, flying, batch, rest) && BatchEnds(flying, batch, rest)
  }

  /** Selecting a batch changes nothing but the flying set, which gains exactly the batch. */
  function WithFlying(s: Sink, batch: seq<ClientMessage>): Sink {
    s.(flying := s.flying + Ids(batch))
  }

  /**
    While an init sync is queued, a batch holds nothing but an init sync: it outranks every other
    message, and the loop stops right after it.
   */
  lemma OnlyInitIsSent(
    queue: multiset<ClientMessage>, flying: set<MsgId>, batch: seq<ClientMessage>, rest: multiset<ClientMessage>)
    requires IsBatch(queue, flying, batch, rest)
    requires HasInit(queue)
    ensures |batch| <= 1
    ensures forall m :: m in batch ==> m.ClientInitSync?
  {
    if batch != [] {
      var m :| m in queue && m.ClientInitSync?;
      PopsTakeTops(MessageRank, queue, batch, rest, 0);
      assert batch[0..] == batch;
      assert NotAfter(MessageRank(batch[0]), MessageRank(m));
      assert batch[0].ClientInitSync?;
    }
  }

  /** No message left behind outranks a selected one, and a flying message is never overtaken. */
  lemma BatchIsPriorityPrefix(
    queue: multiset<ClientMessage>, flying: set<MsgId>, batch: seq<ClientMessage>, rest: multiset<ClientMessage>)
    requires IsBatch(queue, flying, batch, rest)
    ensures queue == multiset(batch) + rest
    ensures Sorted(MessageRank, batch)
    ensures forall m, b :: m in queue && (m in rest || m.id in flying) && b in batch ==> NotAfter(MessageRank(b), MessageRank(m))
  {
    forall m, b | m in queue && m.id in flying && b in batch
      ensures NotAfter(MessageRank(b), MessageRank(m))
    {
      assert m !in batch;
      assert m in rest;
    }
  }

  // Acknowledgement ----------------------------------------------------------------------------

  /**
    `validate_response` on a server message with id `id`: it is accepted exactly when the id is
    flying and the message popped from the queue has that id; then that message leaves the queue.
   */
  ghost predicate Acknowledged(s: Sink, id: MsgId, valid: bool, s': Sink) {
    if id !in s.flying then
      !valid && s' == s
    else if s.queue == multiset{} then
      !valid && s' == s.(status := Finished)
    else
      exists top :: AcknowledgedTop(s, id, top, valid, s')
  }

  ghost predicate AcknowledgedTop(s: Sink, id: MsgId, top: ClientMessage, valid: bool, s': Sink) {
    && IsTop(MessageRank, s.queue, top)
    && valid == (top.id == id)
    && s' == if valid then Popped(s, top) else s
  }

  function Popped(s: Sink, top: ClientMessage): Sink {
    var rest := s.queue - multiset{top};
    s.(queue := rest, flying := s.flying - {top.id}, status := if rest == multiset{} then Finished else s.status)
  }

  // Merging ------------------------------------------------------------------------------------

  /** The merge loop folds `next` into the last kept message. */
  predicate Absorbs(cfg: SinkConfig, flying: set<MsgId>, last: ClientMessage, next: ClientMessage) {
    && last.id !in flying
    && cfg.sizeOf(last.payload) < cfg.maxPayload
    && last.ClientUpdateSync?
    && !Merge(last, next, cfg.sizeOf, cfg.maxPayload).Failed?
  }

  /** Update `ops` would take in the message behind it. */
  predicate TakesIn(cfg: SinkConfig, ops: set<Op>) {
    cfg.sizeOf([Update(ops)]) < cfg.maxPayload
  }

  /** Merging is on and its size limit leaves room for some update. */
  ghost predicate MergesUpdates(cfg: SinkConfig) {
    !cfg.disableMerge && exists ops :: TakesIn(cfg, ops)
  }

  /** Merging is on and its size limit leaves room for an awareness change. */
  predicate MergesAwareness(cfg: SinkConfig) {
    !cfg.disableMerge && cfg.sizeOf([Awareness]) < cfg.maxPayload
  }

  /** `last` after `next` was folded into it; an `Unchanged` merge drops `next`. */
  function Absorb(cfg: SinkConfig, last: ClientMessage, next: ClientMessage): ClientMessage {
    match Merge(last, next, cfg.sizeOf, cfg.maxPayload)
    case Merged(m) => m
    case _ => last
  }

  function MergeNext(cfg: SinkConfig, flying: set<MsgId>, kept: seq<ClientMessage>, next: ClientMessage): seq<ClientMessage> {
    if next.id !in flying && kept != [] && Absorbs(cfg, flying, kept[|kept| - 1], next) then
      kept[..|kept| - 1] + [Absorb(cfg, kept[|kept| - 1], next)]
    else
      kept + [next]
  }

  /** What the merge loop keeps of messages popped in the order `popped`. */
  function MergePass(cfg: SinkConfig, flying: set<MsgId>, popped: seq<ClientMessage>): seq<ClientMessage> {
    if popped == [] then []
    else MergeNext(cfg, flying, MergePass(cfg, flying, popped[..|popped| - 1]), popped[|popped| - 1])
  }

  lemma PassOfSnoc(cfg: SinkConfig, flying: set<MsgId>, front: seq<ClientMessage>, next: ClientMessage)
    ensures MergePass(cfg, flying, front + [next]) == MergeNext(cfg, flying, MergePass(cfg, flying, front), next)
  {
    assert (front + [next])[..|front|] == front;
  }

  /** The queue after `merge`. */
  ghost predicate MergedQueue(cfg: SinkConfig, flying: set<MsgId>, queue: multiset<ClientMessage>, queue': multiset<ClientMessage>) {
    if cfg.disableMerge then queue' == queue
    else exists popped :: MergedVia(cfg, flying, queue, popped, queue')
  }

  ghost predicate MergedVia(
    cfg: SinkConfig, flying: set<MsgId>, queue: multiset<ClientMessage>,
    popped: seq<ClientMessage>, queue': multiset<ClientMessage>)
  {
    && multiset(popped) == queue
    && Sorted(MessageRank, popped)
    && queue' == multiset(MergePass(cfg, flying, popped))
  }

  /** `merge` does nothing when it finds one of its locks held. */
  ghost predicate MaybeMerged(cfg: SinkConfig, flying: set<MsgId>, queue: multiset<ClientMessage>, queue': multiset<ClientMessage>) {
    queue' == queue || MergedQueue(cfg, flying, queue, queue')
  }

  // Queueing -----------------------------------------------------------------------------------

  /** `queue_msg`: push under the next id, then try to merge. */
  ghost predicate Queued(cfg: SinkConfig, s: Sink, m: ClientMessage, s': Sink) {
    && m.id == s.nextId
    && s'.nextId == s.nextId + 1
    && s'.flying == s.flying
    && s'.paused == s.paused
    && s'.status == Syncing
    && MaybeMerged(cfg, s.flying, s.queue + multiset{m}, s'.queue)
  }

  function Cleared(s: Sink): Sink {
    s.(queue := multiset{}, flying := {})
  }

  /** `queue_init_sync`: everything pending makes way for the init sync. */
  function InitQueued(s: Sink, m: ClientMessage): Sink {
    Cleared(s).(queue := multiset{m}, nextId := s.nextId + 1, status := Syncing)
  }

  /** The timer forgets what is flying, so that the front of the queue is sent again. */
  function TimerFired(s: Sink): Sink {
    s.(flying := {})
  }

  /** A failed send is forgotten in the same way. */
  function SendFailed(s: Sink, ids: set<MsgId>): Sink {
    s.(flying := s.flying - ids)
  }

  function EmptySink(paused: bool): Sink {
    Sink(multiset{}, {}, 0, paused, SinkStatus.Init)
  }
}
