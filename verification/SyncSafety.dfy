/**
  No edit is lost in a reliable environment: the invariant behind it, step by step.
 */
module SyncSafety {
  import opened YrsDocument
  import opened CollabMessages
  import opened SinkSpec
  import opened SinkMerge
  import opened SyncProtocol
  import opened SyncSystem

  /**
    Nothing the sink depends on fails and nothing is left over from an earlier sink; where updates
    merge, moreover, messages to the server are not lost, and where an awareness change could take
    in the update behind it, none is queued.
   */
  ghost predicate Reliable(cfg: SinkConfig, env: Environment) {
    && !env.serverFaults && !env.clientFaults && !env.resets && !env.leftovers
    && (MergesUpdates(cfg) ==> !env.losesToServer)
    && (MergesAwareness(cfg) ==> !env.awareness)
  }

  /** The payload each kind of client message is made with. */
  predicate WellShaped(cfg: SinkConfig, m: ClientMessage) {
    match m
    case ClientInitSync(_, _, p) => |p| == 2 && p[0].SyncStep1? && p[1].Awareness?
    case ServerInitSync(_, _, p) => |p| == 1 && p[0].SyncStep2?
    case ClientUpdateSync(_, _, p) => |p| == 1 && (p[0].Update? || (p[0].Awareness? && !MergesAwareness(cfg)))
    case ClientAwarenessSync(_, _, _) => false
  }

  /** The answer to a client's Step1: what it lacks, and a sound state vector of the server. */
  ghost predicate IsAnswer(server: Doc, p: Payload) {
    && |p| == 2 && p[0].SyncStep2? && p[1].SyncStep1?
    && p[0].update <= server
    && forall op :: Covers(p[1].sv, op) ==> op in server
  }

  ghost predicate QueueInv(cfg: SinkConfig, sink: Sink) {
    && UniqueIds(sink.queue)
    && (forall m :: m in sink.queue ==> m.id < sink.nextId && WellShaped(cfg, m))
    && (forall id :: id in sink.flying ==> id < sink.nextId)
    && (sink.status.Finished? ==> sink.queue == multiset{})
  }

  /** Requests under way have ids that were handed out, and agree in kind with what is queued. */
  ghost predicate RequestInv(cfg: SinkConfig, sink: Sink, toServer: multiset<ClientMessage>) {
    && (forall t :: t in toServer ==> t.id < sink.nextId && WellShaped(cfg, t))
    && (forall t, m :: t in toServer && m in sink.queue && t.id == m.id ==> t.ClientInitSync? == m.ClientInitSync?)
  }

  ghost predicate AnswerOk(server: Doc, sink: Sink, a: ServerMessage) {
    match a
    case ClientAck(id, p, code) =>
      && code == Success && id < sink.nextId
      && (p == [] || IsAnswer(server, p))
      && forall m :: m in sink.queue && m.id == id && m.ClientInitSync? ==> p != []
    case ServerBroadcast(p, _) => |p| == 1 && p[0].Update? && p[0].update <= server
    case AwarenessSync(p) => p == [Awareness]
  }

  ghost predicate AnswerInv(server: Doc, sink: Sink, toClient: multiset<ServerMessage>) {
    forall a :: a in toClient ==> AnswerOk(server, sink, a)
  }

  /** Where updates merge: a flying id means that exactly the queued content is on its way or has arrived. */
  ghost predicate FlyingInv(server: Doc, sink: Sink, toServer: multiset<ClientMessage>) {
    forall m, op :: m in sink.queue && m.id in sink.flying && op in MessageOps(m) ==>
      op in server || Carries(toServer, op)
  }

  /** Where they do not: the content behind an id never changes, so any answer to it settles it. */
  ghost predicate ContentInv(server: Doc, sink: Sink, toServer: multiset<ClientMessage>, toClient: multiset<ServerMessage>) {
    && (forall t, m :: t in toServer && m in sink.queue && t.id == m.id ==> t == m)
    && (forall a, m :: a in toClient && a.ClientAck? && m in sink.queue && m.id == a.msgId ==> MessageOps(m) <= server)
  }

  // The sink's operations ------------------------------------------------------------------------

  /** The sink invariants that talk about the rest of the system, in one predicate. */
  ghost predicate LinkInv(cfg: SinkConfig, server: Doc, sink: Sink, toServer: multiset<ClientMessage>, toClient: multiset<ServerMessage>) {
    && QueueInv(cfg, sink)
    && RequestInv(cfg, sink, toServer)
    && AnswerInv(server, sink, toClient)
    && (if MergesUpdates(cfg) then FlyingInv(server, sink, toServer) else ContentInv(server, sink, toServer, toClient))
  }

  /** The invariant of every reachable state. */
  ghost predicate Inv(cfg: SinkConfig, s: State) {
    && LinkInv(cfg, s.server, s.client.replica.sink, s.toServer, s.toClient)
    && NoLostEdit(cfg, s)
  }

  lemma ShapedIsPlain(cfg: SinkConfig, queue: multiset<ClientMessage>)
    requires !cfg.disableMerge && forall m :: m in queue ==> WellShaped(cfg, m)
    ensures AllPlainQueue(cfg, queue)
  {
    forall m | m in queue
      ensures Plain(cfg, m)
    {
      if m.ClientUpdateSync? {
        assert m.payload == [m.payload[0]];
      }
    }
  }

  lemma PushedInv(cfg: SinkConfig, sink: Sink, m: ClientMessage)
    requires QueueInv(cfg, sink) && WellShaped(cfg, m) && m.id == sink.nextId
    ensures UniqueIds(sink.queue + multiset{m})
    ensures forall k :: k in sink.queue + multiset{m} ==> k.id <= sink.nextId && WellShaped(cfg, k)
  {
    SnocUnique(sink.queue, m);
  }

  /** All that the invariants need to know about queueing a fresh message. */
  ghost predicate FreshlyQueued(cfg: SinkConfig, sink: Sink, m: ClientMessage, sink': Sink) {
    && m.id == sink.nextId && sink'.nextId == sink.nextId + 1
    && sink'.flying == sink.flying
    && MergeEffect(sink.flying, sink.queue + multiset{m}, sink'.queue)
    && QueueInv(cfg, sink')
  }

  lemma PushedMerges(cfg: SinkConfig, sink: Sink, m: ClientMessage, queue': multiset<ClientMessage>)
    requires QueueInv(cfg, sink) && WellShaped(cfg, m) && m.id == sink.nextId
    requires MaybeMerged(cfg, sink.flying, sink.queue + multiset{m}, queue')
    ensures MergeEffect(sink.flying, sink.queue + multiset{m}, queue')
    ensures if cfg.disableMerge then queue' == sink.queue + multiset{m} else AllPlainQueue(cfg, queue')
  {
    var pushed := sink.queue + multiset{m};
    PushedInv(cfg, sink, m);
    if !cfg.disableMerge {
      ShapedIsPlain(cfg, pushed);
    }
    MergeKeepsQueue(cfg, sink.flying, pushed, queue');
  }

  lemma MergedKeepsInv(cfg: SinkConfig, sink: Sink, pushed: multiset<ClientMessage>, sink': Sink)
    requires forall id :: id in sink.flying ==> id < sink.nextId
    requires sink'.nextId == sink.nextId + 1 && sink'.flying == sink.flying && sink'.status == Syncing
    requires forall k :: k in pushed ==> k.id <= sink.nextId && WellShaped(cfg, k)
    requires MergeEffect(sink.flying, pushed, sink'.queue)
    requires if cfg.disableMerge then sink'.queue == pushed else AllPlainQueue(cfg, sink'.queue)
    ensures QueueInv(cfg, sink')
  {
    MergedShape(cfg, sink.flying, sink.nextId, pushed, sink'.queue);
  }

  /** What queueing a fresh message does to the queue. */
  lemma QueuedEffect(cfg: SinkConfig, sink: Sink, m: ClientMessage, sink': Sink)
    requires QueueInv(cfg, sink) && WellShaped(cfg, m)
    requires Queued(cfg, sink, m, sink')
    ensures FreshlyQueued(cfg, sink, m, sink')
  {
    var pushed := sink.queue + multiset{m};
    PushedMerges(cfg, sink, m, sink'.queue);
    assert QueueInv(cfg, sink') by {
      PushedInv(cfg, sink, m);
      MergedKeepsInv(cfg, sink, pushed, sink');
    }
  }

  /** A plain message of the rank of a well-shaped one is well-shaped, being of its kind. */
  lemma SameKindSameShape(cfg: SinkConfig, o: ClientMessage, k: ClientMessage)
    requires WellShaped(cfg, o) && Plain(cfg, k) && MessageRank(o) == MessageRank(k)
    requires k.ClientUpdateSync? || k == o
    ensures WellShaped(cfg, k)
  {
  }

  lemma MergedShape(cfg: SinkConfig, flying: set<MsgId>, nextId: MsgId, pushed: multiset<ClientMessage>, queue': multiset<ClientMessage>)
    requires MergeEffect(flying, pushed, queue')
    requires if cfg.disableMerge then queue' == pushed else AllPlainQueue(cfg, queue')
    requires forall k :: k in pushed ==> k.id <= nextId && WellShaped(cfg, k)
    ensures forall k :: k in queue' ==> k.id <= nextId && WellShaped(cfg, k)
  {
    if !cfg.disableMerge {
      forall k | k in queue'
        ensures k.id <= nextId && WellShaped(cfg, k)
      {
        var o :| o in pushed && o.id == k.id && MessageRank(o) == MessageRank(k);
        SameKindSameShape(cfg, o, if k.ClientUpdateSync? then k else o);
      }
    }
  }

  /** Every queued message goes back to an earlier one or to the fresh one, of the same kind. */
  lemma QueuedOrigin(cfg: SinkConfig, sink: Sink, m: ClientMessage, sink': Sink, k: ClientMessage)
    requires FreshlyQueued(cfg, sink, m, sink') && k in sink'.queue && k.id != m.id
    ensures exists o :: o in sink.queue && o.id == k.id && o.ClientInitSync? == k.ClientInitSync?
    ensures k.id in sink.flying || !k.ClientUpdateSync? ==> k in sink.queue
  {
    var o :| o in sink.queue + multiset{m} && o.id == k.id && MessageRank(o) == MessageRank(k);
    assert o in sink.queue;
  }

  lemma QueuedKeepsRequests(cfg: SinkConfig, sink: Sink, m: ClientMessage, sink': Sink, toServer: multiset<ClientMessage>)
    requires QueueInv(cfg, sink) && RequestInv(cfg, sink, toServer)
    requires FreshlyQueued(cfg, sink, m, sink')
    ensures RequestInv(cfg, sink', toServer)
  {
    forall t, k | t in toServer && k in sink'.queue && t.id == k.id
      ensures t.ClientInitSync? == k.ClientInitSync?
    {
      QueuedOrigin(cfg, sink, m, sink', k);
    }
  }

  lemma QueuedKeepsAnswers(cfg: SinkConfig, server: Doc, sink: Sink, m: ClientMessage, sink': Sink, toClient: multiset<ServerMessage>)
    requires QueueInv(cfg, sink) && AnswerInv(server, sink, toClient)
    requires FreshlyQueued(cfg, sink, m, sink')
    ensures AnswerInv(server, sink', toClient)
  {
    forall a | a in toClient
      ensures AnswerOk(server, sink', a)
    {
      assert AnswerOk(server, sink, a);
      if a.ClientAck? {
        forall k | k in sink'.queue && k.id == a.msgId && k.ClientInitSync?
          ensures a.payload != []
        {
          QueuedOrigin(cfg, sink, m, sink', k);
        }
      }
    }
  }

  lemma QueuedKeepsFlying(cfg: SinkConfig, server: Doc, sink: Sink, m: ClientMessage, sink': Sink, toServer: multiset<ClientMessage>)
    requires QueueInv(cfg, sink) && FlyingInv(server, sink, toServer)
    requires FreshlyQueued(cfg, sink, m, sink')
    ensures FlyingInv(server, sink', toServer)
  {
    forall k | k in sink'.queue && k.id in sink'.flying
      ensures k in sink.queue
    {
      QueuedOrigin(cfg, sink, m, sink', k);
    }
  }

  lemma QueuedKeepsLinks(
    cfg: SinkConfig, server: Doc, sink: Sink, m: ClientMessage, sink': Sink,
    toServer: multiset<ClientMessage>, toClient: multiset<ServerMessage>)
    requires LinkInv(cfg, server, sink, toServer, toClient) && WellShaped(cfg, m)
    requires Queued(cfg, sink, m, sink')
    ensures LinkInv(cfg, server, sink', toServer, toClient)
    ensures forall op :: Carries(sink'.queue, op) <==> Carries(sink.queue, op) || op in MessageOps(m)
    ensures HasInit(sink.queue) ==> HasInit(sink'.queue)
  {
    QueuedEffect(cfg, sink, m, sink');
    QueuedKeepsRequests(cfg, sink, m, sink', toServer);
    QueuedKeepsAnswers(cfg, server, sink, m, sink', toClient);
    if MergesUpdates(cfg) {
      QueuedKeepsFlying(cfg, server, sink, m, sink', toServer);
    } else {
      QueuedKeepsContent(cfg, server, sink, m, sink', toServer, toClient);
    }
    QueuedCarries(cfg, sink, m, sink');
  }

  lemma QueuedCarries(cfg: SinkConfig, sink: Sink, m: ClientMessage, sink': Sink)
    requires FreshlyQueued(cfg, sink, m, sink')
    ensures forall op :: Carries(sink'.queue, op) <==> Carries(sink.queue, op) || op in MessageOps(m)
    ensures HasInit(sink.queue) ==> HasInit(sink'.queue)
  {
    CarriesPushed(sink.queue, m);
    if HasInit(sink.queue) {
      var i :| i in sink.queue && i.ClientInitSync?;
      assert i in sink.queue + multiset{m};
    }
  }

  /** Where no update takes others in, and no awareness change does, merging changes nothing. */
  lemma OnlyPushed(cfg: SinkConfig, sink: Sink, m: ClientMessage, sink': Sink)
    requires !MergesUpdates(cfg) && QueueInv(cfg, sink) && WellShaped(cfg, m) && Queued(cfg, sink, m, sink')
    ensures sink'.queue == sink.queue + multiset{m}
  {
    var pushed := sink.queue + multiset{m};
    if sink'.queue != pushed {
      var popped :| MergedVia(cfg, sink.flying, pushed, popped, sink'.queue);
      forall k | k in popped
        ensures TakesNothingIn(cfg, k)
      {
        assert k in pushed;
        ShapedTakesNothingIn(cfg, k);
      }
      NothingMerges(cfg, sink.flying, popped);
    }
  }

  lemma ShapedTakesNothingIn(cfg: SinkConfig, m: ClientMessage)
    requires !cfg.disableMerge && !MergesUpdates(cfg) && WellShaped(cfg, m)
    ensures TakesNothingIn(cfg, m)
  {
    if m.ClientUpdateSync? {
      assert m.payload == [m.payload[0]];
      assert m.payload[0].Update? ==> !TakesIn(cfg, m.payload[0].update);
    }
  }

  lemma QueuedKeepsContent(
    cfg: SinkConfig, server: Doc, sink: Sink, m: ClientMessage, sink': Sink,
    toServer: multiset<ClientMessage>, toClient: multiset<ServerMessage>)
    requires !MergesUpdates(cfg) && WellShaped(cfg, m)
    requires QueueInv(cfg, sink) && RequestInv(cfg, sink, toServer) && AnswerInv(server, sink, toClient)
    requires ContentInv(server, sink, toServer, toClient) && Queued(cfg, sink, m, sink')
    ensures ContentInv(server, sink', toServer, toClient)
  {
    OnlyPushed(cfg, sink, m, sink');
    assert forall k :: k in sink'.queue <==> k in sink.queue || k == m;
    forall a | a in toClient && a.ClientAck?
      ensures a.msgId != m.id
    {
      assert AnswerOk(server, sink, a);
    }
  }

  lemma CarriesPushed(queue: multiset<ClientMessage>, m: ClientMessage)
    ensures forall op :: Carries(queue + multiset{m}, op) <==> Carries(queue, op) || op in MessageOps(m)
  {
    var pushed := queue + multiset{m};
    forall op
      ensures Carries(pushed, op) <==> Carries(queue, op) || op in MessageOps(m)
    {
      if Carries(queue, op) {
        var k :| k in queue && op in MessageOps(k);
        assert k in pushed;
      }
      if op in MessageOps(m) {
        assert m in pushed;
      }
    }
  }

  /** Replacing the queue by a lone fresh init sync. */
  lemma InitKeepsLinks(
    cfg: SinkConfig, server: Doc, sink: Sink, m: ClientMessage,
    toServer: multiset<ClientMessage>, toClient: multiset<ServerMessage>)
    requires LinkInv(cfg, server, sink, toServer, toClient)
    requires m.ClientInitSync? && WellShaped(cfg, m) && m.id == sink.nextId
    ensures LinkInv(cfg, server, InitQueued(sink, m), toServer, toClient)
    ensures HasInit(InitQueued(sink, m).queue)
  {
    var sink' := InitQueued(sink, m);
    assert m in sink'.queue;
    assert forall k :: k in sink'.queue ==> k == m;
    forall a | a in toClient
      ensures AnswerOk(server, sink', a)
      ensures a.ClientAck? ==> a.msgId != m.id
    {
      assert AnswerOk(server, sink, a);
    }
  }

  /** Shrinking the queue or the flying set breaks no link. */
  lemma ShrinkKeepsLinks(
    cfg: SinkConfig, server: Doc, sink: Sink, sink': Sink, toServer: multiset<ClientMessage>, toClient: multiset<ServerMessage>)
    requires LinkInv(cfg, server, sink, toServer, toClient)
    requires sink'.queue <= sink.queue && sink'.flying <= sink.flying && sink'.nextId == sink.nextId
    requires sink'.status.Finished? ==> sink'.queue == multiset{}
    ensures LinkInv(cfg, server, sink', toServer, toClient)
  {
    assert forall m :: m in sink'.queue ==> m in sink.queue && 0 < sink'.queue[m] <= sink.queue[m];
    forall a | a in toClient
      ensures AnswerOk(server, sink', a)
    {
      assert AnswerOk(server, sink, a);
    }
  }

  // The network ----------------------------------------------------------------------------------

  lemma CarriesSubset(queue: multiset<ClientMessage>, queue': multiset<ClientMessage>)
    requires forall t :: t in queue ==> t in queue'
    ensures forall op :: Carries(queue, op) ==> Carries(queue', op)
  {
    forall op | Carries(queue, op)
      ensures Carries(queue', op)
    {
      var t :| t in queue && op in MessageOps(t);
      assert t in queue';
    }
  }

  /** Losing, repeating and delivering: requests may disappear only where updates do not merge. */
  lemma NetworkKeepsLinks(
    cfg: SinkConfig, server: Doc, sink: Sink, toServer: multiset<ClientMessage>, toClient: multiset<ServerMessage>,
    toServer': multiset<ClientMessage>, toClient': multiset<ServerMessage>)
    requires LinkInv(cfg, server, sink, toServer, toClient)
    requires forall t :: t in toServer' ==> t in toServer
    requires forall a :: a in toClient' ==> a in toClient
    requires MergesUpdates(cfg) ==> forall t :: t in toServer ==> t in toServer'
    ensures LinkInv(cfg, server, sink, toServer', toClient')
  {
    if MergesUpdates(cfg) {
      CarriesSubset(toServer, toServer');
    }
  }

  lemma GrowKeepsAnswer(server: Doc, server': Doc, sink: Sink, a: ServerMessage)
    requires AnswerOk(server, sink, a) && server <= server'
    ensures AnswerOk(server', sink, a)
  {
  }

  lemma GrowKeepsLinks(
    cfg: SinkConfig, server: Doc, server': Doc, sink: Sink, toServer: multiset<ClientMessage>, toClient: multiset<ServerMessage>)
    requires LinkInv(cfg, server, sink, toServer, toClient)
    requires server <= server'
    ensures LinkInv(cfg, server', sink, toServer, toClient)
  {
    forall a | a in toClient
      ensures AnswerOk(server', sink, a)
    {
      GrowKeepsAnswer(server, server', sink, a);
    }
  }

  lemma AnswerKeepsLinks(
    cfg: SinkConfig, server: Doc, sink: Sink, toServer: multiset<ClientMessage>, toClient: multiset<ServerMessage>, a: ServerMessage)
    requires LinkInv(cfg, server, sink, toServer, toClient)
    requires AnswerOk(server, sink, a)
    requires !MergesUpdates(cfg) && a.ClientAck? ==> forall m :: m in sink.queue && m.id == a.msgId ==> MessageOps(m) <= server
    ensures LinkInv(cfg, server, sink, toServer, toClient + multiset{a})
  {
    assert forall b :: b in toClient + multiset{a} <==> b in toClient || b == a;
  }

  // Steps of the client ----------------------------------------------------------------------------

  /** Queueing an update that carries at least what the document gained. */
  lemma EditKeeps(cfg: SinkConfig, s: State, m: ClientMessage, s': State)
    requires Inv(cfg, s) && WellShaped(cfg, m)
    requires Queued(cfg, s.client.replica.sink, m, s'.client.replica.sink)
    requires s'.client.replica.doc == s.client.replica.doc + MessageOps(m)
    requires s'.toServer == s.toServer && s'.toClient == s.toClient && s'.server == s.server
    ensures Inv(cfg, s')
  {
    QueuedKeepsLinks(cfg, s.server, s.client.replica.sink, m, s'.client.replica.sink, s.toServer, s.toClient);
  }

  lemma BatchIsQueued(sink: Sink, batch: seq<ClientMessage>)
    requires exists behind :: IsBatch(sink.queue, sink.flying, batch, behind)
    ensures forall b :: b in batch ==> b in sink.queue
  {
    var behind :| IsBatch(sink.queue, sink.flying, batch, behind);
    assert sink.queue == multiset(batch) + behind;
  }

  lemma SendKeepsLinks(
    cfg: SinkConfig, server: Doc, sink: Sink, toServer: multiset<ClientMessage>, toClient: multiset<ServerMessage>,
    batch: seq<ClientMessage>)
    requires LinkInv(cfg, server, sink, toServer, toClient)
    requires forall b :: b in batch ==> b in sink.queue
    ensures LinkInv(cfg, server, WithFlying(sink, batch), toServer + multiset(batch), toClient)
  {
    var toServer' := toServer + multiset(batch);
    assert forall t :: t in toServer' <==> t in toServer || t in batch;
    CarriesSubset(toServer, toServer');
    var sink' := WithFlying(sink, batch);
    forall a | a in toClient
      ensures AnswerOk(server, sink', a)
    {
      assert AnswerOk(server, sink, a);
    }
    forall m, op | m in sink.queue && m.id in Ids(batch) && op in MessageOps(m)
      ensures Carries(toServer', op)
    {
      var b :| b in batch && b.id == m.id;
      assert b == m;
      assert m in toServer';
    }
  }

  lemma SendKeeps(cfg: SinkConfig, s: State, batch: seq<ClientMessage>, s': State)
    requires Inv(cfg, s) && Sent(s.client.replica, batch)
    requires s' == WithSink(s, WithFlying(s.client.replica.sink, batch)).(toServer := s.toServer + multiset(batch))
    ensures Inv(cfg, s')
  {
    BatchIsQueued(s.client.replica.sink, batch);
    SendKeepsLinks(cfg, s.server, s.client.replica.sink, s.toServer, s.toClient, batch);
    CarriesSubset(s.toServer, s'.toServer);
  }

  lemma InitKeeps(cfg: SinkConfig, oid: string, s: State, s': State)
    requires Inv(cfg, s)
    requires s'.client.replica == InitSynced(oid, s.client.replica)
    requires s'.toServer == s.toServer && s'.toClient == s.toClient && s'.server == s.server
    ensures Inv(cfg, s')
  {
    var r := s.client.replica;
    InitKeepsLinks(cfg, s.server, r.sink, ClientInitSync(oid, r.sink.nextId, StartPayload(r.doc)), s.toServer, s.toClient);
  }

  /** Changing only the flying set, the pause flag or the status. */
  lemma QuietKeeps(cfg: SinkConfig, s: State, sink': Sink, s': State)
    requires Inv(cfg, s) && s' == WithSink(s, sink')
    requires sink'.queue == s.client.replica.sink.queue && sink'.nextId == s.client.replica.sink.nextId
    requires sink'.flying <= s.client.replica.sink.flying
    requires sink'.status.Finished? ==> s.client.replica.sink.status.Finished?
    ensures Inv(cfg, s')
  {
    ShrinkKeepsLinks(cfg, s.server, s.client.replica.sink, sink', s.toServer, s.toClient);
  }

  // Steps of the network and the server ------------------------------------------------------------

  lemma NetworkKeeps(cfg: SinkConfig, s: State, s': State)
    requires Inv(cfg, s)
    requires s' == s.(toServer := s'.toServer, toClient := s'.toClient)
    requires forall t :: t in s'.toServer ==> t in s.toServer
    requires forall a :: a in s'.toClient ==> a in s.toClient
    requires MergesUpdates(cfg) ==> forall t :: t in s.toServer ==> t in s'.toServer
    ensures Inv(cfg, s')
  {
    NetworkKeepsLinks(cfg, s.server, s.client.replica.sink, s.toServer, s.toClient, s'.toServer, s'.toClient);
    if MergesUpdates(cfg) {
      CarriesSubset(s.toServer, s'.toServer);
    }
  }

  lemma BroadcastKeeps(cfg: SinkConfig, s: State, ops: set<Op>, a: ServerMessage, s': State)
    requires Inv(cfg, s)
    requires s'.client == s.client && s'.toServer == s.toServer
    requires s'.server == s.server + ops && s'.toClient == s.toClient + multiset{a}
    requires !a.ClientAck? && AnswerOk(s'.server, s.client.replica.sink, a)
    ensures Inv(cfg, s')
  {
    var sink := s.client.replica.sink;
    GrowKeepsLinks(cfg, s.server, s'.server, sink, s.toServer, s.toClient);
    AnswerKeepsLinks(cfg, s'.server, sink, s.toServer, s.toClient, a);
  }

  /** The payload of the single answer to a well-shaped request. */
  function ReplyTo(server: Doc, m: ClientMessage): Payload {
    if m.ClientInitSync? && m.payload != [] && m.payload[0].SyncStep1? then HandleSyncStep1(Server, server, m.payload[0].sv) else []
  }

  lemma ServeWellShaped(cfg: SinkConfig, server: Doc, seqNum: nat, m: ClientMessage)
    requires WellShaped(cfg, m)
    ensures var served := Serve(server, seqNum, m.id, m.payload, AlwaysApplied);
      && served.doc == server + MessageOps(m)
      && served.acks == [ClientAck(m.id, ReplyTo(server, m), Success)]
    ensures ReplyTo(server, m) == [] || IsAnswer(server, ReplyTo(server, m))
    ensures m.ClientInitSync? ==> ReplyTo(server, m) != []
  {
    var p := m.payload;
    if m.ClientInitSync? {
      assert p == [p[0], p[1]];
      ServeOfTwo(server, seqNum, m.id, p[0], p[1], AlwaysApplied);
      assert [p[0], p[1]][..1] == [p[0]];
      SingletonOps(p[0]);
      assert MessageOps(m) == {};
    } else {
      assert p == [p[0]];
      ServeOfOne(server, seqNum, m.id, p[0], AlwaysApplied);
      SingletonOps(p[0]);
    }
  }

  lemma DeliveredStillCovered(toServer: multiset<ClientMessage>, m: ClientMessage, server: Doc)
    ensures forall op :: Carries(toServer, op) ==> op in server + MessageOps(m) || Carries(toServer - multiset{m}, op)
  {
    forall op | Carries(toServer, op)
      ensures op in server + MessageOps(m) || Carries(toServer - multiset{m}, op)
    {
      var t :| t in toServer && op in MessageOps(t);
      if t != m {
        assert t in toServer - multiset{m};
      }
    }
  }

  lemma DeliverKeepsLinks(
    cfg: SinkConfig, server: Doc, sink: Sink, toServer: multiset<ClientMessage>, toClient: multiset<ServerMessage>, m: ClientMessage)
    requires LinkInv(cfg, server, sink, toServer, toClient) && m in toServer
    ensures LinkInv(cfg, server + MessageOps(m), sink, toServer - multiset{m}, toClient)
  {
    var server', toServer' := server + MessageOps(m), toServer - multiset{m};
    GrowKeepsLinks(cfg, server, server', sink, toServer, toClient);
    assert forall t :: t in toServer' ==> t in toServer;
    DeliveredStillCovered(toServer, m, server);
  }

  lemma ServerKeeps(cfg: SinkConfig, s: State, m: ClientMessage, s': State)
    requires Inv(cfg, s) && m in s.toServer
    requires s'.client == s.client
    requires s'.server == s.server + MessageOps(m) && s'.toServer == s.toServer - multiset{m}
    requires s'.toClient == s.toClient + multiset{ClientAck(m.id, ReplyTo(s.server, m), Success)}
    ensures Inv(cfg, s')
  {
    var sink, a := s.client.replica.sink, ClientAck(m.id, ReplyTo(s.server, m), Success);
    ServeWellShaped(cfg, s.server, s.seqNum, m);
    assert AnswerOk(s.server, sink, a);
    GrowKeepsAnswer(s.server, s'.server, sink, a);
    DeliverKeepsLinks(cfg, s.server, sink, s.toServer, s.toClient, m);
    AnswerKeepsLinks(cfg, s'.server, sink, s'.toServer, s.toClient, a);
    DeliveredStillCovered(s.toServer, m, s.server);
  }

  // The client receives ------------------------------------------------------------------------------

  /** An accepted acknowledgement of anything but an init sync settles what is popped. */
  lemma PopKeepsAccounted(
    cfg: SinkConfig, server: Doc, r: Replica, toServer: multiset<ClientMessage>, toClient: multiset<ServerMessage>,
    a: ServerMessage, top: ClientMessage)
    requires LinkInv(cfg, server, r.sink, toServer, toClient) && AllAccounted(cfg, r, toServer, server)
    requires a in toClient && a.ClientAck? && a.msgId == top.id && top.id in r.sink.flying
    requires top in r.sink.queue && !top.ClientInitSync?
    ensures AllAccounted(cfg, r.(sink := Popped(r.sink, top)), toServer, server)
  {
    var rest := r.sink.queue - multiset{top};
    if HasInit(r.sink.queue) {
      var i :| i in r.sink.queue && i.ClientInitSync?;
      assert i in rest;
    }
    forall op | Carries(r.sink.queue, op)
      ensures Accounted(cfg, rest, toServer, server, op)
    {
      var k :| k in r.sink.queue && op in MessageOps(k);
      if k != top {
        assert k in rest;
      }
    }
  }

  lemma PopKeepsLinks(
    cfg: SinkConfig, server: Doc, sink: Sink, toServer: multiset<ClientMessage>, toClient: multiset<ServerMessage>, top: ClientMessage)
    requires LinkInv(cfg, server, sink, toServer, toClient) && top in sink.queue
    ensures LinkInv(cfg, server, Popped(sink, top), toServer, toClient)
  {
    ShrinkKeepsLinks(cfg, server, sink, Popped(sink, top), toServer, toClient);
  }

  /** Processing a handshake answer accounts for the whole document, whatever was lost before. */
  lemma AnswerAccounts(
    cfg: SinkConfig, oid: string, server: Doc, r: Replica, p: Payload, ok: bool, r': Replica,
    toServer: multiset<ClientMessage>, toClient: multiset<ServerMessage>)
    requires LinkInv(cfg, server, r.sink, toServer, toClient)
    requires IsAnswer(server, p) && PayloadProcessed(cfg, oid, r, p, AlwaysApplied, ok, r')
    ensures LinkInv(cfg, server, r'.sink, toServer, toClient) && AllAccounted(cfg, r', toServer, server)
  {
    var update, sv := p[0].update, p[1].sv;
    assert p == [SyncStep2(update), SyncStep1(sv)];
    AnswerProcessed(cfg, oid, r, update, sv, ok, r');
    var m := ServerInitSync(oid, r.sink.nextId, [SyncStep2(Missing(r'.doc, sv))]);
    SingletonOps(m.payload[0]);
    QueuedKeepsLinks(cfg, server, r.sink, m, r'.sink, toServer, toClient);
  }

  lemma AckKeeps(
    cfg: SinkConfig, oid: string, s: State, a: ServerMessage, valid: bool, sink: Sink, r': Replica)
    requires Inv(cfg, s) && a in s.toClient && a.ClientAck?
    requires AckProcessed(cfg, oid, s.client.replica, a.msgId, a.payload, UNDISTURBED, valid, sink, r')
    ensures LinkInv(cfg, s.server, r'.sink, s.toServer, s.toClient) && AllAccounted(cfg, r', s.toServer, s.server)
  {
    var r := s.client.replica;
    assert AnswerOk(s.server, r.sink, a);
    if !valid {
      ShrinkKeepsLinks(cfg, s.server, r.sink, sink, s.toServer, s.toClient);
    } else {
      var top :| AcknowledgedTop(r.sink, a.msgId, top, valid, sink);
      PopKeepsLinks(cfg, s.server, r.sink, s.toServer, s.toClient, top);
      if a.payload == [] {
        PopKeepsAccounted(cfg, s.server, r, s.toServer, s.toClient, a, top);
      } else {
        var ok :| PayloadProcessed(cfg, oid, r.(sink := sink), a.payload, AlwaysApplied, ok, r');
        AnswerAccounts(cfg, oid, s.server, r.(sink := sink), a.payload, ok, r', s.toServer, s.toClient);
      }
    }
  }

  lemma BroadcastApplied(
    cfg: SinkConfig, oid: string, start: Replica, p: Payload, ok: bool, r': Replica)
    requires |p| == 1 && (p[0].Update? || p[0].Awareness?)
    requires PayloadProcessed(cfg, oid, start, p, AlwaysApplied, ok, r')
    ensures r' == start.(doc := start.doc + YMessageOps(p[0]))
  {
    assert p == [p[0]];
    UpdateProcessed(cfg, oid, start, p[0], AlwaysApplied, ok, r');
  }

  /** What the server already has is accounted for. */
  lemma KnownOpsAccounted(cfg: SinkConfig, r: Replica, ops: set<Op>, toServer: multiset<ClientMessage>, server: Doc)
    requires AllAccounted(cfg, r, toServer, server) && ops <= server
    ensures AllAccounted(cfg, r.(doc := r.doc + ops), toServer, server)
  {
  }

  /** A broadcast may first queue an init sync, then its update is applied. */
  lemma BroadcastReceivedKeeps(cfg: SinkConfig, oid: string, s: State, start: Replica, p: Payload, ok: bool, r': Replica)
    requires Inv(cfg, s)
    requires start == s.client.replica || start == InitSynced(oid, s.client.replica)
    requires |p| == 1 && ((p[0].Update? && p[0].update <= s.server) || p[0].Awareness?)
    requires PayloadProcessed(cfg, oid, start, p, AlwaysApplied, ok, r')
    ensures LinkInv(cfg, s.server, r'.sink, s.toServer, s.toClient) && AllAccounted(cfg, r', s.toServer, s.server)
  {
    if start != s.client.replica {
      InitKeeps(cfg, oid, s, s.(client := s.client.(replica := start)));
    }
    BroadcastApplied(cfg, oid, start, p, ok, r');
    KnownOpsAccounted(cfg, start, YMessageOps(p[0]), s.toServer, s.server);
  }

  lemma ReceiveKeepsReplica(cfg: SinkConfig, oid: string, s: State, a: ServerMessage, mayInit: bool, c': ClientState)
    requires Inv(cfg, s) && a in s.toClient
    requires MessageProcessed(cfg, oid, s.client, a, UNDISTURBED, mayInit, c')
    ensures LinkInv(cfg, s.server, c'.replica.sink, s.toServer, s.toClient) && AllAccounted(cfg, c'.replica, s.toServer, s.server)
  {
    assert AnswerOk(s.server, s.client.replica.sink, a);
    match a
    case ClientAck(id, payload, code) =>
      var valid, sink :| AckProcessed(cfg, oid, s.client.replica, id, payload, UNDISTURBED, valid, sink, c'.replica);
      AckKeeps(cfg, oid, s, a, valid, sink, c'.replica);
    case ServerBroadcast(payload, seqNum) =>
      var start :=
        if MissesBroadcast(s.client.lastSeq, seqNum) && mayInit && !HasInit(s.client.replica.sink.queue)
        then InitSynced(oid, s.client.replica) else s.client.replica;
      var ok :| PayloadProcessed(cfg, oid, start, payload, AlwaysApplied, ok, c'.replica);
      BroadcastReceivedKeeps(cfg, oid, s, start, payload, ok, c'.replica);
    case AwarenessSync(payload) =>
      var ok :| PayloadProcessed(cfg, oid, s.client.replica, payload, AlwaysApplied, ok, c'.replica);
      BroadcastReceivedKeeps(cfg, oid, s, s.client.replica, payload, ok, c'.replica);
  }

  lemma ReceiveKeeps(cfg: SinkConfig, oid: string, s: State, a: ServerMessage, mayInit: bool, s': State)
    requires Inv(cfg, s) && a in s.toClient
    requires MessageProcessed(cfg, oid, s.client, a, UNDISTURBED, mayInit, s'.client)
    requires s' == s.(client := s'.client, toClient := s.toClient - multiset{a})
    ensures Inv(cfg, s')
  {
    ReceiveKeepsReplica(cfg, oid, s, a, mayInit, s'.client);
    NetworkKeepsLinks(cfg, s.server, s'.client.replica.sink, s.toServer, s.toClient, s'.toServer, s'.toClient);
  }

  // Every step, every run ------------------------------------------------------------------------------

  lemma LocalEditKeeps(cfg: SinkConfig, oid: string, env: Environment, s: State, ops: set<Op>, s': State)
    requires Inv(cfg, s) && Step(cfg, oid, env, s, LocalEdit(ops), s')
    ensures Inv(cfg, s')
  {
    SingletonOps(Update(ops));
    EditKeeps(cfg, s, ClientUpdateSync(oid, s.client.replica.sink.nextId, [Update(ops)]), s');
  }

  lemma LocalAwarenessKeeps(cfg: SinkConfig, oid: string, env: Environment, s: State, s': State)
    requires Reliable(cfg, env) && Inv(cfg, s) && Step(cfg, oid, env, s, LocalAwareness, s')
    ensures Inv(cfg, s')
  {
    SingletonOps(Awareness);
    EditKeeps(cfg, s, ClientUpdateSync(oid, s.client.replica.sink.nextId, [Awareness]), s');
  }

  lemma TimerKeeps(cfg: SinkConfig, oid: string, env: Environment, s: State, s': State)
    requires Inv(cfg, s) && Step(cfg, oid, env, s, TimerFires, s')
    ensures Inv(cfg, s')
  {
    QuietKeeps(cfg, s, TimerFired(s.client.replica.sink), s');
  }

  lemma PauseKeeps(cfg: SinkConfig, oid: string, env: Environment, s: State, e: Event, s': State)
    requires Inv(cfg, s) && (e.Pauses? || e.Resumes?) && Step(cfg, oid, env, s, e, s')
    ensures Inv(cfg, s')
  {
    QuietKeeps(cfg, s, s'.client.replica.sink, s');
  }

  lemma RemoteKeeps(cfg: SinkConfig, oid: string, env: Environment, s: State, e: Event, s': State)
    requires Inv(cfg, s) && (e.RemoteUpdate? || e.RemoteAwareness?) && Step(cfg, oid, env, s, e, s')
    ensures Inv(cfg, s')
  {
    if e.RemoteUpdate? {
      BroadcastKeeps(cfg, s, e.ops, ServerBroadcast([Update(e.ops)], s.seqNum + 1), s');
    } else {
      BroadcastKeeps(cfg, s, {}, AwarenessSync([Awareness]), s');
    }
  }

  lemma ServerReceivesKeeps(
    cfg: SinkConfig, oid: string, env: Environment, s: State, m: ClientMessage, outcomes: nat -> Outcome, s': State)
    requires Reliable(cfg, env) && Inv(cfg, s) && Step(cfg, oid, env, s, ServerReceives(m, outcomes), s')
    ensures Inv(cfg, s')
  {
    ServeWellShaped(cfg, s.server, s.seqNum, m);
    ServerKeeps(cfg, s, m, s');
  }

  lemma LossKeeps(cfg: SinkConfig, oid: string, env: Environment, s: State, e: Event, s': State)
    requires Reliable(cfg, env) && Inv(cfg, s) && Step(cfg, oid, env, s, e, s')
    requires e.LosesRequest? || e.LosesAnswer?
    ensures Inv(cfg, s')
  {
    NetworkKeeps(cfg, s, s');
  }

  lemma RepeatKeeps(cfg: SinkConfig, oid: string, env: Environment, s: State, e: Event, s': State)
    requires Inv(cfg, s) && Step(cfg, oid, env, s, e, s')
    requires e.RepeatsRequest? || e.RepeatsAnswer?
    ensures Inv(cfg, s')
  {
    NetworkKeeps(cfg, s, s');
  }

  lemma ClientStepKeeps(cfg: SinkConfig, oid: string, env: Environment, s: State, e: Event, s': State)
    requires Reliable(cfg, env) && Inv(cfg, s) && Step(cfg, oid, env, s, e, s')
    requires e.LocalEdit? || e.LocalAwareness? || e.Send? || e.TimerFires? || e.InitSync? || e.Pauses? || e.Resumes?
    ensures Inv(cfg, s')
  {
    match e
    case LocalEdit(ops) => LocalEditKeeps(cfg, oid, env, s, ops, s');
    case LocalAwareness => LocalAwarenessKeeps(cfg, oid, env, s, s');
    case Send(batch) => SendKeeps(cfg, s, batch, s');
    case TimerFires => TimerKeeps(cfg, oid, env, s, s');
    case InitSync => InitKeeps(cfg, oid, s, s');
    case Pauses => PauseKeeps(cfg, oid, env, s, e, s');
    case Resumes => PauseKeeps(cfg, oid, env, s, e, s');
  }

  lemma DeliveryKeeps(cfg: SinkConfig, oid: string, env: Environment, s: State, e: Event, s': State)
    requires Reliable(cfg, env) && Inv(cfg, s) && Step(cfg, oid, env, s, e, s')
    requires e.ServerReceives? || e.ClientReceives?
    ensures Inv(cfg, s')
  {
    match e
    case ServerReceives(m, outcomes) => ServerReceivesKeeps(cfg, oid, env, s, m, outcomes, s');
    case ClientReceives(a, _, mayInit) => ReceiveKeeps(cfg, oid, s, a, mayInit, s');
  }

  lemma NoResets(cfg: SinkConfig, oid: string, env: Environment, s: State, e: Event, s': State)
    requires Reliable(cfg, env) && Step(cfg, oid, env, s, e, s')
    ensures !e.Resets?
  {
  }

  lemma StepKeeps(cfg: SinkConfig, oid: string, env: Environment, s: State, e: Event, s': State)
    requires Reliable(cfg, env) && Inv(cfg, s) && Step(cfg, oid, env, s, e, s')
    ensures Inv(cfg, s')
  {
    NoResets(cfg, oid, env, s, e, s');
    if e.LosesRequest? || e.LosesAnswer? {
      LossKeeps(cfg, oid, env, s, e, s');
    } else if e.RepeatsRequest? || e.RepeatsAnswer? {
      RepeatKeeps(cfg, oid, env, s, e, s');
    } else if e.RemoteUpdate? || e.RemoteAwareness? {
      RemoteKeeps(cfg, oid, env, s, e, s');
    } else if e.ServerReceives? || e.ClientReceives? {
      DeliveryKeeps(cfg, oid, env, s, e, s');
    } else {
      ClientStepKeeps(cfg, oid, env, s, e, s');
    }
  }

  lemma InitialInv(cfg: SinkConfig, oid: string, env: Environment, s: State)
    requires Initial(oid, env, s) && !env.leftovers
    ensures Inv(cfg, s)
  {
    var paused :| s.client == StartOf(oid, s.client.replica.doc, paused);
    var doc := s.client.replica.doc;
    var r := Replica(doc, EmptySink(paused));
    InitKeepsLinks(cfg, s.server, r.sink, ClientInitSync(oid, 0, StartPayload(doc)), s.toServer, s.toClient);
  }

  lemma {:induction false} RunInv(cfg: SinkConfig, oid: string, env: Environment, run: seq<State>, n: nat)
    requires Reliable(cfg, env) && IsRun(cfg, oid, env, run) && n < |run|
    ensures Inv(cfg, run[n])
  {
    if n == 0 {
      InitialInv(cfg, oid, env, run[0]);
    } else {
      RunInv(cfg, oid, env, run, n - 1);
      var s, s' := run[n - 1], run[n - 1 + 1];
      assert CanStep(cfg, oid, env, s, s');
      var e :| Step(cfg, oid, env, s, e, s');
      StepKeeps(cfg, oid, env, s, e, s');
    }
  }

  /**
    No edit is lost, in every state of every run: unless an init sync is queued, each operation of
    the client document is on the server or in a queued message or, where updates merge, on its way
    to the server. Where they do not, the network may lose anything.
   */
  lemma NoEditIsLost(cfg: SinkConfig, oid: string, env: Environment, run: seq<State>, n: nat)
    requires Reliable(cfg, env) && IsRun(cfg, oid, env, run) && n < |run|
    ensures NoLostEdit(cfg, run[n])
  {
    RunInv(cfg, oid, env, run, n);
  }

  /**
    When the sink reports `Finished`, the server has everything the client has; where updates
    merge, once what is on its way has arrived.
   */
  lemma FinishedMeansSynced(cfg: SinkConfig, oid: string, env: Environment, run: seq<State>, n: nat)
    requires Reliable(cfg, env) && IsRun(cfg, oid, env, run) && n < |run|
    requires run[n].client.replica.sink.status.Finished?
    requires MergesUpdates(cfg) ==> run[n].toServer == multiset{}
    ensures run[n].client.replica.doc <= run[n].server
  {
    RunInv(cfg, oid, env, run, n);
  }

  /** While an init sync is queued, nothing else is sent, in any state and environment. */
  lemma OnlyInitLeavesWhileQueued(cfg: SinkConfig, oid: string, env: Environment, s: State, batch: seq<ClientMessage>, s': State)
    requires Step(cfg, oid, env, s, Send(batch), s')
    requires HasInit(s.client.replica.sink.queue)
    ensures forall t :: t in s'.toServer ==> t in s.toServer || t.ClientInitSync?
  {
    var sink := s.client.replica.sink;
    var behind :| IsBatch(sink.queue, sink.flying, batch, behind);
    OnlyInitIsSent(sink.queue, sink.flying, batch, behind);
  }
}
