/**
  Each hypothesis behind `NoEditIsLost` is needed: runs in which an edit is lost, and the exact
  condition.
 */
module SyncFaults {
  import opened PriorityHeap
  import opened YrsDocument
  import opened CollabMessages
  import opened SinkSpec
  import opened SinkMerge
  import opened SyncProtocol
  import opened SyncSystem
  import opened SyncSafety

  ghost predicate Reachable(cfg: SinkConfig, oid: string, env: Environment, s: State) {
    exists run :: IsRun(cfg, oid, env, run) && run[|run| - 1] == s
  }

  lemma ReachInitial(cfg: SinkConfig, oid: string, env: Environment, s: State)
    requires Initial(oid, env, s)
    ensures Reachable(cfg, oid, env, s)
  {
    assert IsRun(cfg, oid, env, [s]);
  }

  lemma RunExtended(cfg: SinkConfig, oid: string, env: Environment, run: seq<State>, s': State)
    requires IsRun(cfg, oid, env, run) && CanStep(cfg, oid, env, run[|run| - 1], s')
    ensures IsRun(cfg, oid, env, run + [s'])
  {
    forall i | 0 <= i < |run|
      ensures CanStep(cfg, oid, env, (run + [s'])[i], (run + [s'])[i + 1])
    {
      assert i < |run| - 1 ==> (run + [s'])[i + 1] == run[i + 1];
    }
  }

  lemma ReachVia(cfg: SinkConfig, oid: string, env: Environment, s: State, s': State)
    requires Reachable(cfg, oid, env, s) && CanStep(cfg, oid, env, s, s')
    ensures Reachable(cfg, oid, env, s')
  {
    var run :| IsRun(cfg, oid, env, run) && run[|run| - 1] == s;
    RunExtended(cfg, oid, env, run, s');
    assert (run + [s'])[|run + [s']| - 1] == s';
  }

  lemma ReachStep(cfg: SinkConfig, oid: string, env: Environment, s: State, e: Event, s': State)
    requires Reachable(cfg, oid, env, s) && Step(cfg, oid, env, s, e, s')
    ensures Reachable(cfg, oid, env, s')
  {
    ReachVia(cfg, oid, env, s, s');
  }

  // States of the witness runs -----------------------------------------------------------------------

  const EDIT_A := Insert(1, 0)

  /** A connected client that has received no broadcast; only what varies is spelled out. */
  function At(
    doc: Doc, queue: multiset<ClientMessage>, flying: set<MsgId>, nextId: MsgId, status: SinkStatus,
    toServer: multiset<ClientMessage>, toClient: multiset<ServerMessage>, server: Doc, seqNum: nat): State
  {
    State(ClientState(Replica(doc, Sink(queue, flying, nextId, false, status)), 0, false), toServer, toClient, server, seqNum)
  }

  function InitMessage(oid: string, doc: Doc): ClientMessage {
    ClientInitSync(oid, 0, StartPayload(doc))
  }

  /** The answer of a server with an empty document. */
  function EmptyAnswer(): Payload {
    [SyncStep2({}), SyncStep1(StateVectorOf({}))]
  }

  function Reply(oid: string): ClientMessage {
    ServerInitSync(oid, 1, [SyncStep2({})])
  }

  function EditMessage(oid: string, id: MsgId, ops: set<Op>): ClientMessage {
    ClientUpdateSync(oid, id, [Update(ops)])
  }

  /** A queue that fits a batch and has no init sync in front of other messages is sent whole. */
  lemma WholeQueueIsBatch(batch: seq<ClientMessage>)
    requires Sorted(MessageRank, batch) && |batch| <= MAX_BATCH
    requires forall i :: 0 <= i < |batch| - 1 ==> !batch[i].ClientInitSync?
    ensures IsBatch(multiset(batch), {}, batch, multiset{})
  {
    assert multiset(batch) + multiset{} == multiset(batch);
  }

  function AfterInitSent(oid: string, doc: Doc): State {
    At(doc, multiset{InitMessage(oid, doc)}, {0}, 1, Syncing, multiset{InitMessage(oid, doc)}, multiset{}, {}, 0)
  }

  /** The start of a run whose server document is empty. */
  function Start(oid: string, doc: Doc): State {
    At(doc, multiset{InitMessage(oid, doc)}, {}, 1, Syncing, multiset{}, multiset{}, {}, 0)
  }

  lemma ReachStart(cfg: SinkConfig, oid: string, env: Environment, doc: Doc)
    ensures Reachable(cfg, oid, env, Start(oid, doc))
  {
    assert Start(oid, doc).client == StartOf(oid, doc, false);
    ReachInitial(cfg, oid, env, Start(oid, doc));
  }

  lemma ReachInitSent(cfg: SinkConfig, oid: string, env: Environment, doc: Doc)
    ensures Reachable(cfg, oid, env, AfterInitSent(oid, doc))
  {
    ReachStart(cfg, oid, env, doc);
    assert multiset{} + multiset{InitMessage(oid, doc)} == multiset{InitMessage(oid, doc)};
    SendOneStep(cfg, oid, env, Start(oid, doc), InitMessage(oid, doc), AfterInitSent(oid, doc));
    ReachVia(cfg, oid, env, Start(oid, doc), AfterInitSent(oid, doc));
  }

  /** The state once the server, whose document is empty, has answered the init sync with `answer`. */
  function AfterInitAnswered(oid: string, doc: Doc, answer: Payload): State {
    At(doc, multiset{InitMessage(oid, doc)}, {0}, 1, Syncing, multiset{}, multiset{ClientAck(0, answer, Success)}, {}, 0)
  }

  /** A server with an empty document answers an init sync; it may find the document locked at first. */
  lemma InitServed(doc: Doc)
    ensures Serve({}, 0, 0, StartPayload(doc), AlwaysApplied) == Served({}, 0, [ClientAck(0, EmptyAnswer(), Success)], [])
    ensures Serve({}, 0, 0, StartPayload(doc), FirstLocked) == Served({}, 0, [ClientAck(0, [], Success)], [])
  {
    var p := StartPayload(doc);
    assert Missing({}, StateVectorOf(doc)) == {};
    ServeOfTwo({}, 0, 0, p[0], p[1], AlwaysApplied);
    ServeOfTwo({}, 0, 0, p[0], p[1], FirstLocked);
  }

  lemma ReachInitAnswered(cfg: SinkConfig, oid: string, env: Environment, doc: Doc)
    ensures Reachable(cfg, oid, env, AfterInitAnswered(oid, doc, EmptyAnswer()))
  {
    ReachInitSent(cfg, oid, env, doc);
    InitServed(doc);
    ServeStep(cfg, oid, env, AfterInitSent(oid, doc), InitMessage(oid, doc), AlwaysApplied,
              AfterInitAnswered(oid, doc, EmptyAnswer()));
    ReachVia(cfg, oid, env, AfterInitSent(oid, doc), AfterInitAnswered(oid, doc, EmptyAnswer()));
  }

  /** One single answer to a request. */
  lemma ServeStep(
    cfg: SinkConfig, oid: string, env: Environment, s: State, m: ClientMessage, outcomes: nat -> Outcome, s': State)
    requires m in s.toServer && (env.serverFaults || outcomes == AlwaysApplied)
    requires IsServed(s, m, Serve(s.server, s.seqNum, m.id, m.payload, outcomes), s')
    ensures CanStep(cfg, oid, env, s, s')
  {
    var served := Serve(s.server, s.seqNum, m.id, m.payload, outcomes);
    assert served.acks == [served.acks[0]];
    assert multiset(served.acks) == multiset{served.acks[0]};
    assert Step(cfg, oid, env, s, ServerReceives(m, outcomes), s');
  }

  predicate IsServed(s: State, m: ClientMessage, served: Served, s': State) {
    && |served.acks| == 1
    && s' == s.(server := served.doc, seqNum := served.seqNum, toServer := s'.toServer, toClient := s'.toClient)
    && s'.toServer == s.toServer - multiset{m} && s'.toClient == s.toClient + multiset{served.acks[0]}
  }

  /** Some reachable state has lost an edit. */
  ghost predicate Loses(cfg: SinkConfig, oid: string, env: Environment) {
    exists s :: Reachable(cfg, oid, env, s) && !NoLostEdit(cfg, s)
  }

  /** Some reachable state has lost an edit while the sink reports that it is done. */
  ghost predicate LosesUnnoticed(cfg: SinkConfig, oid: string, env: Environment) {
    exists s :: Reachable(cfg, oid, env, s) && !NoLostEdit(cfg, s) && s.client.replica.sink.status.Finished?
  }

  /** The init sync is gone and nothing replaced it. */
  function AfterInitDropped(doc: Doc): State {
    At(doc, multiset{}, {}, 1, Finished, multiset{}, multiset{}, {}, 0)
  }

  lemma DroppedLosesEdit(cfg: SinkConfig, doc: Doc)
    requires EDIT_A in doc
    ensures !NoLostEdit(cfg, AfterInitDropped(doc))
  {
    assert !Accounted(cfg, multiset{}, multiset{}, {}, EDIT_A);
  }

  /** Accepting an acknowledgement of the init sync without processing a payload. */
  lemma InitAckStep(cfg: SinkConfig, oid: string, env: Environment, doc: Doc, answer: Payload, access: Access)
    requires env.clientFaults || access == UNDISTURBED
    requires answer == [] || access.Locked?
    ensures Step(cfg, oid, env, AfterInitAnswered(oid, doc, answer),
                 ClientReceives(ClientAck(0, answer, Success), access, false), AfterInitDropped(doc))
  {
    var m, s, s' := InitMessage(oid, doc), AfterInitAnswered(oid, doc, answer), AfterInitDropped(doc);
    var sink := s.client.replica.sink;
    assert multiset{m} - multiset{m} == multiset{};
    assert {0} - {0} == {};
    assert Popped(sink, m) == s'.client.replica.sink;
    assert AcknowledgedTop(sink, 0, m, true, s'.client.replica.sink);
    assert Acknowledged(sink, 0, true, s'.client.replica.sink);
    assert AckProcessed(cfg, oid, s.client.replica, 0, answer, access, true, s'.client.replica.sink, s'.client.replica);
  }

  // One run for each hypothesis ------------------------------------------------------------------------

  /** The first message of an init sync finds the document locked, the second does not. */
  function FirstLocked(i: nat): Outcome {
    if i == 0 then LockBusy else Applied
  }

  lemma ReachInitRefused(cfg: SinkConfig, oid: string, env: Environment, doc: Doc)
    requires env.serverFaults
    ensures Reachable(cfg, oid, env, AfterInitAnswered(oid, doc, []))
  {
    ReachInitSent(cfg, oid, env, doc);
    InitServed(doc);
    ServeStep(cfg, oid, env, AfterInitSent(oid, doc), InitMessage(oid, doc), FirstLocked, AfterInitAnswered(oid, doc, []));
    ReachVia(cfg, oid, env, AfterInitSent(oid, doc), AfterInitAnswered(oid, doc, []));
  }

  lemma ServerFaultsLose(cfg: SinkConfig, oid: string, env: Environment)
    requires env.serverFaults
    ensures LosesUnnoticed(cfg, oid, env)
  {
    var doc := {EDIT_A};
    ReachInitRefused(cfg, oid, env, doc);
    InitAckStep(cfg, oid, env, doc, [], UNDISTURBED);
    ReachStep(cfg, oid, env, AfterInitAnswered(oid, doc, []),
              ClientReceives(ClientAck(0, [], Success), UNDISTURBED, false), AfterInitDropped(doc));
    DroppedLosesEdit(cfg, doc);
  }

  lemma BusyClientLoses(cfg: SinkConfig, oid: string, env: Environment)
    requires env.clientFaults
    ensures LosesUnnoticed(cfg, oid, env)
  {
    var doc := {EDIT_A};
    ReachInitAnswered(cfg, oid, env, doc);
    InitAckStep(cfg, oid, env, doc, EmptyAnswer(), Locked);
    ReachStep(cfg, oid, env, AfterInitAnswered(oid, doc, EmptyAnswer()),
              ClientReceives(ClientAck(0, EmptyAnswer(), Success), Locked, false), AfterInitDropped(doc));
    DroppedLosesEdit(cfg, doc);
  }

  lemma ResetLoses(cfg: SinkConfig, oid: string, env: Environment)
    requires env.resets
    ensures Loses(cfg, oid, env)
  {
    var doc := {EDIT_A};
    var s' := At(doc, multiset{}, {}, 1, Syncing, multiset{}, multiset{}, {}, 0);
    ReachStart(cfg, oid, env, doc);
    assert Step(cfg, oid, env, Start(oid, doc), Resets, s');
    ReachVia(cfg, oid, env, Start(oid, doc), s');
    assert !Accounted(cfg, multiset{}, multiset{}, {}, EDIT_A);
  }

  // An answer to an earlier sink --------------------------------------------------------------------------

  /** The second init sync of a sink, which has queued nothing else. */
  function SecondInit(oid: string, doc: Doc): ClientMessage {
    ClientInitSync(oid, 1, StartPayload(doc))
  }

  /** An answer that an earlier sink was sent for its message 1, the reply of a handshake. */
  const LEFT_OVER := ClientAck(1, [], Success)

  function WithLeftOver(doc: Doc, m: ClientMessage, flying: set<MsgId>, toServer: multiset<ClientMessage>): State {
    At(doc, multiset{m}, flying, m.id + 1, Syncing, toServer, multiset{LEFT_OVER}, {}, 0)
  }

  lemma ReachSecondInit(cfg: SinkConfig, oid: string, env: Environment, doc: Doc)
    requires env.leftovers
    ensures Reachable(cfg, oid, env, WithLeftOver(doc, SecondInit(oid, doc), {}, multiset{}))
  {
    var s, s' := WithLeftOver(doc, InitMessage(oid, doc), {}, multiset{}), WithLeftOver(doc, SecondInit(oid, doc), {}, multiset{});
    assert s.client == StartOf(oid, doc, false);
    ReachInitial(cfg, oid, env, s);
    assert Step(cfg, oid, env, s, InitSync, s');
    ReachStep(cfg, oid, env, s, InitSync, s');
  }

  lemma SendOneStep(cfg: SinkConfig, oid: string, env: Environment, s: State, m: ClientMessage, s': State)
    requires s.client.replica.sink.queue == multiset{m} && s.client.replica.sink.flying == {}
    requires !s.client.replica.sink.paused
    requires s' == WithSink(s, s.client.replica.sink.(flying := {m.id})).(toServer := s.toServer + multiset{m})
    ensures Step(cfg, oid, env, s, Send([m]), s')
  {
    WholeQueueIsBatch([m]);
    assert multiset([m]) == multiset{m};
    assert Ids([m]) == {m.id};
  }

  lemma ReachLeftOverSent(cfg: SinkConfig, oid: string, env: Environment, doc: Doc)
    requires env.leftovers
    ensures var m := SecondInit(oid, doc); Reachable(cfg, oid, env, WithLeftOver(doc, m, {1}, multiset{m}))
  {
    var m := SecondInit(oid, doc);
    var s, s' := WithLeftOver(doc, m, {}, multiset{}), WithLeftOver(doc, m, {1}, multiset{m});
    ReachSecondInit(cfg, oid, env, doc);
    assert multiset{} + multiset{m} == multiset{m};
    SendOneStep(cfg, oid, env, s, m, s');
    ReachStep(cfg, oid, env, s, Send([m]), s');
  }

  /** The init sync is settled, the sink says so, and the init sync is still on its way. */
  function AfterLeftOver(oid: string, doc: Doc): State {
    At(doc, multiset{}, {}, 2, Finished, multiset{SecondInit(oid, doc)}, multiset{}, {}, 0)
  }

  lemma LeftOverAccepted(cfg: SinkConfig, oid: string, env: Environment, doc: Doc)
    ensures var m := SecondInit(oid, doc);
      CanStep(cfg, oid, env, WithLeftOver(doc, m, {1}, multiset{m}), AfterLeftOver(oid, doc))
  {
    var m := SecondInit(oid, doc);
    var s := WithLeftOver(doc, m, {1}, multiset{m});
    assert multiset{m} - multiset{m} == multiset{};
    assert multiset{LEFT_OVER} - multiset{LEFT_OVER} == multiset{};
    assert {1} - {1} == {};
    PlainAckStep(cfg, oid, env, s, m, AfterLeftOver(oid, doc));
  }

  /** The answer to the earlier sink settles the new sink's init sync, which is still on its way. */
  lemma LeftoversLose(cfg: SinkConfig, oid: string, env: Environment)
    requires env.leftovers
    ensures LosesUnnoticed(cfg, oid, env)
  {
    var doc := {EDIT_A};
    var m := SecondInit(oid, doc);
    ReachLeftOverSent(cfg, oid, env, doc);
    LeftOverAccepted(cfg, oid, env, doc);
    ReachVia(cfg, oid, env, WithLeftOver(doc, m, {1}, multiset{m}), AfterLeftOver(oid, doc));
    LeftOverIsLost(cfg, oid);
  }

  lemma LeftOverIsLost(cfg: SinkConfig, oid: string)
    ensures !NoLostEdit(cfg, AfterLeftOver(oid, {EDIT_A}))
  {
    InitCarriesNothing(oid, {EDIT_A});
    assert !Accounted(cfg, multiset{}, multiset{SecondInit(oid, {EDIT_A})}, {}, EDIT_A);
  }

  lemma InitCarriesNothing(oid: string, doc: Doc)
    ensures MessageOps(SecondInit(oid, doc)) == {}
  {
    var p := StartPayload(doc);
    assert p[..1] == [p[0]];
    SingletonOps(p[0]);
  }

  // The start of the runs in which merging loses --------------------------------------------------------------

  /** An empty document has been synchronised; the client's reply is still queued. */
  function AfterHandshake(oid: string): State {
    At({}, multiset{Reply(oid)}, {}, 2, Syncing, multiset{}, multiset{}, {}, 0)
  }

  /** A push whose merge is skipped. */
  lemma QueuedUnmerged(cfg: SinkConfig, sink: Sink, m: ClientMessage, sink': Sink)
    requires m.id == sink.nextId
    requires sink' == sink.(queue := sink.queue + multiset{m}, nextId := sink.nextId + 1, status := Syncing)
    ensures Queued(cfg, sink, m, sink')
  {
  }

  lemma QueuedAs(cfg: SinkConfig, sink: Sink, m: ClientMessage, popped: seq<ClientMessage>, sink': Sink)
    requires !cfg.disableMerge && m.id == sink.nextId
    requires multiset(popped) == sink.queue + multiset{m} && Sorted(MessageRank, popped)
    requires sink' == sink.(queue := multiset(MergePass(cfg, sink.flying, popped)), nextId := sink.nextId + 1, status := Syncing)
    ensures Queued(cfg, sink, m, sink')
  {
    assert MergedVia(cfg, sink.flying, sink.queue + multiset{m}, popped, sink'.queue);
  }

  lemma EmptyStep2Handled(cfg: SinkConfig, oid: string, r: Replica)
    requires r.doc == {}
    ensures PayloadProcessed(cfg, oid, r, [SyncStep2({})], AlwaysApplied, true, r)
  {
    var p := [SyncStep2({})];
    assert p[..0] == [];
    assert PayloadProcessed(cfg, oid, r, p[..0], AlwaysApplied, true, r);
    assert r.doc + {} == r.doc;
    assert YHandled(cfg, oid, r, p[0], Applied, true, r);
    assert LastProcessed(cfg, oid, r, p, AlwaysApplied, true, r, true, r);
  }

  lemma EmptyStep1Handled(cfg: SinkConfig, oid: string, r: Replica, r': Replica)
    requires r.doc == {} && r.sink.queue == multiset{} && r.sink.nextId == 1
    requires r' == r.(sink := r.sink.(queue := multiset{Reply(oid)}, nextId := 2, status := Syncing))
    ensures YHandled(cfg, oid, r, SyncStep1(StateVectorOf({})), Applied, true, r')
  {
    assert Missing({}, StateVectorOf({})) == {};
    assert multiset{} + multiset{Reply(oid)} == multiset{Reply(oid)};
    QueuedUnmerged(cfg, r.sink, Reply(oid), r'.sink);
  }

  lemma HandshakeAnswerProcessed(cfg: SinkConfig, oid: string, r: Replica, r': Replica)
    requires r.doc == {} && r.sink.queue == multiset{} && r.sink.nextId == 1
    requires r' == r.(sink := r.sink.(queue := multiset{Reply(oid)}, nextId := 2, status := Syncing))
    ensures PayloadProcessed(cfg, oid, r, EmptyAnswer(), AlwaysApplied, true, r')
  {
    var p := EmptyAnswer();
    assert p[..1] == [SyncStep2({})];
    EmptyStep2Handled(cfg, oid, r);
    EmptyStep1Handled(cfg, oid, r, r');
    assert LastProcessed(cfg, oid, r, p, AlwaysApplied, true, r, true, r');
  }

  /** The sink once the init sync has been taken off it. */
  function InitTaken(): Sink {
    Sink(multiset{}, {}, 1, false, Finished)
  }

  lemma InitAccepted(oid: string)
    ensures Acknowledged(AfterInitAnswered(oid, {}, EmptyAnswer()).client.replica.sink, 0, true, InitTaken())
  {
    var m, sink := InitMessage(oid, {}), AfterInitAnswered(oid, {}, EmptyAnswer()).client.replica.sink;
    assert multiset{m} - multiset{m} == multiset{};
    assert {0} - {0} == {};
    assert AcknowledgedTop(sink, 0, m, true, InitTaken());
  }

  lemma HandshakeStep(cfg: SinkConfig, oid: string, env: Environment)
    ensures CanStep(cfg, oid, env, AfterInitAnswered(oid, {}, EmptyAnswer()), AfterHandshake(oid))
  {
    var s, s' := AfterInitAnswered(oid, {}, EmptyAnswer()), AfterHandshake(oid);
    var r, r' := s.client.replica, s'.client.replica;
    InitAccepted(oid);
    HandshakeAnswerProcessed(cfg, oid, r.(sink := InitTaken()), r');
    assert AckProcessed(cfg, oid, r, 0, EmptyAnswer(), UNDISTURBED, true, InitTaken(), r');
    assert Step(cfg, oid, env, s, ClientReceives(ClientAck(0, EmptyAnswer(), Success), UNDISTURBED, false), s');
  }

  lemma ReachHandshake(cfg: SinkConfig, oid: string, env: Environment)
    ensures Reachable(cfg, oid, env, AfterHandshake(oid))
  {
    ReachInitAnswered(cfg, oid, env, {});
    HandshakeStep(cfg, oid, env);
    ReachVia(cfg, oid, env, AfterInitAnswered(oid, {}, EmptyAnswer()), AfterHandshake(oid));
  }

  lemma MergePassOfThree(cfg: SinkConfig, flying: set<MsgId>, a: ClientMessage, b: ClientMessage, c: ClientMessage)
    ensures MergePass(cfg, flying, [a, b, c]) == MergeNext(cfg, flying, MergeNext(cfg, flying, [a], b), c)
  {
    assert [a, b, c] == [a, b] + [c];
    PassOfSnoc(cfg, flying, [a, b], c);
    MergePassOfTwo(cfg, flying, a, b);
  }

  /** A local edit whose merge leaves `kept` of the messages popped as `popped`. */
  lemma MergingEditStep(
    cfg: SinkConfig, oid: string, env: Environment, s: State, ops: set<Op>,
    popped: seq<ClientMessage>, kept: seq<ClientMessage>, s': State)
    requires !cfg.disableMerge
    requires multiset(popped) == s.client.replica.sink.queue + multiset{EditMessage(oid, s.client.replica.sink.nextId, ops)}
    requires Sorted(MessageRank, popped) && MergePass(cfg, s.client.replica.sink.flying, popped) == kept
    requires EditedTo(s, ops, multiset(kept), s')
    ensures Step(cfg, oid, env, s, LocalEdit(ops), s')
  {
    QueuedAs(cfg, s.client.replica.sink, EditMessage(oid, s.client.replica.sink.nextId, ops), popped, s'.client.replica.sink);
  }

  /** The state after a local edit that leaves `queue`. */
  predicate EditedTo(s: State, ops: set<Op>, queue: multiset<ClientMessage>, s': State) {
    var r := s.client.replica;
    var sink' := r.sink.(queue := queue, nextId := r.sink.nextId + 1, status := Syncing);
    s' == s.(client := s.client.(replica := Replica(r.doc + ops, sink')))
  }

  lemma UnmergedEditStep(cfg: SinkConfig, oid: string, env: Environment, s: State, ops: set<Op>, s': State)
    requires var sink := s.client.replica.sink; EditedTo(s, ops, sink.queue + multiset{EditMessage(oid, sink.nextId, ops)}, s')
    ensures Step(cfg, oid, env, s, LocalEdit(ops), s')
  {
    QueuedUnmerged(cfg, s.client.replica.sink, EditMessage(oid, s.client.replica.sink.nextId, ops), s'.client.replica.sink);
  }

  // Awareness under merging ----------------------------------------------------------------------------------

  function AwareMessage(oid: string): ClientMessage {
    ClientUpdateSync(oid, 2, [Awareness])
  }

  function WithAwareness(oid: string, doc: Doc, nextId: MsgId): State {
    At(doc, multiset([Reply(oid), AwareMessage(oid)]), {}, nextId, Syncing, multiset{}, multiset{}, {}, 0)
  }

  lemma ReachAwareness(cfg: SinkConfig, oid: string, env: Environment)
    requires env.awareness
    ensures Reachable(cfg, oid, env, WithAwareness(oid, {}, 3))
  {
    var s, s' := AfterHandshake(oid), WithAwareness(oid, {}, 3);
    ReachHandshake(cfg, oid, env);
    assert multiset([Reply(oid), AwareMessage(oid)]) == multiset{Reply(oid)} + multiset{AwareMessage(oid)};
    QueuedUnmerged(cfg, s.client.replica.sink, AwareMessage(oid), s'.client.replica.sink);
    ReachStep(cfg, oid, env, s, LocalAwareness, s');
  }

  lemma AwareAbsorbs(cfg: SinkConfig, aware: ClientMessage, edit: ClientMessage)
    requires MergesAwareness(cfg)
    requires aware.ClientUpdateSync? && aware.payload == [Awareness] && edit.ClientUpdateSync?
    ensures Absorbs(cfg, {}, aware, edit) && Absorb(cfg, aware, edit) == aware
  {
  }

  lemma SwallowedEdit(cfg: SinkConfig, reply: ClientMessage, aware: ClientMessage, edit: ClientMessage)
    requires MergesAwareness(cfg)
    requires reply.ServerInitSync?
    requires aware.ClientUpdateSync? && aware.payload == [Awareness] && edit.ClientUpdateSync? && aware.id <= edit.id
    ensures MergePass(cfg, {}, [reply, aware, edit]) == [reply, aware]
  {
    MergePassOfThree(cfg, {}, reply, aware, edit);
    assert MergeNext(cfg, {}, [reply], aware) == [reply, aware];
    AwareAbsorbs(cfg, aware, edit);
    assert [reply, aware][..1] == [reply];
  }

  lemma SwallowedOrder(reply: ClientMessage, aware: ClientMessage, edit: ClientMessage)
    requires reply.ServerInitSync? && aware.ClientUpdateSync? && edit.ClientUpdateSync? && aware.id <= edit.id
    ensures Sorted(MessageRank, [reply, aware, edit])
    ensures multiset([reply, aware, edit]) == multiset([reply, aware]) + multiset{edit}
  {
    assert [reply, aware, edit] == [reply, aware] + [edit];
  }

  lemma SwallowingStep(cfg: SinkConfig, oid: string, env: Environment)
    requires MergesAwareness(cfg)
    ensures CanStep(cfg, oid, env, WithAwareness(oid, {}, 3), WithAwareness(oid, {EDIT_A}, 4))
  {
    var reply, aware, edit := Reply(oid), AwareMessage(oid), EditMessage(oid, 3, {EDIT_A});
    SwallowedEdit(cfg, reply, aware, edit);
    SwallowedOrder(reply, aware, edit);
    assert {} + {EDIT_A} == {EDIT_A};
    MergingEditStep(cfg, oid, env, WithAwareness(oid, {}, 3), {EDIT_A}, [reply, aware, edit], [reply, aware],
                    WithAwareness(oid, {EDIT_A}, 4));
  }

  /** An edit merged behind an awareness change disappears from the queue. */
  lemma AwarenessLoses(cfg: SinkConfig, oid: string, env: Environment)
    requires MergesAwareness(cfg) && env.awareness
    ensures Loses(cfg, oid, env)
  {
    ReachAwareness(cfg, oid, env);
    SwallowingStep(cfg, oid, env);
    ReachVia(cfg, oid, env, WithAwareness(oid, {}, 3), WithAwareness(oid, {EDIT_A}, 4));
    SwallowedIsLost(cfg, oid);
  }

  lemma SwallowedIsLost(cfg: SinkConfig, oid: string)
    ensures !NoLostEdit(cfg, WithAwareness(oid, {EDIT_A}, 4))
  {
    var queue := multiset([Reply(oid), AwareMessage(oid)]);
    SingletonOps(SyncStep2({}));
    SingletonOps(Awareness);
    assert !Carries(queue, EDIT_A);
    assert !Accounted(cfg, queue, multiset{}, {}, EDIT_A);
  }

  // A lost resend where updates merge ----------------------------------------------------------------------------

  /** The first edit, `a`, is small enough to take in the edit behind it. */
  function FirstEdit(oid: string, a: set<Op>): ClientMessage {
    EditMessage(oid, 2, a)
  }

  /** The number of updates broadcast once the server has applied `a`. */
  function SeqAfter(a: set<Op>): nat {
    if a == {} then 0 else 1
  }

  /** The reply and a first edit are queued; `flying` and the network vary. */
  function BothQueued(
    oid: string, a: set<Op>, flying: set<MsgId>,
    toServer: multiset<ClientMessage>, toClient: multiset<ServerMessage>, server: Doc, seqNum: nat): State
  {
    At(a, multiset{Reply(oid), FirstEdit(oid, a)}, flying, 3, Syncing, toServer, toClient, server, seqNum)
  }

  lemma FirstEditStep(cfg: SinkConfig, oid: string, env: Environment, a: set<Op>)
    ensures CanStep(cfg, oid, env, AfterHandshake(oid), BothQueued(oid, a, {}, multiset{}, multiset{}, {}, 0))
  {
    assert multiset{Reply(oid)} + multiset{FirstEdit(oid, a)} == multiset{Reply(oid), FirstEdit(oid, a)};
    assert {} + a == a;
    UnmergedEditStep(cfg, oid, env, AfterHandshake(oid), a, BothQueued(oid, a, {}, multiset{}, multiset{}, {}, 0));
  }

  lemma ReachBothQueued(cfg: SinkConfig, oid: string, env: Environment, a: set<Op>)
    ensures Reachable(cfg, oid, env, BothQueued(oid, a, {}, multiset{}, multiset{}, {}, 0))
  {
    ReachHandshake(cfg, oid, env);
    FirstEditStep(cfg, oid, env, a);
    ReachVia(cfg, oid, env, AfterHandshake(oid), BothQueued(oid, a, {}, multiset{}, multiset{}, {}, 0));
  }

  lemma ReachBothSent(cfg: SinkConfig, oid: string, env: Environment, a: set<Op>)
    ensures Reachable(cfg, oid, env, BothQueued(oid, a, {1, 2}, multiset{Reply(oid), FirstEdit(oid, a)}, multiset{}, {}, 0))
  {
    var reply, edit := Reply(oid), FirstEdit(oid, a);
    var s := BothQueued(oid, a, {}, multiset{}, multiset{}, {}, 0);
    var s' := BothQueued(oid, a, {1, 2}, multiset{reply, edit}, multiset{}, {}, 0);
    ReachBothQueued(cfg, oid, env, a);
    SendBothStep(cfg, oid, env, s, reply, edit, s');
    ReachVia(cfg, oid, env, s, s');
  }

  function EditServed(oid: string, a: set<Op>): State {
    BothQueued(oid, a, {1, 2}, multiset{Reply(oid)}, multiset{ClientAck(2, [], Success)}, a, SeqAfter(a))
  }

  lemma ServeEdit(a: set<Op>)
    ensures var served := Serve({}, 0, 2, [Update(a)], AlwaysApplied);
      served == Served(a, SeqAfter(a), [ClientAck(2, [], Success)], served.broadcasts)
    ensures Serve(a, SeqAfter(a), 1, [SyncStep2({})], AlwaysApplied) ==
      Served(a, SeqAfter(a), [ClientAck(1, [], Success)], [])
  {
    ServeOfOne({}, 0, 2, Update(a), AlwaysApplied);
    ServeOfOne(a, SeqAfter(a), 1, SyncStep2({}), AlwaysApplied);
    assert {} + a == a && a + {} == a;
  }

  lemma EditIsServed(oid: string, a: set<Op>)
    ensures var s := BothQueued(oid, a, {1, 2}, multiset{Reply(oid), FirstEdit(oid, a)}, multiset{}, {}, 0);
      IsServed(s, FirstEdit(oid, a), Serve({}, 0, 2, [Update(a)], AlwaysApplied), EditServed(oid, a))
  {
    ServeEdit(a);
    assert multiset{Reply(oid), FirstEdit(oid, a)} - multiset{FirstEdit(oid, a)} == multiset{Reply(oid)};
    assert multiset{} + multiset{ClientAck(2, [], Success)} == multiset{ClientAck(2, [], Success)};
  }

  lemma ReachEditServed(cfg: SinkConfig, oid: string, env: Environment, a: set<Op>)
    ensures Reachable(cfg, oid, env, EditServed(oid, a))
  {
    var edit := FirstEdit(oid, a);
    var s := BothQueued(oid, a, {1, 2}, multiset{Reply(oid), edit}, multiset{}, {}, 0);
    ReachBothSent(cfg, oid, env, a);
    EditIsServed(oid, a);
    ServeStep(cfg, oid, env, s, edit, AlwaysApplied, EditServed(oid, a));
    ReachVia(cfg, oid, env, s, EditServed(oid, a));
  }

  function BothServed(oid: string, a: set<Op>): State {
    BothQueued(oid, a, {1, 2}, multiset{}, multiset{ClientAck(2, [], Success), ClientAck(1, [], Success)}, a, SeqAfter(a))
  }

  lemma ReachBothServed(cfg: SinkConfig, oid: string, env: Environment, a: set<Op>)
    ensures Reachable(cfg, oid, env, BothServed(oid, a))
  {
    ReachEditServed(cfg, oid, env, a);
    ServeEdit(a);
    ServeStep(cfg, oid, env, EditServed(oid, a), Reply(oid), AlwaysApplied, BothServed(oid, a));
    ReachVia(cfg, oid, env, EditServed(oid, a), BothServed(oid, a));
  }

  /** Both queued messages are sent and applied; only the reply's acknowledgement has come back. */
  function BeforeTimer(oid: string, a: set<Op>, flying: set<MsgId>): State {
    At(a, multiset{FirstEdit(oid, a)}, flying, 3, Syncing, multiset{}, multiset{ClientAck(2, [], Success)}, a, SeqAfter(a))
  }

  lemma ReplyPopped(oid: string, a: set<Op>)
    ensures Popped(BothServed(oid, a).client.replica.sink, Reply(oid)) == BeforeTimer(oid, a, {2}).client.replica.sink
  {
    assert multiset{Reply(oid), FirstEdit(oid, a)} - multiset{Reply(oid)} == multiset{FirstEdit(oid, a)};
    assert {1, 2} - {1} == {2};
  }

  lemma ReplyTaken(oid: string, a: set<Op>)
    ensures BeforeTimer(oid, a, {2}) ==
      WithSink(BothServed(oid, a), Popped(BothServed(oid, a).client.replica.sink, Reply(oid)))
        .(toClient := BothServed(oid, a).toClient - multiset{ClientAck(1, [], Success)})
  {
    var ack1, ack2 := ClientAck(1, [], Success), ClientAck(2, [], Success);
    ReplyPopped(oid, a);
    assert multiset{ack2, ack1} - multiset{ack1} == multiset{ack2};
  }

  lemma ReplyAccepted(cfg: SinkConfig, oid: string, env: Environment, a: set<Op>)
    ensures CanStep(cfg, oid, env, BothServed(oid, a), BeforeTimer(oid, a, {2}))
  {
    ReplyTaken(oid, a);
    ReplyIsTop(oid, a);
    PlainAckStep(cfg, oid, env, BothServed(oid, a), Reply(oid), BeforeTimer(oid, a, {2}));
  }

  lemma ReplyIsTop(oid: string, a: set<Op>)
    ensures IsTop(MessageRank, multiset{Reply(oid), FirstEdit(oid, a)}, Reply(oid))
  {
  }

  lemma ReachBeforeTimer(cfg: SinkConfig, oid: string, env: Environment, a: set<Op>)
    ensures Reachable(cfg, oid, env, BeforeTimer(oid, a, {2}))
  {
    ReachBothServed(cfg, oid, env, a);
    ReplyAccepted(cfg, oid, env, a);
    ReachVia(cfg, oid, env, BothServed(oid, a), BeforeTimer(oid, a, {2}));
  }

  lemma PairIsBatch(a: ClientMessage, b: ClientMessage)
    requires NotAfter(MessageRank(a), MessageRank(b)) && !a.ClientInitSync?
    ensures multiset([a, b]) == multiset{a, b}
    ensures IsBatch(multiset{a, b}, {}, [a, b], multiset{})
  {
    assert multiset([a, b]) == multiset{a, b};
    WholeQueueIsBatch([a, b]);
  }

  lemma SendBothStep(cfg: SinkConfig, oid: string, env: Environment, s: State, a: ClientMessage, b: ClientMessage, s': State)
    requires s.client.replica.sink.queue == multiset{a, b} && s.client.replica.sink.flying == {} && !s.client.replica.sink.paused
    requires NotAfter(MessageRank(a), MessageRank(b)) && !a.ClientInitSync?
    requires s.toServer == multiset{}
    requires s' == WithSink(s, s.client.replica.sink.(flying := {a.id, b.id})).(toServer := multiset{a, b})
    ensures Step(cfg, oid, env, s, Send([a, b]), s')
  {
    PairIsBatch(a, b);
    assert Ids([a, b]) == {a.id, b.id};
  }

  /** An empty answer pops the head of the queue. */
  lemma PlainAckStep(cfg: SinkConfig, oid: string, env: Environment, s: State, top: ClientMessage, s': State)
    requires IsTop(MessageRank, s.client.replica.sink.queue, top) && top.id in s.client.replica.sink.flying
    requires !s.client.stopped
    requires ClientAck(top.id, [], Success) in s.toClient
    requires s' == WithSink(s, Popped(s.client.replica.sink, top)).(toClient := s.toClient - multiset{ClientAck(top.id, [], Success)})
    ensures Step(cfg, oid, env, s, ClientReceives(ClientAck(top.id, [], Success), UNDISTURBED, false), s')
  {
    var r, r' := s.client.replica, s'.client.replica;
    assert AcknowledgedTop(r.sink, top.id, top, true, r'.sink);
    assert AckProcessed(cfg, oid, r, top.id, [], UNDISTURBED, true, r'.sink, r');
  }

  /** Two edits merged under the id of the first. */
  function MergedEdit(oid: string, a: set<Op>, b: Op): ClientMessage {
    EditMessage(oid, 2, a + {b})
  }

  function AfterMerge(oid: string, a: set<Op>, b: Op, flying: set<MsgId>, toServer: multiset<ClientMessage>): State {
    At(a + {b}, multiset{MergedEdit(oid, a, b)}, flying, 4, Syncing, toServer, multiset{ClientAck(2, [], Success)}, a, SeqAfter(a))
  }

  lemma EditAbsorbs(cfg: SinkConfig, oid: string, a: set<Op>, b: Op)
    requires TakesIn(cfg, a)
    ensures Absorbs(cfg, {}, FirstEdit(oid, a), EditMessage(oid, 3, {b}))
    ensures Absorb(cfg, FirstEdit(oid, a), EditMessage(oid, 3, {b})) == MergedEdit(oid, a, b)
  {
  }

  lemma SecondEditMerges(cfg: SinkConfig, oid: string, a: set<Op>, b: Op)
    requires TakesIn(cfg, a)
    ensures MergePass(cfg, {}, [FirstEdit(oid, a), EditMessage(oid, 3, {b})]) == [MergedEdit(oid, a, b)]
  {
    var edit, more := FirstEdit(oid, a), EditMessage(oid, 3, {b});
    MergePassOfTwo(cfg, {}, edit, more);
    EditAbsorbs(cfg, oid, a, b);
    AbsorbOnly(cfg, edit, more);
  }

  lemma AbsorbOnly(cfg: SinkConfig, a: ClientMessage, b: ClientMessage)
    requires Absorbs(cfg, {}, a, b)
    ensures MergeNext(cfg, {}, [a], b) == [Absorb(cfg, a, b)]
  {
    assert [a][..0] == [];
  }

  lemma MergedOrder(oid: string, a: set<Op>, b: Op)
    ensures Sorted(MessageRank, [FirstEdit(oid, a), EditMessage(oid, 3, {b})])
    ensures multiset([FirstEdit(oid, a), EditMessage(oid, 3, {b})]) == multiset{FirstEdit(oid, a)} + multiset{EditMessage(oid, 3, {b})}
  {
    assert [FirstEdit(oid, a), EditMessage(oid, 3, {b})] == [FirstEdit(oid, a)] + [EditMessage(oid, 3, {b})];
  }

  lemma MergingStep(cfg: SinkConfig, oid: string, env: Environment, a: set<Op>, b: Op)
    requires !cfg.disableMerge && TakesIn(cfg, a)
    ensures CanStep(cfg, oid, env, BeforeTimer(oid, a, {}), AfterMerge(oid, a, b, {}, multiset{}))
  {
    SecondEditMerges(cfg, oid, a, b);
    MergedOrder(oid, a, b);
    assert multiset([MergedEdit(oid, a, b)]) == multiset{MergedEdit(oid, a, b)};
    MergingEditStep(cfg, oid, env, BeforeTimer(oid, a, {}), {b}, [FirstEdit(oid, a), EditMessage(oid, 3, {b})],
                    [MergedEdit(oid, a, b)], AfterMerge(oid, a, b, {}, multiset{}));
  }

  lemma ReachAfterTimer(cfg: SinkConfig, oid: string, env: Environment, a: set<Op>)
    ensures Reachable(cfg, oid, env, BeforeTimer(oid, a, {}))
  {
    ReachBeforeTimer(cfg, oid, env, a);
    assert Step(cfg, oid, env, BeforeTimer(oid, a, {2}), TimerFires, BeforeTimer(oid, a, {}));
    ReachVia(cfg, oid, env, BeforeTimer(oid, a, {2}), BeforeTimer(oid, a, {}));
  }

  lemma ReachMerged(cfg: SinkConfig, oid: string, env: Environment, a: set<Op>, b: Op)
    requires !cfg.disableMerge && TakesIn(cfg, a)
    ensures Reachable(cfg, oid, env, AfterMerge(oid, a, b, {}, multiset{}))
  {
    ReachAfterTimer(cfg, oid, env, a);
    MergingStep(cfg, oid, env, a, b);
    ReachVia(cfg, oid, env, BeforeTimer(oid, a, {}), AfterMerge(oid, a, b, {}, multiset{}));
  }

  lemma ReachResent(cfg: SinkConfig, oid: string, env: Environment, a: set<Op>, b: Op)
    requires !cfg.disableMerge && TakesIn(cfg, a)
    ensures Reachable(cfg, oid, env, AfterMerge(oid, a, b, {2}, multiset{MergedEdit(oid, a, b)}))
  {
    var merged := MergedEdit(oid, a, b);
    var s, s' := AfterMerge(oid, a, b, {}, multiset{}), AfterMerge(oid, a, b, {2}, multiset{merged});
    ReachMerged(cfg, oid, env, a, b);
    assert multiset{} + multiset{merged} == multiset{merged};
    SendOneStep(cfg, oid, env, s, merged, s');
    ReachStep(cfg, oid, env, s, Send([merged]), s');
  }

  lemma ReachResendLost(cfg: SinkConfig, oid: string, env: Environment, a: set<Op>, b: Op)
    requires !cfg.disableMerge && TakesIn(cfg, a) && env.losesToServer
    ensures Reachable(cfg, oid, env, AfterMerge(oid, a, b, {2}, multiset{}))
  {
    var merged := MergedEdit(oid, a, b);
    var s, s' := AfterMerge(oid, a, b, {2}, multiset{merged}), AfterMerge(oid, a, b, {2}, multiset{});
    ReachResent(cfg, oid, env, a, b);
    assert multiset{merged} - multiset{merged} == multiset{};
    assert Step(cfg, oid, env, s, LosesRequest(merged), s');
    ReachVia(cfg, oid, env, s, s');
  }

  /** An operation that `a` does not hold. */
  lemma FreshOp(a: set<Op>) returns (b: Op)
    ensures b !in a
  {
    b := Insert(0, FirstGap(a, 0, 0));
  }

  /** The sink is done, and edit `b` is nowhere. */
  function AfterLateAnswer(a: set<Op>, b: Op): State {
    At(a + {b}, multiset{}, {}, 4, Finished, multiset{}, multiset{}, a, SeqAfter(a))
  }

  lemma MergedAccepted(cfg: SinkConfig, oid: string, env: Environment, a: set<Op>, b: Op)
    ensures CanStep(cfg, oid, env, AfterMerge(oid, a, b, {2}, multiset{}), AfterLateAnswer(a, b))
  {
    var merged, ack2 := MergedEdit(oid, a, b), ClientAck(2, [], Success);
    assert multiset{merged} - multiset{merged} == multiset{};
    assert multiset{ack2} - multiset{ack2} == multiset{};
    assert {2} - {2} == {};
    PlainAckStep(cfg, oid, env, AfterMerge(oid, a, b, {2}, multiset{}), merged, AfterLateAnswer(a, b));
  }

  lemma LateAnswerLost(cfg: SinkConfig, a: set<Op>, b: Op)
    requires b !in a
    ensures !NoLostEdit(cfg, AfterLateAnswer(a, b))
  {
    assert b in AfterLateAnswer(a, b).client.replica.doc;
    assert !Accounted(cfg, multiset{}, multiset{}, a, b);
  }

  /**
    The timer forgets that the edit is flying, a second edit merges into it under the same id, the
    merged message is sent and lost, and the late answer to the first copy settles the id.
   */
  lemma LostResendLoses(cfg: SinkConfig, oid: string, env: Environment)
    requires MergesUpdates(cfg) && env.losesToServer
    ensures LosesUnnoticed(cfg, oid, env)
  {
    var a :| TakesIn(cfg, a);
    var b := FreshOp(a);
    ReachResendLost(cfg, oid, env, a, b);
    MergedAccepted(cfg, oid, env, a, b);
    ReachVia(cfg, oid, env, AfterMerge(oid, a, b, {2}, multiset{}), AfterLateAnswer(a, b));
    LateAnswerLost(cfg, a, b);
  }

  // The exact condition -------------------------------------------------------------------------------------------

  lemma UnreliableLoses(cfg: SinkConfig, oid: string, env: Environment)
    requires !Reliable(cfg, env)
    ensures Loses(cfg, oid, env)
  {
    if env.serverFaults {
      ServerFaultsLose(cfg, oid, env);
    } else if env.clientFaults {
      BusyClientLoses(cfg, oid, env);
    } else if env.resets {
      ResetLoses(cfg, oid, env);
    } else if env.leftovers {
      LeftoversLose(cfg, oid, env);
    } else if env.awareness && MergesAwareness(cfg) {
      AwarenessLoses(cfg, oid, env);
    } else {
      LostResendLoses(cfg, oid, env);
    }
  }

  /** Edits are safe in every reachable state if and only if the environment is reliable. */
  lemma NoLostEditIff(cfg: SinkConfig, oid: string, env: Environment)
    ensures Reliable(cfg, env) <==> forall s :: Reachable(cfg, oid, env, s) ==> NoLostEdit(cfg, s)
  {
    if Reliable(cfg, env) {
      forall s | Reachable(cfg, oid, env, s)
        ensures NoLostEdit(cfg, s)
      {
        var run :| IsRun(cfg, oid, env, run) && run[|run| - 1] == s;
        NoEditIsLost(cfg, oid, env, run, |run| - 1);
      }
    } else {
      UnreliableLoses(cfg, oid, env);
    }
  }
}
