/**
  One client and the server as a step system: the client's document and sending queue, the two
  directions of the network, and the server's document. Other clients show up as updates the
  server receives from elsewhere.
 */
module SyncSystem {
  import opened YrsDocument
  import opened CollabMessages
  import opened SinkSpec
  import opened SyncProtocol

  /** What may go wrong, or be used, in a run. Delay, reordering and duplication always may. */
  datatype Environment = Environment(
    losesToServer: bool,   // messages to the server can be lost
    serverFaults: bool,    // the server can fail to apply part of a message
    clientFaults: bool,    // the client can fail to get at its document, or to apply part of an answer
    resets: bool,          // the plugin's `reset` can be called
    awareness: bool,       // local awareness changes are queued, as `ClientUpdateSync`
    leftovers: bool)       // messages of an earlier sink for the object can be under way at the start

  datatype State = State(
    client: ClientState,
    toServer: multiset<ClientMessage>,
    toClient: multiset<ServerMessage>,
    server: Doc,
    seqNum: nat)

  datatype Event =
    | LocalEdit(ops: set<Op>)
    | LocalAwareness
    | RemoteUpdate(ops: set<Op>)
    | RemoteAwareness
    | Send(batch: seq<ClientMessage>)
    | TimerFires
    | ServerReceives(request: ClientMessage, outcomes: nat -> Outcome)
    | ClientReceives(answer: ServerMessage, access: Access, mayInit: bool)
    | InitSync
    | Pauses
    | Resumes
    | Resets
    | LosesRequest(request: ClientMessage)
    | LosesAnswer(answer: ServerMessage)
    | RepeatsRequest(request: ClientMessage)
    | RepeatsAnswer(answer: ServerMessage)

  function WithSink(s: State, sink: Sink): State {
    s.(client := s.client.(replica := s.client.replica.(sink := sink)))
  }

  ghost predicate Edited(cfg: SinkConfig, oid: string, r: Replica, ops: set<Op>, r': Replica) {
    r'.doc == r.doc + ops && Queued(cfg, r.sink, ClientUpdateSync(oid, r.sink.nextId, [Update(ops)]), r'.sink)
  }

  ghost predicate Sent(r: Replica, batch: seq<ClientMessage>) {
    !r.sink.paused && exists behind :: IsBatch(r.sink.queue, r.sink.flying, batch, behind)
  }

  ghost predicate Step(cfg: SinkConfig, oid: string, env: Environment, s: State, e: Event, s': State) {
    var r := s.client.replica;
    match e
    case LocalEdit(ops) =>
      && Edited(cfg, oid, r, ops, s'.client.replica)
      && s' == s.(client := s.client.(replica := s'.client.replica))
    case LocalAwareness =>
      && env.awareness
      && Queued(cfg, r.sink, ClientUpdateSync(oid, r.sink.nextId, [Awareness]), s'.client.replica.sink)
      && s' == WithSink(s, s'.client.replica.sink)
    case RemoteUpdate(ops) =>
      && !(ops <= s.server)
      && s' == s.(server := s.server + ops, seqNum := s.seqNum + 1,
                  toClient := s.toClient + multiset{ServerBroadcast([Update(ops)], s.seqNum + 1)})
    case RemoteAwareness =>
      s' == s.(toClient := s.toClient + multiset{AwarenessSync([Awareness])})
    case Send(batch) =>
      && Sent(r, batch)
      && s' == WithSink(s, WithFlying(r.sink, batch)).(toServer := s.toServer + multiset(batch))
    case TimerFires => s' == WithSink(s, TimerFired(r.sink))
    case ServerReceives(m, outcomes) =>
      && m in s.toServer
      && (env.serverFaults || outcomes == AlwaysApplied)
      && var served := Serve(s.server, s.seqNum, m.id, m.payload, outcomes);
         s' == s.(server := served.doc, seqNum := served.seqNum,
                  toServer := s.toServer - multiset{m}, toClient := s.toClient + multiset(served.acks))
    case ClientReceives(a, access, mayInit) =>
      && a in s.toClient && !s.client.stopped
      && (env.clientFaults || access == UNDISTURBED)
      && MessageProcessed(cfg, oid, s.client, a, access, mayInit, s'.client)
      && s' == s.(client := s'.client, toClient := s.toClient - multiset{a})
    case InitSync => s' == s.(client := s.client.(replica := InitSynced(oid, r)))
    case Pauses => s' == WithSink(s, r.sink.(paused := true, status := Pause))
    case Resumes => s' == WithSink(s, r.sink.(paused := false))
    case Resets => env.resets && s' == WithSink(s, Cleared(r.sink))
    case LosesRequest(m) => env.losesToServer && m in s.toServer && s' == s.(toServer := s.toServer - multiset{m})
    case LosesAnswer(a) => a in s.toClient && s' == s.(toClient := s.toClient - multiset{a})
    case RepeatsRequest(m) => m in s.toServer && s' == s.(toServer := s.toServer + multiset{m})
    case RepeatsAnswer(a) => a in s.toClient && s' == s.(toClient := s.toClient + multiset{a})
  }

  /**
    A run starts with the init sync that `did_init` queues; both documents are arbitrary. Every sink
    counts its ids from 0 and an answer finds its sink by the object alone, so what an earlier sink
    for the object left on the network matters; without such leftovers the network starts empty.
   */
  ghost predicate Initial(oid: string, env: Environment, s: State) {
    && (!env.leftovers ==> s.toServer == multiset{} && s.toClient == multiset{})
    && exists paused :: s.client == StartOf(oid, s.client.replica.doc, paused)
  }

  function StartOf(oid: string, doc: Doc, paused: bool): ClientState {
    ClientState(InitSynced(oid, Replica(doc, EmptySink(paused))), 0, false)
  }

  ghost predicate CanStep(cfg: SinkConfig, oid: string, env: Environment, s: State, s': State) {
    exists e :: Step(cfg, oid, env, s, e, s')
  }

  ghost predicate IsRun(cfg: SinkConfig, oid: string, env: Environment, run: seq<State>) {
    && run != []
    && Initial(oid, env, run[0])
    && forall i :: 0 <= i < |run| - 1 ==> CanStep(cfg, oid, env, run[i], run[i + 1])
  }

  /**
    No edit is lost: unless a handshake is about to run, every operation the client holds is on
    the server or still queued; where updates merge, it may also be on its way to the server.
   */
  ghost predicate NoLostEdit(cfg: SinkConfig, s: State) {
    AllAccounted(cfg, s.client.replica, s.toServer, s.server)
  }

  ghost predicate AllAccounted(cfg: SinkConfig, r: Replica, toServer: multiset<ClientMessage>, server: Doc) {
    || HasInit(r.sink.queue)
    || forall op :: op in r.doc ==> Accounted(cfg, r.sink.queue, toServer, server, op)
  }

  ghost predicate Accounted(
    cfg: SinkConfig, queue: multiset<ClientMessage>, toServer: multiset<ClientMessage>, server: Doc, op: Op)
  {
    || op in server
    || Carries(queue, op)
    || (MergesUpdates(cfg) && Carries(toServer, op))
  }
}
