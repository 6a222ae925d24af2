/**
  The y-sync exchange between a client and the server: the shared message handler
  (`lib/realtime-protocol/src/protocol.rs`), the server's variant
  (`lib/realtime/src/server/collaborate/sync_protocol.rs`), what the server does with a client
  message and what a client does with a server message. The two objects at the end run these
  step by step (`group_broadcast.rs`, `sync_control.rs`).
 */
module SyncProtocol {
  import opened PriorityHeap
  import opened YrsDocument
  import opened CollabMessages
  import opened SinkSpec
  import opened CollabSinkObject

  // The shared handler -----------------------------------------------------------------------

  datatype Side = Client | Server

  /** What the environment does to one attempt to use the document. */
  datatype Outcome = Applied | LockBusy | TxnBusy | Rejected

  datatype Error = YrsTransaction | YrsApplyUpdate | DecodingError | AwarenessEncoding | PermissionDenied

  /** An empty reply stands for `None`. */
  datatype Handled = Ok(doc: Doc, reply: Payload) | Err(error: Error)

  /** `start`: the first message of a handshake. */
  function StartPayload(doc: Doc): Payload {
    [SyncStep1(StateVectorOf(doc)), Awareness]
  }

  /** `handle_sync_step1`; the server also asks for what the client has. */
  function HandleSyncStep1(side: Side, doc: Doc, sv: StateVector): Payload {
    match side
    case Client => [SyncStep2(Missing(doc, sv))]
    case Server => [SyncStep2(Missing(doc, sv)), SyncStep1(StateVectorOf(doc))]
  }

  /** Exactly what `doc` holds and `sv` does not cover. */
  ghost predicate IsMissing(update: set<Op>, doc: Doc, sv: StateVector) {
    forall op :: op in update <==>
      op in doc && !(op.Insert? && op.client in sv && op.clock < sv[op.client])
  }

  /**
    The answer to a Step1 of either side: the Step2 holds an operation exactly when the answering
    replica has it and the received vector does not cover it, and the server asks back with the
    vector of what it has.
   */
  lemma Step1Answered(side: Side, doc: Doc, sv: StateVector)
    ensures var reply := HandleSyncStep1(side, doc, sv);
      && |reply| == (if side.Server? then 2 else 1)
      && reply[0].SyncStep2? && IsMissing(reply[0].update, doc, sv)
      && (side.Server? ==> reply[1].SyncStep1? && forall op :: Covers(reply[1].sv, op) <==> InRun(doc, op))
  {
    var reply := HandleSyncStep1(side, doc, sv);
    if side.Server? {
      forall op
        ensures Covers(reply[1].sv, op) <==> InRun(doc, op)
      {
        StateVectorExact(doc, op);
      }
    }
  }

  /** `op` belongs to the gap-free run that `doc` holds of some client. */
  ghost predicate InRun(doc: Doc, op: Op) {
    op.Insert? && HoldsRun(doc, op.client, op.clock)
  }

  /** `handle_sync_step2`, which also serves `handle_update`. */
  function HandleSyncStep2(doc: Doc, update: set<Op>, outcome: Outcome): Handled {
    match outcome
    case TxnBusy => Err(YrsTransaction)
    case Rejected => Err(YrsApplyUpdate)
    case _ => Ok(doc + update, [])
  }

  /** `handle_collab_message`. */
  function HandleCollabMessage(side: Side, doc: Doc, y: YMessage, outcome: Outcome): Handled {
    match y
    case SyncStep1(sv) =>
      if side.Client? && outcome.TxnBusy? then Err(YrsTransaction) else Ok(doc, HandleSyncStep1(side, doc, sv))
    case SyncStep2(update) => HandleSyncStep2(doc, update, outcome)
    case Update(update) => HandleSyncStep2(doc, update, outcome)
    case BadUpdate => Err(DecodingError)
    case Awareness => if outcome.Rejected? then Err(AwarenessEncoding) else Ok(doc, [])
    case Auth(denied) => if denied then Err(PermissionDenied) else Ok(doc, [])
    case Custom => Ok(doc, [])
  }

  // The server's side ------------------------------------------------------------------------

  function AckCodeFromError(e: Error): AckCode {
    match e
    case YrsTransaction => Retry
    case YrsApplyUpdate => CannotApplyUpdate
    case _ => Internal
  }

  /** The server document, the number of its latest broadcast, and the answers and broadcasts so far. */
  datatype Served = Served(doc: Doc, seqNum: nat, acks: seq<ServerMessage>, broadcasts: seq<ServerMessage>)

  /** The broadcast of a change of the document, with its number. */
  function BroadcastOf(before: Doc, after: Doc, seqNum: nat): ServerMessage {
    ServerBroadcast([Update(after - before)], seqNum)
  }

  function ServeOne(before: Served, id: MsgId, y: YMessage, outcome: Outcome): Served {
    if outcome.LockBusy? then before
    else
      match HandleCollabMessage(Server, before.doc, y, outcome)
      case Ok(doc, reply) =>
        Served(
          doc,
          if doc == before.doc then before.seqNum else before.seqNum + 1,
          if before.acks == [] then [ClientAck(id, reply, Success)] else before.acks,
          if doc == before.doc then before.broadcasts
          else before.broadcasts + [BroadcastOf(before.doc, doc, before.seqNum + 1)])
      case Err(e) =>
        before.(acks := before.acks + [ClientAck(id, [], AckCodeFromError(e))])
  }

  /** `handle_client_collab_message`; the i-th protocol message meets outcome `outcomes(i)`. */
  function Serve(doc: Doc, seqNum: nat, id: MsgId, p: Payload, outcomes: nat -> Outcome): Served {
    if p == [] then Served(doc, seqNum, [], [])
    else ServeOne(Serve(doc, seqNum, id, p[..|p| - 1], outcomes), id, p[|p| - 1], outcomes(|p| - 1))
  }

  lemma ServeOneMore(doc: Doc, seqNum: nat, id: MsgId, p: Payload, i: nat, outcomes: nat -> Outcome)
    requires i < |p|
    ensures Serve(doc, seqNum, id, p[..i + 1], outcomes) ==
      ServeOne(Serve(doc, seqNum, id, p[..i], outcomes), id, p[i], outcomes(i))
  {
    assert p[..i + 1][..i] == p[..i];
  }

  /** Earlier broadcasts do not matter to what one message adds. */
  lemma ServeOneBehind(before: Served, earlier: seq<ServerMessage>, id: MsgId, y: YMessage, outcome: Outcome)
    ensures ServeOne(before.(broadcasts := earlier + before.broadcasts), id, y, outcome) ==
      ServeOne(before, id, y, outcome).(broadcasts := earlier + ServeOne(before, id, y, outcome).broadcasts)
  {
    var after := ServeOne(before, id, y, outcome);
    if after.broadcasts != before.broadcasts {
      var last := BroadcastOf(before.doc, after.doc, before.seqNum + 1);
      assert after.broadcasts == before.broadcasts + [last];
      assert earlier + (before.broadcasts + [last]) == earlier + before.broadcasts + [last];
    }
  }

  /** What each kind of message does to the document and how it is answered, spelled out. */
  lemma AnswerTable(before: Served, id: MsgId, y: YMessage, outcome: Outcome)
    ensures var after := ServeOne(before, id, y, outcome);
      var isUpdate := y.SyncStep2? || y.Update?;
      && (outcome.LockBusy? ==> after == before)
      && (isUpdate && outcome.Applied? ==> after.doc == before.doc + y.update && Accepted(before, id, [], after))
      && (isUpdate && outcome.TxnBusy? ==> Refused(before, id, Retry, after))
      && (isUpdate && outcome.Rejected? ==> Refused(before, id, CannotApplyUpdate, after))
      && (y.SyncStep1? && !outcome.LockBusy? ==>
            after.doc == before.doc && Accepted(before, id, HandleSyncStep1(Server, before.doc, y.sv), after))
      && (y.BadUpdate? && !outcome.LockBusy? ==> Refused(before, id, Internal, after))
      && (y.Awareness? && outcome.Rejected? ==> Refused(before, id, Internal, after))
      && (y.Awareness? && (outcome.Applied? || outcome.TxnBusy?) ==>
            after.doc == before.doc && Accepted(before, id, [], after))
      && (y.Auth? && y.denied && !outcome.LockBusy? ==> Refused(before, id, Internal, after))
      && ((y.Custom? || (y.Auth? && !y.denied)) && !outcome.LockBusy? ==>
            after.doc == before.doc && Accepted(before, id, [], after))
  {
  }

  /** The first message that succeeds, if nothing has been answered before, carries the reply. */
  predicate Accepted(before: Served, id: MsgId, reply: Payload, after: Served) {
    after.acks == if before.acks == [] then [ClientAck(id, reply, Success)] else before.acks
  }

  /** Nothing happens but one more answer, with an error code. */
  predicate Refused(before: Served, id: MsgId, code: AckCode, after: Served) {
    after == before.(acks := before.acks + [ClientAck(id, [], code)])
  }

  /** Every document access succeeds. */
  function AlwaysApplied(i: nat): Outcome { Applied }

  lemma ServeOfOne(doc: Doc, seqNum: nat, id: MsgId, y: YMessage, outcomes: nat -> Outcome)
    ensures Serve(doc, seqNum, id, [y], outcomes) == ServeOne(Served(doc, seqNum, [], []), id, y, outcomes(0))
  {
    assert [y][..0] == [];
  }

  lemma ServeOfTwo(doc: Doc, seqNum: nat, id: MsgId, y: YMessage, z: YMessage, outcomes: nat -> Outcome)
    ensures Serve(doc, seqNum, id, [y, z], outcomes) ==
      ServeOne(ServeOne(Served(doc, seqNum, [], []), id, y, outcomes(0)), id, z, outcomes(1))
  {
    assert [y, z][..1] == [y];
    ServeOfOne(doc, seqNum, id, y, outcomes);
  }

  // The client's side ------------------------------------------------------------------------

  /** A client's copy of the document and its sending queue. */
  datatype Replica = Replica(doc: Doc, sink: Sink)

  /** One protocol message of a payload: a reply, if there is one, is queued; `ok` unless it fails. */
  ghost predicate YHandled(cfg: SinkConfig, oid: string, r: Replica, y: YMessage, outcome: Outcome, ok: bool, r': Replica) {
    match HandleCollabMessage(Client, r.doc, y, outcome)
    case Ok(doc, reply) =>
      && ok
      && r'.doc == doc
      && (if reply == [] then r'.sink == r.sink
          else if y.SyncStep1? then Queued(cfg, r.sink, ServerInitSync(oid, r.sink.nextId, reply), r'.sink)
          else Queued(cfg, r.sink, ClientUpdateSync(oid, r.sink.nextId, reply), r'.sink))
    case Err(_) => !ok && r' == r
  }

  /**
    `process_payload` with the document lock held; the i-th protocol message meets outcome
    `outcomes(i)`, and the first one that fails ends the loop.
   */
  ghost predicate PayloadProcessed(
    cfg: SinkConfig, oid: string, r: Replica, p: Payload, outcomes: nat -> Outcome, ok: bool, r': Replica)
    decreases |p|, 1
  {
    if p == [] then ok && r' == r
    else exists before, mid :: LastProcessed(cfg, oid, r, p, outcomes, before, mid, ok, r')
  }

  ghost predicate LastProcessed(
    cfg: SinkConfig, oid: string, r: Replica, p: Payload, outcomes: nat -> Outcome,
    before: bool, mid: Replica, ok: bool, r': Replica)
    requires p != []
    decreases |p|, 0
  {
    var n := |p| - 1;
    && PayloadProcessed(cfg, oid, r, p[..n], outcomes, before, mid)
    && if before then YHandled(cfg, oid, mid, p[n], outcomes(n), ok, r') else !ok && r' == mid
  }

  /** How a client gets at its document for a payload: not at all, or message by message. */
  datatype Access = Locked | Free(outcomes: nat -> Outcome)

  const UNDISTURBED := Free(AlwaysApplied)

  ghost predicate MaybeProcessed(cfg: SinkConfig, oid: string, r: Replica, p: Payload, access: Access, r': Replica) {
    if p != [] && access.Free? then exists ok :: PayloadProcessed(cfg, oid, r, p, access.outcomes, ok, r')
    else r' == r
  }

  /** `_init_sync`. */
  function InitSynced(oid: string, r: Replica): Replica {
    r.(sink := InitQueued(r.sink, ClientInitSync(oid, r.sink.nextId, StartPayload(r.doc))))
  }

  datatype ClientState = ClientState(replica: Replica, lastSeq: nat, stopped: bool)

  /** `validate_broadcast` finds a gap. */
  predicate MissesBroadcast(lastSeq: nat, seqNum: nat) {
    seqNum > lastSeq + 1
  }

  /**
    `process_message`. `access` says how the payload finds the document; `mayInit` says that the
    debounce time has passed and the lock was free when a gap called for an init sync.
   */
  ghost predicate MessageProcessed(
    cfg: SinkConfig, oid: string, c: ClientState, m: ServerMessage, access: Access, mayInit: bool, c': ClientState)
  {
    match m
    case ClientAck(id, payload, code) =>
      if code == CannotApplyUpdate then c' == c.(stopped := true)
      else
        && c'.lastSeq == c.lastSeq && c'.stopped == c.stopped
        && exists valid, sink :: AckProcessed(cfg, oid, c.replica, id, payload, access, valid, sink, c'.replica)
    case ServerBroadcast(payload, seqNum) =>
      && c'.lastSeq == seqNum && c'.stopped == c.stopped
      && var start :=
           if MissesBroadcast(c.lastSeq, seqNum) && mayInit && !HasInit(c.replica.sink.queue)
           then InitSynced(oid, c.replica) else c.replica;
         MaybeProcessed(cfg, oid, start, payload, access, c'.replica)
    case AwarenessSync(payload) =>
      && c'.lastSeq == c.lastSeq && c'.stopped == c.stopped
      && MaybeProcessed(cfg, oid, c.replica, payload, access, c'.replica)
  }

  ghost predicate AsksNothing(p: Payload) {
    forall y :: y in p ==> !y.SyncStep1?
  }

  /**
    The sink after a broadcast whose payload asks nothing. Behind a gap, if an init sync may be sent
    and none is queued, one is all that is queued, with the state vector of the document as it was.
   */
  ghost predicate GapAnswered(oid: string, c: ClientState, seqNum: nat, mayInit: bool, sink: Sink) {
    var s := c.replica.sink;
    if seqNum > c.lastSeq + 1 && mayInit && !HasInit(s.queue) then
      && sink.queue == multiset{ClientInitSync(oid, s.nextId, [SyncStep1(StateVectorOf(c.replica.doc)), Awareness])}
      && sink.flying == {} && sink.nextId == s.nextId + 1 && sink.status == Syncing && sink.paused == s.paused
    else sink == s
  }

  lemma OneQueuesNothing(cfg: SinkConfig, oid: string, r: Replica, y: YMessage, outcome: Outcome, ok: bool, r': Replica)
    requires YHandled(cfg, oid, r, y, outcome, ok, r') && !y.SyncStep1?
    ensures r'.sink == r.sink
  {
  }

  /** Only a Step1 makes a client queue an answer. */
  lemma {:induction false} UpdatesQueueNothing(
    cfg: SinkConfig, oid: string, r: Replica, p: Payload, outcomes: nat -> Outcome, ok: bool, r': Replica)
    requires PayloadProcessed(cfg, oid, r, p, outcomes, ok, r') && AsksNothing(p)
    ensures r'.sink == r.sink
    decreases |p|
  {
    if p != [] {
      var before, mid :| LastProcessed(cfg, oid, r, p, outcomes, before, mid, ok, r');
      var last := p[|p| - 1];
      assert last in p && forall y :: y in p[..|p| - 1] ==> y in p;
      UpdatesQueueNothing(cfg, oid, r, p[..|p| - 1], outcomes, before, mid);
      if before {
        OneQueuesNothing(cfg, oid, mid, last, outcomes(|p| - 1), ok, r');
      }
    }
  }

  lemma MaybeQueuesNothing(cfg: SinkConfig, oid: string, r: Replica, p: Payload, access: Access, r': Replica)
    requires MaybeProcessed(cfg, oid, r, p, access, r') && AsksNothing(p)
    ensures r'.sink == r.sink
  {
    if p != [] && access.Free? {
      var ok :| PayloadProcessed(cfg, oid, r, p, access.outcomes, ok, r');
      UpdatesQueueNothing(cfg, oid, r, p, access.outcomes, ok, r');
    }
  }

  /** A gap starts exactly one handshake, and without a gap a broadcast of updates queues nothing. */
  lemma GapStartsHandshake(
    cfg: SinkConfig, oid: string, c: ClientState, m: ServerMessage, access: Access, mayInit: bool, c': ClientState)
    requires MessageProcessed(cfg, oid, c, m, access, mayInit, c') && m.ServerBroadcast? && AsksNothing(m.payload)
    ensures GapAnswered(oid, c, m.seqNum, mayInit, c'.replica.sink) && c'.lastSeq == m.seqNum
  {
    var start :=
      if MissesBroadcast(c.lastSeq, m.seqNum) && mayInit && !HasInit(c.replica.sink.queue)
      then InitSynced(oid, c.replica) else c.replica;
    MaybeQueuesNothing(cfg, oid, start, m.payload, access, c'.replica);
  }

  /** No message of the payload can fail when nothing disturbs the client. */
  ghost predicate Sound(p: Payload) {
    forall y :: y in p ==> !y.BadUpdate? && !(y.Auth? && y.denied)
  }

  lemma OneApplied(cfg: SinkConfig, oid: string, r: Replica, y: YMessage, ok: bool, r': Replica)
    requires YHandled(cfg, oid, r, y, Applied, ok, r') && !y.BadUpdate? && !(y.Auth? && y.denied)
    ensures ok && r'.doc == r.doc + YMessageOps(y)
  {
  }

  /** A client that nothing disturbs takes in every operation of a payload, and no other. */
  lemma {:induction false} PayloadApplied(cfg: SinkConfig, oid: string, r: Replica, p: Payload, ok: bool, r': Replica)
    requires PayloadProcessed(cfg, oid, r, p, AlwaysApplied, ok, r') && Sound(p)
    ensures ok && r'.doc == r.doc + PayloadOps(p)
    decreases |p|
  {
    if p != [] {
      var n := |p| - 1;
      var before, mid :| LastProcessed(cfg, oid, r, p, AlwaysApplied, before, mid, ok, r');
      assert p[n] in p && forall y :: y in p[..n] ==> y in p;
      PayloadApplied(cfg, oid, r, p[..n], before, mid);
      OneApplied(cfg, oid, mid, p[n], ok, r');
      assert r.doc + PayloadOps(p[..n]) + YMessageOps(p[n]) == r.doc + PayloadOps(p);
    }
  }

  /** A broadcast reaches the document if nothing disturbs the client, and not at all while the document is locked. */
  lemma BroadcastApplied(
    cfg: SinkConfig, oid: string, c: ClientState, m: ServerMessage, access: Access, mayInit: bool, c': ClientState)
    requires MessageProcessed(cfg, oid, c, m, access, mayInit, c') && (m.ServerBroadcast? || m.AwarenessSync?)
    ensures access == UNDISTURBED && Sound(m.payload) ==> c'.replica.doc == c.replica.doc + PayloadOps(m.payload)
    ensures access.Locked? ==> c'.replica.doc == c.replica.doc
  {
    var start := c.replica;
    if m.ServerBroadcast? && MissesBroadcast(c.lastSeq, m.seqNum) && mayInit && !HasInit(c.replica.sink.queue) {
      start := InitSynced(oid, c.replica);
    }
    assert MaybeProcessed(cfg, oid, start, m.payload, access, c'.replica);
    if access == UNDISTURBED && Sound(m.payload) && m.payload != [] {
      var ok :| PayloadProcessed(cfg, oid, start, m.payload, AlwaysApplied, ok, c'.replica);
      PayloadApplied(cfg, oid, start, m.payload, ok, c'.replica);
    }
  }

  /** An answer to what is not flying, or not the next in turn, leaves document and queue alone, whatever it carries. */
  lemma LateAnswerIgnored(
    cfg: SinkConfig, oid: string, c: ClientState, m: ServerMessage, access: Access, mayInit: bool, c': ClientState)
    requires MessageProcessed(cfg, oid, c, m, access, mayInit, c') && m.ClientAck?
    requires m.msgId !in c.replica.sink.flying ||
      forall top :: IsTop(MessageRank, c.replica.sink.queue, top) ==> top.id != m.msgId
    ensures c'.replica.doc == c.replica.doc && c'.replica.sink.queue == c.replica.sink.queue
    ensures c'.replica.sink.flying == c.replica.sink.flying && c'.replica.sink.nextId == c.replica.sink.nextId
  {
    if m.code != CannotApplyUpdate {
      var valid, sink :| AckProcessed(cfg, oid, c.replica, m.msgId, m.payload, access, valid, sink, c'.replica);
    }
  }

  /** The answer to the message at the head of the queue is accepted, and what it carries is taken in. */
  lemma HeadAnswerTaken(
    cfg: SinkConfig, oid: string, c: ClientState, m: ServerMessage, mayInit: bool, c': ClientState, head: ClientMessage)
    requires MessageProcessed(cfg, oid, c, m, UNDISTURBED, mayInit, c') && m.ClientAck? && m.code != CannotApplyUpdate
    requires head in c.replica.sink.queue && head.id == m.msgId && head.id in c.replica.sink.flying
    requires forall top :: IsTop(MessageRank, c.replica.sink.queue, top) ==> top == head
    requires Sound(m.payload)
    ensures c'.replica.doc == c.replica.doc + PayloadOps(m.payload)
    ensures AsksNothing(m.payload) ==>
      c'.replica.sink.queue == c.replica.sink.queue - multiset{head} && head.id !in c'.replica.sink.flying
  {
    var valid, sink :| AckProcessed(cfg, oid, c.replica, m.msgId, m.payload, UNDISTURBED, valid, sink, c'.replica);
    assert valid;
    var start := c.replica.(sink := sink);
    if m.payload != [] {
      var ok :| PayloadProcessed(cfg, oid, start, m.payload, AlwaysApplied, ok, c'.replica);
      PayloadApplied(cfg, oid, start, m.payload, ok, c'.replica);
    }
    if AsksNothing(m.payload) {
      MaybeQueuesNothing(cfg, oid, start, m.payload, UNDISTURBED, c'.replica);
    }
  }

  /** A client stops exactly when the server could not apply what it sent, and does no more with the answer. */
  lemma StopsWhenRejected(
    cfg: SinkConfig, oid: string, c: ClientState, m: ServerMessage, access: Access, mayInit: bool, c': ClientState)
    requires MessageProcessed(cfg, oid, c, m, access, mayInit, c')
    ensures c'.stopped <==> c.stopped || (m.ClientAck? && m.code == CannotApplyUpdate)
    ensures m.ClientAck? && m.code == CannotApplyUpdate ==> c'.replica == c.replica && c'.lastSeq == c.lastSeq
  {
  }

  ghost predicate AckProcessed(
    cfg: SinkConfig, oid: string, r: Replica, id: MsgId, payload: Payload, access: Access,
    valid: bool, sink: Sink, r': Replica)
  {
    && Acknowledged(r.sink, id, valid, sink)
    && MaybeProcessed(cfg, oid, r.(sink := sink), if valid then payload else [], access, r')
  }

  /** What processing a handshake answer or a single update amounts to. */
  lemma UpdateProcessed(
    cfg: SinkConfig, oid: string, r: Replica, y: YMessage, outcomes: nat -> Outcome, ok: bool, r': Replica)
    requires PayloadProcessed(cfg, oid, r, [y], outcomes, ok, r')
    ensures YHandled(cfg, oid, r, y, outcomes(0), ok, r')
  {
    assert [y][..0] == [];
    var before, mid :| LastProcessed(cfg, oid, r, [y], outcomes, before, mid, ok, r');
    assert PayloadProcessed(cfg, oid, r, [], outcomes, before, mid);
    assert mid == r && before;
  }

  lemma AnswerProcessed(
    cfg: SinkConfig, oid: string, r: Replica, update: set<Op>, sv: StateVector, ok: bool, r': Replica)
    requires PayloadProcessed(cfg, oid, r, [SyncStep2(update), SyncStep1(sv)], AlwaysApplied, ok, r')
    ensures ok && r'.doc == r.doc + update
    ensures Queued(cfg, r.sink, ServerInitSync(oid, r.sink.nextId, [SyncStep2(Missing(r'.doc, sv))]), r'.sink)
  {
    var p := [SyncStep2(update), SyncStep1(sv)];
    assert p[..1] == [SyncStep2(update)];
    var before, mid :| LastProcessed(cfg, oid, r, p, AlwaysApplied, before, mid, ok, r');
    UpdateProcessed(cfg, oid, r, SyncStep2(update), AlwaysApplied, before, mid);
  }

  /** A failing message leaves everything behind it in the payload untouched. */
  lemma {:induction false} FailureEndsPayload(
    cfg: SinkConfig, oid: string, r: Replica, p: Payload, outcomes: nat -> Outcome, ok: bool, r': Replica, i: nat)
    requires PayloadProcessed(cfg, oid, r, p, outcomes, ok, r') && i < |p|
    requires forall doc :: HandleCollabMessage(Client, doc, p[i], outcomes(i)).Err?
    ensures !ok
    ensures exists before :: PayloadProcessed(cfg, oid, r, p[..i], outcomes, before, r')
    decreases |p|
  {
    var n := |p| - 1;
    var before, mid :| LastProcessed(cfg, oid, r, p, outcomes, before, mid, ok, r');
    if i < n {
      assert p[..n][i] == p[i] && p[..n][..i] == p[..i];
      FailureEndsPayload(cfg, oid, r, p[..n], outcomes, before, mid, i);
      assert r' == mid;
    } else {
      assert HandleCollabMessage(Client, mid.doc, p[i], outcomes(i)).Err?;
      assert PayloadProcessed(cfg, oid, r, p[..i], outcomes, before, r');
    }
  }

  // The objects that run these steps -----------------------------------------------------------

  /** `CollabBroadcast` together with the group's document; `sent` is what went into its channel. */
  class CollabBroadcast {
    var doc: Doc
    var broadcastSeqNum: nat
    var sent: seq<ServerMessage>

    constructor (doc: Doc)
      ensures this.doc == doc && broadcastSeqNum == 0 && sent == []
    {
      this.doc := doc;
      broadcastSeqNum, sent := 0, [];
    }

    /** Runs the protocol messages of one client message and collects the answers. */
    method HandleClientCollabMessage(m: ClientMessage, outcomes: nat -> Outcome) returns (resps: seq<ServerMessage>)
      modifies this
      ensures var served := Serve(old(doc), old(broadcastSeqNum), m.id, m.payload, outcomes);
        && doc == served.doc && broadcastSeqNum == served.seqNum
        && resps == served.acks && sent == old(sent) + served.broadcasts
    {
      resps := [];
      ghost var served := Served(doc, broadcastSeqNum, [], []);
      for i := 0 to |m.payload|
        invariant served == Serve(old(doc), old(broadcastSeqNum), m.id, m.payload[..i], outcomes)
        invariant Served(doc, broadcastSeqNum, resps, sent) == served.(broadcasts := old(sent) + served.broadcasts)
      {
        ServeOneMore(old(doc), old(broadcastSeqNum), m.id, m.payload, i, outcomes);
        ServeOneBehind(served, old(sent), m.id, m.payload[i], outcomes(i));
        if !outcomes(i).LockBusy? {
          resps := HandleOne(m.id, m.payload[i], outcomes(i), resps);
        }
        served := ServeOne(served, m.id, m.payload[i], outcomes(i));
      }
      assert m.payload[..|m.payload|] == m.payload;
    }

    /** One turn of that loop, with the document locked. */
    method HandleOne(id: MsgId, y: YMessage, outcome: Outcome, resps: seq<ServerMessage>)
      returns (resps': seq<ServerMessage>)
      requires !outcome.LockBusy?
      modifies this
      ensures Served(doc, broadcastSeqNum, resps', sent) ==
        ServeOne(Served(old(doc), old(broadcastSeqNum), resps, old(sent)), id, y, outcome)
    {
      resps' := resps;
      match HandleCollabMessage(Server, doc, y, outcome) {
        case Ok(newDoc, reply) =>
          if newDoc != doc {
            ObserveUpdate(newDoc - doc);
          }
          doc := newDoc;
          if resps == [] {
            resps' := resps + [ClientAck(id, reply, Success)];
          }
        case Err(e) =>
          resps' := resps + [ClientAck(id, [], AckCodeFromError(e))];
      }
    }

    /** The document observer of `observe_collab_changes`; the operations new to the document are broadcast. */
    method ObserveUpdate(update: set<Op>)
      modifies this`broadcastSeqNum, this`sent
      ensures broadcastSeqNum == old(broadcastSeqNum) + 1
      ensures sent == old(sent) + [ServerBroadcast([Update(update)], old(broadcastSeqNum) + 1)]
    {
      var value := broadcastSeqNum;
      broadcastSeqNum := broadcastSeqNum + 1;
      sent := sent + [ServerBroadcast([Update(update)], value + 1)];
    }
  }

  /** `ObserveCollab`: feeds server messages to the document and the sink. */
  class ObserveCollab {
    const sink: CollabSink
    const oid: string
    var doc: Doc
    var broadcastSeqNum: nat
    var stopped: bool

    constructor (sink: CollabSink, oid: string, doc: Doc)
      ensures this.sink == sink && this.oid == oid
      ensures View() == ClientState(Replica(doc, sink.View()), 0, false)
    {
      this.sink := sink;
      this.oid := oid;
      this.doc := doc;
      this.broadcastSeqNum := 0;
      this.stopped := false;
    }

    function View(): ClientState
      reads this, sink
    {
      ClientState(Replica(doc, sink.View()), broadcastSeqNum, stopped)
    }

    method InitSync()
      modifies sink
      ensures sink.View() == InitQueued(old(sink.View()), ClientInitSync(oid, old(sink.View()).nextId, StartPayload(doc)))
    {
      var payload := StartPayload(doc);
      sink.QueueInitSync((id: MsgId) => ClientInitSync(oid, id, payload));
    }

    /** The loop of `process_payload`; an error is returned, here as `!ok`. */
    method ProcessPayload(payload: Payload, outcomes: nat -> Outcome) returns (ok: bool)
      modifies this`doc, sink
      ensures PayloadProcessed(sink.config, oid, old(View().replica), payload, outcomes, ok, View().replica)
    {
      ghost var start := View().replica;
      ok := true;
      for i := 0 to |payload|
        invariant ok && PayloadProcessed(sink.config, oid, start, payload[..i], outcomes, true, View().replica)
      {
        ghost var mid := View().replica;
        ok := ProcessOne(payload[i], outcomes(i));
        ProcessedOneMore(sink.config, oid, start, payload, i, outcomes, mid, ok, View().replica);
        if !ok {
          return;
        }
      }
      assert payload[..|payload|] == payload;
    }

    /** One turn of that loop. */
    method ProcessOne(y: YMessage, outcome: Outcome) returns (ok: bool)
      modifies this`doc, sink
      ensures YHandled(sink.config, oid, old(View().replica), y, outcome, ok, View().replica)
    {
      var result := HandleCollabMessage(Client, doc, y, outcome);
      ok := result.Ok?;
      if ok {
        doc := result.doc;
        if result.reply != [] {
          if y.SyncStep1? {
            sink.QueueMsg((id: MsgId) => ServerInitSync(oid, id, result.reply));
          } else {
            sink.QueueMsg((id: MsgId) => ClientUpdateSync(oid, id, result.reply));
          }
        }
      }
    }

    method ProcessMessage(m: ServerMessage, access: Access, mayInit: bool)
      modifies this, sink
      ensures MessageProcessed(sink.config, oid, old(View()), m, access, mayInit, View())
      ensures m.ServerBroadcast? && AsksNothing(m.payload) ==>
        GapAnswered(oid, old(View()), m.seqNum, mayInit, sink.View())
    {
      match m
      case ClientAck(id, payload, code) =>
        if code == CannotApplyUpdate {
          stopped := true;
        } else {
          ghost var before := View().replica;
          var valid := sink.ValidateResponse(id);
          ghost var popped := sink.View();
          if valid {
            MaybeProcessPayload(payload, access);
          }
          assert AckProcessed(sink.config, oid, before, id, payload, access, valid, popped, View().replica);
        }
      case ServerBroadcast(payload, seqNum) =>
        ghost var before := View();
        ProcessBroadcast(payload, seqNum, access, mayInit);
        if AsksNothing(payload) {
          GapStartsHandshake(sink.config, oid, before, m, access, mayInit, View());
        }
      case AwarenessSync(payload) =>
        MaybeProcessPayload(payload, access);
    }

    /** `validate_broadcast`, what a gap calls for, and the payload. */
    method ProcessBroadcast(payload: Payload, seqNum: nat, access: Access, mayInit: bool)
      modifies this, sink
      ensures MessageProcessed(sink.config, oid, old(View()), ServerBroadcast(payload, seqNum), access, mayInit, View())
    {
      var previous := broadcastSeqNum;
      broadcastSeqNum := seqNum;
      if seqNum > previous + 1 {
        var free := sink.CanQueueInitSync();
        if free && mayInit {
          InitSync();
        }
      }
      MaybeProcessPayload(payload, access);
    }

    /** An empty payload is skipped, and so is any payload while the document is locked. */
    method MaybeProcessPayload(payload: Payload, access: Access)
      modifies this`doc, sink
      ensures MaybeProcessed(sink.config, oid, old(View().replica), payload, access, View().replica)
    {
      if payload != [] && access.Free? {
        var ok := ProcessPayload(payload, access.outcomes);
      }
    }
  }

  /** What one turn of the loop adds to the messages processed so far. */
  lemma ProcessedOneMore(
    cfg: SinkConfig, oid: string, start: Replica, p: Payload, i: nat, outcomes: nat -> Outcome,
    mid: Replica, ok: bool, r': Replica)
    requires i < |p| && PayloadProcessed(cfg, oid, start, p[..i], outcomes, true, mid)
    requires YHandled(cfg, oid, mid, p[i], outcomes(i), ok, r')
    ensures PayloadProcessed(cfg, oid, start, p[..i + 1], outcomes, ok, r')
    ensures !ok ==> PayloadProcessed(cfg, oid, start, p, outcomes, ok, r')
  {
    assert p[..i + 1][..i] == p[..i];
    assert LastProcessed(cfg, oid, start, p[..i + 1], outcomes, true, mid, ok, r');
    if !ok {
      SkippedTail(cfg, oid, start, p, i + 1, outcomes, r');
    }
  }

  /** Once a message has failed, the messages behind it change nothing. */
  lemma {:induction false} SkippedTail(
    cfg: SinkConfig, oid: string, start: Replica, p: Payload, n: nat, outcomes: nat -> Outcome, r': Replica)
    requires n <= |p| && PayloadProcessed(cfg, oid, start, p[..n], outcomes, false, r')
    ensures PayloadProcessed(cfg, oid, start, p, outcomes, false, r')
    decreases |p| - n
  {
    if n == |p| {
      assert p[..n] == p;
    } else {
      assert p[..n + 1][..n] == p[..n];
      assert LastProcessed(cfg, oid, start, p[..n + 1], outcomes, false, r', false, r');
      SkippedTail(cfg, oid, start, p, n + 1, outcomes, r');
    }
  }

  // Convergence of one handshake -----------------------------------------------------------------

  /** What a replica sends against the state vector of `other` is what `other` has not in its runs. */
  lemma SentIsLacking(doc: Doc, other: Doc)
    ensures forall op :: op in Missing(doc, StateVectorOf(other)) <==> op in doc && !InRun(other, op)
  {
    forall op
      ensures op in Missing(doc, StateVectorOf(other)) <==> op in doc && !InRun(other, op)
    {
      StateVectorExact(other, op);
    }
  }

  /**
    A full exchange (Step1, then Step2 with Step1, then Step2), with arbitrary growth of both
    documents in between: `askedWith` is the client document when it asked, `answeredWith` the
    server document when it answered, `repliedWith` the client document when the answer arrived
    and `finishedWith` the server document when the reply arrived. The server ends with
    everything the client held when it replied, the client with everything the server held when
    it answered, and nothing is invented; without interleaving both hold the union. Each Step2
    holds everything of its sender but the gap-free runs that the other side had announced.
   */
  lemma HandshakeConverges(
    askedWith: Doc, answeredWith: Doc, repliedWith: Doc, finishedWith: Doc, n1: nat, n2: nat, id1: MsgId, id2: MsgId)
    requires askedWith <= repliedWith && answeredWith <= finishedWith
    ensures
      var answer := Serve(answeredWith, n1, id1, StartPayload(askedWith), AlwaysApplied);
      && answer.doc == answeredWith
      && |answer.acks| == 1 && answer.acks[0].ClientAck? && answer.acks[0].code == Success
      && |answer.acks[0].payload| == 2 && answer.acks[0].payload[0].SyncStep2?
      && (forall op :: op in answer.acks[0].payload[0].update <==> op in answeredWith && !InRun(askedWith, op))
      && var step2 := HandleCollabMessage(Client, repliedWith, answer.acks[0].payload[0], Applied);
         && step2.Ok? && step2.reply == []
         && var step1 := HandleCollabMessage(Client, step2.doc, answer.acks[0].payload[1], Applied);
            && step1.Ok? && step1.doc == step2.doc && |step1.reply| == 1 && step1.reply[0].SyncStep2?
            && (forall op :: op in step1.reply[0].update <==> op in step2.doc && !InRun(answeredWith, op))
            && var done := Serve(finishedWith, n2, id2, step1.reply, AlwaysApplied);
               && answeredWith <= step2.doc <= repliedWith + answeredWith
               && step2.doc <= done.doc <= finishedWith + step2.doc
               && (askedWith == repliedWith && answeredWith == finishedWith ==>
                     step2.doc == done.doc == askedWith + answeredWith)
               && |done.acks| == 1 && done.acks[0] == ClientAck(id2, [], Success)
  {
    var y, z := SyncStep1(StateVectorOf(askedWith)), Awareness;
    ServeOfTwo(answeredWith, n1, id1, y, z, AlwaysApplied);
    var toClient := Missing(answeredWith, StateVectorOf(askedWith));
    MissingComplete(answeredWith, askedWith);
    SentIsLacking(answeredWith, askedWith);
    var client := repliedWith + toClient;
    var toServer := Missing(client, StateVectorOf(answeredWith));
    MissingComplete(client, answeredWith);
    SentIsLacking(client, answeredWith);
    ServeOfOne(finishedWith, n2, id2, SyncStep2(toServer), AlwaysApplied);
  }
}
