/**
  What a client does about the broadcasts it missed: behind a gap it starts a handshake, and as
  long as none is missing broadcasts leave its queue alone.
 */
module GapHandshake {
  import opened YrsDocument
  import opened CollabMessages
  import opened SinkSpec
  import opened SyncProtocol
  import opened BroadcastGaps

  /** How the client gets at its document for one message, and whether it may start a handshake. */
  datatype Chance = Chance(access: Access, mayInit: bool)

  /** The client handles `msgs` one after the other, each with its chance. */
  ghost predicate HandledWith(
    cfg: SinkConfig, oid: string, states: seq<ClientState>, msgs: seq<ServerMessage>, chances: seq<Chance>)
  {
    && |states| == |msgs| + 1 && |chances| == |msgs|
    && forall i :: 0 <= i < |msgs| ==> HandledWithAt(cfg, oid, states[i], msgs[i], chances[i], states[i + 1])
  }

  ghost predicate HandledWithAt(
    cfg: SinkConfig, oid: string, c: ClientState, m: ServerMessage, chance: Chance, c': ClientState)
  {
    MessageProcessed(cfg, oid, c, m, chance.access, chance.mayInit, c')
  }

  /** Broadcasts carry document updates, never a question. */
  ghost predicate BroadcastsAskNothing(msgs: seq<ServerMessage>) {
    forall m :: m in msgs && m.ServerBroadcast? ==> AsksNothing(m.payload)
  }

  /** Message `i` is a broadcast, and it leaves the queue as `GapAnswered` says. */
  ghost predicate AnsweredAt(oid: string, states: seq<ClientState>, msgs: seq<ServerMessage>, chances: seq<Chance>, i: nat)
    requires |states| == |msgs| + 1 && |chances| == |msgs| && i < |msgs|
  {
    msgs[i].ServerBroadcast? && GapAnswered(oid, states[i], msgs[i].seqNum, chances[i].mayInit, states[i + 1].replica.sink)
  }

  lemma RunIsHandled(
    cfg: SinkConfig, oid: string, states: seq<ClientState>, msgs: seq<ServerMessage>, chances: seq<Chance>)
    requires HandledWith(cfg, oid, states, msgs, chances)
    ensures BroadcastGaps.Handled(cfg, oid, states, msgs)
  {
    forall i | 0 <= i < |msgs|
      ensures HandledAt(cfg, oid, states[i], msgs[i], states[i + 1])
    {
      assert HandledWithAt(cfg, oid, states[i], msgs[i], chances[i], states[i + 1]);
    }
  }

  /** In any run, every broadcast is answered by a handshake if it shows a gap, and by nothing else. */
  lemma EveryGapAnswered(
    cfg: SinkConfig, oid: string, states: seq<ClientState>, msgs: seq<ServerMessage>, chances: seq<Chance>, i: nat)
    requires HandledWith(cfg, oid, states, msgs, chances) && BroadcastsAskNothing(msgs)
    requires i < |msgs| && msgs[i].ServerBroadcast?
    ensures AnsweredAt(oid, states, msgs, chances, i)
  {
    assert HandledWithAt(cfg, oid, states[i], msgs[i], chances[i], states[i + 1]);
    assert msgs[i] in msgs;
    GapStartsHandshake(cfg, oid, states[i], msgs[i], chances[i].access, chances[i].mayInit, states[i + 1]);
  }

  /** Message `i` is a broadcast behind a gap, and afterwards an init sync is queued. */
  ghost predicate HandshakeAt(states: seq<ClientState>, msgs: seq<ServerMessage>, i: nat)
    requires |states| == |msgs| + 1 && i < |msgs|
  {
    GapFoundAt(states, msgs, i) && HasInit(states[i + 1].replica.sink.queue)
  }

  /** Message `i` is a broadcast that leaves the sink as it was. */
  predicate QuietAt(states: seq<ClientState>, msgs: seq<ServerMessage>, i: nat)
    requires |states| == |msgs| + 1 && i < |msgs|
  {
    states[i + 1].replica.sink == states[i].replica.sink
  }

  lemma GapMeansHandshake(
    oid: string, states: seq<ClientState>, msgs: seq<ServerMessage>, chances: seq<Chance>, i: nat)
    requires |states| == |msgs| + 1 && |chances| == |msgs| && i < |msgs| && AnsweredAt(oid, states, msgs, chances, i)
    ensures GapFoundAt(states, msgs, i) && chances[i].mayInit ==> HandshakeAt(states, msgs, i)
    ensures !GapFoundAt(states, msgs, i) ==> QuietAt(states, msgs, i)
  {
    if GapFoundAt(states, msgs, i) && chances[i].mayInit && !HasInit(states[i].replica.sink.queue) {
      var r := states[i].replica;
      var init := ClientInitSync(oid, r.sink.nextId, [SyncStep1(StateVectorOf(r.doc)), Awareness]);
      assert init in states[i + 1].replica.sink.queue;
    }
  }

  /**
    A client that gets the group's broadcasts from the first on, none missing, keeps its queue over
    every one of them. If one is missing, and whenever a gap shows a handshake may be started, then
    one is queued right behind a gap.
   */
  lemma HandshakeIffIncomplete(
    cfg: SinkConfig, oid: string, states: seq<ClientState>, msgs: seq<ServerMessage>, chances: seq<Chance>,
    changes: seq<Change>, me: Origin)
    requires HandledWith(cfg, oid, states, msgs, chances) && BroadcastsAskNothing(msgs) && states[0].lastSeq == 0
    requires Delivered(changes, me, Broadcasts(msgs))
    ensures FirstBroadcasts(changes, me, Broadcasts(msgs)) ==>
      forall i :: 0 <= i < |msgs| && msgs[i].ServerBroadcast? ==> QuietAt(states, msgs, i)
    ensures (forall i :: 0 <= i < |msgs| ==> chances[i].mayInit) ==>
      (FirstBroadcasts(changes, me, Broadcasts(msgs)) <==> forall i :: 0 <= i < |msgs| ==> !HandshakeAt(states, msgs, i))
  {
    RunIsHandled(cfg, oid, states, msgs, chances);
    ClientSilentIffComplete(cfg, oid, states, msgs, changes, me);
    forall i | 0 <= i < |msgs| && msgs[i].ServerBroadcast?
      ensures AnsweredAt(oid, states, msgs, chances, i)
      ensures GapFoundAt(states, msgs, i) && chances[i].mayInit ==> HandshakeAt(states, msgs, i)
      ensures !GapFoundAt(states, msgs, i) ==> QuietAt(states, msgs, i)
    {
      EveryGapAnswered(cfg, oid, states, msgs, chances, i);
      GapMeansHandshake(oid, states, msgs, chances, i);
    }
  }
}
