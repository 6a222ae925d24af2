/**
  What the numbering of broadcasts is for: a client that found no gap and has the group's latest
  number holds everything that the server holds.
 */
module SubscriberConvergence {
  import opened YrsDocument
  import opened CollabMessages
  import opened SinkSpec
  import opened SyncProtocol
  import opened BroadcastGaps
  import opened ServerBroadcasts
  import opened GapHandshake

  // A client never drops an operation ----------------------------------------------------------------

  lemma {:induction false} PayloadKeepsDoc(
    cfg: SinkConfig, oid: string, r: Replica, p: Payload, outcomes: nat -> Outcome, ok: bool, r': Replica)
    requires PayloadProcessed(cfg, oid, r, p, outcomes, ok, r')
    ensures r.doc <= r'.doc
    decreases |p|
  {
    if p != [] {
      var n := |p| - 1;
      var before, mid :| LastProcessed(cfg, oid, r, p, outcomes, before, mid, ok, r');
      PayloadKeepsDoc(cfg, oid, r, p[..n], outcomes, before, mid);
      if before {
        OneKeepsDoc(cfg, oid, mid, p[n], outcomes(n), ok, r');
      }
    }
  }

  lemma OneKeepsDoc(cfg: SinkConfig, oid: string, r: Replica, y: YMessage, outcome: Outcome, ok: bool, r': Replica)
    requires YHandled(cfg, oid, r, y, outcome, ok, r')
    ensures r.doc <= r'.doc
  {
  }

  lemma MaybeKeepsDoc(cfg: SinkConfig, oid: string, r: Replica, p: Payload, access: Access, r': Replica)
    requires MaybeProcessed(cfg, oid, r, p, access, r')
    ensures r.doc <= r'.doc
  {
    if p != [] && access.Free? {
      var ok :| PayloadProcessed(cfg, oid, r, p, access.outcomes, ok, r');
      PayloadKeepsDoc(cfg, oid, r, p, access.outcomes, ok, r');
    }
  }

  /** Whatever a client handles, and however it goes, its document keeps every operation. */
  lemma MessageKeepsDoc(
    cfg: SinkConfig, oid: string, c: ClientState, m: ServerMessage, access: Access, mayInit: bool, c': ClientState)
    requires MessageProcessed(cfg, oid, c, m, access, mayInit, c')
    ensures c.replica.doc <= c'.replica.doc
  {
    match m
    case ClientAck(id, payload, code) =>
      if code != CannotApplyUpdate {
        var valid, sink :| AckProcessed(cfg, oid, c.replica, id, payload, access, valid, sink, c'.replica);
        MaybeKeepsDoc(cfg, oid, c.replica.(sink := sink), if valid then payload else [], access, c'.replica);
      }
    case ServerBroadcast(payload, seqNum) =>
      var start :=
        if MissesBroadcast(c.lastSeq, seqNum) && mayInit && !HasInit(c.replica.sink.queue)
        then InitSynced(oid, c.replica) else c.replica;
      MaybeKeepsDoc(cfg, oid, start, payload, access, c'.replica);
    case AwarenessSync(payload) => MaybeKeepsDoc(cfg, oid, c.replica, payload, access, c'.replica);
  }

  // Broadcasts taken in ------------------------------------------------------------------------------

  /** Everything that some messages carry. */
  function OpsOf(msgs: seq<ServerMessage>): set<Op> {
    if msgs == [] then {} else OpsOf(msgs[..|msgs| - 1]) + PayloadOps(msgs[|msgs| - 1].payload)
  }

  lemma {:induction false} OpsOfAre(msgs: seq<ServerMessage>)
    ensures forall i :: 0 <= i < |msgs| ==> PayloadOps(msgs[i].payload) <= OpsOf(msgs)
    ensures forall op :: op in OpsOf(msgs) ==> exists i :: 0 <= i < |msgs| && op in PayloadOps(msgs[i].payload)
  {
    if msgs != [] {
      var init := msgs[..|msgs| - 1];
      OpsOfAre(init);
      forall op | op in OpsOf(init)
        ensures exists i :: 0 <= i < |msgs| && op in PayloadOps(msgs[i].payload)
      {
        var i :| 0 <= i < |init| && op in PayloadOps(init[i].payload);
        assert op in PayloadOps(msgs[i].payload);
      }
      forall i | 0 <= i < |msgs|
        ensures PayloadOps(msgs[i].payload) <= OpsOf(msgs)
      {
        if i < |init| {
          assert PayloadOps(init[i].payload) <= OpsOf(init);
        }
      }
    }
  }

  /** Nothing disturbs the client at any message. */
  ghost predicate Undisturbed(chances: seq<Chance>) {
    forall i :: 0 <= i < |chances| ==> chances[i].access == UNDISTURBED
  }

  ghost predicate SoundBroadcasts(msgs: seq<ServerMessage>) {
    forall b :: b in Broadcasts(msgs) ==> Sound(b.payload)
  }

  lemma RunPrefix(
    cfg: SinkConfig, oid: string, states: seq<ClientState>, msgs: seq<ServerMessage>, chances: seq<Chance>)
    requires HandledWith(cfg, oid, states, msgs, chances) && msgs != []
    ensures HandledWith(cfg, oid, states[..|msgs|], msgs[..|msgs| - 1], chances[..|msgs| - 1])
  {
    var n := |msgs| - 1;
    forall i | 0 <= i < n
      ensures HandledWithAt(cfg, oid, states[..n + 1][i], msgs[..n][i], chances[..n][i], states[..n + 1][i + 1])
    {
      assert HandledWithAt(cfg, oid, states[i], msgs[i], chances[i], states[i + 1]);
    }
  }

  /** What a message brings if it is a broadcast. */
  function Broadcast(m: ServerMessage): set<Op> {
    if m.ServerBroadcast? then PayloadOps(m.payload) else {}
  }

  lemma OpsOneMore(msgs: seq<ServerMessage>)
    requires msgs != []
    ensures OpsOf(Broadcasts(msgs)) == OpsOf(Broadcasts(msgs[..|msgs| - 1])) + Broadcast(msgs[|msgs| - 1])
  {
    var earlier, m := Broadcasts(msgs[..|msgs| - 1]), msgs[|msgs| - 1];
    if m.ServerBroadcast? {
      assert (earlier + [m])[..|earlier|] == earlier;
    } else {
      assert Broadcasts(msgs) == earlier;
    }
  }

  lemma OneTaken(cfg: SinkConfig, oid: string, c: ClientState, m: ServerMessage, chance: Chance, c': ClientState)
    requires HandledWithAt(cfg, oid, c, m, chance, c') && chance.access == UNDISTURBED
    requires m.ServerBroadcast? ==> Sound(m.payload)
    ensures c.replica.doc + Broadcast(m) <= c'.replica.doc
    ensures m.ServerBroadcast? ==> c'.replica.doc == c.replica.doc + Broadcast(m)
  {
    MessageKeepsDoc(cfg, oid, c, m, chance.access, chance.mayInit, c');
    if m.ServerBroadcast? {
      BroadcastApplied(cfg, oid, c, m, chance.access, chance.mayInit, c');
    }
  }

  /** A client that nothing disturbs ends with what it had and what all the broadcasts carried, or more. */
  lemma {:induction false} BroadcastsTaken(
    cfg: SinkConfig, oid: string, states: seq<ClientState>, msgs: seq<ServerMessage>, chances: seq<Chance>)
    requires HandledWith(cfg, oid, states, msgs, chances) && Undisturbed(chances) && SoundBroadcasts(msgs)
    ensures states[0].replica.doc + OpsOf(Broadcasts(msgs)) <= states[|msgs|].replica.doc
    ensures (forall m :: m in msgs ==> m.ServerBroadcast?) ==>
      states[|msgs|].replica.doc == states[0].replica.doc + OpsOf(Broadcasts(msgs))
    decreases |msgs|
  {
    if msgs != [] {
      var n := |msgs| - 1;
      RunPrefix(cfg, oid, states, msgs, chances);
      PrefixIsSound(msgs);
      BroadcastsTaken(cfg, oid, states[..n + 1], msgs[..n], chances[..n]);
      assert msgs[n] in msgs && forall m :: m in msgs[..n] ==> m in msgs;
      OneTaken(cfg, oid, states[n], msgs[n], chances[n], states[n + 1]);
      OpsOneMore(msgs);
    }
  }

  lemma PrefixIsSound(msgs: seq<ServerMessage>)
    requires SoundBroadcasts(msgs) && msgs != []
    ensures SoundBroadcasts(msgs[..|msgs| - 1])
    ensures msgs[|msgs| - 1].ServerBroadcast? ==> Sound(msgs[|msgs| - 1].payload)
  {
    assert forall b :: b in Broadcasts(msgs[..|msgs| - 1]) ==> b in Broadcasts(msgs);
    assert msgs[|msgs| - 1].ServerBroadcast? ==> msgs[|msgs| - 1] in Broadcasts(msgs);
  }

  // Up to date ---------------------------------------------------------------------------------------

  lemma {:induction false} ChangesOfAreUpdates(doc: Doc, r: Request, n: nat)
    requires n <= |r.message.payload|
    ensures forall c :: c in ChangesOf(doc, r, n) ==> Sound(c.payload) && AsksNothing(c.payload)
  {
    if n > 0 {
      ChangesOfAreUpdates(doc, r, n - 1);
    }
  }

  lemma {:induction false} ChangesAreUpdates(doc: Doc, requests: seq<Request>)
    ensures forall c :: c in AllChanges(doc, requests) ==> Sound(c.payload) && AsksNothing(c.payload)
  {
    if requests != [] {
      var init, last := requests[..|requests| - 1], requests[|requests| - 1];
      ChangesAreUpdates(doc, init);
      ChangesOfAreUpdates(DocAfterAll(doc, init), last, |last.message.payload|);
    }
  }

  /** The broadcasts of a run carry exactly what its changes carry. */
  lemma BroadcastOpsAre(changes: seq<Change>, broadcasts: seq<ServerMessage>, before: Doc, after: Doc)
    requires AllNumbered(changes, broadcasts) && CarryGrowth(changes, before, after)
    ensures before + OpsOf(broadcasts) == after
  {
    OpsOfAre(broadcasts);
    forall op | op in after - before
      ensures op in OpsOf(broadcasts)
    {
      var i: nat :| CarriedIn(changes, i, op);
      assert broadcasts[i] == Numbered(changes, i);
    }
    forall op | op in OpsOf(broadcasts)
      ensures op in after
    {
      var i :| 0 <= i < |broadcasts| && op in PayloadOps(broadcasts[i].payload);
      assert broadcasts[i] == Numbered(changes, i);
      assert CarriedIn(changes, i, op);
    }
  }

  lemma AllReceived(doc: Doc, requests: seq<Request>, me: Origin, received: seq<ServerMessage>)
    requires StartsRun(doc, requests, me, received)
    requires (forall b :: b in received ==> b.ServerBroadcast?)
    requires LastNumber(received) == ServeAll(doc, requests).seqNum
    ensures received == ServeAll(doc, requests).broadcasts
  {
    RunsAreNumbered(doc, requests);
    if received != [] {
      var n := |received| - 1;
      assert received[n] == ServeAll(doc, requests).broadcasts[n];
      assert ServeAll(doc, requests).broadcasts[n] == Numbered(AllChanges(doc, requests), n);
    }
  }

  lemma ReceivedAreSound(doc: Doc, requests: seq<Request>, msgs: seq<ServerMessage>)
    requires Broadcasts(msgs) == ServeAll(doc, requests).broadcasts
    ensures SoundBroadcasts(msgs)
  {
    var broadcasts, changes := ServeAll(doc, requests).broadcasts, AllChanges(doc, requests);
    RunsAreNumbered(doc, requests);
    ChangesAreUpdates(doc, requests);
    forall b | b in broadcasts
      ensures Sound(b.payload)
    {
      var i :| 0 <= i < |broadcasts| && broadcasts[i] == b;
      assert b == Numbered(changes, i) && changes[i] in changes;
    }
  }

  /**
    A client that handles any messages undisturbed, starting with at least the group's document,
    and finds no gap, holds the whole server document once it has the group's latest number. If it
    started with just that document and got only broadcasts, the two are equal.
   */
  lemma UpToDateHoldsAll(
    cfg: SinkConfig, oid: string, states: seq<ClientState>, msgs: seq<ServerMessage>, chances: seq<Chance>,
    doc: Doc, requests: seq<Request>, me: Origin)
    requires HandledWith(cfg, oid, states, msgs, chances) && Undisturbed(chances)
    requires states[0].lastSeq == 0 && doc <= states[0].replica.doc
    requires Delivered(AllChanges(doc, requests), me, Broadcasts(msgs))
    requires NoGapFound(states, msgs) && states[|msgs|].lastSeq == ServeAll(doc, requests).seqNum
    ensures ServeAll(doc, requests).doc <= states[|msgs|].replica.doc
    ensures states[0].replica.doc == doc && (forall m :: m in msgs ==> m.ServerBroadcast?) ==>
      states[|msgs|].replica.doc == ServeAll(doc, requests).doc
  {
    var served := ServeAll(doc, requests);
    RunIsHandled(cfg, oid, states, msgs, chances);
    SilentIffStartsRun(cfg, oid, states, msgs, doc, requests, me);
    ClientRemembersLast(cfg, oid, states, msgs);
    AllReceived(doc, requests, me, Broadcasts(msgs));
    ReceivedAreSound(doc, requests, msgs);
    BroadcastsTaken(cfg, oid, states, msgs, chances);
    RunsAreNumbered(doc, requests);
    BroadcastsCarryGrowth(doc, requests);
    BroadcastOpsAre(AllChanges(doc, requests), served.broadcasts, doc, served.doc);
  }
}
