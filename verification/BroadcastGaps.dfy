/**
  How a client notices that it missed broadcasts: the server numbers the updates of a document
  from 1 (`observe_collab_changes`), a subscriber is sent those of other origins (`subscribe`), and
  the client compares each number with the one before (`validate_broadcast`). A group's life is
  one numbering; numbers stay below the range of `u32`.
 */
module BroadcastGaps {
  import opened CollabMessages
  import opened SinkSpec
  import opened SyncProtocol

  type Origin = string

  /** An update of the server's document: who made it, and what is sent about it. */
  datatype Change = Change(origin: Origin, payload: Payload)

  /** The broadcast of change `i`. */
  function Numbered(changes: seq<Change>, i: nat): ServerMessage
    requires i < |changes|
  {
    ServerBroadcast(changes[i].payload, i + 1)
  }

  /** `received` is what gets to a subscriber of origin `me`: some of the others' changes, in order. */
  ghost predicate Delivered(changes: seq<Change>, me: Origin, received: seq<ServerMessage>) {
    exists at: seq<nat> :: DeliveredAt(changes, me, received, at)
  }

  ghost predicate DeliveredAt(changes: seq<Change>, me: Origin, received: seq<ServerMessage>, at: seq<nat>) {
    && |at| == |received|
    && (forall i, j :: 0 <= i < j < |at| ==> at[i] < at[j])
    && (forall i :: 0 <= i < |at| ==>
        && at[i] < |changes| && changes[at[i]].origin != me
        && received[i] == Numbered(changes, at[i]))
  }

  // The server ---------------------------------------------------------------------------------------

  /** The subscriber has fallen too far behind the broadcast channel by change `i`, or earlier. */
  ghost predicate Lagged(lags: nat -> bool, i: nat) {
    exists k: nat :: k <= i && lags(k)
  }

  /**
    The loop of `subscribe` that forwards broadcasts to a subscriber: sending number `i` fails if
    `lost(i)`, and a receiver that lags at number `i` ends the loop. What arrives is an in-order
    part of the others' changes, all of them up to a lag if no sending fails, and none behind it.
   */
  method ForwardBroadcasts(changes: seq<Change>, me: Origin, lost: nat -> bool, lags: nat -> bool)
    returns (received: seq<ServerMessage>)
    ensures Delivered(changes, me, received)
    ensures forall i :: 0 <= i < |changes| && changes[i].origin != me && !lost(i) && !Lagged(lags, i) ==>
      Numbered(changes, i) in received
    ensures forall b :: b in received ==> exists i :: 0 <= i < |changes| && !Lagged(lags, i) && b == Numbered(changes, i)
  {
    received := [];
    ghost var at: seq<nat> := [];
    for i := 0 to |changes|
      invariant DeliveredAt(changes, me, received, at)
      invariant forall k :: 0 <= k < |at| ==> at[k] < i
      invariant forall k :: 0 <= k < i && changes[k].origin != me && !lost(k) ==> Numbered(changes, k) in received
      invariant forall b :: b in received ==> exists k :: 0 <= k < i && b == Numbered(changes, k)
      invariant forall k: nat :: k < i ==> !Lagged(lags, k)
    {
      if lags(i) {
        assert forall k: nat :: k >= i ==> Lagged(lags, k);
        break;
      }
      assert Lagged(lags, i) ==> i > 0 && Lagged(lags, i - 1);
      if changes[i].origin == me {
        continue;
      }
      if !lost(i) {
        received := received + [ServerBroadcast(changes[i].payload, i + 1)];
        at := at + [i];
      }
    }
  }

  // The client ---------------------------------------------------------------------------------------

  /** The client handles `msgs` one after the other, going through `states`. */
  ghost predicate Handled(cfg: SinkConfig, oid: string, states: seq<ClientState>, msgs: seq<ServerMessage>) {
    && |states| == |msgs| + 1
    && forall i :: 0 <= i < |msgs| ==> HandledAt(cfg, oid, states[i], msgs[i], states[i + 1])
  }

  ghost predicate HandledAt(cfg: SinkConfig, oid: string, c: ClientState, m: ServerMessage, c': ClientState) {
    exists access, mayInit :: MessageProcessed(cfg, oid, c, m, access, mayInit, c')
  }

  /** The broadcasts among the messages. */
  function Broadcasts(msgs: seq<ServerMessage>): seq<ServerMessage> {
    if msgs == [] then []
    else Broadcasts(msgs[..|msgs| - 1]) + if msgs[|msgs| - 1].ServerBroadcast? then [msgs[|msgs| - 1]] else []
  }

  function LastNumber(broadcasts: seq<ServerMessage>): nat
    requires forall b :: b in broadcasts ==> b.ServerBroadcast?
  {
    if broadcasts == [] then 0 else broadcasts[|broadcasts| - 1].seqNum
  }

  /** Broadcast `k` raises `MissingBroadcast`. */
  predicate RaisesAt(broadcasts: seq<ServerMessage>, k: nat)
    requires (forall b :: b in broadcasts ==> b.ServerBroadcast?) && k < |broadcasts|
  {
    MissesBroadcast(LastNumber(broadcasts[..k]), broadcasts[k].seqNum)
  }

  lemma {:induction false} BroadcastsAre(msgs: seq<ServerMessage>)
    ensures forall b :: b in Broadcasts(msgs) ==> b.ServerBroadcast?
  {
    if msgs != [] {
      BroadcastsAre(msgs[..|msgs| - 1]);
    }
  }

  /** The number a client compares with is that of the last broadcast, whatever came in between. */
  lemma {:induction false} ClientRemembersLast(cfg: SinkConfig, oid: string, states: seq<ClientState>, msgs: seq<ServerMessage>)
    requires Handled(cfg, oid, states, msgs) && states[0].lastSeq == 0
    ensures (forall b :: b in Broadcasts(msgs) ==> b.ServerBroadcast?)
    ensures states[|msgs|].lastSeq == LastNumber(Broadcasts(msgs))
  {
    BroadcastsAre(msgs);
    if msgs != [] {
      var n := |msgs| - 1;
      HandledPrefix(cfg, oid, states, msgs);
      ClientRemembersLast(cfg, oid, states[..n + 1], msgs[..n]);
      assert HandledAt(cfg, oid, states[n], msgs[n], states[n + 1]);
    }
  }

  // Exactly the gaps are noticed ---------------------------------------------------------------------

  lemma DeliveredNumbers(changes: seq<Change>, me: Origin, received: seq<ServerMessage>, at: seq<nat>, k: nat)
    requires DeliveredAt(changes, me, received, at) && k < |received|
    ensures forall b :: b in received ==> b.ServerBroadcast?
    ensures received[k].seqNum == at[k] + 1
    ensures LastNumber(received[..k]) == if k == 0 then 0 else at[k - 1] + 1
  {
  }

  /** The first `n` broadcasts of the group, none missing and none the subscriber's own. */
  ghost predicate FirstBroadcasts(changes: seq<Change>, me: Origin, received: seq<ServerMessage>) {
    && |received| <= |changes|
    && forall i :: 0 <= i < |received| ==> received[i] == Numbered(changes, i) && changes[i].origin != me
  }

  lemma {:induction false} SilentPrefix(changes: seq<Change>, me: Origin, received: seq<ServerMessage>, at: seq<nat>, n: nat)
    requires DeliveredAt(changes, me, received, at) && n <= |received|
    requires (forall b :: b in received ==> b.ServerBroadcast?)
    requires forall k :: 0 <= k < n ==> !RaisesAt(received, k)
    ensures forall k :: 0 <= k < n ==> at[k] == k
  {
    if n > 0 {
      SilentPrefix(changes, me, received, at, n - 1);
      DeliveredNumbers(changes, me, received, at, n - 1);
      assert !RaisesAt(received, n - 1);
    }
  }

  lemma DeliveredAreBroadcasts(changes: seq<Change>, me: Origin, received: seq<ServerMessage>)
    requires Delivered(changes, me, received)
    ensures forall b :: b in received ==> b.ServerBroadcast?
  {
    var at :| DeliveredAt(changes, me, received, at);
    forall b | b in received
      ensures b.ServerBroadcast?
    {
      var i :| 0 <= i < |received| && received[i] == b;
      assert received[i] == Numbered(changes, at[i]);
    }
  }

  ghost predicate Silent(received: seq<ServerMessage>)
    requires forall b :: b in received ==> b.ServerBroadcast?
  {
    forall k :: 0 <= k < |received| ==> !RaisesAt(received, k)
  }

  lemma SilentIsComplete(changes: seq<Change>, me: Origin, received: seq<ServerMessage>)
    requires Delivered(changes, me, received)
    requires (forall b :: b in received ==> b.ServerBroadcast?) && Silent(received)
    ensures FirstBroadcasts(changes, me, received)
  {
    var at :| DeliveredAt(changes, me, received, at);
    SilentPrefix(changes, me, received, at, |received|);
    if received != [] {
      assert at[|received| - 1] < |changes|;
    }
  }

  lemma CompleteIsSilent(changes: seq<Change>, me: Origin, received: seq<ServerMessage>)
    requires (forall b :: b in received ==> b.ServerBroadcast?) && FirstBroadcasts(changes, me, received)
    ensures Silent(received)
  {
    forall k | 0 <= k < |received|
      ensures !RaisesAt(received, k)
    {
      assert received[k] == Numbered(changes, k);
      if k > 0 {
        assert received[k - 1] == Numbered(changes, k - 1);
      }
    }
  }

  /** A client sees no error exactly when it got the broadcasts from the first on with none missing. */
  lemma SilentIffComplete(changes: seq<Change>, me: Origin, received: seq<ServerMessage>)
    requires Delivered(changes, me, received)
    ensures forall b :: b in received ==> b.ServerBroadcast?
    ensures Silent(received) <==> FirstBroadcasts(changes, me, received)
  {
    DeliveredAreBroadcasts(changes, me, received);
    if Silent(received) {
      SilentIsComplete(changes, me, received);
    }
    if FirstBroadcasts(changes, me, received) {
      CompleteIsSilent(changes, me, received);
    }
  }

  lemma PrefixRaises(received: seq<ServerMessage>, k: nat)
    requires k <= |received| && (forall b :: b in received ==> b.ServerBroadcast?)
    ensures forall b :: b in received[..k] ==> b.ServerBroadcast?
    ensures Silent(received[..k]) <==> forall j :: 0 <= j < k ==> !RaisesAt(received, j)
  {
    assert forall j :: 0 <= j < k ==> received[..k][..j] == received[..j];
    assert forall j :: 0 <= j < k ==> RaisesAt(received[..k], j) == RaisesAt(received, j);
  }

  lemma DeliveredPrefix(changes: seq<Change>, me: Origin, received: seq<ServerMessage>, k: nat)
    requires Delivered(changes, me, received) && k <= |received|
    ensures Delivered(changes, me, received[..k])
  {
    var at :| DeliveredAt(changes, me, received, at);
    assert DeliveredAt(changes, me, received[..k], at[..k]);
  }

  lemma FirstEndAt(changes: seq<Change>, me: Origin, received: seq<ServerMessage>)
    requires FirstBroadcasts(changes, me, received) && (forall b :: b in received ==> b.ServerBroadcast?)
    ensures LastNumber(received) == |received|
  {
    if received != [] {
      assert received[|received| - 1] == Numbered(changes, |received| - 1);
    }
  }

  /** The first error is raised by the broadcast right behind the first gap. */
  lemma FirstErrorAtFirstGap(changes: seq<Change>, me: Origin, received: seq<ServerMessage>, k: nat)
    requires Delivered(changes, me, received) && k < |received|
    requires (forall b :: b in received ==> b.ServerBroadcast?)
    ensures RaisesAt(received, k) && (forall j :: 0 <= j < k ==> !RaisesAt(received, j)) <==>
      FirstBroadcasts(changes, me, received[..k]) && received[k].seqNum > k + 1
  {
    DeliveredPrefix(changes, me, received, k);
    SilentIffComplete(changes, me, received[..k]);
    PrefixRaises(received, k);
    if FirstBroadcasts(changes, me, received[..k]) {
      FirstEndAt(changes, me, received[..k]);
    }
  }

  lemma FirstHasNoOwn(changes: seq<Change>, me: Origin, received: seq<ServerMessage>, own: nat)
    requires FirstBroadcasts(changes, me, received) && own < |changes| && changes[own].origin == me
    requires forall b :: b in received ==> b.ServerBroadcast?
    ensures LastNumber(received) <= own
  {
    FirstEndAt(changes, me, received);
  }

  /**
    A subscriber's own changes take numbers that it is never sent, so once a later change of
    another client arrives, an error has been raised although nothing was lost.
   */
  lemma OwnChangesLookMissing(changes: seq<Change>, me: Origin, received: seq<ServerMessage>, own: nat)
    requires Delivered(changes, me, received) && own < |changes| && changes[own].origin == me
    requires (forall b :: b in received ==> b.ServerBroadcast?) && LastNumber(received) > own
    ensures !Silent(received)
  {
    SilentIffComplete(changes, me, received);
    if FirstBroadcasts(changes, me, received) {
      FirstHasNoOwn(changes, me, received, own);
    }
  }

  // From the client's steps --------------------------------------------------------------------------

  /** Message `i` makes `validate_broadcast` fail in the state the client is in. */
  predicate GapFoundAt(states: seq<ClientState>, msgs: seq<ServerMessage>, i: nat)
    requires i < |states| && i < |msgs|
  {
    msgs[i].ServerBroadcast? && MissesBroadcast(states[i].lastSeq, msgs[i].seqNum)
  }

  lemma SilentOneMore(broadcasts: seq<ServerMessage>, b: ServerMessage)
    requires (forall x :: x in broadcasts + [b] ==> x.ServerBroadcast?)
    ensures (forall x :: x in broadcasts ==> x in broadcasts + [b])
    ensures Silent(broadcasts + [b]) <==> Silent(broadcasts) && !MissesBroadcast(LastNumber(broadcasts), b.seqNum)
  {
    assert forall x :: x in broadcasts ==> x in broadcasts + [b];
    assert (broadcasts + [b])[..|broadcasts|] == broadcasts;
    PrefixRaises(broadcasts + [b], |broadcasts|);
    assert RaisesAt(broadcasts + [b], |broadcasts|) == MissesBroadcast(LastNumber(broadcasts), b.seqNum);
  }

  ghost predicate NoGapFound(states: seq<ClientState>, msgs: seq<ServerMessage>)
    requires |states| == |msgs| + 1
  {
    forall i :: 0 <= i < |msgs| ==> !GapFoundAt(states, msgs, i)
  }

  lemma NoGapOneMore(states: seq<ClientState>, msgs: seq<ServerMessage>)
    requires |states| == |msgs| + 1 && msgs != []
    ensures NoGapFound(states, msgs) <==>
      NoGapFound(states[..|msgs|], msgs[..|msgs| - 1]) && !GapFoundAt(states, msgs, |msgs| - 1)
  {
    var n := |msgs| - 1;
    var earlier, init := states[..|msgs|], msgs[..n];
    forall i | 0 <= i < n
      ensures GapFoundAt(states, msgs, i) == GapFoundAt(earlier, init, i)
    {
    }
    if NoGapFound(states, msgs) {
      forall i | 0 <= i < n
        ensures !GapFoundAt(earlier, init, i)
      {
        assert !GapFoundAt(states, msgs, i);
      }
    }
  }

  lemma HandledPrefix(cfg: SinkConfig, oid: string, states: seq<ClientState>, msgs: seq<ServerMessage>)
    requires Handled(cfg, oid, states, msgs) && msgs != []
    ensures Handled(cfg, oid, states[..|msgs|], msgs[..|msgs| - 1])
  {
    var n := |msgs| - 1;
    forall i | 0 <= i < n
      ensures HandledAt(cfg, oid, states[..n + 1][i], msgs[..n][i], states[..n + 1][i + 1])
    {
      assert HandledAt(cfg, oid, states[i], msgs[i], states[i + 1]);
    }
  }

  lemma {:induction false} StepsSilent(cfg: SinkConfig, oid: string, states: seq<ClientState>, msgs: seq<ServerMessage>)
    requires Handled(cfg, oid, states, msgs) && states[0].lastSeq == 0
    ensures forall b :: b in Broadcasts(msgs) ==> b.ServerBroadcast?
    ensures NoGapFound(states, msgs) <==> Silent(Broadcasts(msgs))
  {
    BroadcastsAre(msgs);
    if msgs != [] {
      var n := |msgs| - 1;
      HandledPrefix(cfg, oid, states, msgs);
      StepsSilent(cfg, oid, states[..n + 1], msgs[..n]);
      ClientRemembersLast(cfg, oid, states[..n + 1], msgs[..n]);
      NoGapOneMore(states, msgs);
      if msgs[n].ServerBroadcast? {
        SilentOneMore(Broadcasts(msgs[..n]), msgs[n]);
      } else {
        assert Broadcasts(msgs) == Broadcasts(msgs[..n]);
      }
    }
  }

  /**
    A client that handles any messages, the broadcasts among them delivered in order, never finds a
    gap exactly when it got the group's broadcasts from the first on with none missing.
   */
  lemma ClientSilentIffComplete(cfg: SinkConfig, oid: string, states: seq<ClientState>, msgs: seq<ServerMessage>,
                                changes: seq<Change>, me: Origin)
    requires Handled(cfg, oid, states, msgs) && states[0].lastSeq == 0
    requires Delivered(changes, me, Broadcasts(msgs))
    ensures NoGapFound(states, msgs) <==> FirstBroadcasts(changes, me, Broadcasts(msgs))
  {
    StepsSilent(cfg, oid, states, msgs);
    SilentIffComplete(changes, me, Broadcasts(msgs));
  }
}
