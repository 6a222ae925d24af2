/**
  The sending queue makes progress: batches are as long as they may be, what is acknowledged in turn
  leaves the queue, and merging leaves no two updates apart that it could have folded together.
 */
module SinkProgress {
  import opened PriorityHeap
  import opened CollabMessages
  import opened SinkSpec

  // Batches are maximal ------------------------------------------------------------------------------

  /** The next message that the selection could pop is flying. */
  ghost predicate TopIsFlying(rest: multiset<ClientMessage>, flying: set<MsgId>) {
    exists m :: IsTop(MessageRank, rest, m) && m.id in flying
  }

  /** A batch of fewer than 21 messages that does not end with an init sync took all it could. */
  lemma BatchIsMaximal(
    queue: multiset<ClientMessage>, flying: set<MsgId>, batch: seq<ClientMessage>, rest: multiset<ClientMessage>)
    requires IsBatch(queue, flying, batch, rest)
    ensures |batch| <= 21
    ensures |batch| < 21 && (batch == [] || !batch[|batch| - 1].ClientInitSync?) ==>
      rest == multiset{} || TopIsFlying(rest, flying)
    ensures queue != multiset{} && (forall m :: m in queue ==> m.id !in flying) ==>
      batch != [] && (|batch| == 21 || batch[|batch| - 1].ClientInitSync? || multiset(batch) == queue)
  {
    if queue != multiset{} && forall m :: m in queue ==> m.id !in flying {
      assert batch == [] ==> rest == queue;
      assert !TopIsFlying(rest, flying);
    }
  }

  // Sending in rounds --------------------------------------------------------------------------------

  /** The timer fires, a batch is sent, and its first message is acknowledged and accepted. */
  ghost predicate Round(s: Sink, batch: seq<ClientMessage>, behind: multiset<ClientMessage>, s': Sink) {
    var idle := TimerFired(s);
    && IsBatch(idle.queue, idle.flying, batch, behind) && batch != []
    && Acknowledged(WithFlying(idle, batch), batch[0].id, true, s')
  }

  /** `n` rounds lead from `s` to `s'`. */
  ghost predicate Rounds(s: Sink, n: nat, s': Sink)
    decreases n, 1
  {
    if n == 0 then s' == s else exists batch, behind, mid :: FirstRound(s, n, batch, behind, mid, s')
  }

  ghost predicate FirstRound(
    s: Sink, n: nat, batch: seq<ClientMessage>, behind: multiset<ClientMessage>, mid: Sink, s': Sink)
    requires n > 0
    decreases n, 0
  {
    Round(s, batch, behind, mid) && Rounds(mid, n - 1, s')
  }

  /** Every round takes exactly the acknowledged message off, and the last one finishes. */
  lemma RoundTakesOne(s: Sink, batch: seq<ClientMessage>, behind: multiset<ClientMessage>, s': Sink)
    requires Round(s, batch, behind, s')
    ensures exists m :: m in s.queue && m.id == batch[0].id && s'.queue == s.queue - multiset{m}
    ensures |s'.queue| == |s.queue| - 1 && batch[0].id !in s'.flying
    ensures s'.queue == multiset{} ==> s'.status == Finished
  {
    var sent, id := WithFlying(TimerFired(s), batch), batch[0].id;
    var top :| AcknowledgedTop(sent, id, top, true, s');
    assert s'.queue == s.queue - multiset{top};
  }

  /** The acknowledgement of the message at the head of the queue, if no other ties with it, is accepted. */
  lemma HeadAckAccepted(s: Sink, head: ClientMessage, valid: bool, s': Sink)
    requires Acknowledged(s, head.id, valid, s') && head.id in s.flying && head in s.queue
    requires forall m :: IsTop(MessageRank, s.queue, m) ==> m == head
    ensures valid && s'.queue == s.queue - multiset{head} && s'.flying == s.flying - {head.id}
    ensures s'.status == (if s'.queue == multiset{} then Finished else s.status)
  {
  }

  /** An acknowledgement out of turn, or of what is not flying, takes nothing off the queue. */
  lemma OtherAckIgnored(s: Sink, id: MsgId, valid: bool, s': Sink)
    requires Acknowledged(s, id, valid, s')
    requires id !in s.flying || forall m :: IsTop(MessageRank, s.queue, m) ==> m.id != id
    ensures !valid && s'.queue == s.queue && s'.flying == s.flying
  {
  }

  lemma CanRound(s: Sink) returns (batch: seq<ClientMessage>, behind: multiset<ClientMessage>, s': Sink)
    requires s.queue != multiset{}
    ensures Round(s, batch, behind, s')
  {
    batch, behind := SomeBatch(s.queue);
    var sent, head := WithFlying(TimerFired(s), batch), batch[0];
    PopsTakeTops(MessageRank, s.queue, batch, behind, 0);
    assert batch[0..] == batch;
    assert head in batch && head.id in Ids(batch);
    s' := Popped(sent, head);
    assert AcknowledgedTop(sent, head.id, head, true, s');
  }

  /** A queue from which nothing is flying has a batch; popping one by one finds it. */
  lemma SomeBatch(queue: multiset<ClientMessage>) returns (batch: seq<ClientMessage>, rest: multiset<ClientMessage>)
    requires queue != multiset{}
    ensures IsBatch(queue, {}, batch, rest) && batch != []
  {
    PopNone(MessageRank, queue);
    batch, rest := ExtendBatch(queue, [], queue);
    BatchIsMaximal(queue, {}, batch, rest);
  }

  lemma {:induction false} ExtendBatch(
    queue: multiset<ClientMessage>, start: seq<ClientMessage>, left: multiset<ClientMessage>)
    returns (batch: seq<ClientMessage>, rest: multiset<ClientMessage>)
    requires BatchPrefix(queue, {}, start, left)
    ensures IsBatch(queue, {}, batch, rest)
    decreases |left|
  {
    if |start| == MAX_BATCH || (start != [] && start[|start| - 1].ClientInitSync?) || left == multiset{} {
      batch, rest := start, left;
    } else {
      TopExists(MessageRank, left);
      var item :| IsTop(MessageRank, left, item);
      PopOneMore(MessageRank, queue, start, left, item);
      batch, rest := ExtendBatch(queue, start + [item], left - multiset{item});
    }
  }

  /** The first of several rounds takes one message. */
  lemma FirstTakesOne(s: Sink, n: nat, s': Sink) returns (mid: Sink)
    requires n > 0 && Rounds(s, n, s')
    ensures Rounds(mid, n - 1, s') && |mid.queue| == |s.queue| - 1
    ensures mid.queue == multiset{} ==> mid.status == Finished
  {
    var batch, behind, next :| FirstRound(s, n, batch, behind, next, s');
    RoundTakesOne(s, batch, behind, next);
    mid := next;
  }

  /**
    However the network behaved before, once batches and answers get through, as many rounds as
    there are messages can be made, and they leave the queue empty and the sink finished.
   */
  lemma {:induction false} RoundsFinish(s: Sink, n: nat, s': Sink)
    requires Rounds(s, n, s')
    ensures n <= |s.queue| && |s'.queue| == |s.queue| - n
    ensures n > 0 && s'.queue == multiset{} ==> s'.status == Finished
    decreases n
  {
    if n > 0 {
      var mid := FirstTakesOne(s, n, s');
      RoundsFinish(mid, n - 1, s');
    }
  }

  lemma {:induction false} CanFinish(s: Sink) returns (s': Sink)
    ensures Rounds(s, |s.queue|, s')
    decreases |s.queue|
  {
    if s.queue == multiset{} {
      s' := s;
    } else {
      var batch, behind, mid := CanRound(s);
      RoundTakesOne(s, batch, behind, mid);
      s' := CanFinish(mid);
      assert FirstRound(s, |s.queue|, batch, behind, mid, s');
    }
  }

  // Merging is maximal -------------------------------------------------------------------------------

  /** The payload does not start with an update that cannot be decoded. */
  predicate StartsWell(m: ClientMessage) {
    m.payload == [] || !m.payload[0].BadUpdate?
  }

  /** Kept messages `i` and `i + 1` do not fold together. */
  ghost predicate ApartAt(cfg: SinkConfig, flying: set<MsgId>, kept: seq<ClientMessage>, i: nat)
    requires i + 1 < |kept|
  {
    var a, b := kept[i], kept[i + 1];
    a.id !in flying && b.id !in flying && IsDocumentUpdate(a) && StartsWell(b) ==> cfg.sizeOf(a.payload) >= cfg.maxPayload
  }

  ghost predicate AllApart(cfg: SinkConfig, flying: set<MsgId>, kept: seq<ClientMessage>) {
    forall i :: 0 <= i && i + 1 < |kept| ==> ApartAt(cfg, flying, kept, i)
  }

  /** Two updates fold into one under the first id while the first is within the limit, and beyond it not at all. */
  lemma MergeOfUpdates(a: ClientMessage, b: ClientMessage, sizeOf: Payload -> nat, maxPayload: nat)
    requires IsDocumentUpdate(a) && IsDocumentUpdate(b)
    ensures sizeOf(a.payload) > maxPayload ==> Merge(a, b, sizeOf, maxPayload) == Unchanged
    ensures sizeOf(a.payload) <= maxPayload ==>
      Merge(a, b, sizeOf, maxPayload) ==
        Merged(ClientUpdateSync(a.objectId, a.id, [Update(a.payload[0].update + b.payload[0].update)]))
  {
  }

  lemma AbsorbStartsWell(cfg: SinkConfig, flying: set<MsgId>, last: ClientMessage, next: ClientMessage)
    requires Absorbs(cfg, flying, last, next)
    ensures Absorb(cfg, last, next).id == last.id
    ensures StartsWell(Absorb(cfg, last, next)) ==> StartsWell(last)
  {
  }

  lemma NotAbsorbedIsApart(cfg: SinkConfig, flying: set<MsgId>, last: ClientMessage, next: ClientMessage)
    requires last.id !in flying && IsDocumentUpdate(last) && StartsWell(next) && !Absorbs(cfg, flying, last, next)
    ensures cfg.sizeOf(last.payload) >= cfg.maxPayload
  {
  }

  lemma NextApart(cfg: SinkConfig, flying: set<MsgId>, kept: seq<ClientMessage>, next: ClientMessage)
    requires AllApart(cfg, flying, kept)
    ensures AllApart(cfg, flying, MergeNext(cfg, flying, kept, next))
  {
    var kept' := MergeNext(cfg, flying, kept, next);
    forall i | 0 <= i && i + 1 < |kept'|
      ensures ApartAt(cfg, flying, kept', i)
    {
      if i + 1 < |kept| {
        assert ApartAt(cfg, flying, kept, i);
        if kept'[i + 1] != kept[i + 1] {
          AbsorbStartsWell(cfg, flying, kept[i + 1], next);
        }
      } else {
        var a := kept[i];
        if a.id !in flying && next.id !in flying && IsDocumentUpdate(a) && StartsWell(next) {
          NotAbsorbedIsApart(cfg, flying, a, next);
        }
      }
    }
  }

  /**
    After a merge pass, of two neighbours that are not flying the first is no document update that
    could take in the second: it has reached the size limit, or the second cannot be decoded.
   */
  lemma {:induction false} PassKeepsApart(cfg: SinkConfig, flying: set<MsgId>, popped: seq<ClientMessage>)
    ensures AllApart(cfg, flying, MergePass(cfg, flying, popped))
  {
    if popped != [] {
      var init := popped[..|popped| - 1];
      PassKeepsApart(cfg, flying, init);
      NextApart(cfg, flying, MergePass(cfg, flying, init), popped[|popped| - 1]);
    }
  }
}
