/**
  What the server broadcasts: every growth of a group's document takes the next number, and the
  broadcasts carry exactly what the document gained.
 */
module ServerBroadcasts {
  import opened YrsDocument
  import opened CollabMessages
  import opened SinkSpec
  import opened SyncProtocol
  import opened BroadcastGaps

  // One client message -------------------------------------------------------------------------------

  /** What a protocol message that meets `outcome` brings to the document. */
  function Brings(y: YMessage, outcome: Outcome): set<Op> {
    if outcome.Applied? && (y.SyncStep2? || y.Update?) then y.update else {}
  }

  /** The document after the first `n` protocol messages of a payload. */
  function DocAfter(doc: Doc, p: Payload, outcomes: nat -> Outcome, n: nat): Doc
    requires n <= |p|
  {
    if n == 0 then doc else DocAfter(doc, p, outcomes, n - 1) + Brings(p[n - 1], outcomes(n - 1))
  }

  /** Protocol message `i` brings something new. */
  predicate GrowsAt(doc: Doc, p: Payload, outcomes: nat -> Outcome, i: nat)
    requires i < |p|
  {
    !(Brings(p[i], outcomes(i)) <= DocAfter(doc, p, outcomes, i))
  }

  /** The positions below `n` at which the document grows. */
  function Growths(doc: Doc, p: Payload, outcomes: nat -> Outcome, n: nat): seq<nat>
    requires n <= |p|
  {
    if n == 0 then []
    else Growths(doc, p, outcomes, n - 1) + if GrowsAt(doc, p, outcomes, n - 1) then [n - 1] else []
  }

  lemma {:induction false} GrowthsAre(doc: Doc, p: Payload, outcomes: nat -> Outcome, n: nat)
    requires n <= |p|
    ensures var at := Growths(doc, p, outcomes, n);
      && (forall j :: 0 <= j < |at| ==> at[j] < n && GrowsAt(doc, p, outcomes, at[j]))
      && (forall i: nat :: i < n && GrowsAt(doc, p, outcomes, i) ==> i in at)
      && forall j, k :: 0 <= j < k < |at| ==> at[j] < at[k]
  {
    if n > 0 {
      GrowthsAre(doc, p, outcomes, n - 1);
    }
  }

  /** The operations new at position `i`. */
  function NewAt(doc: Doc, p: Payload, outcomes: nat -> Outcome, i: nat): set<Op>
    requires i < |p|
  {
    Brings(p[i], outcomes(i)) - DocAfter(doc, p, outcomes, i)
  }

  lemma ServeGrows(before: Served, id: MsgId, y: YMessage, outcome: Outcome)
    ensures var after, added := ServeOne(before, id, y, outcome), Brings(y, outcome) - before.doc;
      && after.doc == before.doc + Brings(y, outcome)
      && (added == {} ==> after.seqNum == before.seqNum && after.broadcasts == before.broadcasts)
      && (added != {} ==>
            && after.seqNum == before.seqNum + 1
            && after.broadcasts == before.broadcasts + [ServerBroadcast([Update(added)], before.seqNum + 1)])
  {
    var after, brings := ServeOne(before, id, y, outcome), Brings(y, outcome);
    assert after.doc == before.doc + brings;
    assert (before.doc + brings) - before.doc == brings - before.doc;
    if brings - before.doc == {} {
      assert forall op :: op in brings ==> op in before.doc || op in brings - before.doc;
      assert before.doc + brings == before.doc;
    } else {
      var op :| op in brings - before.doc;
      assert op in after.doc && op !in before.doc;
    }
  }

  /** `served` is what the first `n` messages of a payload lead to. */
  ghost predicate IsNumbered(served: Served, doc: Doc, seqNum: nat, p: Payload, outcomes: nat -> Outcome, n: nat)
    requires n <= |p|
  {
    var at := Growths(doc, p, outcomes, n);
    && served.doc == DocAfter(doc, p, outcomes, n)
    && served.seqNum == seqNum + |at| && |served.broadcasts| == |at|
    && forall j :: 0 <= j < |at| ==> AnnouncesAt(served, doc, p, outcomes, at, seqNum, j)
  }

  ghost predicate AnnouncesAt(
    served: Served, doc: Doc, p: Payload, outcomes: nat -> Outcome, at: seq<nat>, seqNum: nat, j: nat)
    requires j < |at| && j < |served.broadcasts|
  {
    at[j] < |p| && served.broadcasts[j] == ServerBroadcast([Update(NewAt(doc, p, outcomes, at[j]))], seqNum + j + 1)
  }

  lemma NumberedOneMore(before: Served, doc: Doc, seqNum: nat, id: MsgId, p: Payload, outcomes: nat -> Outcome, n: nat)
    requires n < |p| && IsNumbered(before, doc, seqNum, p, outcomes, n)
    ensures IsNumbered(ServeOne(before, id, p[n], outcomes(n)), doc, seqNum, p, outcomes, n + 1)
  {
    var after := ServeOne(before, id, p[n], outcomes(n));
    var at := Growths(doc, p, outcomes, n);
    var at' := Growths(doc, p, outcomes, n + 1);
    ServeGrows(before, id, p[n], outcomes(n));
    forall j | 0 <= j < |at'|
      ensures AnnouncesAt(after, doc, p, outcomes, at', seqNum, j)
    {
      if j < |at| {
        assert AnnouncesAt(before, doc, p, outcomes, at, seqNum, j);
      }
    }
  }

  /**
    For every document, start number, payload and outcomes: the final number is the start number
    plus the number of growths, and growth `j` is broadcast with the number `seqNum + j + 1`,
    carrying exactly the operations that were new.
   */
  lemma {:induction false} GrowthsAreNumbered(
    doc: Doc, seqNum: nat, id: MsgId, p: Payload, outcomes: nat -> Outcome, n: nat)
    requires n <= |p|
    ensures IsNumbered(Serve(doc, seqNum, id, p[..n], outcomes), doc, seqNum, p, outcomes, n)
  {
    if n == 0 {
      assert p[..0] == [];
    } else {
      GrowthsAreNumbered(doc, seqNum, id, p, outcomes, n - 1);
      ServeOneMore(doc, seqNum, id, p, n - 1, outcomes);
      NumberedOneMore(Serve(doc, seqNum, id, p[..n - 1], outcomes), doc, seqNum, id, p, outcomes, n - 1);
    }
  }

  // Any run of client messages -----------------------------------------------------------------------

  /** One client message, who sent it, and what its protocol messages meet. */
  datatype Request = Request(origin: Origin, message: ClientMessage, outcomes: nat -> Outcome)

  /** A group serves messages one after the other; its numbers start at 0. */
  function ServeAll(doc: Doc, requests: seq<Request>): Served {
    if requests == [] then Served(doc, 0, [], [])
    else
      var before, last := ServeAll(doc, requests[..|requests| - 1]), requests[|requests| - 1];
      var served := Serve(before.doc, before.seqNum, last.message.id, last.message.payload, last.outcomes);
      Served(served.doc, served.seqNum, before.acks + served.acks, before.broadcasts + served.broadcasts)
  }

  /** The changes that the first `n` protocol messages of a request make to the document. */
  function ChangesOf(doc: Doc, r: Request, n: nat): seq<Change>
    requires n <= |r.message.payload|
  {
    var p := r.message.payload;
    if n == 0 then []
    else
      ChangesOf(doc, r, n - 1) +
      if GrowsAt(doc, p, r.outcomes, n - 1) then [Change(r.origin, [Update(NewAt(doc, p, r.outcomes, n - 1))])] else []
  }

  function DocAfterAll(doc: Doc, requests: seq<Request>): Doc {
    if requests == [] then doc
    else
      var before, last := DocAfterAll(doc, requests[..|requests| - 1]), requests[|requests| - 1];
      DocAfter(before, last.message.payload, last.outcomes, |last.message.payload|)
  }

  /** Every change of the document, in order. */
  function AllChanges(doc: Doc, requests: seq<Request>): seq<Change> {
    if requests == [] then []
    else
      var before, last := DocAfterAll(doc, requests[..|requests| - 1]), requests[|requests| - 1];
      AllChanges(doc, requests[..|requests| - 1]) + ChangesOf(before, last, |last.message.payload|)
  }

  lemma {:induction false} ChangesAtGrowths(doc: Doc, r: Request, n: nat)
    requires n <= |r.message.payload|
    ensures var at := Growths(doc, r.message.payload, r.outcomes, n);
      && |ChangesOf(doc, r, n)| == |at|
      && forall j :: 0 <= j < |at| ==> ChangesAt(doc, r, n, at, j)
  {
    if n > 0 {
      ChangesAtGrowths(doc, r, n - 1);
      var at := Growths(doc, r.message.payload, r.outcomes, n - 1);
      var at' := Growths(doc, r.message.payload, r.outcomes, n);
      forall j | 0 <= j < |at'|
        ensures ChangesAt(doc, r, n, at', j)
      {
        if j < |at| {
          assert ChangesAt(doc, r, n - 1, at, j);
        }
      }
    }
  }

  ghost predicate ChangesAt(doc: Doc, r: Request, n: nat, at: seq<nat>, j: nat)
    requires n <= |r.message.payload| && j < |at|
  {
    && j < |ChangesOf(doc, r, n)| && at[j] < |r.message.payload|
    && ChangesOf(doc, r, n)[j] == Change(r.origin, [Update(NewAt(doc, r.message.payload, r.outcomes, at[j]))])
  }

  /** `broadcasts` are the broadcasts of `changes`, numbered from 1. */
  ghost predicate AllNumbered(changes: seq<Change>, broadcasts: seq<ServerMessage>) {
    && |broadcasts| == |changes|
    && forall i :: 0 <= i < |changes| ==> broadcasts[i] == Numbered(changes, i)
  }

  /** One more request continues the numbering. */
  lemma RequestNumbered(changes: seq<Change>, broadcasts: seq<ServerMessage>, doc: Doc, r: Request)
    requires AllNumbered(changes, broadcasts)
    ensures var p := r.message.payload;
      var served := Serve(doc, |changes|, r.message.id, p, r.outcomes);
      var more := ChangesOf(doc, r, |p|);
      && served.doc == DocAfter(doc, p, r.outcomes, |p|) && served.seqNum == |changes| + |more|
      && AllNumbered(changes + more, broadcasts + served.broadcasts)
  {
    var p := r.message.payload;
    GrowthsAreNumbered(doc, |changes|, r.message.id, p, r.outcomes, |p|);
    assert p[..|p|] == p;
    ChangesAtGrowths(doc, r, |p|);
    var served, at := Serve(doc, |changes|, r.message.id, p, r.outcomes), Growths(doc, p, r.outcomes, |p|);
    var all := changes + ChangesOf(doc, r, |p|);
    forall i | 0 <= i < |all|
      ensures (broadcasts + served.broadcasts)[i] == Numbered(all, i)
    {
      if i >= |changes| {
        assert AnnouncesAt(served, doc, p, r.outcomes, at, |changes|, i - |changes|);
        assert ChangesAt(doc, r, |p|, at, i - |changes|);
      }
    }
  }

  /** A run of client messages yields the broadcasts 1 to n, one for each change of the document. */
  lemma {:induction false} RunsAreNumbered(doc: Doc, requests: seq<Request>)
    ensures var served, changes := ServeAll(doc, requests), AllChanges(doc, requests);
      && served.doc == DocAfterAll(doc, requests) && served.seqNum == |changes|
      && AllNumbered(changes, served.broadcasts)
  {
    if requests != [] {
      var init := requests[..|requests| - 1];
      RunsAreNumbered(doc, init);
      var last := requests[|requests| - 1];
      RequestNumbered(AllChanges(doc, init), ServeAll(doc, init).broadcasts, DocAfterAll(doc, init), last);
    }
  }

  // What the broadcasts carry ------------------------------------------------------------------------

  /** Change `i` carries `op`. */
  ghost predicate CarriedIn(changes: seq<Change>, i: nat, op: Op) {
    i < |changes| && op in PayloadOps(changes[i].payload)
  }

  /** Each operation that `after` has and `before` has not is carried by exactly one change, and no other is. */
  ghost predicate CarryGrowth(changes: seq<Change>, before: Doc, after: Doc) {
    && before <= after
    && (forall op :: op in after - before ==> exists i :: CarriedIn(changes, i, op))
    && (forall op, i :: CarriedIn(changes, i, op) ==> op in after - before)
    && forall op, i, j :: CarriedIn(changes, i, op) && CarriedIn(changes, j, op) ==> i == j
  }

  lemma OneCarries(origin: Origin, before: Doc, brings: set<Op>)
    ensures CarryGrowth([Change(origin, [Update(brings - before)])], before, before + brings)
  {
    var changes := [Change(origin, [Update(brings - before)])];
    SingletonOps(Update(brings - before));
    forall op | op in (before + brings) - before
      ensures exists i :: CarriedIn(changes, i, op)
    {
      assert CarriedIn(changes, 0, op);
    }
  }

  lemma SumCarries(a: seq<Change>, b: seq<Change>, before: Doc, middle: Doc, after: Doc)
    requires CarryGrowth(a, before, middle) && CarryGrowth(b, middle, after)
    ensures CarryGrowth(a + b, before, after)
  {
    var all := a + b;
    forall op, i: nat | CarriedIn(all, i, op)
      ensures if i < |a| then CarriedIn(a, i, op) else CarriedIn(b, i - |a|, op)
    {
    }
    forall op | op in after - before
      ensures exists i :: CarriedIn(all, i, op)
    {
      if op in middle {
        assert op in middle - before;
        var i :| CarriedIn(a, i, op);
        assert CarriedIn(all, i, op);
      } else {
        assert op in after - middle;
        var i :| CarriedIn(b, i, op);
        assert CarriedIn(all, |a| + i, op);
      }
    }
  }

  lemma {:induction false} RequestCarries(doc: Doc, r: Request, n: nat)
    requires n <= |r.message.payload|
    ensures CarryGrowth(ChangesOf(doc, r, n), doc, DocAfter(doc, r.message.payload, r.outcomes, n))
  {
    if n > 0 {
      var p := r.message.payload;
      var before, brings := DocAfter(doc, p, r.outcomes, n - 1), Brings(p[n - 1], r.outcomes(n - 1));
      RequestCarries(doc, r, n - 1);
      if GrowsAt(doc, p, r.outcomes, n - 1) {
        OneCarries(r.origin, before, brings);
        SumCarries(ChangesOf(doc, r, n - 1), [Change(r.origin, [Update(brings - before)])], doc, before, before + brings);
      } else {
        assert before + brings == before;
        assert ChangesOf(doc, r, n) == ChangesOf(doc, r, n - 1);
      }
    }
  }

  /**
    Over any run of client messages, the broadcasts carry exactly what the document gained, each
    operation once: whoever starts with the same document and gets them all ends with the same.
   */
  lemma {:induction false} BroadcastsCarryGrowth(doc: Doc, requests: seq<Request>)
    ensures CarryGrowth(AllChanges(doc, requests), doc, ServeAll(doc, requests).doc)
  {
    RunsAreNumbered(doc, requests);
    if requests != [] {
      var init, last := requests[..|requests| - 1], requests[|requests| - 1];
      BroadcastsCarryGrowth(doc, init);
      RunsAreNumbered(doc, init);
      RequestCarries(DocAfterAll(doc, init), last, |last.message.payload|);
      SumCarries(AllChanges(doc, init), ChangesOf(DocAfterAll(doc, init), last, |last.message.payload|),
                 doc, DocAfterAll(doc, init), DocAfterAll(doc, requests));
    }
  }

  // Up to the client -----------------------------------------------------------------------------------

  /** The broadcasts of the run from the first on, none missing and none of the subscriber's own. */
  ghost predicate StartsRun(doc: Doc, requests: seq<Request>, me: Origin, received: seq<ServerMessage>) {
    && received <= ServeAll(doc, requests).broadcasts
    && |received| <= |AllChanges(doc, requests)|
    && forall i :: 0 <= i < |received| ==> AllChanges(doc, requests)[i].origin != me
  }

  /**
    A client of a group that serves any messages never finds a gap exactly when the broadcasts it
    got are the first ones the group sent, none missing and none its own.
   */
  lemma SilentIffStartsRun(cfg: SinkConfig, oid: string, states: seq<ClientState>, msgs: seq<ServerMessage>,
                           doc: Doc, requests: seq<Request>, me: Origin)
    requires BroadcastGaps.Handled(cfg, oid, states, msgs) && states[0].lastSeq == 0
    requires Delivered(AllChanges(doc, requests), me, Broadcasts(msgs))
    ensures NoGapFound(states, msgs) <==> StartsRun(doc, requests, me, Broadcasts(msgs))
  {
    RunsAreNumbered(doc, requests);
    ClientSilentIffComplete(cfg, oid, states, msgs, AllChanges(doc, requests), me);
  }
}
