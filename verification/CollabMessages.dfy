/**
  The messages a client exchanges with the collaboration server, their priority order, and the
  merging of two queued updates (`lib/realtime-entity/src/collab_msg.rs`).
 */
module CollabMessages {
  import opened PriorityHeap
  import opened YrsDocument

  type MsgId = nat

  /**
    One `Message` of the y-sync protocol inside a payload. `BadUpdate` stands for an update whose
    bytes `yrs` cannot decode; `PayloadMeaning` says which bytes stand for which message.
   */
  datatype YMessage =
    | SyncStep1(sv: StateVector)
    | SyncStep2(update: set<Op>)
    | Update(update: set<Op>)
    | BadUpdate
    | Awareness
    | Auth(denied: bool)
    | Custom

  /** A payload is the sequence of messages a `MessageReader` reads from it. */
  type Payload = seq<YMessage>

  datatype ClientMessage =
    | ClientInitSync(objectId: string, id: MsgId, payload: Payload)
    | ClientUpdateSync(objectId: string, id: MsgId, payload: Payload)
    | ServerInitSync(objectId: string, id: MsgId, payload: Payload)
    | ClientAwarenessSync(objectId: string, id: MsgId, payload: Payload)

  datatype AckCode = Success | CannotApplyUpdate | Retry | Internal

  datatype ServerMessage =
    | ClientAck(msgId: MsgId, payload: Payload, code: AckCode)
    | ServerBroadcast(payload: Payload, seqNum: nat)
    | AwarenessSync(payload: Payload)

  // Priority -------------------------------------------------------------------------------

  datatype Ordering = Less | Equal | Greater

  function CompareIds(a: MsgId, b: MsgId): Ordering {
    if a < b then Less else if a == b then Equal else Greater
  }

  function Reverse(o: Ordering): Ordering {
    match o
    case Less => Greater
    case Equal => Equal
    case Greater => Less
  }

  /** `Ord::cmp` of `ClientCollabMessage`; a heap pops a `Greater` message first. */
  function Compare(a: ClientMessage, b: ClientMessage): Ordering {
    match (a, b)
    case (ClientInitSync(_, _, _), ClientInitSync(_, _, _)) => Equal
    case (ClientInitSync(_, _, _), _) => Greater
    case (_, ClientInitSync(_, _, _)) => Less
    case (ServerInitSync(_, _, _), ServerInitSync(_, _, _)) => Equal
    case (ServerInitSync(_, _, _), _) => Greater
    case (_, ServerInitSync(_, _, _)) => Less
    case _ => Reverse(CompareIds(a.id, b.id))
  }

  /** The pop position that `Compare` gives a message. */
  function MessageRank(m: ClientMessage): Rank {
    match m
    case ClientInitSync(_, _, _) => Rank(0, 0)
    case ServerInitSync(_, _, _) => Rank(1, 0)
    case _ => Rank(2, m.id)
  }

  /** `Compare` is the total preorder that `MessageRank` spells out. */
  lemma CompareIsRank(a: ClientMessage, b: ClientMessage)
    ensures Compare(a, b) != Less <==> NotAfter(MessageRank(a), MessageRank(b))
    ensures Compare(a, b) == Equal <==> MessageRank(a) == MessageRank(b)
    ensures Compare(b, a) == Reverse(Compare(a, b))
  {
  }

  // Operations carried -----------------------------------------------------------------------

  function YMessageOps(y: YMessage): set<Op> {
    if y.SyncStep2? || y.Update? then y.update else {}
  }

  /** The document operations in a payload. */
  function PayloadOps(p: Payload): set<Op> {
    if p == [] then {} else PayloadOps(p[..|p| - 1]) + YMessageOps(p[|p| - 1])
  }

  function MessageOps(m: ClientMessage): set<Op> {
    PayloadOps(m.payload)
  }

  lemma SingletonOps(y: YMessage)
    ensures PayloadOps([y]) == YMessageOps(y)
  {
    assert [y][..0] == [];
  }

  // Merging ----------------------------------------------------------------------------------

  datatype MergeResult = Merged(message: ClientMessage) | Unchanged | Failed

  /** `UpdateSync::as_update` looks at the first message of the payload only. */
  predicate StartsWithUpdate(p: Payload) {
    p != [] && (p[0].Update? || p[0].BadUpdate?)
  }

  /** `UpdateSync::merge_payload`. */
  function MergePayload(a: ClientMessage, b: ClientMessage): MergeResult {
    if StartsWithUpdate(a.payload) && StartsWithUpdate(b.payload) then
      if a.payload[0].Update? && b.payload[0].Update? then
        Merged(a.(payload := [Update(a.payload[0].update + b.payload[0].update)]))
      else
        Failed
    else
      Unchanged
  }

  /** `CollabSinkMessage::merge` of `ClientCollabMessage`; `Unchanged` is `Ok(false)`. */
  function Merge(a: ClientMessage, b: ClientMessage, sizeOf: Payload -> nat, maxPayload: nat): MergeResult {
    if a.ClientUpdateSync? && b.ClientUpdateSync? then
      if sizeOf(a.payload) > maxPayload then Unchanged else MergePayload(a, b)
    else
      Unchanged
  }

  /** A message whose payload is exactly one document update. */
  predicate IsDocumentUpdate(m: ClientMessage) {
    m.ClientUpdateSync? && |m.payload| == 1 && m.payload[0].Update?
  }
}
