/**
  The part of a `yrs` document that synchronisation depends on.

  A document is the set of operations it holds. An update is a set of operations; applying an
  update and `merge_updates_v1` are set union. A state vector gives, for each client, the first
  clock value the document lacks, so it covers the gap-free run of that client's insertions.
  `encode_state_as_update_v1(sv)` sends what `sv` does not cover; deletions are not counted by
  state vectors and are always sent.
 */
module YrsDocument {

  datatype Op = Insert(client: nat, clock: nat) | Delete(client: nat, clock: nat)

  type Doc = set<Op>

  type StateVector = map<nat, nat>

  predicate Covers(sv: StateVector, op: Op) {
    op.Insert? && op.client in sv && op.clock < sv[op.client]
  }

  /** `encode_state_as_update_v1`: the operations of `doc` that `sv` does not cover. */
  function Missing(doc: Doc, sv: StateVector): (update: set<Op>) {
    set op | op in doc && !Covers(sv, op)
  }

  ghost function FromClock(doc: Doc, client: nat, clock: nat): set<Op> {
    set op | op in doc && op.Insert? && op.client == client && clock <= op.clock
  }

  /** The first clock at or after `from` whose insertion by `client` is not in `doc`. */
  function FirstGap(doc: Doc, client: nat, from: nat): (gap: nat)
    ensures from <= gap && Insert(client, gap) !in doc
    ensures forall k :: from <= k < gap ==> Insert(client, k) in doc
    decreases |FromClock(doc, client, from)|
  {
    if Insert(client, from) in doc then
      assert FromClock(doc, client, from) == FromClock(doc, client, from + 1) + {Insert(client, from)};
      FirstGap(doc, client, from + 1)
    else
      from
  }

  /** `state_vector()`. */
  function StateVectorOf(doc: Doc): (sv: StateVector)
    ensures forall op :: Covers(sv, op) ==> op in doc
  {
    map c | c in (set op | op in doc && op.Insert? :: op.client) :: FirstGap(doc, c, 0)
  }

  /** Every insertion of client `c` up to clock `k` is in `doc`. */
  ghost predicate HoldsRun(doc: Doc, c: nat, k: nat) {
    forall j: nat :: j <= k ==> Insert(c, j) in doc
  }

  /** A state vector covers an insertion exactly when the document holds its client's run up to it. */
  lemma StateVectorExact(doc: Doc, op: Op)
    ensures Covers(StateVectorOf(doc), op) <==> op.Insert? && HoldsRun(doc, op.client, op.clock)
  {
    if op.Insert? && HoldsRun(doc, op.client, op.clock) {
      assert op in doc;
      assert op.client in StateVectorOf(doc);
    }
  }

  /**
    What one replica sends against another's state vector, together with what the other holds,
    is everything the first replica holds. This is all that the protocol proofs use, and it
    holds for documents with gaps and deletions too.
   */
  lemma MissingComplete(doc: Doc, other: Doc)
    ensures doc <= Missing(doc, StateVectorOf(other)) + other
    ensures Missing(doc, StateVectorOf(other)) <= doc
  {
    var sv := StateVectorOf(other);
    forall op | op in doc
      ensures op in Missing(doc, sv) + other
    {
      if Covers(sv, op) {
        assert op in other;
      }
    }
  }
}
