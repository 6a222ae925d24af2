/**
  Snowflake identifiers (`lib/snowflake/src/lib.rs`): milliseconds since an epoch, a node number
  and a sequence number, packed into 64 bits. Arithmetic that Rust checks panics; shifts drop what
  leaves 64 bits, and the cast to `i64` reinterprets them.
 */
module SnowflakeIds {
  import opened Integers

  const EPOCH := 1637806706000
  const NODE_LIMIT := 0x400
  const SEQUENCE_LIMIT := 0x1000
  const NODE_ID_SHIFT := 12
  const TIMESTAMP_SHIFT := 22
  const TIME_LIMIT := 0x200_0000_0000
  const I64_LIMIT := 0x8000_0000_0000_0000

  // Bits ---------------------------------------------------------------------------------------------

  function Pow2(k: nat): (p: nat)
    ensures p > 0
  {
    if k == 0 then 1 else 2 * Pow2(k - 1)
  }

  function BitOr(a: nat, b: nat): nat {
    if a == 0 && b == 0 then 0
    else 2 * BitOr(a / 2, b / 2) + if a % 2 == 1 || b % 2 == 1 then 1 else 0
  }

  function ShiftLeft(a: nat, k: nat): nat {
    a * Pow2(k) % U64_LIMIT
  }

  function AsI64(n: nat): int
    requires n < U64_LIMIT
  {
    if n < I64_LIMIT then n else n - U64_LIMIT
  }

  lemma {:induction false} OrZero(a: nat)
    ensures BitOr(a, 0) == a
  {
    if a > 0 {
      OrZero(a / 2);
    }
  }

  /** Bits that do not overlap add up. */
  lemma {:induction false} OrDisjoint(a: nat, b: nat, k: nat)
    requires b < Pow2(k)
    ensures BitOr(a * Pow2(k), b) == a * Pow2(k) + b
    decreases k
  {
    if k == 0 {
      OrZero(a);
    } else {
      var high := a * Pow2(k - 1);
      assert a * Pow2(k) == 2 * high;
      OrDisjoint(a, b / 2, k - 1);
    }
  }

  lemma Powers()
    ensures Pow2(10) == NODE_LIMIT && Pow2(12) == SEQUENCE_LIMIT && Pow2(22) == 0x40_0000
  {
    assert Pow2(4) == 16;
    assert Pow2(8) == 256;
    assert Pow2(12) == 4096;
    assert Pow2(16) == 0x1_0000;
    assert Pow2(20) == 0x10_0000;
  }

  // The generator ------------------------------------------------------------------------------------

  datatype Generator = Generator(nodeId: nat, sequence: nat, lastTimestamp: nat)

  datatype Outcome = Panicked | Made(id: int)

  function Packed(time: nat, node: nat, sequence: nat): int {
    AsI64(BitOr(BitOr(ShiftLeft(time, TIMESTAMP_SHIFT), ShiftLeft(node, NODE_ID_SHIFT)), sequence) % U64_LIMIT)
  }

  function NextSequence(g: Generator, timestamp: nat): nat {
    if timestamp == g.lastTimestamp then (g.sequence + 1) % SEQUENCE_LIMIT else 0
  }

  /** The call has to wait for the clock before it returns. */
  predicate Wraps(g: Generator, timestamp: nat) {
    timestamp == g.lastTimestamp && NextSequence(g, timestamp) == 0
  }

  /** The generator after `next_id` at a clock reading `timestamp`; waiting does not change it. */
  function Advanced(g: Generator, timestamp: nat): Generator {
    if timestamp < g.lastTimestamp then g
    else Generator(g.nodeId, NextSequence(g, timestamp), timestamp)
  }

  class Snowflake {
    const nodeId: nat
    var sequence: nat
    var lastTimestamp: nat

    constructor (nodeId: nat)
      ensures View() == Generator(nodeId, 0, 0)
    {
      this.nodeId := nodeId;
      sequence, lastTimestamp := 0, 0;
    }

    function View(): Generator
      reads this
    {
      Generator(nodeId, sequence, lastTimestamp)
    }

    /**
      `clock` is what the system clock says from now on, reading by reading; `read` counts the
      readings the call used. A clock that never moved on would keep the call waiting.
     */
    method Next(clock: seq<nat>) returns (outcome: Outcome, read: nat)
      requires clock != []
      requires Wraps(View(), clock[0]) ==> exists k :: 0 < k < |clock| && clock[k] != clock[0]
      modifies this
      ensures View() == Advanced(old(View()), clock[0])
      ensures outcome.Panicked? <==> clock[0] < old(View()).lastTimestamp || clock[0] < EPOCH
      ensures outcome.Made? ==> outcome.id == Packed(clock[0] - EPOCH, nodeId, sequence)
      ensures 0 < read <= |clock|
      ensures outcome.Made? && Wraps(old(View()), clock[0]) ==> clock[read - 1] != clock[0]
    {
      var timestamp := clock[0];
      read := 1;
      if timestamp < lastTimestamp {
        return Panicked, read;
      }
      read := Advance(timestamp, clock);
      if timestamp < EPOCH {
        return Panicked, read;
      }
      outcome := Made(Packed(timestamp - EPOCH, nodeId, sequence));
    }

    /** The part of `next_id` that numbers the call, and waits when the numbers run out. */
    method Advance(timestamp: nat, clock: seq<nat>) returns (read: nat)
      requires clock != [] && timestamp == clock[0] && timestamp >= lastTimestamp
      requires Wraps(View(), timestamp) ==> exists k :: 0 < k < |clock| && clock[k] != timestamp
      modifies this
      ensures View() == Advanced(old(View()), timestamp)
      ensures 0 < read <= |clock|
      ensures Wraps(old(View()), timestamp) ==> clock[read - 1] != timestamp
    {
      read := 1;
      if timestamp == lastTimestamp {
        sequence := (sequence + 1) % SEQUENCE_LIMIT;
        if sequence == 0 {
          read := WaitNextMillis(clock);
        }
      } else {
        sequence := 0;
      }
      lastTimestamp := timestamp;
    }

    method WaitNextMillis(clock: seq<nat>) returns (read: nat)
      requires exists k :: 0 < k < |clock| && clock[k] != lastTimestamp
      ensures 1 < read <= |clock| && clock[read - 1] != lastTimestamp
      ensures forall k :: 0 < k < read - 1 ==> clock[k] == lastTimestamp
    {
      read := 2;
      ghost var moved :| 0 < moved < |clock| && clock[moved] != lastTimestamp;
      while clock[read - 1] == lastTimestamp
        invariant 1 < read <= moved + 1
        invariant forall k :: 0 < k < read - 1 ==> clock[k] == lastTimestamp
        decreases moved - read
      {
        read := read + 1;
      }
    }
  }

  // One identifier -----------------------------------------------------------------------------------

  function TimeOf(id: int): int { id / 0x40_0000 }

  function NodeOf(id: int): int { id / SEQUENCE_LIMIT % NODE_LIMIT }

  function SequenceOf(id: int): int { id % SEQUENCE_LIMIT }

  function Sum(time: nat, node: nat, sequence: nat): nat {
    time * 0x40_0000 + node * SEQUENCE_LIMIT + sequence
  }

  lemma OrLow(a: nat, b: nat, k: nat, p: nat)
    requires Pow2(k) == p && b < p
    ensures BitOr(a * p, b) == a * p + b
  {
    OrDisjoint(a, b, k);
  }

  lemma ShiftFits(a: nat, k: nat, p: nat)
    requires Pow2(k) == p && a * p < U64_LIMIT
    ensures ShiftLeft(a, k) == a * p
  {
  }

  lemma ShiftsFit(time: nat, node: nat)
    requires time < TIME_LIMIT && node < NODE_LIMIT
    ensures ShiftLeft(time, TIMESTAMP_SHIFT) == time * 0x40_0000
    ensures ShiftLeft(node, NODE_ID_SHIFT) == node * SEQUENCE_LIMIT
  {
    Powers();
    ShiftFits(time, TIMESTAMP_SHIFT, 0x40_0000);
    ShiftFits(node, NODE_ID_SHIFT, SEQUENCE_LIMIT);
  }

  lemma OrsAddUp(time: nat, node: nat, sequence: nat)
    requires node < NODE_LIMIT && sequence < SEQUENCE_LIMIT
    ensures BitOr(BitOr(time * 0x40_0000, node * SEQUENCE_LIMIT), sequence) == Sum(time, node, sequence)
  {
    Powers();
    OrLow(time, node * SEQUENCE_LIMIT, TIMESTAMP_SHIFT, 0x40_0000);
    OrLow(time * NODE_LIMIT + node, sequence, NODE_ID_SHIFT, SEQUENCE_LIMIT);
    assert (time * NODE_LIMIT + node) * SEQUENCE_LIMIT == time * 0x40_0000 + node * SEQUENCE_LIMIT;
  }

  /** Within its ranges the packed bits are the sum of the parts. */
  lemma PackedIsSum(time: nat, node: nat, sequence: nat)
    requires time < TIME_LIMIT && node < NODE_LIMIT && sequence < SEQUENCE_LIMIT
    ensures Packed(time, node, sequence) == Sum(time, node, sequence)
  {
    ShiftsFit(time, node);
    OrsAddUp(time, node, sequence);
    SumFits(time, node, sequence);
    FitsI64(Sum(time, node, sequence));
  }

  lemma SumFits(time: nat, node: nat, sequence: nat)
    requires time < TIME_LIMIT && node < NODE_LIMIT && sequence < SEQUENCE_LIMIT
    ensures Sum(time, node, sequence) < I64_LIMIT
  {
  }

  lemma FitsI64(n: nat)
    requires n < I64_LIMIT
    ensures AsI64(n % U64_LIMIT) == n
  {
  }

  lemma SumParts(time: nat, node: nat, sequence: nat)
    requires node < NODE_LIMIT && sequence < SEQUENCE_LIMIT
    ensures var id := Sum(time, node, sequence);
      TimeOf(id) == time && NodeOf(id) == node && SequenceOf(id) == sequence
  {
    assert Sum(time, node, sequence) == (time * NODE_LIMIT + node) * SEQUENCE_LIMIT + sequence;
  }

  // Runs ---------------------------------------------------------------------------------------------

  /** Clock readings at the start of successive calls. */
  ghost predicate Readings(times: seq<nat>) {
    && (forall i, j :: 0 <= i <= j < |times| ==> times[i] <= times[j])
    && (forall i :: 0 <= i < |times| ==> EPOCH <= times[i] < EPOCH + TIME_LIMIT)
  }

  /** The generator before call `n`. */
  function After(node: nat, times: seq<nat>, n: nat): Generator
    requires n <= |times|
  {
    if n == 0 then Generator(node, 0, 0) else Advanced(After(node, times, n - 1), times[n - 1])
  }

  /** The identifiers that the calls return. */
  ghost predicate Returned(node: nat, times: seq<nat>, ids: seq<int>) {
    |ids| == |times| && forall k :: 0 <= k < |times| ==> ReturnedAt(node, times, ids, k)
  }

  ghost predicate ReturnedAt(node: nat, times: seq<nat>, ids: seq<int>, k: nat)
    requires k < |ids| == |times|
  {
    times[k] >= EPOCH && ids[k] == Packed(times[k] - EPOCH, node, After(node, times, k + 1).sequence)
  }

  /** The first call of the millisecond that call `k` is in. */
  function First(times: seq<nat>, k: nat): (f: nat)
    requires k < |times|
    ensures f <= k && times[f] == times[k]
  {
    if k == 0 || times[k - 1] != times[k] then k else First(times, k - 1)
  }

  lemma {:induction false} FirstIsFirst(times: seq<nat>, i: nat, k: nat)
    requires Readings(times) && i <= k < |times| && times[i] == times[k]
    ensures First(times, k) <= i && First(times, i) == First(times, k)
    decreases k
  {
    if i < k {
      assert times[k - 1] == times[k];
      FirstIsFirst(times, i, k - 1);
    }
  }

  /** The number of a call within its millisecond, as the generator counts it. */
  function Number(times: seq<nat>, k: nat): (n: nat)
    requires k < |times|
    ensures n < SEQUENCE_LIMIT
  {
    (k - First(times, k)) % SEQUENCE_LIMIT
  }

  /** The generator numbers the calls within a millisecond, modulo 4096. */
  lemma {:induction false} SequenceCounts(node: nat, times: seq<nat>, k: nat)
    requires Readings(times) && k < |times|
    ensures After(node, times, k + 1) == Generator(node, Number(times, k), times[k])
  {
    if k > 0 {
      SequenceCounts(node, times, k - 1);
      assert times[k - 1] <= times[k];
      NextNumber(times, k);
    }
  }

  lemma NextNumber(times: seq<nat>, k: nat)
    requires 0 < k < |times|
    ensures Number(times, k) == if times[k - 1] == times[k] then (Number(times, k - 1) + 1) % SEQUENCE_LIMIT else 0
  {
    SuccessorModulo(k - 1 - First(times, k - 1));
  }

  lemma SuccessorModulo(n: nat)
    ensures (n % SEQUENCE_LIMIT + 1) % SEQUENCE_LIMIT == (n + 1) % SEQUENCE_LIMIT
  {
  }

  /** The identifiers as sums of time, node and call number. */
  ghost predicate Sums(node: nat, times: seq<nat>, ids: seq<int>) {
    |ids| == |times| && forall k :: 0 <= k < |times| ==> SumAt(node, times, ids, k)
  }

  ghost predicate SumAt(node: nat, times: seq<nat>, ids: seq<int>, k: nat)
    requires k < |ids| == |times|
  {
    times[k] >= EPOCH && ids[k] == Sum(times[k] - EPOCH, node, Number(times, k))
  }

  lemma ReturnedAreSums(node: nat, times: seq<nat>, ids: seq<int>)
    requires Readings(times) && node < NODE_LIMIT && Returned(node, times, ids)
    ensures Sums(node, times, ids)
  {
    forall k | 0 <= k < |times|
      ensures SumAt(node, times, ids, k)
    {
      assert ReturnedAt(node, times, ids, k);
      SequenceCounts(node, times, k);
      PackedIsSum(times[k] - EPOCH, node, Number(times, k));
    }
  }

  lemma IdParts(node: nat, times: seq<nat>, ids: seq<int>, k: nat)
    requires Readings(times) && node < NODE_LIMIT && Returned(node, times, ids) && k < |ids|
    ensures 0 <= ids[k] && TimeOf(ids[k]) == times[k] - EPOCH && NodeOf(ids[k]) == node
    ensures SequenceOf(ids[k]) == Number(times, k)
  {
    ReturnedAreSums(node, times, ids);
    assert SumAt(node, times, ids, k);
    SumParts(times[k] - EPOCH, node, Number(times, k));
  }

  lemma BitRanges(id: nat)
    ensures TimeOf(id) == id / 0x40_0000 && NodeOf(id) == id / 0x1000 % 0x400 && SequenceOf(id) == id % 0x1000
  {
  }

  /** Every identifier is non-negative and gives back the call's time, node and number. */
  lemma IdsDecode(node: nat, times: seq<nat>, ids: seq<int>, k: nat)
    requires Readings(times) && node < NODE_LIMIT && Returned(node, times, ids) && k < |ids|
    ensures 0 <= ids[k] && ids[k] / 0x40_0000 == times[k] - 1637806706000
    ensures ids[k] / 0x1000 % 0x400 == node && ids[k] % 0x1000 == (k - First(times, k)) % 0x1000
  {
    IdParts(node, times, ids, k);
    BitRanges(ids[k]);
  }

  /** No millisecond sees more than 4096 calls. */
  ghost predicate AtMost4096(times: seq<nat>) {
    forall i, j :: 0 <= i <= j < |times| && times[i] == times[j] ==> j - i < 4096
  }

  ghost predicate Increasing(ids: seq<int>) {
    forall i, j :: 0 <= i < j < |ids| ==> ids[i] < ids[j]
  }

  ghost predicate Distinct(ids: seq<int>) {
    forall i, j :: 0 <= i < j < |ids| ==> ids[i] != ids[j]
  }

  lemma SumOrder(s: nat, t: nat, node: nat, m: nat, n: nat)
    requires node < NODE_LIMIT && m < SEQUENCE_LIMIT && n < SEQUENCE_LIMIT
    requires s < t || (s == t && m < n)
    ensures Sum(s, node, m) < Sum(t, node, n)
  {
  }

  lemma LaterNumber(times: seq<nat>, i: nat, j: nat)
    requires Readings(times) && AtMost4096(times) && i < j < |times| && times[i] == times[j]
    ensures Number(times, i) < Number(times, j)
  {
    FirstIsFirst(times, i, j);
    assert times[First(times, j)] == times[j];
    assert j - First(times, j) < SEQUENCE_LIMIT;
  }

  lemma LaterIdIsLarger(node: nat, times: seq<nat>, ids: seq<int>, i: nat, j: nat)
    requires Readings(times) && node < NODE_LIMIT && Sums(node, times, ids) && AtMost4096(times) && i < j < |times|
    ensures ids[i] < ids[j]
  {
    assert times[i] <= times[j] && SumAt(node, times, ids, i) && SumAt(node, times, ids, j);
    if times[i] == times[j] {
      LaterNumber(times, i, j);
    }
    SumOrder(times[i] - EPOCH, times[j] - EPOCH, node, Number(times, i), Number(times, j));
  }

  /** Call 4097 of a millisecond returns the identifier of call 1 again. */
  lemma WrappedCallRepeats(node: nat, times: seq<nat>, ids: seq<int>, i: nat)
    requires Readings(times) && Sums(node, times, ids)
    requires i + SEQUENCE_LIMIT < |times| && times[i] == times[i + SEQUENCE_LIMIT]
    ensures ids[i] == ids[i + SEQUENCE_LIMIT]
  {
    assert SumAt(node, times, ids, i) && SumAt(node, times, ids, i + SEQUENCE_LIMIT);
    FirstIsFirst(times, i, i + SEQUENCE_LIMIT);
    AroundModulo(i - First(times, i));
  }

  lemma AroundModulo(n: nat)
    ensures (n + SEQUENCE_LIMIT) % SEQUENCE_LIMIT == n % SEQUENCE_LIMIT
  {
  }

  lemma SumsIncreaseIff(node: nat, times: seq<nat>, ids: seq<int>)
    requires Readings(times) && node < NODE_LIMIT && Sums(node, times, ids)
    ensures Increasing(ids) <==> AtMost4096(times)
    ensures Distinct(ids) <==> AtMost4096(times)
  {
    if AtMost4096(times) {
      forall i, j | 0 <= i < j < |ids|
        ensures ids[i] < ids[j]
      {
        LaterIdIsLarger(node, times, ids, i, j);
      }
    } else {
      var i: nat, j: nat :| i <= j < |times| && times[i] == times[j] && j - i >= SEQUENCE_LIMIT;
      var again := i + SEQUENCE_LIMIT;
      assert times[i] <= times[again] <= times[j];
      WrappedCallRepeats(node, times, ids, i);
      assert ids[i] == ids[again];
    }
  }

  /** Identifiers increase, and are distinct, exactly when no millisecond sees more than 4096 calls. */
  lemma IncreasingIff(node: nat, times: seq<nat>, ids: seq<int>)
    requires Readings(times) && node < NODE_LIMIT && Returned(node, times, ids)
    ensures Increasing(ids) <==> AtMost4096(times)
    ensures Distinct(ids) <==> AtMost4096(times)
  {
    ReturnedAreSums(node, times, ids);
    SumsIncreaseIff(node, times, ids);
  }

  /** The clock has moved on when a wrapped call returns. */
  ghost predicate WaitsOut(node: nat, times: seq<nat>) {
    forall k :: 0 <= k < |times| - 1 && Wraps(After(node, times, k), times[k]) ==> NextIsLater(times, k)
  }

  predicate NextIsLater(times: seq<nat>, k: nat)
    requires k + 1 < |times|
  {
    times[k] < times[k + 1]
  }

  /** So at most 4097 calls can start in one millisecond, and the last of them is the one that repeats. */
  lemma WaitLimitsCalls(node: nat, times: seq<nat>, i: nat, j: nat)
    requires Readings(times) && WaitsOut(node, times) && i <= j < |times| && times[i] == times[j]
    ensures j - i <= SEQUENCE_LIMIT
  {
    if j - i > SEQUENCE_LIMIT {
      var f := First(times, j);
      FirstIsFirst(times, i, j);
      var k := f + SEQUENCE_LIMIT;
      SameMillisecond(times, f, k - 1, j);
      SameMillisecond(times, f, k, j);
      SameMillisecond(times, f, k + 1, j);
      FirstIsFirst(times, k - 1, j);
      LastNumberWraps(node, times, k);
    }
  }

  lemma LastNumberWraps(node: nat, times: seq<nat>, k: nat)
    requires Readings(times) && 0 < k < |times| && times[k - 1] == times[k] && k == First(times, k - 1) + SEQUENCE_LIMIT
    ensures Wraps(After(node, times, k), times[k])
  {
    SequenceCounts(node, times, k - 1);
  }

  lemma SameMillisecond(times: seq<nat>, f: nat, m: nat, j: nat)
    requires Readings(times) && f <= m <= j < |times| && times[f] == times[j]
    ensures times[m] == times[j]
  {
  }
}
