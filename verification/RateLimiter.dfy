/**
  The fixed counting window that limits the messages of one websocket client
  (`StreamHandler::handle` in `lib/realtime/src/client/rt_client.rs`). Times are nanoseconds of a
  clock that never goes back.
 */
module RateLimiter {

  const MAX_MESSAGES_PER_INTERVAL := 10
  const RATE_LIMIT_INTERVAL := 1_000_000_000

  datatype Limiter = Limiter(intervalStart: nat, messageCount: nat)

  /** `Instant::duration_since`, which saturates at zero. */
  function DurationSince(now: nat, earlier: nat): nat {
    if now < earlier then 0 else now - earlier
  }

  /** The fields after a message that arrives at `now`. */
  function Counted(l: Limiter, now: nat): Limiter {
    if DurationSince(now, l.intervalStart) > RATE_LIMIT_INTERVAL then Limiter(now, 1)
    else l.(messageCount := l.messageCount + 1)
  }

  class RealtimeClient {
    var intervalStart: nat
    var messageCount: nat

    constructor (now: nat)
      ensures View() == Limiter(now, 0)
    {
      intervalStart, messageCount := now, 0;
    }

    function View(): Limiter
      reads this
    {
      Limiter(intervalStart, messageCount)
    }

    /** The head of `handle`: whether the message is looked at. */
    method Handle(now: nat) returns (admitted: bool)
      modifies this
      ensures View() == Counted(old(View()), now)
      ensures admitted <==> View().messageCount <= MAX_MESSAGES_PER_INTERVAL
    {
      if DurationSince(now, intervalStart) > RATE_LIMIT_INTERVAL {
        messageCount := 0;
        intervalStart := now;
      }
      messageCount := messageCount + 1;
      admitted := messageCount <= MAX_MESSAGES_PER_INTERVAL;
    }
  }

  // Whole arrival sequences --------------------------------------------------------------------------

  ghost predicate Clock(times: seq<nat>) {
    forall i, j :: 0 <= i <= j < |times| ==> times[i] <= times[j]
  }

  /** The limiter after the first `n` arrivals. */
  function After(l: Limiter, times: seq<nat>, n: nat): Limiter
    requires n <= |times|
  {
    if n == 0 then l else Counted(After(l, times, n - 1), times[n - 1])
  }

  predicate Admitted(l: Limiter, times: seq<nat>, k: nat)
    requires k < |times|
  {
    After(l, times, k + 1).messageCount <= MAX_MESSAGES_PER_INTERVAL
  }

  /** How many of the arrivals from `i` up to `j` are admitted. */
  function AdmittedFrom(l: Limiter, times: seq<nat>, i: nat, j: nat): nat
    requires i <= j <= |times|
  {
    if i == j then 0 else AdmittedFrom(l, times, i, j - 1) + if Admitted(l, times, j - 1) then 1 else 0
  }

  /** How many of the first `n` arrivals fall between `lo` and `hi` and are admitted. */
  function AdmittedBetween(l: Limiter, times: seq<nat>, lo: nat, hi: nat, n: nat): nat
    requires n <= |times|
  {
    if n == 0 then 0
    else
      AdmittedBetween(l, times, lo, hi, n - 1) +
        if lo <= times[n - 1] <= hi && Admitted(l, times, n - 1) then 1 else 0
  }

  /** Arrival `k` opens a counting window. */
  predicate Opens(l: Limiter, times: seq<nat>, k: nat)
    requires k < |times|
  {
    DurationSince(times[k], After(l, times, k).intervalStart) > RATE_LIMIT_INTERVAL
  }

  /** Between two openings the count goes up by one a message. */
  lemma {:induction false} WindowCounts(l: Limiter, times: seq<nat>, i: nat, k: nat)
    requires i <= k < |times| && forall m :: i < m <= k ==> !Opens(l, times, m)
    ensures After(l, times, k + 1) ==
      After(l, times, i + 1).(messageCount := After(l, times, i + 1).messageCount + (k - i))
    decreases k
  {
    if i < k {
      WindowCounts(l, times, i, k - 1);
      assert !Opens(l, times, k);
    }
  }

  /** A window admits exactly its first ten messages. */
  lemma WindowAdmitsFirstTen(l: Limiter, times: seq<nat>, i: nat, k: nat)
    requires i <= k < |times| && Opens(l, times, i) && forall m :: i < m <= k ==> !Opens(l, times, m)
    ensures Admitted(l, times, k) <==> k - i < 10
  {
    WindowCounts(l, times, i, k);
  }

  lemma CountPositive(l: Limiter, times: seq<nat>, k: nat)
    requires k < |times|
    ensures After(l, times, k + 1).messageCount >= 1
  {
  }

  /** No window admits more than ten messages, whichever of its messages one starts from. */
  lemma {:induction false} WindowBound(l: Limiter, times: seq<nat>, i: nat, j: nat)
    requires i < j <= |times| && forall m :: i < m < j ==> !Opens(l, times, m)
    ensures AdmittedFrom(l, times, i, j) <= 10
    ensures AdmittedFrom(l, times, i, j) <= j - i
    ensures !Admitted(l, times, j - 1) || After(l, times, i + 1).messageCount + (j - 1 - i) <= MAX_MESSAGES_PER_INTERVAL
    decreases j
  {
    WindowCounts(l, times, i, j - 1);
    CountPositive(l, times, i);
    if i + 1 < j {
      WindowBound(l, times, i, j - 1);
    }
  }

  // Any second ---------------------------------------------------------------------------------------

  /** Arrivals within an interval of an opening do not open another window. */
  lemma {:induction false} QuietAfterOpening(l: Limiter, times: seq<nat>, i: nat, k: nat)
    requires Clock(times) && i < k < |times| && Opens(l, times, i)
    requires times[k] - times[i] <= RATE_LIMIT_INTERVAL
    ensures After(l, times, k).intervalStart == times[i] && !Opens(l, times, k)
    decreases k
  {
    if i + 1 < k {
      QuietAfterOpening(l, times, i, k - 1);
    }
  }

  lemma {:induction false} AdmittedSplit(l: Limiter, times: seq<nat>, i: nat, k: nat, j: nat)
    requires i <= k <= j <= |times|
    ensures AdmittedFrom(l, times, i, j) == AdmittedFrom(l, times, i, k) + AdmittedFrom(l, times, k, j)
    decreases j
  {
    if k < j {
      AdmittedSplit(l, times, i, k, j - 1);
    }
  }

  /** Either no message after the first opens a window, or there is a first one that does. */
  lemma {:induction false} FirstOpening(l: Limiter, times: seq<nat>, i: nat, j: nat) returns (k: nat)
    requires i < j <= |times|
    ensures i < k <= j && (forall m :: i < m < k ==> !Opens(l, times, m)) && (k < j ==> Opens(l, times, k))
    decreases j
  {
    if i + 1 == j {
      k := j;
    } else {
      k := FirstOpening(l, times, i, j - 1);
      if k == j - 1 && !Opens(l, times, k) {
        k := j;
      }
    }
  }

  /** Messages that arrive within one second of each other meet at most two windows. */
  lemma StretchBound(l: Limiter, times: seq<nat>, i: nat, j: nat)
    requires Clock(times) && i < j <= |times| && times[j - 1] - times[i] <= RATE_LIMIT_INTERVAL
    ensures AdmittedFrom(l, times, i, j) <= 2 * MAX_MESSAGES_PER_INTERVAL
  {
    var k := FirstOpening(l, times, i, j);
    WindowBound(l, times, i, k);
    if k < j {
      forall m | k < m < j
        ensures !Opens(l, times, m)
      {
        QuietAfterOpening(l, times, k, m);
      }
      WindowBound(l, times, k, j);
      AdmittedSplit(l, times, i, k, j);
    }
  }

  /** The arrivals between two times are consecutive. */
  lemma {:induction false} BetweenIsRange(l: Limiter, times: seq<nat>, lo: nat, hi: nat, n: nat) returns (i: nat, j: nat)
    requires Clock(times) && n <= |times|
    ensures i <= j <= n && AdmittedBetween(l, times, lo, hi, n) == AdmittedFrom(l, times, i, j)
    ensures i < j ==> lo <= times[i] && times[j - 1] <= hi
    ensures j < n ==> times[j] > hi
    ensures i == j == n ==> (forall m :: 0 <= m < n ==> times[m] < lo)
  {
    if n == 0 {
      i, j := 0, 0;
    } else {
      i, j := BetweenIsRange(l, times, lo, hi, n - 1);
      if j == n - 1 && times[n - 1] <= hi {
        if i < j || lo <= times[n - 1] {
          j := n;
        } else {
          i, j := n, n;
        }
      }
    }
  }

  /** In any closed stretch of one second, wherever it lies, at most twenty messages are admitted. */
  lemma AnySecondBound(l: Limiter, times: seq<nat>, from: nat)
    requires Clock(times)
    ensures AdmittedBetween(l, times, from, from + 1_000_000_000, |times|) <= 20
  {
    var i, j := BetweenIsRange(l, times, from, from + RATE_LIMIT_INTERVAL, |times|);
    if i < j {
      StretchBound(l, times, i, j);
    }
  }

  /** Ten messages at the end of one window and ten at the start of the next. */
  function Burst(n: nat): (times: seq<nat>)
    ensures |times| == n
    ensures forall k :: 0 <= k < n ==>
      times[k] == if k < MAX_MESSAGES_PER_INTERVAL then RATE_LIMIT_INTERVAL else RATE_LIMIT_INTERVAL + 1
  {
    if n == 0 then []
    else Burst(n - 1) + [if n <= MAX_MESSAGES_PER_INTERVAL then RATE_LIMIT_INTERVAL else RATE_LIMIT_INTERVAL + 1]
  }

  lemma {:induction false} BurstAdmitted(times: seq<nat>, k: nat)
    requires k < 2 * MAX_MESSAGES_PER_INTERVAL && times == Burst(2 * MAX_MESSAGES_PER_INTERVAL)
    ensures After(Limiter(0, 0), times, k + 1) ==
      if k < MAX_MESSAGES_PER_INTERVAL then Limiter(0, k + 1)
      else Limiter(RATE_LIMIT_INTERVAL + 1, k + 1 - MAX_MESSAGES_PER_INTERVAL)
    ensures AdmittedBetween(Limiter(0, 0), times, RATE_LIMIT_INTERVAL, 2 * RATE_LIMIT_INTERVAL, k + 1) == k + 1
  {
    if k > 0 {
      BurstAdmitted(times, k - 1);
    }
  }

  /** Twenty is exact: some second sees twenty messages admitted. */
  lemma TwentyIsReached() returns (times: seq<nat>, from: nat)
    ensures Clock(times)
    ensures AdmittedBetween(Limiter(0, 0), times, from, from + 1_000_000_000, |times|) == 20
  {
    times, from := Burst(2 * MAX_MESSAGES_PER_INTERVAL), RATE_LIMIT_INTERVAL;
    BurstAdmitted(times, 2 * MAX_MESSAGES_PER_INTERVAL - 1);
  }
}
