/**
  The work queue for document snapshots (`src/biz/snapshot/snapshot_control.rs`,
  `src/biz/snapshot/queue.rs`). The Redis cache and the snapshot table are maps, the table keeping
  the newest snapshot of each object; how Redis and Postgres answer is a parameter.
 */
module SnapshotQueue {
  import opened PriorityHeap
  import opened Wrappers
  import opened WireFormat

  datatype PendingItem = PendingItem(workspaceId: string, objectId: string, number: nat)

  /** Smaller sequence numbers are popped first. */
  function ItemRank(item: PendingItem): Rank {
    Rank(0, item.number)
  }

  function SnapshotKey(objectId: string): string {
    "full_snapshot" + ":" + objectId
  }

  datatype Runner = Runner(
    idGen: nat,
    queue: multiset<PendingItem>,
    cache: map<string, Bytes>,
    table: map<string, Bytes>,
    successes: nat,
    attempts: nat)

  /** What the cache and the database answer to one attempt. */
  datatype Answers = Answers(cacheReads: bool, begins: bool, writes: bool, removes: bool)

  function Inserted(r: Runner, workspaceId: string, objectId: string, data: Bytes, stored: bool): Runner {
    r.(idGen := r.idGen + 1,
       queue := r.queue + multiset{PendingItem(workspaceId, objectId, r.idGen)},
       cache := if stored then r.cache[SnapshotKey(objectId) := data] else r.cache)
  }

  /** An attempt at `item` that is already off the queue: it is put back, dropped or written. */
  function Finished(r: Runner, item: PendingItem, answers: Answers, decodes: (string, Bytes) -> bool): Runner {
    var key := SnapshotKey(item.objectId);
    var putBack := r.(queue := r.queue + multiset{item});
    if !answers.cacheReads then putBack
    else if key !in r.cache || !decodes(item.objectId, r.cache[key]) then r
    else if !answers.begins || !answers.writes then putBack
    else
      r.(table := r.table[item.objectId := r.cache[key]],
         cache := if answers.removes then r.cache - {key} else r.cache,
         successes := r.successes + 1)
  }

  /** One attempt at `item`, the top of the queue. */
  function Attempted(r: Runner, item: PendingItem, answers: Answers, decodes: (string, Bytes) -> bool): Runner {
    Finished(r.(queue := r.queue - multiset{item}, attempts := r.attempts + 1), item, answers, decodes)
  }

  class SnapshotCommandRunner {
    var idGen: nat
    var queue: multiset<PendingItem>
    var cache: map<string, Bytes>
    var table: map<string, Bytes>
    var successAttempts: nat
    var totalAttempts: nat

    constructor (cache: map<string, Bytes>, table: map<string, Bytes>)
      ensures View() == Runner(0, multiset{}, cache, table, 0, 0)
    {
      idGen, queue, successAttempts, totalAttempts := 0, multiset{}, 0, 0;
      this.cache, this.table := cache, table;
    }

    function View(): Runner
      reads this
    {
      Runner(idGen, queue, cache, table, successAttempts, totalAttempts)
    }

    /** `generate_item` of `PendingQueue`. */
    method GenerateItem(workspaceId: string, objectId: string) returns (item: PendingItem)
      modifies this`idGen
      ensures item == PendingItem(workspaceId, objectId, old(idGen)) && idGen == old(idGen) + 1
    {
      item := PendingItem(workspaceId, objectId, idGen);
      idGen := idGen + 1;
    }

    method PushItem(item: PendingItem)
      modifies this`queue
      ensures queue == old(queue) + multiset{item}
    {
      queue := queue + multiset{item};
    }

    /** `handle_command` of an `InsertSnapshot`; `stored` says whether the cache took the data. */
    method InsertSnapshot(workspaceId: string, objectId: string, data: Bytes, stored: bool)
      modifies this
      ensures View() == Inserted(old(View()), workspaceId, objectId, data, stored)
    {
      var item := GenerateItem(workspaceId, objectId);
      var key := SnapshotKey(item.objectId);
      PushItem(item);
      if stored {
        cache := cache[key := data];
      }
    }

    method ProcessNextBatch(answers: Answers, decodes: (string, Bytes) -> bool) returns (attempted: Option<PendingItem>)
      modifies this
      ensures attempted.None? ==> old(queue) == multiset{} && View() == old(View())
      ensures attempted.Some? ==>
        && IsTop(ItemRank, old(queue), attempted.value)
        && View() == Attempted(old(View()), attempted.value, answers, decodes)
    {
      if queue == multiset{} {
        return None;
      }
      var nextItem;
      nextItem, queue := Pop(ItemRank, queue);
      totalAttempts := totalAttempts + 1;
      attempted := Some(nextItem);
      WriteSnapshot(nextItem, answers, decodes);
    }

    /** The rest of `process_next_batch`, with `nextItem` taken off the queue and counted. */
    method WriteSnapshot(nextItem: PendingItem, answers: Answers, decodes: (string, Bytes) -> bool)
      modifies this
      ensures View() == Finished(old(View()), nextItem, answers, decodes)
    {
      var key := SnapshotKey(nextItem.objectId);
      if !answers.cacheReads {
        PushItem(nextItem);
        return;
      }
      if key !in cache {
        return;
      }
      var data := cache[key];
      if !decodes(nextItem.objectId, data) {
        return;
      }
      if !answers.begins {
        PushItem(nextItem);
        return;
      }
      if answers.writes {
        table := table[nextItem.objectId := data];
        if answers.removes {
          cache := cache - {key};
        }
        successAttempts := successAttempts + 1;
      } else {
        PushItem(nextItem);
      }
    }
  }

  // Runs ---------------------------------------------------------------------------------------------

  /** What may go wrong with the cache. */
  datatype Faults = Faults(storesMayFail: bool, entriesMayExpire: bool)

  datatype Event =
    | Insert(workspaceId: string, objectId: string, data: Bytes, stored: bool)
    | Attempt(item: PendingItem, answers: Answers)
    | Idle
    | Expire(objectId: string)

  /** The runner, the data last queued for each object, and the numbers attempted so far. */
  datatype System = System(runner: Runner, latest: map<string, Bytes>, log: seq<nat>)

  const Empty: System := System(Runner(0, multiset{}, map[], map[], 0, 0), map[], [])

  /** A runner that has just been made; the cache and the table may hold what earlier runners left. */
  predicate Initial(s: System) {
    s == Empty.(runner := Empty.runner.(cache := s.runner.cache, table := s.runner.table))
  }

  ghost predicate Step(faults: Faults, decodes: (string, Bytes) -> bool, s: System, e: Event, s': System) {
    match e
    case Insert(workspaceId, objectId, data, stored) =>
      && (stored || faults.storesMayFail)
      && s' == System(Inserted(s.runner, workspaceId, objectId, data, stored), s.latest[objectId := data], s.log)
    case Attempt(item, answers) =>
      && IsTop(ItemRank, s.runner.queue, item)
      && s' == System(Attempted(s.runner, item, answers, decodes), s.latest, s.log + [item.number])
    case Idle => s.runner.queue == multiset{} && s' == s
    case Expire(objectId) =>
      faults.entriesMayExpire && s' == s.(runner := s.runner.(cache := s.runner.cache - {SnapshotKey(objectId)}))
  }

  ghost predicate Reaches(faults: Faults, decodes: (string, Bytes) -> bool, events: seq<Event>, s: System)
    decreases |events|
  {
    if events == [] then Initial(s)
    else exists mid :: LastStep(faults, decodes, events, mid, s)
  }

  ghost predicate LastStep(faults: Faults, decodes: (string, Bytes) -> bool, events: seq<Event>, mid: System, s: System)
    requires events != []
    decreases |events|, 0
  {
    Reaches(faults, decodes, events[..|events| - 1], mid) && Step(faults, decodes, mid, events[|events| - 1], s)
  }

  // Nothing is lost ----------------------------------------------------------------------------------

  ghost predicate Pending(r: Runner, objectId: string) {
    exists item :: item in r.queue && item.objectId == objectId
  }

  /** The data last queued for an object is its newest snapshot, or is cached and will be attempted. */
  ghost predicate Safe(s: System, objectId: string)
    requires objectId in s.latest
  {
    var key := SnapshotKey(objectId);
    || (objectId in s.runner.table && s.runner.table[objectId] == s.latest[objectId])
    || (key in s.runner.cache && s.runner.cache[key] == s.latest[objectId] && Pending(s.runner, objectId))
  }

  ghost predicate NothingLost(decodes: (string, Bytes) -> bool, s: System) {
    forall o :: o in s.latest && decodes(o, s.latest[o]) ==> Safe(s, o)
  }

  /** For an object that was queued, the cache never holds anything but the latest data. */
  ghost predicate CacheIsLatest(s: System) {
    forall o :: o in s.latest && SnapshotKey(o) in s.runner.cache ==> s.runner.cache[SnapshotKey(o)] == s.latest[o]
  }

  lemma KeyInjective(a: string, b: string)
    requires SnapshotKey(a) == SnapshotKey(b)
    ensures a == b
  {
    assert SnapshotKey(a)[14..] == a && SnapshotKey(b)[14..] == b;
  }

  lemma InsertSafe(decodes: (string, Bytes) -> bool, s: System, e: Event, s': System)
    requires e.Insert? && Step(Faults(false, false), decodes, s, e, s')
    requires CacheIsLatest(s) && NothingLost(decodes, s)
    ensures CacheIsLatest(s') && NothingLost(decodes, s')
  {
    var item := PendingItem(e.workspaceId, e.objectId, s.runner.idGen);
    assert item in s'.runner.queue;
    forall o | o in s'.latest && SnapshotKey(o) in s'.runner.cache
      ensures s'.runner.cache[SnapshotKey(o)] == s'.latest[o]
    {
      if SnapshotKey(o) == SnapshotKey(e.objectId) {
        KeyInjective(o, e.objectId);
      }
    }
    forall o | o in s'.latest && decodes(o, s'.latest[o])
      ensures Safe(s', o)
    {
      if o != e.objectId {
        OthersKept(s, e, o);
        assert Safe(s, o);
      }
    }
  }

  lemma OthersKept(s: System, e: Event, o: string)
    requires e.Insert? && o != e.objectId
    ensures SnapshotKey(o) != SnapshotKey(e.objectId)
    ensures Pending(s.runner, o) ==> Pending(Inserted(s.runner, e.workspaceId, e.objectId, e.data, true), o)
  {
    if SnapshotKey(o) == SnapshotKey(e.objectId) {
      KeyInjective(o, e.objectId);
    }
    var r' := Inserted(s.runner, e.workspaceId, e.objectId, e.data, true);
    assert forall item :: item in s.runner.queue ==> item in r'.queue;
  }

  lemma AttemptCache(decodes: (string, Bytes) -> bool, s: System, e: Event, s': System)
    requires e.Attempt? && Step(Faults(false, false), decodes, s, e, s') && CacheIsLatest(s)
    ensures CacheIsLatest(s')
  {
  }

  lemma AttemptKeepsOthers(r: Runner, item: PendingItem, answers: Answers, decodes: (string, Bytes) -> bool, o: string)
    requires o != item.objectId
    ensures Pending(r, o) ==> Pending(Attempted(r, item, answers, decodes), o)
    ensures SnapshotKey(o) != SnapshotKey(item.objectId)
  {
    if SnapshotKey(o) == SnapshotKey(item.objectId) {
      KeyInjective(o, item.objectId);
    }
    forall other | other in r.queue && other.objectId == o
      ensures other in Attempted(r, item, answers, decodes).queue
    {
    }
  }

  lemma AttemptedIsSafe(decodes: (string, Bytes) -> bool, s: System, e: Event, s': System)
    requires e.Attempt? && Step(Faults(false, false), decodes, s, e, s') && CacheIsLatest(s)
    requires var o := e.item.objectId; o in s.latest && decodes(o, s.latest[o]) && Safe(s, o)
    ensures Safe(s', e.item.objectId)
  {
    assert e.item in s.runner.queue;
  }

  lemma AttemptSafe(decodes: (string, Bytes) -> bool, s: System, e: Event, s': System, o: string)
    requires e.Attempt? && Step(Faults(false, false), decodes, s, e, s') && CacheIsLatest(s)
    requires o in s.latest && decodes(o, s.latest[o]) && Safe(s, o)
    ensures Safe(s', o)
  {
    if o != e.item.objectId {
      AttemptKeepsOthers(s.runner, e.item, e.answers, decodes, o);
    } else {
      AttemptedIsSafe(decodes, s, e, s');
    }
  }

  lemma {:induction false} ReliableRunsAreSafe(decodes: (string, Bytes) -> bool, events: seq<Event>, s: System)
    requires Reaches(Faults(false, false), decodes, events, s)
    ensures CacheIsLatest(s) && NothingLost(decodes, s)
    decreases |events|
  {
    if events != [] {
      var mid :| LastStep(Faults(false, false), decodes, events, mid, s);
      ReliableRunsAreSafe(decodes, events[..|events| - 1], mid);
      var e := events[|events| - 1];
      if e.Insert? {
        InsertSafe(decodes, mid, e, s);
      } else if e.Attempt? {
        AttemptCache(decodes, mid, e, s);
        forall o | o in s.latest && decodes(o, s.latest[o])
          ensures Safe(s, o)
        {
          AttemptSafe(decodes, mid, e, s, o);
        }
      }
    }
  }

  ghost predicate NeverLoses(faults: Faults, decodes: (string, Bytes) -> bool) {
    forall events, s :: Reaches(faults, decodes, events, s) ==> NothingLost(decodes, s)
  }

  lemma ReachOne(faults: Faults, decodes: (string, Bytes) -> bool, e: Event, s: System)
    requires Step(faults, decodes, Empty, e, s)
    ensures Reaches(faults, decodes, [e], s)
  {
    assert [e][..0] == [];
    assert LastStep(faults, decodes, [e], Empty, s);
  }

  lemma FailedStoreLoses(decodes: (string, Bytes) -> bool, expire: bool, objectId: string, data: Bytes)
    requires decodes(objectId, data)
    ensures !NeverLoses(Faults(true, expire), decodes)
  {
    var e := Insert("", objectId, data, false);
    var s := System(Inserted(Empty.runner, "", objectId, data, false), map[objectId := data], []);
    ReachOne(Faults(true, expire), decodes, e, s);
    assert !Safe(s, objectId);
  }

  lemma ExpiryLoses(decodes: (string, Bytes) -> bool, fail: bool, objectId: string, data: Bytes)
    requires decodes(objectId, data)
    ensures !NeverLoses(Faults(fail, true), decodes)
  {
    var faults, e, f := Faults(fail, true), Insert("", objectId, data, true), Expire(objectId);
    var mid := System(Inserted(Empty.runner, "", objectId, data, true), map[objectId := data], []);
    var s := mid.(runner := mid.runner.(cache := map[]));
    ReachOne(faults, decodes, e, mid);
    assert mid.runner.cache - {SnapshotKey(objectId)} == map[];
    assert [e, f][..1] == [e];
    assert LastStep(faults, decodes, [e, f], mid, s);
    assert Reaches(faults, decodes, [e, f], s);
    assert !Safe(s, objectId);
  }

  /**
    Whatever else fails, decodable data is never lost exactly when the cache takes every write and
    keeps its entries. Failed reads, transactions, writes and even removals do no harm.
   */
  lemma NeverLosesIff(faults: Faults, decodes: (string, Bytes) -> bool, objectId: string, data: Bytes)
    requires decodes(objectId, data)
    ensures NeverLoses(faults, decodes) <==> !faults.storesMayFail && !faults.entriesMayExpire
  {
    if faults.storesMayFail {
      FailedStoreLoses(decodes, faults.entriesMayExpire, objectId, data);
    } else if faults.entriesMayExpire {
      ExpiryLoses(decodes, faults.storesMayFail, objectId, data);
    } else {
      forall events, s | Reaches(faults, decodes, events, s)
        ensures NothingLost(decodes, s)
      {
        ReliableRunsAreSafe(decodes, events, s);
      }
    }
  }

  // Order and counts ---------------------------------------------------------------------------------

  ghost predicate Ascending(log: seq<nat>) {
    forall i, j :: 0 <= i <= j < |log| ==> log[i] <= log[j]
  }

  ghost predicate InOrder(s: System) {
    && Ascending(s.log)
    && (forall n, item :: n in s.log && item in s.runner.queue ==> n <= item.number)
    && (forall item :: item in s.runner.queue ==> item.number < s.runner.idGen)
    && (forall n :: n in s.log ==> n < s.runner.idGen)
    && s.runner.attempts == |s.log|
    && s.runner.successes <= s.runner.attempts
  }

  lemma AscendingSnoc(log: seq<nat>, n: nat)
    requires Ascending(log) && forall m :: m in log ==> m <= n
    ensures Ascending(log + [n])
  {
    assert forall i :: 0 <= i < |log| ==> log[i] in log;
  }

  /** An attempt adds nothing to the queue, and what it leaves comes no earlier than the item. */
  lemma AttemptQueue(r: Runner, item: PendingItem, answers: Answers, decodes: (string, Bytes) -> bool)
    requires IsTop(ItemRank, r.queue, item)
    ensures forall other :: other in Attempted(r, item, answers, decodes).queue ==>
      other in r.queue && item.number <= other.number
    ensures Attempted(r, item, answers, decodes).attempts == r.attempts + 1
    ensures Attempted(r, item, answers, decodes).successes <= r.successes + 1
    ensures Attempted(r, item, answers, decodes).idGen == r.idGen
  {
    assert forall other :: other in r.queue ==> NotAfter(ItemRank(item), ItemRank(other));
  }

  lemma AttemptInOrder(decodes: (string, Bytes) -> bool, s: System, item: PendingItem, answers: Answers, s': System)
    requires InOrder(s) && IsTop(ItemRank, s.runner.queue, item)
    requires s' == System(Attempted(s.runner, item, answers, decodes), s.latest, s.log + [item.number])
    ensures InOrder(s')
  {
    AttemptQueue(s.runner, item, answers, decodes);
    AscendingSnoc(s.log, item.number);
    assert forall n :: n in s'.log <==> n in s.log || n == item.number;
  }

  lemma InsertInOrder(s: System, e: Event, s': System)
    requires InOrder(s) && e.Insert?
    requires s'.runner == Inserted(s.runner, e.workspaceId, e.objectId, e.data, e.stored) && s'.log == s.log
    ensures InOrder(s')
  {
    var item := PendingItem(e.workspaceId, e.objectId, s.runner.idGen);
    assert forall other :: other in s'.runner.queue ==> other in s.runner.queue || other == item;
  }

  lemma StepInOrder(faults: Faults, decodes: (string, Bytes) -> bool, s: System, e: Event, s': System)
    requires InOrder(s) && Step(faults, decodes, s, e, s')
    ensures InOrder(s')
  {
    match e
    case Insert(_, _, _, _) => InsertInOrder(s, e, s');
    case Attempt(item, answers) => AttemptInOrder(decodes, s, item, answers, s');
    case Idle =>
    case Expire(_) =>
  }

  /**
    In every run, whatever fails, items are attempted in the order in which they were queued, an
    item that was put back coming before everything queued after it, and no more attempts succeed
    than are made.
   */
  lemma {:induction false} AttemptsFollowQueueOrder(faults: Faults, decodes: (string, Bytes) -> bool,
                                                    events: seq<Event>, s: System)
    requires Reaches(faults, decodes, events, s)
    ensures InOrder(s)
    decreases |events|
  {
    if events != [] {
      var mid :| LastStep(faults, decodes, events, mid, s);
      AttemptsFollowQueueOrder(faults, decodes, events[..|events| - 1], mid);
      StepInOrder(faults, decodes, mid, events[|events| - 1], s);
    }
  }
}
