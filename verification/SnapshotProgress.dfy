/**
  The snapshot queue makes progress: what an attempt does for each answer of cache and database,
  and that attempts which all succeed write the latest data of every queued object.
 */
module SnapshotProgress {
  import opened PriorityHeap
  import opened WireFormat
  import opened SnapshotQueue

  /** The cache and the database do all they are asked. */
  const ALL_SUCCEED := Answers(true, true, true, true)

  predicate Writable(r: Runner, objectId: string, decodes: (string, Bytes) -> bool) {
    SnapshotKey(objectId) in r.cache && decodes(objectId, r.cache[SnapshotKey(objectId)])
  }

  /** The cached data becomes the newest snapshot, and item and cache entry are gone. */
  lemma SuccessfulAttempt(r: Runner, item: PendingItem, decodes: (string, Bytes) -> bool)
    requires Writable(r, item.objectId, decodes)
    ensures var r', key := Attempted(r, item, ALL_SUCCEED, decodes), SnapshotKey(item.objectId);
      && r'.table == r.table[item.objectId := r.cache[key]]
      && r'.queue == r.queue - multiset{item}
      && r'.successes == r.successes + 1 && r'.attempts == r.attempts + 1 && r'.idGen == r.idGen
      && forall k :: k in r'.cache <==> k in r.cache && k != key
    ensures var r' := Attempted(r, item, ALL_SUCCEED, decodes);
      forall k :: k in r'.cache ==> r'.cache[k] == r.cache[k]
  {
  }

  /** Without a cache entry that decodes, the item is dropped and nothing is written. */
  lemma HopelessAttempt(r: Runner, item: PendingItem, answers: Answers, decodes: (string, Bytes) -> bool)
    requires answers.cacheReads && !Writable(r, item.objectId, decodes)
    ensures Attempted(r, item, answers, decodes) ==
      Runner(r.idGen, r.queue - multiset{item}, r.cache, r.table, r.successes, r.attempts + 1)
  {
  }

  /** When the cache cannot be read, or the write cannot be made, the item stays queued. */
  lemma RetriedAttempt(r: Runner, item: PendingItem, answers: Answers, decodes: (string, Bytes) -> bool)
    requires item in r.queue
    requires !answers.cacheReads || (Writable(r, item.objectId, decodes) && !(answers.begins && answers.writes))
    ensures Attempted(r, item, answers, decodes) ==
      Runner(r.idGen, r.queue, r.cache, r.table, r.successes, r.attempts + 1)
  {
    assert r.queue == (r.queue - multiset{item}) + multiset{item};
  }

  // Draining the queue -------------------------------------------------------------------------------

  /** An attempt at the top of the queue for which everything succeeds. */
  ghost predicate DrainStep(decodes: (string, Bytes) -> bool, s: System, item: PendingItem, s': System) {
    Step(Faults(false, false), decodes, s, Attempt(item, ALL_SUCCEED), s')
  }

  /** `n` such attempts lead from `s` to `s'`. */
  ghost predicate Drains(decodes: (string, Bytes) -> bool, s: System, n: nat, s': System)
    decreases n, 1
  {
    if n == 0 then s' == s else exists item, mid :: DrainsVia(decodes, s, n, item, mid, s')
  }

  ghost predicate DrainsVia(
    decodes: (string, Bytes) -> bool, s: System, n: nat, item: PendingItem, mid: System, s': System)
    requires n > 0
    decreases n, 0
  {
    DrainStep(decodes, s, item, mid) && Drains(decodes, mid, n - 1, s')
  }

  lemma DrainTakesItem(decodes: (string, Bytes) -> bool, s: System, item: PendingItem, s': System)
    requires DrainStep(decodes, s, item, s')
    ensures item in s.runner.queue && s'.runner.queue == s.runner.queue - multiset{item}
    ensures |s'.runner.queue| == |s.runner.queue| - 1 && s'.latest == s.latest
  {
    if Writable(s.runner, item.objectId, decodes) {
      SuccessfulAttempt(s.runner, item, decodes);
    } else {
      HopelessAttempt(s.runner, item, ALL_SUCCEED, decodes);
    }
  }

  lemma DrainKeeps(decodes: (string, Bytes) -> bool, s: System, item: PendingItem, s': System)
    requires DrainStep(decodes, s, item, s') && CacheIsLatest(s) && NothingLost(decodes, s)
    ensures CacheIsLatest(s') && NothingLost(decodes, s')
  {
    var e := Attempt(item, ALL_SUCCEED);
    AttemptCache(decodes, s, e, s');
    forall o | o in s'.latest && decodes(o, s'.latest[o])
      ensures Safe(s', o)
    {
      AttemptSafe(decodes, s, e, s', o);
    }
  }

  /** The first attempt of several takes one item. */
  lemma FirstDrain(decodes: (string, Bytes) -> bool, s: System, n: nat, s': System) returns (mid: System)
    requires n > 0 && Drains(decodes, s, n, s')
    ensures Drains(decodes, mid, n - 1, s')
    ensures |mid.runner.queue| == |s.runner.queue| - 1 && mid.latest == s.latest
  {
    var item, next :| DrainsVia(decodes, s, n, item, next, s');
    DrainTakesItem(decodes, s, item, next);
    mid := next;
  }

  lemma {:induction false} DrainTakesItems(decodes: (string, Bytes) -> bool, s: System, n: nat, s': System)
    requires Drains(decodes, s, n, s')
    ensures n <= |s.runner.queue| && |s'.runner.queue| == |s.runner.queue| - n && s'.latest == s.latest
    decreases n
  {
    if n > 0 {
      var mid := FirstDrain(decodes, s, n, s');
      DrainTakesItems(decodes, mid, n - 1, s');
    }
  }

  lemma {:induction false} DrainedIsSafe(decodes: (string, Bytes) -> bool, s: System, n: nat, s': System)
    requires Drains(decodes, s, n, s') && CacheIsLatest(s) && NothingLost(decodes, s)
    ensures NothingLost(decodes, s')
    decreases n
  {
    if n > 0 {
      var item, mid :| DrainsVia(decodes, s, n, item, mid, s');
      DrainKeeps(decodes, s, item, mid);
      DrainedIsSafe(decodes, mid, n - 1, s');
    }
  }

  /** As many attempts as there are items can be made, and no more. */
  lemma {:induction false} CanDrain(decodes: (string, Bytes) -> bool, s: System) returns (s': System)
    ensures Drains(decodes, s, |s.runner.queue|, s')
    decreases |s.runner.queue|
  {
    if s.runner.queue == multiset{} {
      s' := s;
    } else {
      TopExists(ItemRank, s.runner.queue);
      var item :| IsTop(ItemRank, s.runner.queue, item);
      var mid := System(Attempted(s.runner, item, ALL_SUCCEED, decodes), s.latest, s.log + [item.number]);
      assert DrainStep(decodes, s, item, mid);
      DrainTakesItem(decodes, s, item, mid);
      s' := CanDrain(decodes, mid);
      assert DrainsVia(decodes, s, |s.runner.queue|, item, mid, s');
    }
  }

  /**
    Whatever has been queued in a reliable run, once as many attempts as there are items have
    succeeded the queue is empty, and the newest snapshot of every queued object is the data last
    queued for it, if that decodes.
   */
  lemma DrainWritesLatest(decodes: (string, Bytes) -> bool, events: seq<Event>, s: System, s': System)
    requires Reaches(Faults(false, false), decodes, events, s)
    requires Drains(decodes, s, |s.runner.queue|, s')
    ensures s'.runner.queue == multiset{} && s'.latest == s.latest
    ensures forall o :: o in s.latest && decodes(o, s.latest[o]) ==>
      o in s'.runner.table && s'.runner.table[o] == s.latest[o]
  {
    ReliableRunsAreSafe(decodes, events, s);
    DrainTakesItems(decodes, s, |s.runner.queue|, s');
    DrainedIsSafe(decodes, s, |s.runner.queue|, s');
    forall o | o in s.latest && decodes(o, s.latest[o])
      ensures o in s'.runner.table && s'.runner.table[o] == s.latest[o]
    {
      assert Safe(s', o);
    }
  }

  /** Whatever is queued, some data was last queued for it. */
  ghost predicate QueuedHasLatest(s: System) {
    forall item :: item in s.runner.queue ==> item.objectId in s.latest
  }

  /** No attempt queues anything new. */
  lemma AttemptQueuesNothing(r: Runner, item: PendingItem, answers: Answers, decodes: (string, Bytes) -> bool)
    requires item in r.queue
    ensures forall i :: i in Attempted(r, item, answers, decodes).queue ==> i in r.queue
  {
  }

  lemma StepHasLatest(faults: Faults, decodes: (string, Bytes) -> bool, s: System, e: Event, s': System)
    requires QueuedHasLatest(s) && Step(faults, decodes, s, e, s')
    ensures QueuedHasLatest(s')
  {
    if e.Attempt? {
      AttemptQueuesNothing(s.runner, e.item, e.answers, decodes);
    }
  }

  lemma {:induction false} RunsHaveLatest(
    faults: Faults, decodes: (string, Bytes) -> bool, events: seq<Event>, s: System)
    requires Reaches(faults, decodes, events, s)
    ensures QueuedHasLatest(s)
    decreases |events|
  {
    if events != [] {
      var mid :| LastStep(faults, decodes, events, mid, s);
      RunsHaveLatest(faults, decodes, events[..|events| - 1], mid);
      StepHasLatest(faults, decodes, mid, events[|events| - 1], s);
    }
  }

  /** The first attempt that succeeds for an object writes what was last queued for it, in any reliable run. */
  lemma SuccessWritesLatest(
    decodes: (string, Bytes) -> bool, events: seq<Event>, s: System, item: PendingItem, s': System)
    requires Reaches(Faults(false, false), decodes, events, s) && DrainStep(decodes, s, item, s')
    requires Writable(s.runner, item.objectId, decodes)
    ensures item.objectId in s.latest
    ensures item.objectId in s'.runner.table && s'.runner.table[item.objectId] == s.latest[item.objectId]
    ensures SnapshotKey(item.objectId) !in s'.runner.cache && s'.runner.successes == s.runner.successes + 1
  {
    ReliableRunsAreSafe(decodes, events, s);
    RunsHaveLatest(Faults(false, false), decodes, events, s);
    SuccessfulAttempt(s.runner, item, decodes);
  }
}
