/**
  What merging queued messages preserves (`CollabSink::merge`, and `UpdateSync::merge_payload`).

  The merge loop cuts the popped messages into consecutive groups and keeps one message for each
  group. When every queued update is a document update, the kept message carries the union of
  its group under the group's smallest id; messages that are flying or are not updates are alone
  in their groups and stay as they are.
 */
module SinkMerge {
  import opened PriorityHeap
  import opened YrsDocument
  import opened CollabMessages
  import opened SinkSpec

  /** Where the merge loop puts `next`: into the last group, or into a group of its own. */
  ghost function GroupNext(
    cfg: SinkConfig, flying: set<MsgId>, kept: seq<ClientMessage>, groups: seq<seq<ClientMessage>>, next: ClientMessage)
    : seq<seq<ClientMessage>>
  {
    if |kept| == |groups| && next.id !in flying && kept != [] && Absorbs(cfg, flying, kept[|kept| - 1], next) then
      groups[..|groups| - 1] + [groups[|groups| - 1] + [next]]
    else
      groups + [[next]]
  }

  /** The group each kept message stands for, following the merge loop. */
  ghost function MergeGroups(cfg: SinkConfig, flying: set<MsgId>, popped: seq<ClientMessage>): seq<seq<ClientMessage>> {
    if popped == [] then []
    else
      var front := popped[..|popped| - 1];
      GroupNext(cfg, flying, MergePass(cfg, flying, front), MergeGroups(cfg, flying, front), popped[|popped| - 1])
  }

  ghost function Flatten(groups: seq<seq<ClientMessage>>): seq<ClientMessage> {
    if groups == [] then [] else Flatten(groups[..|groups| - 1]) + groups[|groups| - 1]
  }

  /** An awareness change that is too large to take in the message behind it. */
  predicate IsInert(cfg: SinkConfig, m: ClientMessage) {
    m.ClientUpdateSync? && m.payload == [Awareness] && cfg.sizeOf([Awareness]) >= cfg.maxPayload
  }

  /** A queued message of the kinds that merging handles without loss. */
  predicate Plain(cfg: SinkConfig, m: ClientMessage) {
    m.ClientInitSync? || m.ServerInitSync? || IsDocumentUpdate(m) || IsInert(cfg, m)
  }

  ghost predicate AllPlain(cfg: SinkConfig, s: seq<ClientMessage>) {
    forall m :: m in s ==> Plain(cfg, m)
  }

  /** Unflying document updates share a group; an awareness change may join one. */
  predicate MayShare(flying: set<MsgId>, m: ClientMessage) {
    m.id !in flying && m.ClientUpdateSync? && (IsDocumentUpdate(m) || m.payload == [Awareness])
  }

  /** `kept` stands for `group` without losing or inventing anything. */
  ghost predicate StandsFor(flying: set<MsgId>, kept: ClientMessage, group: seq<ClientMessage>) {
    && group != []
    && MessageRank(kept) == MessageRank(group[0])
    && kept.id == group[0].id
    && (forall m :: m in group ==> NotAfter(MessageRank(kept), MessageRank(m)))
    && (|group| == 1 ==> kept == group[0])
    && (|group| > 1 ==> IsDocumentUpdate(kept) && IsDocumentUpdate(group[0]))
    && (|group| > 1 ==> forall m :: m in group ==> MayShare(flying, m))
    && (forall op :: op in MessageOps(kept) <==> exists m :: m in group && op in MessageOps(m))
  }

  ghost predicate AllStandFor(flying: set<MsgId>, kept: seq<ClientMessage>, groups: seq<seq<ClientMessage>>) {
    && |kept| == |groups|
    && forall i :: 0 <= i < |kept| ==> StandsFor(flying, kept[i], groups[i])
  }

  lemma DocumentUpdateOps(m: ClientMessage)
    requires IsDocumentUpdate(m)
    ensures MessageOps(m) == m.payload[0].update
  {
    assert m.payload == [m.payload[0]];
    SingletonOps(m.payload[0]);
  }

  lemma NoOpsInAwareness(m: ClientMessage)
    requires m.payload == [Awareness]
    ensures MessageOps(m) == {}
  {
    SingletonOps(Awareness);
  }

  /** What a plain message takes in leaves it a document update with the operations of both. */
  lemma AbsorbIsUnion(cfg: SinkConfig, flying: set<MsgId>, last: ClientMessage, next: ClientMessage)
    requires Absorbs(cfg, flying, last, next) && Plain(cfg, last) && Plain(cfg, next) && next.ClientUpdateSync?
    ensures IsDocumentUpdate(last)
    ensures var m := Absorb(cfg, last, next);
      IsDocumentUpdate(m) && m.id == last.id && MessageOps(m) == MessageOps(last) + MessageOps(next)
  {
    DocumentUpdateOps(last);
    if IsDocumentUpdate(next) {
      DocumentUpdateOps(next);
      DocumentUpdateOps(Absorb(cfg, last, next));
    } else {
      NoOpsInAwareness(next);
    }
  }

  lemma NoEarlierKind(cfg: SinkConfig, last: ClientMessage, next: ClientMessage)
    requires last.ClientUpdateSync? && Plain(cfg, next) && NotAfter(MessageRank(last), MessageRank(next))
    ensures next.ClientUpdateSync?
  {
  }

  lemma UnionOfGroup(group: seq<ClientMessage>, last: ClientMessage, next: ClientMessage, kept: ClientMessage)
    requires forall op :: op in MessageOps(last) <==> exists m :: m in group && op in MessageOps(m)
    requires MessageOps(kept) == MessageOps(last) + MessageOps(next)
    ensures forall op :: op in MessageOps(kept) <==> exists m :: m in group + [next] && op in MessageOps(m)
  {
    var longer := group + [next];
    forall op | op in MessageOps(kept)
      ensures exists m :: m in longer && op in MessageOps(m)
    {
      if op in MessageOps(next) {
        assert next in longer;
      } else {
        var m :| m in group && op in MessageOps(m);
        assert m in longer;
      }
    }
  }

  lemma GrownStandsFor(flying: set<MsgId>, last: ClientMessage, group: seq<ClientMessage>, next: ClientMessage, kept: ClientMessage)
    requires StandsFor(flying, last, group) && IsDocumentUpdate(last) && IsDocumentUpdate(kept)
    requires kept.id == last.id && MessageRank(kept) == MessageRank(last) && NotAfter(MessageRank(last), MessageRank(next))
    requires MayShare(flying, next) && last.id !in flying
    requires forall op :: op in MessageOps(kept) <==> exists m :: m in group + [next] && op in MessageOps(m)
    ensures StandsFor(flying, kept, group + [next])
  {
    if |group| == 1 {
      assert last == group[0];
    }
  }

  lemma GroupGrows(cfg: SinkConfig, flying: set<MsgId>, last: ClientMessage, group: seq<ClientMessage>, next: ClientMessage)
    requires StandsFor(flying, last, group) && Plain(cfg, last) && Plain(cfg, next)
    requires NotAfter(MessageRank(last), MessageRank(next))
    requires next.id !in flying && Absorbs(cfg, flying, last, next)
    ensures StandsFor(flying, Absorb(cfg, last, next), group + [next])
  {
    NoEarlierKind(cfg, last, next);
    AbsorbIsUnion(cfg, flying, last, next);
    AbsorbKeepsRank(cfg, last, next);
    UnionOfGroup(group, last, next, Absorb(cfg, last, next));
    GrownStandsFor(flying, last, group, next, Absorb(cfg, last, next));
  }

  lemma SortedFront(s: seq<ClientMessage>)
    requires Sorted(MessageRank, s) && s != []
    ensures Sorted(MessageRank, s[..|s| - 1])
    ensures forall m :: m in s[..|s| - 1] ==> NotAfter(MessageRank(m), MessageRank(s[|s| - 1]))
  {
    var front := s[..|s| - 1];
    forall m | m in front
      ensures NotAfter(MessageRank(m), MessageRank(s[|s| - 1]))
    {
      var k :| 0 <= k < |front| && front[k] == m;
      assert s[k] == m;
    }
  }

  lemma SortedSnoc(s: seq<ClientMessage>, x: ClientMessage)
    requires Sorted(MessageRank, s)
    requires forall m :: m in s ==> NotAfter(MessageRank(m), MessageRank(x))
    ensures Sorted(MessageRank, s + [x])
  {
  }

  /** Every kept message has the id and the rank of a popped one. */
  ghost predicate DrawnFrom(kept: seq<ClientMessage>, popped: seq<ClientMessage>) {
    forall k :: k in kept ==> exists m :: m in popped && MessageRank(m) == MessageRank(k) && m.id == k.id
  }

  lemma DrawnNext(cfg: SinkConfig, flying: set<MsgId>, kept: seq<ClientMessage>, front: seq<ClientMessage>, next: ClientMessage)
    requires DrawnFrom(kept, front)
    ensures DrawnFrom(MergeNext(cfg, flying, kept, next), front + [next])
    ensures AllPlain(cfg, kept) && Plain(cfg, next) ==> AllPlain(cfg, MergeNext(cfg, flying, kept, next))
  {
    assert forall m :: m in front ==> m in front + [next];
    assert next in front + [next];
    if next.id !in flying && kept != [] && Absorbs(cfg, flying, kept[|kept| - 1], next) {
      assert kept[|kept| - 1] in kept;
      AbsorbKeepsRank(cfg, kept[|kept| - 1], next);
    }
  }

  lemma {:induction false} MergePassDrawn(cfg: SinkConfig, flying: set<MsgId>, popped: seq<ClientMessage>)
    ensures DrawnFrom(MergePass(cfg, flying, popped), popped)
    ensures AllPlain(cfg, popped) ==> AllPlain(cfg, MergePass(cfg, flying, popped))
  {
    if popped != [] {
      var front, next := popped[..|popped| - 1], popped[|popped| - 1];
      MergePassDrawn(cfg, flying, front);
      DrawnNext(cfg, flying, MergePass(cfg, flying, front), front, next);
      PassOfSnoc(cfg, flying, front, next);
      PlainFront(cfg, popped);
      assert front + [next] == popped;
    }
  }

  lemma PlainFront(cfg: SinkConfig, s: seq<ClientMessage>)
    requires s != []
    ensures AllPlain(cfg, s) ==> AllPlain(cfg, s[..|s| - 1]) && Plain(cfg, s[|s| - 1])
  {
  }

  /** Folding a message into another keeps the latter's id and rank. */
  lemma AbsorbKeepsRank(cfg: SinkConfig, last: ClientMessage, next: ClientMessage)
    ensures var m := Absorb(cfg, last, next); m.id == last.id && MessageRank(m) == MessageRank(last)
    ensures Plain(cfg, last) && Plain(cfg, next) ==> Plain(cfg, Absorb(cfg, last, next))
  {
  }

  lemma FrontDrawn(kept: seq<ClientMessage>, popped: seq<ClientMessage>)
    requires popped != [] && Sorted(MessageRank, popped)
    requires DrawnFrom(kept, popped[..|popped| - 1])
    ensures forall k :: k in kept ==> NotAfter(MessageRank(k), MessageRank(popped[|popped| - 1]))
  {
    SortedFront(popped);
  }

  lemma {:induction false} MergePassSorted(cfg: SinkConfig, flying: set<MsgId>, popped: seq<ClientMessage>)
    requires AllPlain(cfg, popped) && Sorted(MessageRank, popped)
    ensures Sorted(MessageRank, MergePass(cfg, flying, popped))
  {
    if popped != [] {
      var front, next := popped[..|popped| - 1], popped[|popped| - 1];
      SortedFront(popped);
      MergePassSorted(cfg, flying, front);
      MergePassDrawn(cfg, flying, front);
      var kept := MergePass(cfg, flying, front);
      FrontDrawn(kept, popped);
      if next.id !in flying && kept != [] && Absorbs(cfg, flying, kept[|kept| - 1], next) {
        var last := kept[|kept| - 1];
        assert last in kept;
        assert next in popped;
        NoEarlierKind(cfg, last, next);
        AbsorbKeepsRank(cfg, last, next);
        SortedFront(kept);
        SortedSnoc(kept[..|kept| - 1], Absorb(cfg, last, next));
      } else {
        SortedSnoc(kept, next);
      }
    }
  }

  lemma StandForSnoc(
    flying: set<MsgId>, kept: seq<ClientMessage>, groups: seq<seq<ClientMessage>>, k: ClientMessage, g: seq<ClientMessage>)
    requires AllStandFor(flying, kept, groups) && StandsFor(flying, k, g)
    ensures AllStandFor(flying, kept + [k], groups + [g])
  {
  }

  lemma StandForFront(flying: set<MsgId>, kept: seq<ClientMessage>, groups: seq<seq<ClientMessage>>)
    requires AllStandFor(flying, kept, groups) && kept != []
    ensures AllStandFor(flying, kept[..|kept| - 1], groups[..|kept| - 1])
    ensures StandsFor(flying, kept[|kept| - 1], groups[|kept| - 1])
  {
  }

  lemma {:induction false} MergePassStandsFor(cfg: SinkConfig, flying: set<MsgId>, popped: seq<ClientMessage>)
    requires AllPlain(cfg, popped) && Sorted(MessageRank, popped)
    ensures AllStandFor(flying, MergePass(cfg, flying, popped), MergeGroups(cfg, flying, popped))
  {
    if popped != [] {
      var front, next := popped[..|popped| - 1], popped[|popped| - 1];
      SortedFront(popped);
      MergePassStandsFor(cfg, flying, front);
      MergePassDrawn(cfg, flying, front);
      var kept, groups := MergePass(cfg, flying, front), MergeGroups(cfg, flying, front);
      FrontDrawn(kept, popped);
      StandForStep(cfg, flying, kept, groups, next);
    }
  }

  lemma StandForStep(
    cfg: SinkConfig, flying: set<MsgId>, kept: seq<ClientMessage>, groups: seq<seq<ClientMessage>>, next: ClientMessage)
    requires AllStandFor(flying, kept, groups) && Plain(cfg, next)
    requires forall k :: k in kept ==> Plain(cfg, k) && NotAfter(MessageRank(k), MessageRank(next))
    ensures AllStandFor(flying, MergeNext(cfg, flying, kept, next), GroupNext(cfg, flying, kept, groups, next))
  {
    if next.id !in flying && kept != [] && Absorbs(cfg, flying, kept[|kept| - 1], next) {
      var last := kept[|kept| - 1];
      assert last in kept;
      StandForFront(flying, kept, groups);
      GroupGrows(cfg, flying, last, groups[|kept| - 1], next);
      StandForSnoc(flying, kept[..|kept| - 1], groups[..|kept| - 1], Absorb(cfg, last, next), groups[|kept| - 1] + [next]);
    } else {
      AloneStandsFor(flying, next);
      StandForSnoc(flying, kept, groups, next, [next]);
    }
  }

  lemma AloneStandsFor(flying: set<MsgId>, m: ClientMessage)
    ensures StandsFor(flying, m, [m])
  {
    assert forall op :: op in MessageOps(m) ==> exists m' :: m' in [m] && op in MessageOps(m');
  }

  lemma FlattenSnoc(groups: seq<seq<ClientMessage>>, g: seq<ClientMessage>)
    ensures Flatten(groups + [g]) == Flatten(groups) + g
  {
    assert (groups + [g])[..|groups|] == groups;
  }

  lemma GroupNextCovers(
    cfg: SinkConfig, flying: set<MsgId>, kept: seq<ClientMessage>, groups: seq<seq<ClientMessage>>, next: ClientMessage)
    requires |kept| == |groups|
    ensures |GroupNext(cfg, flying, kept, groups, next)| == |MergeNext(cfg, flying, kept, next)|
    ensures Flatten(GroupNext(cfg, flying, kept, groups, next)) == Flatten(groups) + [next]
  {
    FlattenSnoc(groups, [next]);
    if groups != [] {
      var n := |groups| - 1;
      FlattenSnoc(groups[..n], groups[n]);
      FlattenSnoc(groups[..n], groups[n] + [next]);
      assert groups == groups[..n] + [groups[n]];
      assert Flatten(groups[..n]) + (groups[n] + [next]) == (Flatten(groups[..n]) + groups[n]) + [next];
    }
  }

  lemma GroupsOfSnoc(cfg: SinkConfig, flying: set<MsgId>, front: seq<ClientMessage>, next: ClientMessage)
    ensures MergeGroups(cfg, flying, front + [next]) ==
      GroupNext(cfg, flying, MergePass(cfg, flying, front), MergeGroups(cfg, flying, front), next)
  {
    assert (front + [next])[..|front|] == front;
  }

  lemma {:induction false} GroupsCoverPopped(cfg: SinkConfig, flying: set<MsgId>, popped: seq<ClientMessage>)
    ensures |MergeGroups(cfg, flying, popped)| == |MergePass(cfg, flying, popped)|
    ensures Flatten(MergeGroups(cfg, flying, popped)) == popped
  {
    if popped != [] {
      var front, next := popped[..|popped| - 1], popped[|popped| - 1];
      assert popped == front + [next];
      GroupsCoverPopped(cfg, flying, front);
      PassOfSnoc(cfg, flying, front, next);
      GroupsOfSnoc(cfg, flying, front, next);
      GroupNextCovers(cfg, flying, MergePass(cfg, flying, front), MergeGroups(cfg, flying, front), next);
    }
  }

  /**
    Merging preserves meaning: the popped messages, read in order, fall into consecutive groups;
    each kept message carries exactly the operations of its group under the smallest id of the
    group; only unflying document updates, and awareness changes behind one, share a group; and the
    kept messages are again in priority order.
   */
  lemma MergePreservesMeaning(cfg: SinkConfig, flying: set<MsgId>, popped: seq<ClientMessage>)
    requires AllPlain(cfg, popped) && Sorted(MessageRank, popped)
    ensures var kept, groups := MergePass(cfg, flying, popped), MergeGroups(cfg, flying, popped);
      && Flatten(groups) == popped
      && AllStandFor(flying, kept, groups)
      && Sorted(MessageRank, kept)
  {
    MergePassStandsFor(cfg, flying, popped);
    MergePassSorted(cfg, flying, popped);
    GroupsCoverPopped(cfg, flying, popped);
  }

  // The same facts for the queue as a heap ------------------------------------------------------

  ghost predicate DistinctIds(s: seq<ClientMessage>) {
    s == [] || (DistinctIds(s[..|s| - 1]) && s[|s| - 1].id !in Ids(s[..|s| - 1]))
  }

  lemma SnocUnique(queue: multiset<ClientMessage>, m: ClientMessage)
    ensures UniqueIds(queue + multiset{m}) <==> UniqueIds(queue) && forall k :: k in queue ==> k.id != m.id
  {
    var longer := queue + multiset{m};
    assert forall k :: k in queue ==> k in longer;
    if UniqueIds(longer) {
      assert longer[m] == 1;
      assert m !in queue;
      assert forall k :: k in queue ==> longer[k] == queue[k];
    }
  }

  lemma {:induction false} DistinctIsUnique(s: seq<ClientMessage>)
    ensures DistinctIds(s) <==> UniqueIds(multiset(s))
  {
    if s != [] {
      var front, last := s[..|s| - 1], s[|s| - 1];
      DistinctIsUnique(front);
      assert s == front + [last];
      assert multiset(s) == multiset(front) + multiset{last};
      assert last.id !in Ids(front) <==> forall k: ClientMessage :: k in multiset(front) ==> k.id != last.id;
      SnocUnique(multiset(front), last);
    }
  }

  lemma DistinctSnoc(s: seq<ClientMessage>, m: ClientMessage)
    ensures DistinctIds(s + [m]) <==> DistinctIds(s) && m.id !in Ids(s)
  {
    assert (s + [m])[..|s|] == s;
  }

  lemma DistinctNext(cfg: SinkConfig, flying: set<MsgId>, kept: seq<ClientMessage>, next: ClientMessage)
    requires DistinctIds(kept) && next.id !in Ids(kept)
    ensures DistinctIds(MergeNext(cfg, flying, kept, next))
  {
    if next.id !in flying && kept != [] && Absorbs(cfg, flying, kept[|kept| - 1], next) {
      AbsorbKeepsRank(cfg, kept[|kept| - 1], next);
      DistinctSnoc(kept[..|kept| - 1], Absorb(cfg, kept[|kept| - 1], next));
    } else {
      DistinctSnoc(kept, next);
    }
  }

  lemma DrawnIds(kept: seq<ClientMessage>, popped: seq<ClientMessage>)
    requires DrawnFrom(kept, popped)
    ensures Ids(kept) <= Ids(popped)
  {
  }

  lemma {:induction false} MergePassDistinct(cfg: SinkConfig, flying: set<MsgId>, popped: seq<ClientMessage>)
    requires DistinctIds(popped)
    ensures DistinctIds(MergePass(cfg, flying, popped))
  {
    if popped != [] {
      var front, next := popped[..|popped| - 1], popped[|popped| - 1];
      MergePassDistinct(cfg, flying, front);
      MergePassDrawn(cfg, flying, front);
      DrawnIds(MergePass(cfg, flying, front), front);
      DistinctNext(cfg, flying, MergePass(cfg, flying, front), next);
    }
  }

  lemma {:induction false} FlattenMember(groups: seq<seq<ClientMessage>>, m: ClientMessage)
    ensures m in Flatten(groups) <==> exists i :: 0 <= i < |groups| && m in groups[i]
  {
    if groups != [] {
      var front := groups[..|groups| - 1];
      FlattenMember(front, m);
      if i :| 0 <= i < |groups| && m in groups[i] {
        assert i < |front| ==> m in front[i];
      }
    }
  }

  ghost predicate AllPlainQueue(cfg: SinkConfig, queue: multiset<ClientMessage>) {
    forall m :: m in queue ==> Plain(cfg, m)
  }

  lemma GroupMemberPopped(groups: seq<seq<ClientMessage>>, i: nat, m: ClientMessage)
    requires i < |groups| && m in groups[i]
    ensures m in Flatten(groups)
  {
    FlattenMember(groups, m);
  }

  lemma GroupsKeepOp(flying: set<MsgId>, kept: seq<ClientMessage>, groups: seq<seq<ClientMessage>>, m: ClientMessage, op: Op)
    requires AllStandFor(flying, kept, groups)
    requires m in Flatten(groups) && op in MessageOps(m)
    ensures Carries(multiset(kept), op)
  {
    FlattenMember(groups, m);
    var i :| 0 <= i < |groups| && m in groups[i];
    assert StandsFor(flying, kept[i], groups[i]);
    assert kept[i] in multiset(kept);
  }

  lemma GroupsInventNoOp(flying: set<MsgId>, kept: seq<ClientMessage>, groups: seq<seq<ClientMessage>>, k: ClientMessage, op: Op)
    returns (m: ClientMessage)
    requires AllStandFor(flying, kept, groups)
    requires k in kept && op in MessageOps(k)
    ensures m in Flatten(groups) && op in MessageOps(m)
  {
    var i :| 0 <= i < |kept| && kept[i] == k;
    assert StandsFor(flying, kept[i], groups[i]);
    m :| m in groups[i] && op in MessageOps(m);
    GroupMemberPopped(groups, i, m);
  }

  /** Merging neither drops nor invents an operation. */
  lemma MergeKeepsOps(cfg: SinkConfig, flying: set<MsgId>, popped: seq<ClientMessage>, op: Op)
    requires AllPlain(cfg, popped) && Sorted(MessageRank, popped)
    ensures Carries(multiset(popped), op) <==> Carries(multiset(MergePass(cfg, flying, popped)), op)
  {
    MergePreservesMeaning(cfg, flying, popped);
    var kept, groups := MergePass(cfg, flying, popped), MergeGroups(cfg, flying, popped);
    if Carries(multiset(popped), op) {
      var m :| m in multiset(popped) && op in MessageOps(m);
      GroupsKeepOp(flying, kept, groups, m, op);
    }
    if Carries(multiset(kept), op) {
      var k :| k in multiset(kept) && op in MessageOps(k);
      var m := GroupsInventNoOp(flying, kept, groups, k, op);
      assert m in multiset(popped);
    }
  }

  lemma PoppedOtherIsKept(
    flying: set<MsgId>, kept: seq<ClientMessage>, groups: seq<seq<ClientMessage>>, m: ClientMessage)
    requires AllStandFor(flying, kept, groups)
    requires m.id in flying || !m.ClientUpdateSync?
    requires m in Flatten(groups)
    ensures m in kept
  {
    FlattenMember(groups, m);
    var i :| 0 <= i < |groups| && m in groups[i];
    assert StandsFor(flying, kept[i], groups[i]);
    assert |groups[i]| == 1;
    assert kept[i] == m;
  }

  lemma KeptOtherWasPopped(
    flying: set<MsgId>, kept: seq<ClientMessage>, groups: seq<seq<ClientMessage>>, m: ClientMessage)
    requires AllStandFor(flying, kept, groups)
    requires m.id in flying || !m.ClientUpdateSync?
    requires m in kept
    ensures m in Flatten(groups)
  {
    var i :| 0 <= i < |kept| && kept[i] == m;
    assert StandsFor(flying, kept[i], groups[i]);
    var head := groups[i][0];
    assert head in groups[i];
    assert |groups[i]| == 1;
    GroupMemberPopped(groups, i, head);
  }

  /** Flying messages and messages that are not updates stay exactly as they were. */
  lemma MergeKeepsOthers(cfg: SinkConfig, flying: set<MsgId>, popped: seq<ClientMessage>, m: ClientMessage)
    requires AllPlain(cfg, popped) && Sorted(MessageRank, popped)
    requires m.id in flying || !m.ClientUpdateSync?
    ensures m in popped <==> m in MergePass(cfg, flying, popped)
  {
    MergePreservesMeaning(cfg, flying, popped);
    var kept, groups := MergePass(cfg, flying, popped), MergeGroups(cfg, flying, popped);
    if m in popped {
      PoppedOtherIsKept(flying, kept, groups, m);
    }
    if m in kept {
      KeptOtherWasPopped(flying, kept, groups, m);
    }
  }

  /** Everything later proofs need to know about one call of `merge`. */
  ghost predicate MergeEffect(flying: set<MsgId>, queue: multiset<ClientMessage>, queue': multiset<ClientMessage>) {
    && UniqueIds(queue')
    && (forall op :: Carries(queue, op) <==> Carries(queue', op))
    && (forall k :: k in queue' && (k.id in flying || !k.ClientUpdateSync?) ==> k in queue)
    && (HasInit(queue) ==> HasInit(queue'))
    && (forall k :: k in queue' ==> exists m :: m in queue && m.id == k.id && MessageRank(m) == MessageRank(k))
  }

  /** Ids stay unique through a merge whatever is queued, and no id or rank is invented. */
  lemma MergeKeepsIds(cfg: SinkConfig, flying: set<MsgId>, queue: multiset<ClientMessage>, queue': multiset<ClientMessage>)
    requires MaybeMerged(cfg, flying, queue, queue')
    requires UniqueIds(queue)
    ensures UniqueIds(queue')
    ensures forall k :: k in queue' ==> exists m :: m in queue && m.id == k.id && MessageRank(m) == MessageRank(k)
  {
    if queue' != queue {
      var popped :| MergedVia(cfg, flying, queue, popped, queue');
      var kept := MergePass(cfg, flying, popped);
      assert forall m :: m in popped <==> m in queue;
      assert forall m :: m in kept <==> m in queue';
      DistinctIsUnique(popped);
      MergePassDistinct(cfg, flying, popped);
      DistinctIsUnique(kept);
      MergePassDrawn(cfg, flying, popped);
    }
  }

  lemma PassKeepsOthers(cfg: SinkConfig, flying: set<MsgId>, popped: seq<ClientMessage>)
    requires AllPlain(cfg, popped) && Sorted(MessageRank, popped)
    ensures forall k :: k in MergePass(cfg, flying, popped) && (k.id in flying || !k.ClientUpdateSync?) ==> k in popped
    ensures HasInit(multiset(popped)) ==> HasInit(multiset(MergePass(cfg, flying, popped)))
  {
    var kept := MergePass(cfg, flying, popped);
    forall k | k in kept && (k.id in flying || !k.ClientUpdateSync?)
      ensures k in popped
    {
      MergeKeepsOthers(cfg, flying, popped, k);
    }
    if HasInit(multiset(popped)) {
      var m :| m in multiset(popped) && m.ClientInitSync?;
      MergeKeepsOthers(cfg, flying, popped, m);
      assert m in multiset(kept);
    }
  }

  lemma PassKeepsOps(cfg: SinkConfig, flying: set<MsgId>, popped: seq<ClientMessage>)
    requires AllPlain(cfg, popped) && Sorted(MessageRank, popped)
    ensures forall op :: Carries(multiset(popped), op) <==> Carries(multiset(MergePass(cfg, flying, popped)), op)
  {
    forall op
      ensures Carries(multiset(popped), op) <==> Carries(multiset(MergePass(cfg, flying, popped)), op)
    {
      MergeKeepsOps(cfg, flying, popped, op);
    }
  }

  lemma MergeKeepsQueue(cfg: SinkConfig, flying: set<MsgId>, queue: multiset<ClientMessage>, queue': multiset<ClientMessage>)
    requires MaybeMerged(cfg, flying, queue, queue')
    requires UniqueIds(queue)
    requires !cfg.disableMerge ==> AllPlainQueue(cfg, queue)
    ensures MergeEffect(flying, queue, queue')
    ensures AllPlainQueue(cfg, queue) ==> AllPlainQueue(cfg, queue')
  {
    MergeKeepsIds(cfg, flying, queue, queue');
    if queue' != queue {
      var popped :| MergedVia(cfg, flying, queue, popped, queue');
      assert forall m :: m in popped <==> m in queue;
      assert forall m :: m in MergePass(cfg, flying, popped) <==> m in queue';
      MergePassDrawn(cfg, flying, popped);
      PassKeepsOps(cfg, flying, popped);
      PassKeepsOthers(cfg, flying, popped);
    }
  }

  predicate TakesNothingIn(cfg: SinkConfig, m: ClientMessage) {
    m.ClientUpdateSync? ==> cfg.sizeOf(m.payload) >= cfg.maxPayload
  }

  lemma NextIsKept(cfg: SinkConfig, flying: set<MsgId>, kept: seq<ClientMessage>, next: ClientMessage)
    requires kept != [] ==> TakesNothingIn(cfg, kept[|kept| - 1])
    ensures MergeNext(cfg, flying, kept, next) == kept + [next]
  {
  }

  ghost predicate NoneTakesIn(cfg: SinkConfig, s: seq<ClientMessage>) {
    forall m :: m in s ==> TakesNothingIn(cfg, m)
  }

  /** Without a message that takes others in, the pass keeps everything as it is. */
  lemma {:induction false} NothingMerges(cfg: SinkConfig, flying: set<MsgId>, popped: seq<ClientMessage>)
    requires NoneTakesIn(cfg, popped)
    ensures MergePass(cfg, flying, popped) == popped
  {
    if popped != [] {
      var front, next := popped[..|popped| - 1], popped[|popped| - 1];
      assert popped == front + [next];
      NothingMerges(cfg, flying, front);
      PassOfSnoc(cfg, flying, front, next);
      NextIsKept(cfg, flying, front, next);
    }
  }

  // Where merging does lose a message ------------------------------------------------------------

  /** The operations in the first message of a payload: all that a merge of updates looks at. */
  function FirstOps(m: ClientMessage): set<Op> {
    if m.payload == [] then {} else YMessageOps(m.payload[0])
  }

  /**
    The loop treats `Ok(false)` like a successful merge. Exactly: folding `next` into `last` keeps
    the operations of both if and only if, when both are updates, nothing behind their first
    messages is new, and otherwise `next` brings nothing new.
   */
  lemma AbsorbKeepsBothIff(cfg: SinkConfig, flying: set<MsgId>, last: ClientMessage, next: ClientMessage)
    requires Absorbs(cfg, flying, last, next)
    ensures MessageOps(Absorb(cfg, last, next)) == MessageOps(last) + MessageOps(next) <==>
      if next.ClientUpdateSync? && StartsWithUpdate(last.payload) && StartsWithUpdate(next.payload)
      then MessageOps(last) + MessageOps(next) <= FirstOps(last) + FirstOps(next)
      else MessageOps(next) <= MessageOps(last)
  {
    if next.ClientUpdateSync? && StartsWithUpdate(last.payload) && StartsWithUpdate(next.payload) {
      DocumentUpdateOps(Absorb(cfg, last, next));
      FirstOpsAreOps(last);
      FirstOpsAreOps(next);
    } else {
      assert Absorb(cfg, last, next) == last;
    }
  }

  lemma {:induction false} PrefixOps(p: Payload, n: nat)
    requires n <= |p|
    ensures PayloadOps(p[..n]) <= PayloadOps(p)
    decreases |p|
  {
    if n == |p| {
      assert p[..n] == p;
    } else {
      assert p[..|p| - 1][..n] == p[..n];
      PrefixOps(p[..|p| - 1], n);
    }
  }

  lemma FirstOpsAreOps(m: ClientMessage)
    ensures FirstOps(m) <= MessageOps(m)
  {
    if m.payload != [] {
      assert m.payload[..1] == [m.payload[0]];
      SingletonOps(m.payload[0]);
      PrefixOps(m.payload, 1);
    }
  }

  // Which operations a whole pass keeps ------------------------------------------------------------

  /** Every `ClientUpdateSync` is made with one protocol message. */
  ghost predicate SingleUpdates(s: seq<ClientMessage>) {
    forall m :: m in s && m.ClientUpdateSync? ==> |m.payload| == 1
  }

  /** The last kept message takes `next` in although the two are not both document updates. */
  predicate Swallows(cfg: SinkConfig, flying: set<MsgId>, kept: seq<ClientMessage>, next: ClientMessage) {
    && next.id !in flying && kept != []
    && Absorbs(cfg, flying, kept[|kept| - 1], next)
    && !(IsDocumentUpdate(kept[|kept| - 1]) && IsDocumentUpdate(next))
  }

  /** Popped message `i` is swallowed. */
  predicate SwallowedAt(cfg: SinkConfig, flying: set<MsgId>, popped: seq<ClientMessage>, i: nat)
    requires i < |popped|
  {
    Swallows(cfg, flying, MergePass(cfg, flying, popped[..i]), popped[i])
  }

  predicate SurvivesAt(cfg: SinkConfig, flying: set<MsgId>, popped: seq<ClientMessage>, i: nat, op: Op)
    requires i < |popped|
  {
    op in MessageOps(popped[i]) && !SwallowedAt(cfg, flying, popped, i)
  }

  ghost predicate Survives(cfg: SinkConfig, flying: set<MsgId>, popped: seq<ClientMessage>, op: Op) {
    exists i :: 0 <= i < |popped| && SurvivesAt(cfg, flying, popped, i, op)
  }

  lemma CarriesSnoc(s: seq<ClientMessage>, m: ClientMessage, op: Op)
    ensures Carries(multiset(s + [m]), op) <==> Carries(multiset(s), op) || op in MessageOps(m)
  {
    assert multiset(s + [m]) == multiset(s) + multiset{m};
    if Carries(multiset(s), op) {
      var k :| k in multiset(s) && op in MessageOps(k);
      assert k in multiset(s + [m]);
    }
    if op in MessageOps(m) {
      assert m in multiset(s + [m]);
    }
  }

  lemma DocumentUpdatesUnite(cfg: SinkConfig, flying: set<MsgId>, last: ClientMessage, next: ClientMessage)
    requires Absorbs(cfg, flying, last, next) && IsDocumentUpdate(last) && IsDocumentUpdate(next)
    ensures MessageOps(Absorb(cfg, last, next)) == MessageOps(last) + MessageOps(next)
  {
    AbsorbIsUnion(cfg, flying, last, next);
  }

  lemma SwallowingKeepsLast(cfg: SinkConfig, flying: set<MsgId>, last: ClientMessage, next: ClientMessage)
    requires Absorbs(cfg, flying, last, next) && !(IsDocumentUpdate(last) && IsDocumentUpdate(next))
    requires |last.payload| == 1 && (next.ClientUpdateSync? ==> |next.payload| == 1)
    ensures Absorb(cfg, last, next) == last
  {
  }

  lemma NextStaysSingle(cfg: SinkConfig, flying: set<MsgId>, kept: seq<ClientMessage>, next: ClientMessage)
    requires SingleUpdates(kept) && (next.ClientUpdateSync? ==> |next.payload| == 1)
    ensures SingleUpdates(MergeNext(cfg, flying, kept, next))
  {
    if next.id !in flying && kept != [] && Absorbs(cfg, flying, kept[|kept| - 1], next) {
      assert kept[|kept| - 1] in kept;
      assert forall m :: m in kept[..|kept| - 1] ==> m in kept;
    }
  }

  lemma AbsorbedOps(cfg: SinkConfig, flying: set<MsgId>, last: ClientMessage, next: ClientMessage)
    requires Absorbs(cfg, flying, last, next) && |last.payload| == 1 && (next.ClientUpdateSync? ==> |next.payload| == 1)
    ensures MessageOps(Absorb(cfg, last, next)) ==
      if IsDocumentUpdate(last) && IsDocumentUpdate(next) then MessageOps(last) + MessageOps(next) else MessageOps(last)
  {
    if IsDocumentUpdate(last) && IsDocumentUpdate(next) {
      DocumentUpdatesUnite(cfg, flying, last, next);
    } else {
      SwallowingKeepsLast(cfg, flying, last, next);
    }
  }

  lemma NextKeeps(cfg: SinkConfig, flying: set<MsgId>, kept: seq<ClientMessage>, next: ClientMessage, op: Op)
    requires SingleUpdates(kept) && (next.ClientUpdateSync? ==> |next.payload| == 1)
    ensures Carries(multiset(MergeNext(cfg, flying, kept, next)), op) <==>
      Carries(multiset(kept), op) || (op in MessageOps(next) && !Swallows(cfg, flying, kept, next))
  {
    if next.id !in flying && kept != [] && Absorbs(cfg, flying, kept[|kept| - 1], next) {
      var front, last := kept[..|kept| - 1], kept[|kept| - 1];
      assert last in kept;
      AbsorbedOps(cfg, flying, last, next);
      CarriesSnoc(front, Absorb(cfg, last, next), op);
      LastCarries(kept, op);
    } else {
      CarriesSnoc(kept, next, op);
    }
  }

  lemma LastCarries(s: seq<ClientMessage>, op: Op)
    requires s != []
    ensures Carries(multiset(s), op) <==> Carries(multiset(s[..|s| - 1]), op) || op in MessageOps(s[|s| - 1])
  {
    CarriesSnoc(s[..|s| - 1], s[|s| - 1], op);
    assert s == s[..|s| - 1] + [s[|s| - 1]];
  }

  /**
    What a whole pass keeps, for any queue: an operation is carried afterwards if and only if some
    popped message that is not swallowed carried it. So it is dropped exactly when each message
    that carried it came, unflying, behind a message that took it in without both being document
    updates.
   */
  lemma {:induction false} MergePassCarriesIff(cfg: SinkConfig, flying: set<MsgId>, popped: seq<ClientMessage>, op: Op)
    requires SingleUpdates(popped)
    ensures SingleUpdates(MergePass(cfg, flying, popped))
    ensures Carries(multiset(MergePass(cfg, flying, popped)), op) <==> Survives(cfg, flying, popped, op)
  {
    if popped != [] {
      var n := |popped| - 1;
      var front, next := popped[..n], popped[n];
      assert next in popped && forall m :: m in front ==> m in popped;
      MergePassCarriesIff(cfg, flying, front, op);
      NextStaysSingle(cfg, flying, MergePass(cfg, flying, front), next);
      NextKeeps(cfg, flying, MergePass(cfg, flying, front), next, op);
      SurvivalPrefix(cfg, flying, popped, op);
    }
  }

  lemma SurvivalPrefix(cfg: SinkConfig, flying: set<MsgId>, popped: seq<ClientMessage>, op: Op)
    requires popped != []
    ensures Survives(cfg, flying, popped, op) <==>
      Survives(cfg, flying, popped[..|popped| - 1], op) || SurvivesAt(cfg, flying, popped, |popped| - 1, op)
  {
    var n := |popped| - 1;
    var front := popped[..n];
    forall i: nat | i < n
      ensures SurvivesAt(cfg, flying, popped, i, op) == SurvivesAt(cfg, flying, front, i, op)
    {
      assert front[..i] == popped[..i];
    }
    if i :| 0 <= i < |popped| && SurvivesAt(cfg, flying, popped, i, op) {
      assert i < n ==> SurvivesAt(cfg, flying, front, i, op);
    }
    if i :| 0 <= i < n && SurvivesAt(cfg, flying, front, i, op) {
      assert SurvivesAt(cfg, flying, popped, i, op);
    }
  }

  lemma MergePassOfTwo(cfg: SinkConfig, flying: set<MsgId>, a: ClientMessage, b: ClientMessage)
    ensures MergePass(cfg, flying, [a]) == [a]
    ensures MergePass(cfg, flying, [a, b]) == MergeNext(cfg, flying, [a], b)
  {
    assert [a][..0] == [];
    assert MergePass(cfg, flying, [a]) == MergeNext(cfg, flying, [], a) == [a];
    assert [a, b][..1] == [a];
  }

  lemma AwarenessSwallowsUpdate(cfg: SinkConfig, op: Op)
    requires cfg.sizeOf([Awareness]) < cfg.maxPayload
    ensures
      var popped := [ClientUpdateSync("o", 0, [Awareness]), ClientUpdateSync("o", 1, [Update({op})])];
      && Sorted(MessageRank, popped)
      && op in MessageOps(popped[1])
      && MergePass(cfg, {}, popped) == [popped[0]]
      && MessageOps(popped[0]) == {}
  {
    var a, b := ClientUpdateSync("o", 0, [Awareness]), ClientUpdateSync("o", 1, [Update({op})]);
    SingletonOps(Awareness);
    SingletonOps(Update({op}));
    MergePassOfTwo(cfg, {}, a, b);
    assert Merge(a, b, cfg.sizeOf, cfg.maxPayload).Unchanged?;
    assert Absorbs(cfg, {}, a, b) && Absorb(cfg, a, b) == a;
  }
}
