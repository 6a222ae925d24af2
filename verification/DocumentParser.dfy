/**
  Flattening a JSON document template into the block table of a collab document
  (`lib/workspace-template/src/document/parser.rs`).

  `nanoid!(10)` is a supply `ids` of identifiers numbered in the order they are drawn; the proofs
  assume that the supply never repeats itself and never yields the empty string.
 */
module DocumentParser {
  import opened Wrappers

  /** A `serde_json::Value`, as its text. */
  type Json = string

  const DELTA := "delta"
  const TEXT_EXTERNAL_TYPE := "text"

  datatype SerdeBlock = SerdeBlock(ty: string, data: map<string, Json>, children: seq<SerdeBlock>)

  datatype Block = Block(
    id: string,
    ty: string,
    data: map<string, Json>,
    parent: string,
    children: string,
    externalId: Option<string>,
    externalType: Option<string>)

  datatype DocumentData = DocumentData(
    pageId: string,
    blocks: map<string, Block>,
    childrenMap: map<string, seq<string>>,
    textMap: map<string, string>)

  // Index maps ---------------------------------------------------------------------------------------

  /** An `IndexMap` lists its entries in the order their keys were first inserted. */
  type IndexMap<V> = seq<(string, V)>

  function Insert<V>(m: IndexMap<V>, key: string, value: V): IndexMap<V> {
    if m == [] then [(key, value)]
    else if m[0].0 == key then [(key, value)] + m[1..]
    else [m[0]] + Insert(m[1..], key, value)
  }

  function Extend<V>(m: IndexMap<V>, more: IndexMap<V>): IndexMap<V>
    decreases |more|
  {
    if more == [] then m else Extend(Insert(m, more[0].0, more[0].1), more[1..])
  }

  /** Collecting the entries into a `HashMap`. */
  function Collect<V>(m: IndexMap<V>): map<string, V> {
    if m == [] then map[] else Collect(m[..|m| - 1])[m[|m| - 1].0 := m[|m| - 1].1]
  }

  ghost predicate DistinctKeys<V>(m: IndexMap<V>) {
    forall i, j :: 0 <= i < j < |m| ==> m[i].0 != m[j].0
  }

  lemma {:induction false} InsertFresh<V>(m: IndexMap<V>, key: string, value: V)
    requires forall e :: e in m ==> e.0 != key
    ensures Insert(m, key, value) == m + [(key, value)]
  {
    if m != [] {
      InsertFresh(m[1..], key, value);
      assert m == [m[0]] + m[1..];
    }
  }

  lemma {:induction false} ExtendFresh<V>(m: IndexMap<V>, more: IndexMap<V>)
    requires DistinctKeys(m + more)
    ensures Extend(m, more) == m + more
    decreases |more|
  {
    if more == [] {
      assert m + more == m;
    } else {
      var all := m + more;
      forall e | e in m
        ensures e.0 != more[0].0
      {
        var k :| 0 <= k < |m| && m[k] == e;
        assert all[k] == e && all[|m|] == more[0];
      }
      InsertFresh(m, more[0].0, more[0].1);
      assert m + [(more[0].0, more[0].1)] + more[1..] == all;
      ExtendFresh(m + [(more[0].0, more[0].1)], more[1..]);
    }
  }

  lemma {:induction false} CollectHas<V>(m: IndexMap<V>)
    requires DistinctKeys(m)
    ensures forall i :: 0 <= i < |m| ==> m[i].0 in Collect(m) && Collect(m)[m[i].0] == m[i].1
    ensures forall k :: k in Collect(m) ==> exists i :: 0 <= i < |m| && m[i].0 == k
  {
    if m != [] {
      var init := m[..|m| - 1];
      CollectHas(init);
      assert forall i :: 0 <= i < |init| ==> init[i] == m[i];
    }
  }

  // Flattening ---------------------------------------------------------------------------------------

  /** A block and the text taken out of its data. */
  datatype Entry = Entry(block: Block, delta: Option<string>)

  function Delta(tree: SerdeBlock): Option<string> {
    if DELTA in tree.data then Some(tree.data[DELTA]) else None
  }

  /** The draw that becomes the key of the block's children. */
  function ChildrenDraw(tree: SerdeBlock, n: nat): nat {
    if DELTA in tree.data then n + 1 else n
  }

  /** `block_to_block_pb`, with its identifier drawn; further identifiers are drawn from `n` on. */
  function ToEntry(tree: SerdeBlock, id: string, parent: string, ids: nat -> string, n: nat): Entry {
    var external := Delta(tree).Some?;
    Entry(
      Block(id, tree.ty, tree.data - {DELTA}, parent, ids(ChildrenDraw(tree, n)),
        if external then Some(ids(n)) else None,
        if external then Some(TEXT_EXTERNAL_TYPE) else None),
      Delta(tree))
  }

  /** The first draw that a block and its descendants leave alone. */
  function End(tree: SerdeBlock, n: nat): (e: nat)
    ensures e > ChildrenDraw(tree, n)
    decreases tree
  {
    EndAll(tree.children, ChildrenDraw(tree, n) + 1)
  }

  function EndAll(trees: seq<SerdeBlock>, n: nat): (e: nat)
    ensures e >= n
    decreases trees
  {
    if trees == [] then n else EndAll(trees[1..], End(trees[0], n + 1))
  }

  /** The entries of a block and its descendants, in the order they are inserted. */
  function Entries(tree: SerdeBlock, id: string, parent: string, ids: nat -> string, n: nat): seq<Entry>
    decreases tree
  {
    ChildEntries(tree.children, id, ids, ChildrenDraw(tree, n) + 1) + [ToEntry(tree, id, parent, ids, n)]
  }

  function ChildEntries(trees: seq<SerdeBlock>, parent: string, ids: nat -> string, n: nat): seq<Entry>
    decreases trees
  {
    if trees == [] then []
    else Entries(trees[0], ids(n), parent, ids, n + 1) + ChildEntries(trees[1..], parent, ids, End(trees[0], n + 1))
  }

  function ChildIds(trees: seq<SerdeBlock>, ids: nat -> string, n: nat): seq<string>
    decreases trees
  {
    if trees == [] then [] else [ids(n)] + ChildIds(trees[1..], ids, End(trees[0], n + 1))
  }

  // What the identifiers are -------------------------------------------------------------------------

  ghost predicate Fresh(ids: nat -> string) {
    && (forall i, j :: ids(i) == ids(j) ==> i == j)
    && (forall i :: ids(i) != "")
  }

  ghost predicate Drawn(ids: nat -> string, x: string, lo: nat, hi: nat) {
    exists k: nat :: lo <= k < hi && ids(k) == x
  }

  /** The identifiers of a block's entry, relative to the draws `n` up to `end`. */
  ghost predicate Own(e: Entry, id: string, parent: string, ids: nat -> string, n: nat, end: nat) {
    && e.block.id == id && e.block.parent == parent
    && Keyed(e, ids, n, end)
  }

  ghost predicate Keyed(e: Entry, ids: nat -> string, n: nat, end: nat) {
    && Drawn(ids, e.block.children, n, end)
    && (e.block.externalId.Some? ==> Drawn(ids, e.block.externalId.value, n, end))
    && (e.block.externalId.Some? <==> e.delta.Some?)
  }

  /** The entry of a descendant: its identifier, keys and parent come from below `parent`. */
  ghost predicate Below(e: Entry, parent: string, ids: nat -> string, n: nat, end: nat) {
    && Drawn(ids, e.block.id, n, end)
    && (e.block.parent == parent || Drawn(ids, e.block.parent, n, end))
    && Keyed(e, ids, n, end)
  }

  ghost predicate AllBelow(entries: seq<Entry>, parent: string, ids: nat -> string, n: nat, end: nat) {
    forall e :: e in entries ==> Below(e, parent, ids, n, end)
  }

  lemma {:induction false} EntriesDrawn(tree: SerdeBlock, id: string, parent: string, ids: nat -> string, n: nat)
    ensures AllBelow(ChildEntries(tree.children, id, ids, ChildrenDraw(tree, n) + 1), id, ids, n, End(tree, n))
    ensures Own(ToEntry(tree, id, parent, ids, n), id, parent, ids, n, End(tree, n))
    decreases tree, 0
  {
    var first := ChildrenDraw(tree, n) + 1;
    ChildEntriesDrawn(tree.children, id, ids, first);
    WiderBelow(ChildEntries(tree.children, id, ids, first), id, ids, first, End(tree, n), n, End(tree, n));
  }

  lemma WiderBelow(entries: seq<Entry>, parent: string, ids: nat -> string, a: nat, b: nat, c: nat, d: nat)
    requires AllBelow(entries, parent, ids, a, b) && c <= a <= b <= d
    ensures AllBelow(entries, parent, ids, c, d)
  {
  }

  lemma {:induction false} ChildEntriesDrawn(trees: seq<SerdeBlock>, parent: string, ids: nat -> string, n: nat)
    ensures AllBelow(ChildEntries(trees, parent, ids, n), parent, ids, n, EndAll(trees, n))
    decreases trees
  {
    if trees != [] {
      var next, end := End(trees[0], n + 1), EndAll(trees, n);
      HeadDrawn(trees[0], parent, ids, n);
      WiderBelow(Entries(trees[0], ids(n), parent, ids, n + 1), parent, ids, n, next, n, end);
      ChildEntriesDrawn(trees[1..], parent, ids, next);
      WiderBelow(ChildEntries(trees[1..], parent, ids, next), parent, ids, next, end, n, end);
    }
  }

  /** The entries of a child, seen from its parent. */
  lemma HeadDrawn(tree: SerdeBlock, parent: string, ids: nat -> string, n: nat)
    ensures AllBelow(Entries(tree, ids(n), parent, ids, n + 1), parent, ids, n, End(tree, n + 1))
    decreases tree, 1
  {
    EntriesDrawn(tree, ids(n), parent, ids, n + 1);
    var end := End(tree, n + 1);
    var below := ChildEntries(tree.children, ids(n), ids, ChildrenDraw(tree, n + 1) + 1);
    forall e | e in below
      ensures Below(e, parent, ids, n, end)
    {
      assert Below(e, ids(n), ids, n + 1, end);
    }
  }

  /** Where a subtree may be placed: its root and the root's parent were named before draw `n`. */
  ghost predicate Placed(ids: nat -> string, id: string, parent: string, n: nat) {
    && Fresh(ids)
    && Drawn(ids, id, 0, n)
    && parent != id
    && (parent == "" || Drawn(ids, parent, 0, n))
  }

  lemma OwnDrawn(tree: SerdeBlock, id: string, parent: string, ids: nat -> string, n: nat)
    ensures Own(ToEntry(tree, id, parent, ids, n), id, parent, ids, n, ChildrenDraw(tree, n) + 1)
  {
  }

  // No identifier or key is used twice ---------------------------------------------------------------

  ghost predicate Apart(a: Entry, b: Entry) {
    && a.block.id != b.block.id
    && a.block.children != b.block.children
    && (a.block.externalId.Some? && b.block.externalId.Some? ==> a.block.externalId != b.block.externalId)
  }

  ghost predicate Distinct(entries: seq<Entry>) {
    forall i, j :: 0 <= i < j < |entries| ==> Apart(entries[i], entries[j])
  }

  lemma DistinctSum(a: seq<Entry>, b: seq<Entry>)
    requires Distinct(a) && Distinct(b)
    requires forall x, y :: x in a && y in b ==> Apart(x, y)
    ensures Distinct(a + b)
  {
  }

  lemma BelowApart(x: Entry, y: Entry, parent: string, ids: nat -> string, a: nat, b: nat, c: nat)
    requires Fresh(ids) && Below(x, parent, ids, a, b) && Below(y, parent, ids, b, c)
    ensures Apart(x, y)
  {
  }

  lemma OwnApart(x: Entry, y: Entry, id: string, parent: string, ids: nat -> string, n: nat, first: nat, end: nat)
    requires Placed(ids, id, parent, n) && n <= first
    requires Own(y, id, parent, ids, n, first) && Below(x, id, ids, first, end)
    ensures Apart(x, y)
  {
  }

  lemma {:induction false} EntriesDistinct(tree: SerdeBlock, id: string, parent: string, ids: nat -> string, n: nat)
    requires Placed(ids, id, parent, n)
    ensures Distinct(Entries(tree, id, parent, ids, n))
    decreases tree
  {
    var first, own := ChildrenDraw(tree, n) + 1, ToEntry(tree, id, parent, ids, n);
    var below := ChildEntries(tree.children, id, ids, first);
    ChildEntriesDistinct(tree.children, id, ids, first);
    ChildEntriesDrawn(tree.children, id, ids, first);
    OwnDrawn(tree, id, parent, ids, n);
    forall x | x in below
      ensures Apart(x, own)
    {
      OwnApart(x, own, id, parent, ids, n, first, EndAll(tree.children, first));
    }
    DistinctSum(below, [own]);
  }

  lemma {:induction false} ChildEntriesDistinct(trees: seq<SerdeBlock>, parent: string, ids: nat -> string, n: nat)
    requires Fresh(ids) && Drawn(ids, parent, 0, n)
    ensures Distinct(ChildEntries(trees, parent, ids, n))
    decreases trees
  {
    if trees != [] {
      var next := End(trees[0], n + 1);
      var head, tail := Entries(trees[0], ids(n), parent, ids, n + 1), ChildEntries(trees[1..], parent, ids, next);
      EntriesDistinct(trees[0], ids(n), parent, ids, n + 1);
      ChildEntriesDistinct(trees[1..], parent, ids, next);
      HeadDrawn(trees[0], parent, ids, n);
      ChildEntriesDrawn(trees[1..], parent, ids, next);
      forall x, y | x in head && y in tail
        ensures Apart(x, y)
      {
        BelowApart(x, y, parent, ids, n, next, EndAll(trees, n));
      }
      DistinctSum(head, tail);
    }
  }

  // Children in document order -----------------------------------------------------------------------

  /** The blocks that name `parent` as their parent, in order. */
  function ChildrenOf(entries: seq<Entry>, parent: string): seq<string> {
    if entries == [] then []
    else
      var last := entries[|entries| - 1].block;
      ChildrenOf(entries[..|entries| - 1], parent) + (if last.parent == parent then [last.id] else [])
  }

  lemma {:induction false} ChildrenOfSum(a: seq<Entry>, b: seq<Entry>, parent: string)
    ensures ChildrenOf(a + b, parent) == ChildrenOf(a, parent) + ChildrenOf(b, parent)
    decreases |b|
  {
    if b == [] {
      assert a + b == a;
    } else {
      var init := b[..|b| - 1];
      assert (a + b)[..|a + b| - 1] == a + init;
      ChildrenOfSum(a, init, parent);
    }
  }

  lemma {:induction false} NoChildrenOf(entries: seq<Entry>, parent: string)
    requires forall e :: e in entries ==> e.block.parent != parent
    ensures ChildrenOf(entries, parent) == []
  {
    if entries != [] {
      NoChildrenOf(entries[..|entries| - 1], parent);
    }
  }

  lemma {:induction false} ChildEntriesChildren(trees: seq<SerdeBlock>, parent: string, ids: nat -> string, n: nat)
    requires Fresh(ids) && Drawn(ids, parent, 0, n)
    ensures ChildrenOf(ChildEntries(trees, parent, ids, n), parent) == ChildIds(trees, ids, n)
    decreases trees
  {
    if trees != [] {
      var next := End(trees[0], n + 1);
      ChildListedOnce(trees[0], parent, ids, n);
      ChildEntriesChildren(trees[1..], parent, ids, next);
      ChildrenOfSum(Entries(trees[0], ids(n), parent, ids, n + 1), ChildEntries(trees[1..], parent, ids, next), parent);
    }
  }

  lemma ChildListedOnce(tree: SerdeBlock, parent: string, ids: nat -> string, n: nat)
    requires Fresh(ids) && Drawn(ids, parent, 0, n)
    ensures ChildrenOf(Entries(tree, ids(n), parent, ids, n + 1), parent) == [ids(n)]
  {
    var first, own := ChildrenDraw(tree, n + 1) + 1, ToEntry(tree, ids(n), parent, ids, n + 1);
    var below := ChildEntries(tree.children, ids(n), ids, first);
    ChildEntriesDrawn(tree.children, ids(n), ids, first);
    forall e | e in below
      ensures e.block.parent != parent
    {
      assert Below(e, ids(n), ids, first, EndAll(tree.children, first));
    }
    NoChildrenOf(below, parent);
    ChildrenOfSum(below, [own], parent);
    assert ChildrenOf([own], parent) == [ids(n)] by {
      assert [own][..0] == [];
    }
  }

  /** A part of the entries that holds all children of its members. */
  ghost predicate Closed(all: seq<Entry>, part: seq<Entry>) {
    forall e :: e in part ==> e in all && ChildrenOf(all, e.block.id) == ChildrenOf(part, e.block.id)
  }

  ghost predicate NoParentIn(part: seq<Entry>, others: seq<Entry>) {
    forall x, y :: x in part && y in others ==> y.block.parent != x.block.id
  }

  lemma ClosedInSum(a: seq<Entry>, b: seq<Entry>)
    ensures NoParentIn(a, b) ==> Closed(a + b, a)
    ensures NoParentIn(b, a) ==> Closed(a + b, b)
  {
    forall e | e in a && NoParentIn(a, b)
      ensures ChildrenOf(a + b, e.block.id) == ChildrenOf(a, e.block.id)
    {
      ChildrenOfSum(a, b, e.block.id);
      NoChildrenOf(b, e.block.id);
    }
    forall e | e in b && NoParentIn(b, a)
      ensures ChildrenOf(a + b, e.block.id) == ChildrenOf(b, e.block.id)
    {
      ChildrenOfSum(a, b, e.block.id);
      NoChildrenOf(a, e.block.id);
    }
  }

  lemma NoneBelowIsParent(below: seq<Entry>, own: Entry, id: string, ids: nat -> string, n: nat, first: nat, end: nat)
    requires Fresh(ids) && AllBelow(below, id, ids, first, end) && n <= first
    requires own.block.parent == "" || Drawn(ids, own.block.parent, 0, n)
    ensures NoParentIn(below, [own])
  {
    forall x | x in below
      ensures x.block.id != own.block.parent
    {
      assert Below(x, id, ids, first, end);
    }
  }

  lemma ClosedBelowOwn(below: seq<Entry>, own: Entry)
    requires NoParentIn(below, [own])
    ensures Closed(below + [own], below)
  {
    ClosedInSum(below, [own]);
  }

  /** The entries below a block hold their own children. */
  lemma SubtreeClosed(tree: SerdeBlock, id: string, parent: string, ids: nat -> string, n: nat)
    requires Placed(ids, id, parent, n)
    ensures Closed(Entries(tree, id, parent, ids, n), ChildEntries(tree.children, id, ids, ChildrenDraw(tree, n) + 1))
  {
    var first, own := ChildrenDraw(tree, n) + 1, ToEntry(tree, id, parent, ids, n);
    var below := ChildEntries(tree.children, id, ids, first);
    assert NoParentIn(below, [own]) by {
      ChildEntriesDrawn(tree.children, id, ids, first);
      NoneBelowIsParent(below, own, id, ids, n, first, EndAll(tree.children, first));
    }
    ClosedBelowOwn(below, own);
  }

  lemma OthersChild(below: seq<Entry>, own: Entry, id: string)
    requires own.block.parent != id
    ensures ChildrenOf(below + [own], id) == ChildrenOf(below, id)
  {
    assert (below + [own])[..|below|] == below;
  }

  /** A block's children are the roots of its trees, in order. */
  lemma SubtreeChildren(tree: SerdeBlock, id: string, parent: string, ids: nat -> string, n: nat)
    requires Placed(ids, id, parent, n)
    ensures ChildrenOf(Entries(tree, id, parent, ids, n), id) == ChildIds(tree.children, ids, ChildrenDraw(tree, n) + 1)
  {
    var first, own := ChildrenDraw(tree, n) + 1, ToEntry(tree, id, parent, ids, n);
    var below := ChildEntries(tree.children, id, ids, first);
    assert ChildrenOf(below + [own], id) == ChildrenOf(below, id) by {
      OthersChild(below, own, id);
    }
    assert ChildrenOf(below, id) == ChildIds(tree.children, ids, first) by {
      ChildEntriesChildren(tree.children, id, ids, first);
    }
  }

  /** Siblings do not share children. */
  lemma SiblingsClosed(trees: seq<SerdeBlock>, parent: string, ids: nat -> string, n: nat)
    requires Fresh(ids) && Drawn(ids, parent, 0, n) && trees != []
    ensures Closed(ChildEntries(trees, parent, ids, n), Entries(trees[0], ids(n), parent, ids, n + 1))
    ensures Closed(ChildEntries(trees, parent, ids, n), ChildEntries(trees[1..], parent, ids, End(trees[0], n + 1)))
  {
    var next := End(trees[0], n + 1);
    var head, tail := Entries(trees[0], ids(n), parent, ids, n + 1), ChildEntries(trees[1..], parent, ids, next);
    HeadDrawn(trees[0], parent, ids, n);
    ChildEntriesDrawn(trees[1..], parent, ids, next);
    BelowUnrelated(head, tail, parent, ids, n, next, EndAll(trees, n));
    ClosedInSum(head, tail);
  }

  lemma BelowUnrelated(head: seq<Entry>, tail: seq<Entry>, parent: string, ids: nat -> string, a: nat, b: nat, c: nat)
    requires Fresh(ids) && Drawn(ids, parent, 0, a) && a <= b
    requires AllBelow(head, parent, ids, a, b) && AllBelow(tail, parent, ids, b, c)
    ensures NoParentIn(head, tail) && NoParentIn(tail, head)
  {
    forall x, y | x in head && y in tail
      ensures y.block.parent != x.block.id && x.block.parent != y.block.id
    {
      assert Below(x, parent, ids, a, b) && Below(y, parent, ids, b, c);
    }
  }
}
