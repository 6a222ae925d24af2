/**
  Flattening loses nothing: following the children and text tables from the page identifier
  rebuilds the template, and every block but the page is listed as a child exactly once.
 */
module DocumentRoundTrip {
  import opened Wrappers
  import opened DocumentParser
  import opened DocumentTables

  /** The block `id` and its descendants, down to `depth` levels, read back from the tables. */
  function Rebuild(doc: DocumentData, id: string, depth: nat): Option<SerdeBlock>
    decreases depth, 0
  {
    if depth == 0 || id !in doc.blocks then None
    else
      var block := doc.blocks[id];
      match RebuildAll(doc, Listed(doc.childrenMap, block.children), depth - 1)
      case None => None
      case Some(children) =>
        match block.externalId
        case None => Some(SerdeBlock(block.ty, block.data, children))
        case Some(text) =>
          if text !in doc.textMap then None
          else Some(SerdeBlock(block.ty, block.data[DELTA := doc.textMap[text]], children))
  }

  function RebuildAll(doc: DocumentData, ids: seq<string>, depth: nat): Option<seq<SerdeBlock>>
    decreases depth, |ids| + 1
  {
    if ids == [] then Some([])
    else
      match (Rebuild(doc, ids[0], depth), RebuildAll(doc, ids[1..], depth))
      case (Some(first), Some(others)) => Some([first] + others)
      case _ => None
  }

  function Height(tree: SerdeBlock): nat
    decreases tree
  {
    1 + HeightAll(tree.children)
  }

  function HeightAll(trees: seq<SerdeBlock>): nat
    decreases trees
  {
    if trees == [] then 0
    else
      var first, others := Height(trees[0]), HeightAll(trees[1..]);
      if first < others then others else first
  }

  /** The document's tables hold the entries, their texts and their children. */
  ghost predicate Holds(doc: DocumentData, all: seq<Entry>, e: Entry) {
    && e.block.id in doc.blocks && doc.blocks[e.block.id] == e.block
    && (e.delta.Some? ==>
        && e.block.externalId.Some? && e.block.externalId.value in doc.textMap
        && doc.textMap[e.block.externalId.value] == e.delta.value)
    && Listed(doc.childrenMap, e.block.children) == ChildrenOf(all, e.block.id)
  }

  ghost predicate HoldsAll(doc: DocumentData, all: seq<Entry>) {
    forall e :: e in all ==> Holds(doc, all, e)
  }

  lemma ClosedPart(doc: DocumentData, all: seq<Entry>, part: seq<Entry>)
    requires HoldsAll(doc, all) && Closed(all, part)
    ensures HoldsAll(doc, part)
  {
    forall e | e in part
      ensures Holds(doc, part, e)
    {
      assert Holds(doc, all, e);
    }
  }

  lemma OwnBlock(doc: DocumentData, tree: SerdeBlock, id: string, parent: string, ids: nat -> string, n: nat, depth: nat)
    requires Holds(doc, Entries(tree, id, parent, ids, n), ToEntry(tree, id, parent, ids, n))
    requires ChildrenOf(Entries(tree, id, parent, ids, n), id) == ChildIds(tree.children, ids, ChildrenDraw(tree, n) + 1)
    requires RebuildAll(doc, ChildIds(tree.children, ids, ChildrenDraw(tree, n) + 1), depth) == Some(tree.children)
    ensures Rebuild(doc, id, depth + 1) == Some(tree)
  {
    var block := ToEntry(tree, id, parent, ids, n).block;
    assert doc.blocks[id] == block;
    if DELTA in tree.data {
      assert block.data[DELTA := tree.data[DELTA]] == tree.data;
    } else {
      assert block.data == tree.data;
    }
  }

  lemma HeightBelow(tree: SerdeBlock, depth: nat)
    requires depth >= Height(tree)
    ensures depth >= 1 && depth - 1 >= HeightAll(tree.children)
  {
  }

  lemma HeightSiblings(trees: seq<SerdeBlock>, depth: nat)
    requires trees != [] && depth >= HeightAll(trees)
    ensures depth >= Height(trees[0]) && depth >= HeightAll(trees[1..])
  {
  }

  lemma OwnHeld(doc: DocumentData, tree: SerdeBlock, id: string, parent: string, ids: nat -> string, n: nat)
    requires HoldsAll(doc, Entries(tree, id, parent, ids, n))
    ensures Holds(doc, Entries(tree, id, parent, ids, n), ToEntry(tree, id, parent, ids, n))
  {
    var all, own := Entries(tree, id, parent, ids, n), ToEntry(tree, id, parent, ids, n);
    assert all[|all| - 1] == own;
  }

  lemma RebuildOneMore(doc: DocumentData, ids: seq<string>, trees: seq<SerdeBlock>, depth: nat)
    requires ids != [] && trees != []
    requires Rebuild(doc, ids[0], depth) == Some(trees[0]) && RebuildAll(doc, ids[1..], depth) == Some(trees[1..])
    ensures RebuildAll(doc, ids, depth) == Some(trees)
  {
    assert [trees[0]] + trees[1..] == trees;
  }

  lemma {:induction false} RebuildTree(doc: DocumentData, tree: SerdeBlock, id: string, parent: string,
                                       ids: nat -> string, n: nat, depth: nat)
    requires Placed(ids, id, parent, n) && HoldsAll(doc, Entries(tree, id, parent, ids, n))
    requires depth >= Height(tree)
    ensures Rebuild(doc, id, depth) == Some(tree)
    decreases tree, 1
  {
    HeightBelow(tree, depth);
    RebuildBelow(doc, tree, id, parent, ids, n, depth - 1);
    SubtreeChildren(tree, id, parent, ids, n);
    OwnHeld(doc, tree, id, parent, ids, n);
    OwnBlock(doc, tree, id, parent, ids, n, depth - 1);
  }

  lemma {:induction false} RebuildBelow(doc: DocumentData, tree: SerdeBlock, id: string, parent: string,
                                        ids: nat -> string, n: nat, depth: nat)
    requires Placed(ids, id, parent, n) && HoldsAll(doc, Entries(tree, id, parent, ids, n))
    requires depth >= HeightAll(tree.children)
    ensures RebuildAll(doc, ChildIds(tree.children, ids, ChildrenDraw(tree, n) + 1), depth) == Some(tree.children)
    decreases tree, 0
  {
    var first := ChildrenDraw(tree, n) + 1;
    SubtreeClosed(tree, id, parent, ids, n);
    ClosedPart(doc, Entries(tree, id, parent, ids, n), ChildEntries(tree.children, id, ids, first));
    RebuildForest(doc, tree.children, id, ids, first, depth);
  }

  lemma SiblingsHeld(doc: DocumentData, trees: seq<SerdeBlock>, parent: string, ids: nat -> string, n: nat)
    requires Fresh(ids) && Drawn(ids, parent, 0, n) && trees != []
    requires HoldsAll(doc, ChildEntries(trees, parent, ids, n))
    ensures HoldsAll(doc, Entries(trees[0], ids(n), parent, ids, n + 1))
    ensures HoldsAll(doc, ChildEntries(trees[1..], parent, ids, End(trees[0], n + 1)))
  {
    var all := ChildEntries(trees, parent, ids, n);
    SiblingsClosed(trees, parent, ids, n);
    ClosedPart(doc, all, Entries(trees[0], ids(n), parent, ids, n + 1));
    ClosedPart(doc, all, ChildEntries(trees[1..], parent, ids, End(trees[0], n + 1)));
  }

  lemma FirstChildId(trees: seq<SerdeBlock>, ids: nat -> string, n: nat)
    requires trees != []
    ensures ChildIds(trees, ids, n) != [] && ChildIds(trees, ids, n)[0] == ids(n)
    ensures ChildIds(trees, ids, n)[1..] == ChildIds(trees[1..], ids, End(trees[0], n + 1))
  {
  }

  lemma LaterDraw(ids: nat -> string, x: string, n: nat, m: nat)
    requires Drawn(ids, x, 0, n) && n <= m
    ensures Drawn(ids, x, 0, m)
  {
  }

  lemma {:induction false} RebuildForest(doc: DocumentData, trees: seq<SerdeBlock>, parent: string,
                                         ids: nat -> string, n: nat, depth: nat)
    requires Fresh(ids) && Drawn(ids, parent, 0, n) && HoldsAll(doc, ChildEntries(trees, parent, ids, n))
    requires depth >= HeightAll(trees)
    ensures RebuildAll(doc, ChildIds(trees, ids, n), depth) == Some(trees)
    decreases trees
  {
    if trees != [] {
      var next := End(trees[0], n + 1);
      HeightSiblings(trees, depth);
      SiblingsHeld(doc, trees, parent, ids, n);
      ChildPlaced(parent, ids, n, n);
      RebuildTree(doc, trees[0], ids(n), parent, ids, n + 1, depth);
      LaterDraw(ids, parent, n, next);
      RebuildForest(doc, trees[1..], parent, ids, next, depth);
      FirstChildId(trees, ids, n);
      RebuildOneMore(doc, ChildIds(trees, ids, n), trees, depth);
    }
  }

  // The document's tables ----------------------------------------------------------------------------

  lemma RootWellFormed(root: SerdeBlock, ids: nat -> string)
    requires Fresh(ids)
    ensures Placed(ids, ids(0), "", 1) && WellFormed(RootEntries(root, ids))
  {
    assert Drawn(ids, ids(0), 0, 1);
    EntriesDistinct(root, ids(0), "", ids, 1);
    ParentsPresent(root, ids(0), "", ids, 1);
    EntriesDrawn(root, ids(0), "", ids, 1);
  }

  ghost predicate HasBlocks(doc: DocumentData, all: seq<Entry>) {
    && (forall e :: e in all ==> e.block.id in doc.blocks && doc.blocks[e.block.id] == e.block)
    && (forall x :: x in doc.blocks ==> exists e :: e in all && e.block.id == x)
  }

  ghost predicate HasLists(doc: DocumentData, all: seq<Entry>) {
    && (forall e :: e in all ==> Listed(doc.childrenMap, e.block.children) == ChildrenOf(all, e.block.id))
    && (forall key :: key in doc.childrenMap ==> exists e :: e in all && e.block.children == key)
  }

  lemma RootTables(root: SerdeBlock, ids: nat -> string)
    requires Fresh(ids)
    ensures WellFormed(RootEntries(root, ids))
    ensures HasBlocks(DocumentOf(root, ids), RootEntries(root, ids))
    ensures HasLists(DocumentOf(root, ids), RootEntries(root, ids))
  {
    var all := RootEntries(root, ids);
    RootWellFormed(root, ids);
    BlocksCollected(all);
    ChildrenMapLists(all, |all|);
    assert all[..|all|] == all && BlocksOf(all)[..|all|] == BlocksOf(all);
  }

  lemma TextsCollected(entries: seq<Entry>, e: Entry)
    requires Distinct(entries) && e in entries && e.delta.Some? && e.block.externalId.Some?
    ensures e.block.externalId.value in Collect(TextsOf(entries))
    ensures Collect(TextsOf(entries))[e.block.externalId.value] == e.delta.value
  {
    assert HasText(e, (e.block.externalId.value, e.delta.value));
    TextsFrom(entries);
    TextsDistinct(entries);
    CollectHas(TextsOf(entries));
  }

  lemma AllKeyed(root: SerdeBlock, ids: nat -> string)
    ensures forall e :: e in RootEntries(root, ids) ==> (e.delta.Some? <==> e.block.externalId.Some?)
  {
    EntriesDrawn(root, ids(0), "", ids, 1);
  }

  lemma DocumentHolds(root: SerdeBlock, ids: nat -> string)
    requires Fresh(ids)
    ensures HoldsAll(DocumentOf(root, ids), RootEntries(root, ids))
  {
    var doc, all := DocumentOf(root, ids), RootEntries(root, ids);
    RootTables(root, ids);
    AllKeyed(root, ids);
    forall e | e in all
      ensures Holds(doc, all, e)
    {
      if e.delta.Some? {
        TextsCollected(all, e);
      }
    }
  }

  /** Reading the tables back from the page identifier gives the template, however deep one looks. */
  lemma DocumentRoundTrips(root: SerdeBlock, ids: nat -> string, depth: nat)
    requires Fresh(ids) && depth >= Height(root)
    ensures Rebuild(DocumentOf(root, ids), DocumentOf(root, ids).pageId, depth) == Some(root)
  {
    RootWellFormed(root, ids);
    DocumentHolds(root, ids);
    RebuildTree(DocumentOf(root, ids), root, ids(0), "", ids, 1, depth);
  }

  // Every block is listed once -----------------------------------------------------------------------

  predicate ListedAt(doc: DocumentData, key: string, i: nat, id: string) {
    key in doc.childrenMap && i < |doc.childrenMap[key]| && doc.childrenMap[key][i] == id
  }

  /** The list that holds `id` belongs to the block that `id` names as its parent. */
  lemma ListedUnderParent(root: SerdeBlock, ids: nat -> string, key: string, i: nat, id: string)
    requires Fresh(ids) && ListedAt(DocumentOf(root, ids), key, i, id)
    ensures var doc := DocumentOf(root, ids);
      && id in doc.blocks && doc.blocks[id].parent in doc.blocks
      && key == doc.blocks[doc.blocks[id].parent].children
      && NoRepeat(doc.childrenMap[key])
  {
    var doc, all := DocumentOf(root, ids), RootEntries(root, ids);
    RootTables(root, ids);
    var p :| p in all && p.block.children == key;
    ChildrenOfAre(all, p.block.id);
    ChildrenOfDistinct(all, p.block.id);
    assert id in ChildrenOf(all, p.block.id);
  }

  lemma ChildListed(root: SerdeBlock, ids: nat -> string, id: string) returns (i: nat)
    requires Fresh(ids) && id in DocumentOf(root, ids).blocks && DocumentOf(root, ids).blocks[id].parent != ""
    ensures var doc := DocumentOf(root, ids);
      && doc.blocks[id].parent in doc.blocks
      && ListedAt(doc, doc.blocks[doc.blocks[id].parent].children, i, id)
  {
    var doc, all := DocumentOf(root, ids), RootEntries(root, ids);
    RootTables(root, ids);
    var e :| e in all && e.block.id == id;
    var p :| p in all && p.block.id == e.block.parent;
    ChildrenOfAre(all, p.block.id);
    assert id in Listed(doc.childrenMap, p.block.children);
    i :| 0 <= i < |doc.childrenMap[p.block.children]| && doc.childrenMap[p.block.children][i] == id;
  }

  ghost predicate ListedOnce(doc: DocumentData, id: string) {
    exists key, i: nat ::
      && ListedAt(doc, key, i, id)
      && forall k, j: nat :: ListedAt(doc, k, j, id) ==> k == key && j == i
  }

  /** Exactly the blocks other than the page are listed as children, each of them once. */
  lemma ListedExactlyOnce(root: SerdeBlock, ids: nat -> string, id: string)
    requires Fresh(ids) && id in DocumentOf(root, ids).blocks
    ensures id != DocumentOf(root, ids).pageId ==> ListedOnce(DocumentOf(root, ids), id)
    ensures id == DocumentOf(root, ids).pageId ==> forall k, j: nat :: !ListedAt(DocumentOf(root, ids), k, j, id)
  {
    var doc := DocumentOf(root, ids);
    PageHasNoParent(root, ids, id);
    if id == doc.pageId {
      forall k, j: nat
        ensures !ListedAt(doc, k, j, id)
      {
        if ListedAt(doc, k, j, id) {
          ListedUnderParent(root, ids, k, j, id);
          PageHasNoParent(root, ids, "");
        }
      }
    } else {
      var i := ChildListed(root, ids, id);
      var key := doc.blocks[doc.blocks[id].parent].children;
      forall k, j: nat | ListedAt(doc, k, j, id)
        ensures k == key && j == i
      {
        ListedUnderParent(root, ids, k, j, id);
      }
    }
  }

  lemma BelowPage(e: Entry, ids: nat -> string, n: nat, end: nat)
    requires Fresh(ids) && Below(e, ids(0), ids, n, end) && n > 0
    ensures e.block.parent != "" && e.block.id != ids(0)
  {
  }

  lemma OnlyPageHasNoParent(root: SerdeBlock, ids: nat -> string)
    requires Fresh(ids)
    ensures forall e :: e in RootEntries(root, ids) ==> (e.block.parent == "" <==> e.block.id == ids(0))
  {
    EntriesDrawn(root, ids(0), "", ids, 1);
    var below := ChildEntries(root.children, ids(0), ids, ChildrenDraw(root, 1) + 1);
    forall e | e in below
      ensures e.block.parent != "" && e.block.id != ids(0)
    {
      BelowPage(e, ids, 1, End(root, 1));
    }
  }

  lemma PageHasNoParent(root: SerdeBlock, ids: nat -> string, id: string)
    requires Fresh(ids)
    ensures var doc := DocumentOf(root, ids);
      "" !in doc.blocks && (id in doc.blocks ==> (doc.blocks[id].parent == "" <==> id == doc.pageId))
  {
    RootTables(root, ids);
    OnlyPageHasNoParent(root, ids);
  }

  // Which keys the tables have -----------------------------------------------------------------------

  /** `key` names the list of an entry among the first `n` that has a parent, or of its parent. */
  ghost predicate KeyUsed(entries: seq<Entry>, n: nat, key: string)
    requires n <= |entries|
  {
    exists i :: 0 <= i < n && UsesKey(entries, entries[i], key)
  }

  ghost predicate UsesKey(entries: seq<Entry>, e: Entry, key: string) {
    && e.block.parent != ""
    && (e.block.children == key || exists p :: p in entries && p.block.id == e.block.parent && p.block.children == key)
  }

  lemma ParentEntry(entries: seq<Entry>, e: Entry) returns (p: Entry)
    requires WellFormed(entries) && e in entries && e.block.parent != ""
    ensures p in entries && p.block.id == e.block.parent
    ensures e.block.parent in Collect(BlocksOf(entries)) && Collect(BlocksOf(entries))[e.block.parent] == p.block
  {
    BlocksCollected(entries);
    p :| p in entries && p.block.id == e.block.parent;
  }

  lemma UsesKeyOf(entries: seq<Entry>, e: Entry, p: Entry, key: string)
    requires Distinct(entries) && p in entries && e.block.parent != "" && p.block.id == e.block.parent
    ensures UsesKey(entries, e, key) <==> e.block.children == key || p.block.children == key
  {
    forall q | q in entries && q.block.id == e.block.parent
      ensures q == p
    {
      SameEntry(entries, p, q);
    }
  }

  lemma ChildUsesKeys(m: map<string, seq<string>>, entries: seq<Entry>, e: Entry, key: string)
    requires WellFormed(entries) && e in entries
    ensures key in AddChild(Collect(BlocksOf(entries)), m, e.block.id, e.block) <==> key in m || UsesKey(entries, e, key)
  {
    if e.block.parent != "" {
      var p := ParentEntry(entries, e);
      UsesKeyOf(entries, e, p, key);
    }
  }

  lemma KeyUsedOneMore(entries: seq<Entry>, n: nat, key: string)
    requires n < |entries|
    ensures KeyUsed(entries, n + 1, key) <==> KeyUsed(entries, n, key) || UsesKey(entries, entries[n], key)
  {
  }

  lemma {:induction false} ChildrenMapKeys(entries: seq<Entry>, n: nat, key: string)
    requires WellFormed(entries) && n <= |entries|
    ensures key in ChildrenMap(Collect(BlocksOf(entries)), BlocksOf(entries)[..n]) <==> KeyUsed(entries, n, key)
  {
    if n > 0 {
      var last := entries[n - 1];
      ChildrenMapKeys(entries, n - 1, key);
      KeyUsedOneMore(entries, n - 1, key);
      assert BlocksOf(entries)[..n][..n - 1] == BlocksOf(entries)[..n - 1];
      ChildUsesKeys(ChildrenMap(Collect(BlocksOf(entries)), BlocksOf(entries)[..n - 1]), entries, last, key);
    }
  }

  /** Some block's list has the key `key`. */
  ghost predicate IsListKey(doc: DocumentData, key: string) {
    exists id :: id in doc.blocks && doc.blocks[id].children == key
  }

  /** Some block's text has the key `key`. */
  ghost predicate IsTextKey(doc: DocumentData, key: string) {
    exists id :: id in doc.blocks && doc.blocks[id].externalId == Some(key)
  }

  lemma PageHasChild(root: SerdeBlock, ids: nat -> string) returns (child: Entry)
    requires Fresh(ids) && root.children != []
    ensures child in RootEntries(root, ids) && child.block.parent == ids(0)
  {
    RootWellFormed(root, ids);
    SubtreeChildren(root, ids(0), "", ids, 1);
    var all := RootEntries(root, ids);
    ChildrenOfAre(all, ids(0));
    var first := ChildIds(root.children, ids, ChildrenDraw(root, 1) + 1)[0];
    assert first in ChildrenOf(all, ids(0));
    child :| child in all && child.block.id == first && child.block.parent == ids(0);
  }

  lemma EveryKeyUsed(root: SerdeBlock, ids: nat -> string, e: Entry)
    requires Fresh(ids) && root.children != [] && e in RootEntries(root, ids)
    ensures KeyUsed(RootEntries(root, ids), |RootEntries(root, ids)|, e.block.children)
  {
    var all := RootEntries(root, ids);
    OnlyPageHasNoParent(root, ids);
    var user := e;
    if e.block.parent == "" {
      user := PageHasChild(root, ids);
      RootWellFormed(root, ids);
      assert ids(0) != "";
    }
    assert UsesKey(all, user, e.block.children);
    var i :| 0 <= i < |all| && all[i] == user;
  }

  lemma LonePageUsesNothing(root: SerdeBlock, ids: nat -> string, key: string)
    requires root.children == []
    ensures !KeyUsed(RootEntries(root, ids), |RootEntries(root, ids)|, key)
  {
    assert ChildEntries(root.children, ids(0), ids, ChildrenDraw(root, 1) + 1) == [];
  }

  lemma ListKeysUsed(root: SerdeBlock, ids: nat -> string, key: string)
    requires Fresh(ids)
    ensures key in DocumentOf(root, ids).childrenMap <==>
      KeyUsed(RootEntries(root, ids), |RootEntries(root, ids)|, key)
  {
    var all := RootEntries(root, ids);
    RootWellFormed(root, ids);
    ChildrenMapKeys(all, |all|, key);
    assert BlocksOf(all)[..|all|] == BlocksOf(all);
  }

  lemma EntryOf(root: SerdeBlock, ids: nat -> string, id: string) returns (e: Entry)
    requires Fresh(ids) && id in DocumentOf(root, ids).blocks
    ensures e in RootEntries(root, ids) && e.block == DocumentOf(root, ids).blocks[id]
  {
    RootTables(root, ids);
    e :| e in RootEntries(root, ids) && e.block.id == id;
  }

  lemma UsedIsListKey(root: SerdeBlock, ids: nat -> string, key: string)
    requires Fresh(ids) && key in DocumentOf(root, ids).childrenMap
    ensures IsListKey(DocumentOf(root, ids), key)
  {
    var doc, all := DocumentOf(root, ids), RootEntries(root, ids);
    RootTables(root, ids);
    var e :| e in all && e.block.children == key;
    assert doc.blocks[e.block.id].children == key;
  }

  lemma ListKeyIsUsed(root: SerdeBlock, ids: nat -> string, key: string)
    requires Fresh(ids) && root.children != [] && IsListKey(DocumentOf(root, ids), key)
    ensures key in DocumentOf(root, ids).childrenMap
  {
    var doc := DocumentOf(root, ids);
    var id :| id in doc.blocks && doc.blocks[id].children == key;
    var e := EntryOf(root, ids, id);
    EveryKeyUsed(root, ids, e);
    ListKeysUsed(root, ids, key);
  }

  /**
    A page without children has an empty children map. Otherwise every block has a list there, a
    leaf an empty one, and there is no other.
   */
  lemma ListKeys(root: SerdeBlock, ids: nat -> string, key: string)
    requires Fresh(ids)
    ensures key in DocumentOf(root, ids).childrenMap <==> root.children != [] && IsListKey(DocumentOf(root, ids), key)
  {
    if root.children == [] {
      LonePageUsesNothing(root, ids, key);
      ListKeysUsed(root, ids, key);
    } else if key in DocumentOf(root, ids).childrenMap {
      UsedIsListKey(root, ids, key);
    } else if IsListKey(DocumentOf(root, ids), key) {
      ListKeyIsUsed(root, ids, key);
    }
  }

  /** A block with a text says so, and its text is out of its data. */
  ghost predicate TextMarked(b: Block) {
    && b.externalType == (if b.externalId.Some? then Some("text") else None)
    && "delta" !in b.data
  }

  lemma {:induction false} EntriesMarked(tree: SerdeBlock, id: string, parent: string, ids: nat -> string, n: nat)
    ensures forall e :: e in Entries(tree, id, parent, ids, n) ==> TextMarked(e.block)
    decreases tree
  {
    ChildEntriesMarked(tree.children, id, ids, ChildrenDraw(tree, n) + 1);
  }

  lemma {:induction false} ChildEntriesMarked(trees: seq<SerdeBlock>, parent: string, ids: nat -> string, n: nat)
    ensures forall e :: e in ChildEntries(trees, parent, ids, n) ==> TextMarked(e.block)
    decreases trees
  {
    if trees != [] {
      EntriesMarked(trees[0], ids(n), parent, ids, n + 1);
      ChildEntriesMarked(trees[1..], parent, ids, End(trees[0], n + 1));
    }
  }

  lemma TextsCollectedFrom(entries: seq<Entry>, key: string)
    requires Distinct(entries) && key in Collect(TextsOf(entries))
    ensures exists e :: e in entries && e.block.externalId == Some(key)
  {
    TextsFrom(entries);
    TextsDistinct(entries);
    CollectHas(TextsOf(entries));
    var texts := TextsOf(entries);
    var k :| 0 <= k < |texts| && texts[k].0 == key;
    assert texts[k] in texts;
  }

  /** The text map holds a text for exactly the blocks that are marked as having one. */
  lemma TextKeys(root: SerdeBlock, ids: nat -> string, key: string)
    requires Fresh(ids)
    ensures key in DocumentOf(root, ids).textMap <==> IsTextKey(DocumentOf(root, ids), key)
    ensures forall id :: id in DocumentOf(root, ids).blocks ==> TextMarked(DocumentOf(root, ids).blocks[id])
  {
    var doc, all := DocumentOf(root, ids), RootEntries(root, ids);
    RootTables(root, ids);
    AllKeyed(root, ids);
    EntriesMarked(root, ids(0), "", ids, 1);
    if IsTextKey(doc, key) {
      var id :| id in doc.blocks && doc.blocks[id].externalId == Some(key);
      var e :| e in all && e.block.id == id;
      TextsCollected(all, e);
    } else if key in doc.textMap {
      TextsCollectedFrom(all, key);
    }
  }
}
