/**
  The tables of a collab document that the parser builds from the flattened blocks, and the
  parser's loops over them.
 */
module DocumentTables {
  import opened Sequences
  import opened Wrappers
  import opened DocumentParser

  // Tables -------------------------------------------------------------------------------------------

  function BlocksOf(entries: seq<Entry>): IndexMap<Block> {
    seq(|entries|, i requires 0 <= i < |entries| => (entries[i].block.id, entries[i].block))
  }

  function TextOf(e: Entry): IndexMap<string> {
    if e.delta.Some? && e.block.externalId.Some? then [(e.block.externalId.value, e.delta.value)] else []
  }

  function TextsOf(entries: seq<Entry>): IndexMap<string> {
    if entries == [] then []
    else TextsOf(entries[..|entries| - 1]) + TextOf(entries[|entries| - 1])
  }

  function Listed(m: map<string, seq<string>>, key: string): seq<string> {
    if key in m then m[key] else []
  }

  /** One turn of the loop in `generate_children_map`. */
  function AddChild(blocks: map<string, Block>, m: map<string, seq<string>>, id: string, block: Block)
    : map<string, seq<string>>
  {
    if block.parent == "" || block.parent !in blocks then m
    else
      var key := blocks[block.parent].children;
      var listed := m[key := Listed(m, key) + [id]];
      listed[block.children := Listed(listed, block.children)]
  }

  function ChildrenMap(blocks: map<string, Block>, listing: IndexMap<Block>): map<string, seq<string>> {
    if listing == [] then map[]
    else
      var last := listing[|listing| - 1];
      AddChild(blocks, ChildrenMap(blocks, listing[..|listing| - 1]), last.0, last.1)
  }

  /** The template's entries, with the page identifier drawn first. */
  function RootEntries(root: SerdeBlock, ids: nat -> string): seq<Entry> {
    Entries(root, ids(0), "", ids, 1)
  }

  function DocumentOf(root: SerdeBlock, ids: nat -> string): DocumentData {
    var entries := RootEntries(root, ids);
    var blocks := BlocksOf(entries);
    DocumentData(ids(0), Collect(blocks), ChildrenMap(Collect(blocks), blocks), Collect(TextsOf(entries)))
  }

  // The tables say what the entries say --------------------------------------------------------------

  lemma TextsOneMore(entries: seq<Entry>, e: Entry)
    ensures TextsOf(entries + [e]) == TextsOf(entries) + TextOf(e)
  {
    assert (entries + [e])[..|entries|] == entries;
  }

  lemma {:induction false} TextsSum(a: seq<Entry>, b: seq<Entry>)
    ensures TextsOf(a + b) == TextsOf(a) + TextsOf(b)
    decreases |b|
  {
    if b == [] {
      assert a + b == a;
    } else {
      var init, last := b[..|b| - 1], b[|b| - 1];
      assert b == init + [last];
      Associates(a, init, [last]);
      TextsOneMore(a + init, last);
      TextsOneMore(init, last);
      TextsSum(a, init);
      Associates(TextsOf(a), TextsOf(init), TextOf(last));
    }
  }

  ghost predicate HasText(e: Entry, text: (string, string)) {
    && e.block.externalId.Some? && e.block.externalId.value == text.0
    && e.delta == Some(text.1)
  }

  lemma {:induction false} TextsFrom(entries: seq<Entry>)
    ensures forall t :: t in TextsOf(entries) ==> exists e :: e in entries && HasText(e, t)
    ensures forall e, t :: e in entries && HasText(e, t) ==> t in TextsOf(entries)
  {
    if entries != [] {
      var init, last := entries[..|entries| - 1], entries[|entries| - 1];
      TextsFrom(init);
      assert entries == init + [last];
      forall t | t in TextOf(last)
        ensures last in entries && HasText(last, t)
      {
      }
    }
  }

  lemma {:induction false} TextsDistinct(entries: seq<Entry>)
    requires Distinct(entries)
    ensures DistinctKeys(TextsOf(entries))
  {
    if entries != [] {
      var init, last := entries[..|entries| - 1], entries[|entries| - 1];
      TextsDistinct(init);
      TextsFrom(init);
      forall t | t in TextsOf(init)
        ensures last.delta.Some? && last.block.externalId.Some? ==> t.0 != last.block.externalId.value
      {
        var e :| e in init && HasText(e, t);
        var k :| 0 <= k < |init| && init[k] == e;
        assert entries[k] == e && Apart(entries[k], entries[|entries| - 1]);
      }
    }
  }

  lemma {:induction false} ChildrenOfAre(entries: seq<Entry>, parent: string)
    ensures forall x :: x in ChildrenOf(entries, parent) ==>
      exists e :: e in entries && e.block.id == x && e.block.parent == parent
    ensures forall e :: e in entries && e.block.parent == parent ==> e.block.id in ChildrenOf(entries, parent)
  {
    if entries != [] {
      ChildrenOfAre(entries[..|entries| - 1], parent);
      assert entries == entries[..|entries| - 1] + [entries[|entries| - 1]];
    }
  }

  ghost predicate NoRepeat(s: seq<string>) {
    forall i, j :: 0 <= i < j < |s| ==> s[i] != s[j]
  }

  lemma NoRepeatSnoc(s: seq<string>, x: string)
    requires NoRepeat(s) && x !in s
    ensures NoRepeat(s + [x])
  {
  }

  lemma {:induction false} ChildrenOfDistinct(entries: seq<Entry>, parent: string)
    requires Distinct(entries)
    ensures NoRepeat(ChildrenOf(entries, parent))
  {
    if entries != [] {
      var init, last := entries[..|entries| - 1], entries[|entries| - 1];
      ChildrenOfDistinct(init, parent);
      ChildrenOfAre(init, parent);
      forall x | x in ChildrenOf(init, parent)
        ensures x != last.block.id
      {
        var e :| e in init && e.block.id == x && e.block.parent == parent;
        var k :| 0 <= k < |init| && init[k] == e;
        assert entries[k] == e && Apart(entries[k], entries[|entries| - 1]);
      }
      NoRepeatSnoc(ChildrenOf(init, parent), last.block.id);
    }
  }

  /** Every entry other than those directly under `outer` has its parent among the entries. */
  ghost predicate ParentsIn(entries: seq<Entry>, outer: string) {
    forall e :: e in entries ==> e.block.parent == outer || exists p :: p in entries && p.block.id == e.block.parent
  }

  lemma {:induction false} ParentsPresent(tree: SerdeBlock, id: string, parent: string, ids: nat -> string, n: nat)
    ensures ParentsIn(Entries(tree, id, parent, ids, n), parent)
    decreases tree
  {
    var first, own := ChildrenDraw(tree, n) + 1, ToEntry(tree, id, parent, ids, n);
    ChildParentsPresent(tree.children, id, ids, first);
    WithOwnParent(ChildEntries(tree.children, id, ids, first), own, parent);
  }

  lemma WithOwnParent(below: seq<Entry>, own: Entry, parent: string)
    requires ParentsIn(below, own.block.id) && own.block.parent == parent
    ensures ParentsIn(below + [own], parent)
  {
    var all := below + [own];
    assert own in all;
    assert forall p :: p in below ==> p in all;
  }

  lemma {:induction false} ChildParentsPresent(trees: seq<SerdeBlock>, parent: string, ids: nat -> string, n: nat)
    ensures ParentsIn(ChildEntries(trees, parent, ids, n), parent)
    decreases trees
  {
    if trees != [] {
      ParentsPresent(trees[0], ids(n), parent, ids, n + 1);
      ChildParentsPresent(trees[1..], parent, ids, End(trees[0], n + 1));
    }
  }

  /** The blocks the children map is built from. */
  ghost predicate WellFormed(entries: seq<Entry>) {
    && Distinct(entries)
    && ParentsIn(entries, "")
    && forall e :: e in entries ==> e.block.id != ""
  }

  lemma BlocksCollected(entries: seq<Entry>)
    requires Distinct(entries)
    ensures DistinctKeys(BlocksOf(entries))
    ensures forall e :: e in entries ==>
      e.block.id in Collect(BlocksOf(entries)) && Collect(BlocksOf(entries))[e.block.id] == e.block
    ensures forall x :: x in Collect(BlocksOf(entries)) ==> exists e :: e in entries && e.block.id == x
  {
    var blocks := BlocksOf(entries);
    forall i, j | 0 <= i < j < |blocks|
      ensures blocks[i].0 != blocks[j].0
    {
      assert Apart(entries[i], entries[j]);
    }
    CollectHas(blocks);
    forall e | e in entries
      ensures e.block.id in Collect(blocks) && Collect(blocks)[e.block.id] == e.block
    {
      var k :| 0 <= k < |entries| && entries[k] == e;
      assert blocks[k] == (e.block.id, e.block);
    }
    forall x | x in Collect(blocks)
      ensures exists e :: e in entries && e.block.id == x
    {
      var k :| 0 <= k < |blocks| && blocks[k].0 == x;
      assert entries[k] in entries && entries[k].block.id == x;
    }
  }

  /** After the first `n` turns, each block's list holds its children among the first `n` blocks. */
  ghost predicate Lists(m: map<string, seq<string>>, entries: seq<Entry>, n: nat)
    requires n <= |entries|
  {
    && (forall e :: e in entries ==> Listed(m, e.block.children) == ChildrenOf(entries[..n], e.block.id))
    && (forall key :: key in m ==> exists e :: e in entries && e.block.children == key)
  }

  lemma DistinctAt(entries: seq<Entry>, i: nat, j: nat)
    requires Distinct(entries) && i < |entries| && j < |entries| && i != j
    ensures entries[i].block.id != entries[j].block.id && entries[i].block.children != entries[j].block.children
  {
    assert if i < j then Apart(entries[i], entries[j]) else Apart(entries[j], entries[i]);
  }

  lemma SameEntry(entries: seq<Entry>, a: Entry, b: Entry)
    requires Distinct(entries) && a in entries && b in entries
    requires a.block.id == b.block.id || a.block.children == b.block.children
    ensures a == b
  {
    var i: nat :| i < |entries| && entries[i] == a;
    var j: nat :| j < |entries| && entries[j] == b;
    if i != j {
      DistinctAt(entries, i, j);
    }
  }

  /** One turn appends to the list of the parent and to no other. */
  lemma AddChildListed(blocks: map<string, Block>, m: map<string, seq<string>>, id: string, block: Block, key: string)
    requires block.parent != "" && block.parent in blocks
    ensures Listed(AddChild(blocks, m, id, block), key) ==
      Listed(m, key) + (if key == blocks[block.parent].children then [id] else [])
  {
  }

  lemma OneMoreChild(entries: seq<Entry>, n: nat, parent: string)
    requires n < |entries|
    ensures ChildrenOf(entries[..n + 1], parent) ==
      ChildrenOf(entries[..n], parent) + (if entries[n].block.parent == parent then [entries[n].block.id] else [])
  {
    assert entries[..n + 1][..n] == entries[..n];
  }

  lemma ChildAppended(m: map<string, seq<string>>, entries: seq<Entry>, n: nat, e: Entry)
    requires WellFormed(entries) && n < |entries| && e in entries
    requires Listed(m, e.block.children) == ChildrenOf(entries[..n], e.block.id)
    ensures Listed(AddChild(Collect(BlocksOf(entries)), m, entries[n].block.id, entries[n].block), e.block.children) ==
      ChildrenOf(entries[..n + 1], e.block.id)
  {
    var blocks, block := Collect(BlocksOf(entries)), entries[n].block;
    OneMoreChild(entries, n, e.block.id);
    if block.parent != "" {
      BlocksCollected(entries);
      var p :| p in entries && p.block.id == block.parent;
      AddChildListed(blocks, m, block.id, block, e.block.children);
      if e.block.children == p.block.children || e.block.id == p.block.id {
        SameEntry(entries, e, p);
      }
    }
  }

  lemma AddChildLists(m: map<string, seq<string>>, entries: seq<Entry>, n: nat)
    requires WellFormed(entries) && n < |entries| && Lists(m, entries, n)
    ensures Lists(AddChild(Collect(BlocksOf(entries)), m, entries[n].block.id, entries[n].block), entries, n + 1)
  {
    BlocksCollected(entries);
    forall e | e in entries
      ensures Listed(AddChild(Collect(BlocksOf(entries)), m, entries[n].block.id, entries[n].block), e.block.children) ==
        ChildrenOf(entries[..n + 1], e.block.id)
    {
      ChildAppended(m, entries, n, e);
    }
    AddChildKeys(Collect(BlocksOf(entries)), m, entries[n].block.id, entries[n].block);
  }

  lemma AddChildKeys(blocks: map<string, Block>, m: map<string, seq<string>>, id: string, block: Block)
    ensures forall key :: key in AddChild(blocks, m, id, block) ==>
      key in m || key == block.children || exists x :: x in blocks && blocks[x].children == key
  {
  }

  lemma {:induction false} ChildrenMapLists(entries: seq<Entry>, n: nat)
    requires WellFormed(entries) && n <= |entries|
    ensures Lists(ChildrenMap(Collect(BlocksOf(entries)), BlocksOf(entries)[..n]), entries, n)
  {
    if n > 0 {
      ChildrenMapLists(entries, n - 1);
      AddChildLists(ChildrenMap(Collect(BlocksOf(entries)), BlocksOf(entries)[..n - 1]), entries, n - 1);
      assert BlocksOf(entries)[..n][..n - 1] == BlocksOf(entries)[..n - 1];
    }
  }

  // The parser's loops -------------------------------------------------------------------------------

  lemma ExtendEntries(done: seq<Entry>, more: seq<Entry>)
    requires Distinct(done + more)
    ensures Extend(BlocksOf(done), BlocksOf(more)) == BlocksOf(done + more)
    ensures Extend(TextsOf(done), TextsOf(more)) == TextsOf(done + more)
  {
    BlocksCollected(done + more);
    assert BlocksOf(done + more) == BlocksOf(done) + BlocksOf(more);
    ExtendFresh(BlocksOf(done), BlocksOf(more));
    TextsSum(done, more);
    TextsDistinct(done + more);
    ExtendFresh(TextsOf(done), TextsOf(more));
  }

  lemma InsertEntry(done: seq<Entry>, e: Entry)
    requires Distinct(done + [e])
    ensures Insert(BlocksOf(done), e.block.id, e.block) == BlocksOf(done + [e])
    ensures TextsOf(done + [e]) == if e.delta.Some? && e.block.externalId.Some?
      then Insert(TextsOf(done), e.block.externalId.value, e.delta.value) else TextsOf(done)
  {
    ExtendEntries(done, [e]);
    assert [e][..0] == [];
    assert BlocksOf([e]) == [(e.block.id, e.block)];
    assert (done + [e])[..|done|] == done;
    assert TextsOf([e]) == TextOf(e);
    assert TextsOf(done) + [] == TextsOf(done);
  }

  lemma PrefixDistinct(all: seq<Entry>, a: seq<Entry>, b: seq<Entry>, c: seq<Entry>)
    requires Distinct(all) && a + (b + c) == all
    ensures Distinct(a + b) && (a + b) + c == all
  {
    assert (a + b) + c == all;
    assert forall i :: 0 <= i < |a + b| ==> (a + b)[i] == all[i];
  }

  /** The loop over the children has handled the first `i` of them, and drawn up to `after`. */
  ghost predicate Flattened(trees: seq<SerdeBlock>, i: nat, parent: string, ids: nat -> string, first: nat,
                            done: seq<Entry>, after: nat)
    requires i <= |trees|
  {
    && first <= after
    && done + ChildEntries(trees[i..], parent, ids, after) == ChildEntries(trees, parent, ids, first)
    && EndAll(trees[i..], after) == EndAll(trees, first)
  }

  lemma FlattenedOneMore(trees: seq<SerdeBlock>, i: nat, parent: string, ids: nat -> string, first: nat,
                         done: seq<Entry>, after: nat)
    requires i < |trees| && Flattened(trees, i, parent, ids, first, done, after)
    requires Distinct(ChildEntries(trees, parent, ids, first))
    ensures var child := Entries(trees[i], ids(after), parent, ids, after + 1);
      && Distinct(done + child)
      && Flattened(trees, i + 1, parent, ids, first, done + child, End(trees[i], after + 1))
  {
    var rest := trees[i..];
    assert rest[0] == trees[i] && rest[1..] == trees[i + 1..];
    PrefixDistinct(ChildEntries(trees, parent, ids, first), done,
      Entries(trees[i], ids(after), parent, ids, after + 1),
      ChildEntries(rest[1..], parent, ids, End(trees[i], after + 1)));
  }

  lemma FlattenedAll(trees: seq<SerdeBlock>, parent: string, ids: nat -> string, first: nat, done: seq<Entry>, after: nat)
    requires Flattened(trees, |trees|, parent, ids, first, done, after)
    ensures done == ChildEntries(trees, parent, ids, first) && after == EndAll(trees, first)
  {
    assert trees[|trees|..] == [];
  }

  lemma ChildPlaced(parent: string, ids: nat -> string, first: nat, after: nat)
    requires Fresh(ids) && Drawn(ids, parent, 0, first) && first <= after
    ensures Placed(ids, ids(after), parent, after + 1)
  {
  }

  /** The block itself is inserted last. */
  lemma OwnInserted(tree: SerdeBlock, own: string, parent: string, ids: nat -> string, n: nat)
    requires Placed(ids, own, parent, n)
    ensures var done, e := ChildEntries(tree.children, own, ids, ChildrenDraw(tree, n) + 1), ToEntry(tree, own, parent, ids, n);
      && BlocksOf(Entries(tree, own, parent, ids, n)) == Insert(BlocksOf(done), own, e.block)
      && TextsOf(Entries(tree, own, parent, ids, n)) ==
        if e.delta.Some? && e.block.externalId.Some?
          then Insert(TextsOf(done), e.block.externalId.value, e.delta.value) else TextsOf(done)
  {
    EntriesDistinct(tree, own, parent, ids, n);
    InsertEntry(ChildEntries(tree.children, own, ids, ChildrenDraw(tree, n) + 1), ToEntry(tree, own, parent, ids, n));
  }

  /** What `generate_blocks` returns: the two maps, and the first draw it leaves alone. */
  ghost predicate IsFlattening(tree: SerdeBlock, own: string, parent: string, ids: nat -> string, n: nat,
                               blocks: IndexMap<Block>, texts: IndexMap<string>, after: nat) {
    && blocks == BlocksOf(Entries(tree, own, parent, ids, n))
    && texts == TextsOf(Entries(tree, own, parent, ids, n))
    && after == End(tree, n)
  }

  lemma FlatteningComplete(tree: SerdeBlock, own: string, parent: string, ids: nat -> string, n: nat)
    requires Placed(ids, own, parent, n)
    ensures var e, first := ToEntry(tree, own, parent, ids, n), ChildrenDraw(tree, n) + 1;
      var done := ChildEntries(tree.children, own, ids, first);
      IsFlattening(tree, own, parent, ids, n, Insert(BlocksOf(done), own, e.block),
        if e.delta.Some? && e.block.externalId.Some?
          then Insert(TextsOf(done), e.block.externalId.value, e.delta.value) else TextsOf(done),
        EndAll(tree.children, first))
  {
    OwnInserted(tree, own, parent, ids, n);
  }

  /** The identifier a call of `generate_blocks` uses: the one given, or the next draw. */
  function OwnId(id: Option<string>, ids: nat -> string, next: nat): string {
    if id.Some? then id.value else ids(next)
  }

  function AfterOwnId(id: Option<string>, next: nat): nat {
    if id.Some? then next else next + 1
  }

  /** `generate_blocks`. */
  method GenerateBlocks(tree: SerdeBlock, id: Option<string>, parent: string, ids: nat -> string, next: nat)
    returns (blocks: IndexMap<Block>, texts: IndexMap<string>, after: nat)
    requires Placed(ids, OwnId(id, ids, next), parent, AfterOwnId(id, next))
    ensures IsFlattening(tree, OwnId(id, ids, next), parent, ids, AfterOwnId(id, next), blocks, texts, after)
    decreases tree
  {
    var own, n := OwnId(id, ids, next), AfterOwnId(id, next);
    var entry := ToEntry(tree, own, parent, ids, n);
    blocks, texts, after := GenerateChildren(tree.children, own, ids, ChildrenDraw(tree, n) + 1);
    FlatteningComplete(tree, own, parent, ids, n);
    blocks := Insert(blocks, entry.block.id, entry.block);
    if entry.delta.Some? {
      if entry.block.externalId.Some? {
        texts := Insert(texts, entry.block.externalId.value, entry.delta.value);
      }
    }
  }

  /** The loop over the children inside `generate_blocks`. */
  method GenerateChildren(trees: seq<SerdeBlock>, own: string, ids: nat -> string, first: nat)
    returns (blocks: IndexMap<Block>, texts: IndexMap<string>, after: nat)
    requires Fresh(ids) && Drawn(ids, own, 0, first)
    ensures blocks == BlocksOf(ChildEntries(trees, own, ids, first))
    ensures texts == TextsOf(ChildEntries(trees, own, ids, first))
    ensures after == EndAll(trees, first)
    decreases trees
  {
    ChildEntriesDistinct(trees, own, ids, first);
    ghost var done: seq<Entry> := [];
    blocks, texts, after := [], [], first;
    for i := 0 to |trees|
      invariant Flattened(trees, i, own, ids, first, done, after)
      invariant blocks == BlocksOf(done) && texts == TextsOf(done)
    {
      ghost var child := Entries(trees[i], ids(after), own, ids, after + 1);
      FlattenedOneMore(trees, i, own, ids, first, done, after);
      ChildPlaced(own, ids, first, after);
      var childBlocks, childTexts;
      childBlocks, childTexts, after := GenerateBlocks(trees[i], None, own, ids, after);
      ExtendEntries(done, child);
      blocks := Extend(blocks, childBlocks);
      texts := Extend(texts, childTexts);
      done := done + child;
    }
    FlattenedAll(trees, own, ids, first, done, after);
  }

  /** `generate_children_map`. */
  method GenerateChildrenMap(blocks: IndexMap<Block>) returns (childrenMap: map<string, seq<string>>)
    ensures childrenMap == ChildrenMap(Collect(blocks), blocks)
  {
    childrenMap := map[];
    for i := 0 to |blocks|
      invariant childrenMap == ChildrenMap(Collect(blocks), blocks[..i])
    {
      assert blocks[..i + 1][..i] == blocks[..i];
      var (id, block) := blocks[i];
      if block.parent == "" {
        continue;
      }
      if block.parent in Collect(blocks) {
        var key := Collect(blocks)[block.parent].children;
        if key !in childrenMap {
          childrenMap := childrenMap[key := []];
        }
        childrenMap := childrenMap[key := childrenMap[key] + [id]];
        if block.children !in childrenMap {
          childrenMap := childrenMap[block.children := []];
        }
      }
    }
    assert blocks[..|blocks|] == blocks;
  }

  /** `json_str_to_document`, behind the JSON parser. */
  method JsonToDocument(root: SerdeBlock, ids: nat -> string) returns (doc: DocumentData)
    requires Fresh(ids)
    ensures doc == DocumentOf(root, ids)
  {
    var pageId := ids(0);
    assert Drawn(ids, pageId, 0, 1);
    var blocks, texts, after := GenerateBlocks(root, Some(pageId), "", ids, 1);
    var childrenMap := GenerateChildrenMap(blocks);
    doc := DocumentData(pageId, Collect(blocks), childrenMap, Collect(texts));
  }
}
