/**
  The binary heap behind the sink queue, the aggregate queue and the snapshot queue.

  A heap promises which element comes out next only up to ties: elements whose order is
  `Equal` may come out in any order, and the order may change when they are pushed back. So a
  heap is modelled by its multiset of elements, and popping takes any element of least rank.
 */
module PriorityHeap {

  /** Position in the pop order: a smaller rank is popped earlier, equal ranks tie. */
  datatype Rank = Rank(band: nat, number: nat)

  predicate NotAfter(a: Rank, b: Rank) {
    a.band < b.band || (a.band == b.band && a.number <= b.number)
  }

  /** `x` is an element that the next pop of `heap` may return. */
  predicate IsTop<T(==)>(rank: T -> Rank, heap: multiset<T>, x: T) {
    x in heap && forall y :: y in heap ==> NotAfter(rank(x), rank(y))
  }

  ghost predicate Sorted<T>(rank: T -> Rank, s: seq<T>) {
    forall i, j :: 0 <= i < j < |s| ==> NotAfter(rank(s[i]), rank(s[j]))
  }

  /** Popping `heap` exactly `|popped|` times can return `popped` in that order and leave `rest`. */
  ghost predicate Pops<T>(rank: T -> Rank, heap: multiset<T>, popped: seq<T>, rest: multiset<T>) {
    && heap == multiset(popped) + rest
    && Sorted(rank, popped)
    && forall x, y :: x in popped && y in rest ==> NotAfter(rank(x), rank(y))
  }

  lemma OneMoreTop<T>(rank: T -> Rank, rest: multiset<T>, x: T, y: T)
    requires IsTop(rank, rest, y)
    ensures IsTop(rank, rest + multiset{x}, if NotAfter(rank(x), rank(y)) then x else y)
  {
  }

  lemma TopExists<T>(rank: T -> Rank, heap: multiset<T>)
    requires heap != multiset{}
    ensures exists x :: IsTop(rank, heap, x)
    decreases |heap|
  {
    var x :| x in heap;
    var rest := heap - multiset{x};
    assert heap == rest + multiset{x};
    if rest == multiset{} {
      assert IsTop(rank, heap, x);
    } else {
      TopExists(rank, rest);
      var y :| IsTop(rank, rest, y);
      OneMoreTop(rank, rest, x, y);
    }
  }

  /** `BinaryHeap::pop` on a non-empty heap. */
  method Pop<T(==)>(rank: T -> Rank, heap: multiset<T>) returns (x: T, rest: multiset<T>)
    requires heap != multiset{}
    ensures IsTop(rank, heap, x)
    ensures heap == rest + multiset{x}
    ensures rest == heap - multiset{x} && |rest| < |heap|
  {
    TopExists(rank, heap);
    x :| IsTop(rank, heap, x);
    rest := heap - multiset{x};
  }

  /** Nothing has been popped yet. */
  lemma PopNone<T>(rank: T -> Rank, heap: multiset<T>)
    ensures Pops(rank, heap, [], heap)
  {
    assert multiset([]) + heap == heap;
  }

  /** One more pop extends a pop sequence. */
  lemma PopOneMore<T>(rank: T -> Rank, heap: multiset<T>, popped: seq<T>, rest: multiset<T>, x: T)
    requires Pops(rank, heap, popped, rest)
    requires IsTop(rank, rest, x)
    ensures Pops(rank, heap, popped + [x], rest - multiset{x})
  {
    assert multiset(popped + [x]) == multiset(popped) + multiset{x};
    assert rest == (rest - multiset{x}) + multiset{x};
  }

  /** Conversely, every step of a pop sequence takes a top of what is left at that point. */
  lemma PopsTakeTops<T>(rank: T -> Rank, heap: multiset<T>, popped: seq<T>, rest: multiset<T>, n: nat)
    requires Pops(rank, heap, popped, rest) && n < |popped|
    ensures IsTop(rank, multiset(popped[n..]) + rest, popped[n])
    ensures heap == multiset(popped[..n]) + (multiset(popped[n..]) + rest)
  {
    assert popped == popped[..n] + popped[n..];
    assert popped[n] == popped[n..][0];
    forall y | y in popped[n..]
      ensures NotAfter(rank(popped[n]), rank(y))
    {
      var k :| 0 <= k < |popped[n..]| && popped[n..][k] == y;
      assert y == popped[n + k];
    }
  }
}
