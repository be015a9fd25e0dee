/** The binary heap that stores one lane (`heapq` on the lists of `_queues`). */
module LaneHeap {
  import opened Tasks

  function Parent(i: nat): nat
    requires i > 0
  {
    (i - 1) / 2
  }

  lemma Children(i: nat, pos: nat)
    requires i > 0
    ensures Parent(i) == pos <==> i == 2 * pos + 1 || i == 2 * pos + 2
  {
  }

  ghost predicate IsHeap(h: seq<Item>) {
    forall i :: 0 < i < |h| ==> !Less(h[i], h[Parent(i)])
  }

  /** Heap order everywhere except between `pos` and its parent. */
  ghost predicate HeapExceptAbove(h: seq<Item>, pos: nat) {
    && (forall i :: 0 < i < |h| && i != pos ==> !Less(h[i], h[Parent(i)]))
    && (forall i :: 0 < i < |h| && Parent(i) == pos && pos > 0 && pos < |h| ==> !Less(h[i], h[Parent(pos)]))
  }

  /** Heap order everywhere except between `pos` and its children. */
  ghost predicate HeapExceptBelow(h: seq<Item>, pos: nat) {
    && (forall i :: 0 < i < |h| && Parent(i) != pos ==> !Less(h[i], h[Parent(i)]))
    && (forall i :: 0 < i < |h| && Parent(i) == pos && pos > 0 && pos < |h| ==> !Less(h[i], h[Parent(pos)]))
  }

  /** The root of a heap is its least item. */
  lemma {:induction false} RootIsLeast(h: seq<Item>, i: nat)
    requires IsHeap(h) && i < |h|
    ensures !Less(h[i], h[0])
  {
    if i == 0 {
    } else {
      RootIsLeast(h, Parent(i));
    }
  }

  /** A heap and the sorted sequence of the same items agree on the first item. */
  lemma RootIsHead(h: seq<Item>, s: seq<Item>)
    requires IsHeap(h) && Sorted(s) && multiset(h) == multiset(s)
    ensures |h| == |s|
    ensures h != [] ==> h[0] == s[0]
  {
    assert |multiset(h)| == |h| && |multiset(s)| == |s|;
    if h != [] {
      assert h[0] in multiset(s) && s[0] in multiset(h);
      var i :| 0 <= i < |h| && h[i] == s[0];
      RootIsLeast(h, i);
    }
  }

  function Swapped(h: seq<Item>, i: nat, j: nat): (r: seq<Item>)
    requires i < |h| && j < |h|
    ensures |r| == |h| && multiset(r) == multiset(h)
  {
    h[i := h[j]][j := h[i]]
  }

  lemma SiftUpStep(h: seq<Item>, pos: nat)
    requires 0 < pos < |h| && HeapExceptAbove(h, pos) && Less(h[pos], h[Parent(pos)])
    ensures HeapExceptAbove(Swapped(h, pos, Parent(pos)), Parent(pos))
  {
    var up := Parent(pos);
    var r := Swapped(h, pos, up);
    forall i | 0 < i < |r| && i != up ensures !Less(r[i], r[Parent(i)]) {
      if i != pos && Parent(i) == up {
        assert !Less(h[i], h[up]);
      }
    }
  }

  lemma SiftDownStep(h: seq<Item>, pos: nat, child: nat)
    requires pos < child < |h| && Parent(child) == pos && HeapExceptBelow(h, pos)
    requires Less(h[child], h[pos])
    requires forall i :: 0 < i < |h| && Parent(i) == pos ==> !Less(h[i], h[child])
    ensures HeapExceptBelow(Swapped(h, pos, child), child)
  {
    var r := Swapped(h, pos, child);
    forall i | 0 < i < |r| && Parent(i) != child ensures !Less(r[i], r[Parent(i)]) {
      if i == pos {
        assert !Less(h[child], h[Parent(pos)]);
      } else if i != child && Parent(i) == pos {
        assert !Less(h[i], h[child]);
      } else if i != child {
        assert !Less(h[i], h[Parent(i)]);
      }
    }
  }

  method HeapPush(h: seq<Item>, x: Item) returns (r: seq<Item>)
    requires IsHeap(h)
    ensures IsHeap(r)
    ensures multiset(r) == multiset(h) + multiset{x}
  {
    r := h + [x];
    var pos: nat := |h|;
    while pos > 0 && Less(r[pos], r[Parent(pos)])
      invariant pos < |r| == |h| + 1
      invariant multiset(r) == multiset(h) + multiset{x}
      invariant HeapExceptAbove(r, pos)
    {
      SiftUpStep(r, pos);
      r := Swapped(r, pos, Parent(pos));
      pos := Parent(pos);
    }
  }

  method LesserChild(h: seq<Item>, pos: nat) returns (child: nat)
    requires 2 * pos + 1 < |h|
    ensures pos < child < |h| && Parent(child) == pos
    ensures forall i :: 0 < i < |h| && Parent(i) == pos ==> !Less(h[i], h[child])
  {
    child := 2 * pos + 1;
    if child + 1 < |h| && Less(h[child + 1], h[child]) {
      child := child + 1;
    }
    forall i | 0 < i < |h| && Parent(i) == pos ensures !Less(h[i], h[child]) {
      Children(i, pos);
    }
  }

  /** Restores heap order below the root. */
  method SiftDown(h: seq<Item>) returns (r: seq<Item>)
    requires h != [] && HeapExceptBelow(h, 0)
    ensures IsHeap(r) && multiset(r) == multiset(h)
  {
    r := h;
    var pos: nat := 0;
    while 2 * pos + 1 < |r|
      invariant pos < |r| == |h|
      invariant multiset(r) == multiset(h)
      invariant HeapExceptBelow(r, pos)
      decreases |r| - pos
    {
      var child := LesserChild(r, pos);
      if !Less(r[child], r[pos]) {
        break;
      }
      SiftDownStep(r, pos, child);
      r := Swapped(r, pos, child);
      pos := child;
    }
  }

  method HeapPop(h: seq<Item>) returns (x: Item, r: seq<Item>)
    requires IsHeap(h) && h != []
    ensures x == h[0]
    ensures IsHeap(r)
    ensures multiset(h) == multiset{x} + multiset(r)
  {
    x := h[0];
    var last := h[|h| - 1];
    r := h[..|h| - 1];
    assert h == r + [last];
    if r != [] {
      assert r == [x] + r[1..];
      r := [last] + r[1..];
      assert multiset(h) == multiset{x} + multiset(r);
      forall i | 0 < i < |r| && Parent(i) != 0 ensures !Less(r[i], r[Parent(i)]) {
        assert r[i] == h[i] && r[Parent(i)] == h[Parent(i)];
      }
      r := SiftDown(r);
    }
  }
}
