/** Dijkstra's priority queue: the slice operations of control-plane/routing/optimizer.go under the
    sift loops of Go's container/heap. The `index` field of an item is written but never read, so
    items are plain values here. */
module PriorityQueue {

  datatype Item = Item(nodeId: string, cost: real)

  /** What has happened to a queue. */
  datatype Event = Pushed(item: Item) | Popped(item: Item)

  function Parent(k: int): int {
    (k - 1) / 2
  }

  function Swapped(s: seq<Item>, i: nat, j: nat): seq<Item>
    requires i < |s| && j < |s|
  {
    s[i := s[j]][j := s[i]]
  }

  /** Position `k` of the first `n` does not undercut its parent. */
  ghost predicate InOrder(s: seq<Item>, k: int)
    requires 0 <= k < |s|
  {
    k == 0 || s[Parent(k)].cost <= s[k].cost
  }

  ghost predicate IsHeap(s: seq<Item>) {
    forall k :: 0 <= k < |s| ==> InOrder(s, k)
  }

  /** Children of `hole` may follow directly below the parent of `hole`. */
  ghost predicate Bridged(s: seq<Item>, n: nat, hole: nat)
    requires hole < |s| && n <= |s|
  {
    hole > 0 ==> forall k :: 0 < k < n && Parent(k) == hole ==> s[Parent(hole)].cost <= s[k].cost
  }

  /** A heap but for the link from `j` up to its parent. */
  ghost predicate HeapAbove(s: seq<Item>, j: nat)
    requires j < |s|
  {
    Bridged(s, |s|, j) && forall k :: 0 <= k < |s| && k != j ==> InOrder(s, k)
  }

  /** The first `n` positions are a heap but for the links from the children of `i` up to it. */
  ghost predicate HeapBelow(s: seq<Item>, n: nat, i: nat)
    requires i < n <= |s|
  {
    Bridged(s, n, i) && forall k :: 0 <= k < n && (k == 0 || Parent(k) != i) ==> InOrder(s, k)
  }

  lemma SwapKeepsContents(s: seq<Item>, i: nat, j: nat)
    requires i < |s| && j < |s|
    ensures multiset(Swapped(s, i, j)) == multiset(s)
  {
  }

  /** Swapping an item with its dearer parent moves the only disorder one level up. */
  lemma SiftedUp(s: seq<Item>, j: nat)
    requires 0 < j < |s| && HeapAbove(s, j) && s[j].cost < s[Parent(j)].cost
    ensures HeapAbove(Swapped(s, Parent(j), j), Parent(j))
  {
    var i := Parent(j);
    var t := Swapped(s, i, j);
    forall k | 0 <= k < |s| && k != i ensures InOrder(t, k) {
      assert InOrder(s, i) && (k != j ==> InOrder(s, k));
    }
    forall k | 0 < k < |t| && Parent(k) == i && i > 0 ensures t[Parent(i)].cost <= t[k].cost {
      assert InOrder(s, i) && (k != j ==> InOrder(s, k));
    }
  }

  /** Swapping an item with its cheaper child moves the only disorder one level down. */
  lemma SiftedDown(s: seq<Item>, n: nat, i: nat, j: nat)
    requires i < n <= |s| && HeapBelow(s, n, i) && LeastChild(s, n, i, j) && s[j].cost < s[i].cost
    ensures HeapBelow(Swapped(s, i, j), n, j)
  {
  }

  /** `j` is the cheaper of the children of `i` among the first `n` positions. */
  ghost predicate LeastChild(s: seq<Item>, n: nat, i: nat, j: nat)
    requires n <= |s|
  {
    && i < j < n && Parent(j) == i
    && forall k :: 0 < k < n && Parent(k) == i ==> s[j].cost <= s[k].cost
  }

  lemma ChildrenOf(s: seq<Item>, n: nat, i: nat, j: nat)
    requires i < n <= |s| && 2 * i + 1 < n
    requires j == if 2 * i + 2 < n && s[2 * i + 2].cost < s[2 * i + 1].cost then 2 * i + 2 else 2 * i + 1
    ensures LeastChild(s, n, i, j)
  {
  }

  lemma SettledDown(s: seq<Item>, n: nat, i: nat)
    requires i < n <= |s| && HeapBelow(s, n, i)
    requires 2 * i + 1 >= n || exists j: nat :: LeastChild(s, n, i, j) && s[i].cost <= s[j].cost
    ensures IsHeap(s[..n])
  {
  }

  lemma Appended(s: seq<Item>, x: Item)
    requires IsHeap(s)
    ensures HeapAbove(s + [x], |s|)
  {
    forall k | 0 <= k < |s| ensures InOrder(s + [x], k) {
      assert InOrder(s, k);
    }
  }

  lemma RootReplaced(s: seq<Item>, n: nat)
    requires IsHeap(s) && 0 < n == |s| - 1
    ensures HeapBelow(Swapped(s, 0, n), n, 0)
  {
    forall k | 0 <= k < n && (k == 0 || Parent(k) != 0) ensures InOrder(Swapped(s, 0, n), k) {
      assert InOrder(s, k);
    }
  }

  lemma LastDropped(s: seq<Item>, n: nat)
    requires n == |s| - 1
    ensures multiset(s[..n]) == multiset(s) - multiset{s[n]}
  {
    assert s == s[..n] + [s[n]];
  }

  lemma RootIsLeastOfAll(s: seq<Item>)
    requires IsHeap(s) && s != []
    ensures forall y :: y in s ==> s[0].cost <= y.cost
  {
    forall k | 0 <= k < |s| ensures s[0].cost <= s[k].cost {
      RootIsLeast(s, k);
    }
  }

  /** The root of a heap is its cheapest item. */
  lemma {:induction false} RootIsLeast(s: seq<Item>, k: nat)
    requires IsHeap(s) && k < |s|
    ensures s[0].cost <= s[k].cost
    decreases k
  {
    if k > 0 {
      assert InOrder(s, k);
      RootIsLeast(s, Parent(k));
    }
  }

  class PriorityQueue {
    var items: seq<Item>
    ghost var trace: seq<Event>  // every push and pop so far

    constructor ()
      ensures items == [] && trace == []
    {
      items, trace := [], [];
    }

    predicate Less(i: nat, j: nat)
      reads this
      requires i < |items| && j < |items|
    {
      items[i].cost < items[j].cost
    }

    method Swap(i: nat, j: nat)
      requires i < |items| && j < |items|
      modifies this`items
      ensures items == Swapped(old(items), i, j)
    {
      items := items[i := items[j]][j := items[i]];
    }

    method Up(start: nat)
      requires start < |items| && HeapAbove(items, start)
      modifies this`items
      ensures IsHeap(items) && multiset(items) == multiset(old(items))
    {
      var j: nat := start;
      while true
        invariant j < |items| && HeapAbove(items, j)
        invariant multiset(items) == multiset(old(items))
        decreases j
      {
        if j == 0 || !Less(j, Parent(j)) {
          break;
        }
        var i := Parent(j);
        SiftedUp(items, j);
        SwapKeepsContents(items, i, j);
        Swap(i, j);
        j := i;
      }
    }

    method Down(n: nat)
      requires 0 < n <= |items| && HeapBelow(items, n, 0)
      modifies this`items
      ensures |items| == |old(items)| && multiset(items) == multiset(old(items))
      ensures IsHeap(items[..n]) && items[n..] == old(items[n..])
    {
      var i: nat := 0;
      while true
        invariant i < n <= |items| == |old(items)| && HeapBelow(items, n, i)
        invariant multiset(items) == multiset(old(items)) && items[n..] == old(items[n..])
        decreases n - i
      {
        var j: nat := 2 * i + 1;
        if j >= n {
          SettledDown(items, n, i);
          break;
        }
        if j + 1 < n && Less(j + 1, j) {
          j := j + 1;
        }
        ChildrenOf(items, n, i, j);
        if !Less(j, i) {
          SettledDown(items, n, i);
          break;
        }
        SiftedDown(items, n, i, j);
        SwapKeepsContents(items, i, j);
        Swap(i, j);
        i := j;
      }
    }

    method Push(x: Item)
      requires IsHeap(items)
      modifies this
      ensures IsHeap(items) && multiset(items) == multiset(old(items)) + multiset{x}
      ensures trace == old(trace) + [Pushed(x)]
    {
      trace := trace + [Pushed(x)];
      Appended(items, x);
      items := items + [x];
      Up(|items| - 1);
    }

    /** Removes an item of least cost; which one, among equals, the caller cannot tell. */
    method Pop() returns (x: Item)
      requires IsHeap(items) && items != []
      modifies this
      ensures x in old(items) && forall y :: y in old(items) ==> x.cost <= y.cost
      ensures IsHeap(items) && multiset(items) == multiset(old(items)) - multiset{x}
      ensures |items| == |old(items)| - 1
      ensures trace == old(trace) + [Popped(x)]
    {
      var n := |items| - 1;
      x := items[0];
      trace := trace + [Popped(x)];
      RootIsLeastOfAll(items);
      SwapKeepsContents(items, 0, n);
      Swap(0, n);
      if n > 0 {
        RootReplaced(old(items), n);
        Down(n);
      }
      LastDropped(items, n);
      items := items[..n];
    }
  }
}
