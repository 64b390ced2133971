/** The indexed binary heap behind a repository's waiting queue, with the
    operations of Go's container/heap written out over it. */
module PriorityQueues {
  import opened QueueOrder

  class Item {
    const key: string
    const priority: int
    const sequence: int
    var index: int

    constructor (key: string, priority: int, sequence: int)
      ensures this.key == key && this.priority == priority && this.sequence == sequence
      ensures index == 0
    {
      this.key, this.priority, this.sequence, this.index := key, priority, sequence, 0;
    }

    ghost function AsEntry(): Entry {
      Entry(key, priority, sequence)
    }
  }

  predicate LessItem(a: Item, b: Item) {
    if a.priority == b.priority then a.sequence < b.sequence else a.priority < b.priority
  }

  /** container/heap halves with Go's truncating division, so the root is its own parent. */
  function Parent(i: int): int
    requires 0 <= i
  {
    if i == 0 then 0 else (i - 1) / 2
  }

  /** No item among the first n is smaller than its parent, except possibly at `hole`. */
  ghost predicate OrderedExceptAt(items: seq<Item>, n: int, hole: int)
    requires n <= |items|
  {
    forall i {:trigger Parent(i)} :: 0 < i < n && i != hole ==> !LessItem(items[i], items[Parent(i)])
  }

  ghost predicate OrderedExceptBelow(items: seq<Item>, n: int, hole: int, top: int)
    requires n <= |items|
  {
    forall i {:trigger Parent(i)} :: 0 < i < n && Parent(i) != hole && i != top ==> !LessItem(items[i], items[Parent(i)])
  }

  /** The children of `hole` are not smaller than its parent. */
  ghost predicate BridgesHole(items: seq<Item>, n: int, hole: int)
    requires n <= |items| && 0 <= hole < |items|
  {
    forall i {:trigger Parent(i)} :: 0 < i < n && Parent(i) == hole && 0 < hole ==> !LessItem(items[i], items[Parent(hole)])
  }

  ghost predicate HeapOrdered(items: seq<Item>, n: int)
    requires n <= |items|
  {
    forall i {:trigger Parent(i)} :: 0 < i < n ==> !LessItem(items[i], items[Parent(i)])
  }

  function Swapped(items: seq<Item>, i: int, j: int): seq<Item>
    requires 0 <= i < |items| && 0 <= j < |items|
  {
    items[i := items[j]][j := items[i]]
  }

  /** One step of `up`: the hole moves to the parent. */
  lemma UpStep(items: seq<Item>, n: int, j: int)
    requires 0 < j < n <= |items|
    requires OrderedExceptAt(items, n, j) && BridgesHole(items, n, j)
    requires LessItem(items[j], items[Parent(j)])
    ensures OrderedExceptAt(Swapped(items, Parent(j), j), n, Parent(j))
    ensures BridgesHole(Swapped(items, Parent(j), j), n, Parent(j))
  {
  }

  /** One step of `down`: the hole moves to the smaller child j. */
  lemma DownStep(items: seq<Item>, n: int, i0: int, i: int, j: int)
    requires 0 <= i0 <= i < j < n <= |items| && Parent(j) == i
    requires OrderedExceptBelow(items, n, i, if i == i0 then i0 else 0) && BridgesHole(items, n, i)
    requires LessItem(items[j], items[i])
    requires forall k {:trigger Parent(k)} :: 0 < k < n && Parent(k) == i ==> !LessItem(items[k], items[j])
    ensures OrderedExceptBelow(Swapped(items, i, j), n, j, 0) && BridgesHole(Swapped(items, i, j), n, j)
  {
  }

  /** The child chosen by `down` is the least of the children. */
  lemma SmallerChild(items: seq<Item>, n: int, i: int, j: int)
    requires 0 <= i && 2 * i + 1 < n <= |items|
    requires j == if 2 * i + 2 < n && LessItem(items[2 * i + 2], items[2 * i + 1]) then 2 * i + 2 else 2 * i + 1
    ensures Parent(j) == i
    ensures forall k {:trigger Parent(k)} :: 0 < k < n && Parent(k) == i ==> !LessItem(items[k], items[j])
  {
    assert forall k {:trigger Parent(k)} :: 0 < k < n && Parent(k) == i ==> k == 2 * i + 1 || k == 2 * i + 2;
  }

  lemma NoChildren(i: int, n: int)
    requires 0 <= i && n <= 2 * i + 1
    ensures forall k {:trigger Parent(k)} :: 0 < k < n ==> Parent(k) != i
  {
  }

  /** `down` stops at a hole none of whose children is smaller. */
  lemma DownStops(items: seq<Item>, n: int, i0: int, i: int)
    requires 0 <= i0 <= i <= n <= |items| && i < |items|
    requires OrderedExceptBelow(items, n, i, if i == i0 then i0 else 0)
    requires forall k {:trigger Parent(k)} :: 0 < k < n && Parent(k) == i ==> !LessItem(items[k], items[i])
    ensures i0 < i ==> HeapOrdered(items, n)
    ensures i0 == i ==> OrderedExceptAt(items, n, i0)
  {
  }

  /** The root of a heap is least: no item precedes it. */
  lemma {:induction false} RootIsLeast(items: seq<Item>, n: int, i: int)
    requires n <= |items| && HeapOrdered(items, n) && 0 <= i < n
    ensures !LessItem(items[i], items[0])
    decreases i
  {
    if i > 0 {
      RootIsLeast(items, n, Parent(i));
    }
  }

  /** The indexed items are exactly the entries of the sorted queue. */
  ghost predicate Matches(contents: seq<Entry>, byKey: map<string, Item>) {
    && Ordered(contents)
    && (forall k :: k in byKey ==> byKey[k].key == k && byKey[k].AsEntry() in contents)
    && (forall e :: e in contents ==> e.key in byKey && byKey[e.key].AsEntry() == e)
  }

  lemma MatchesKeys(contents: seq<Entry>, byKey: map<string, Item>)
    requires Matches(contents, byKey)
    ensures Keys(contents) == byKey.Keys
  {
    forall k | k in byKey ensures k in Keys(contents) {
      assert byKey[k].AsEntry() in contents;
    }
  }

  lemma InsertMatches(contents: seq<Entry>, byKey: map<string, Item>, x: Item)
    requires Matches(contents, byKey) && x.key !in byKey
    requires forall e :: e in contents ==> e.sequence != x.sequence
    ensures Matches(Insert(contents, x.AsEntry()), byKey[x.key := x])
  {
    InsertAddsEntry(contents, x.AsEntry());
    InsertKeepsOrder(contents, x.AsEntry());
  }

  lemma WithoutMatches(contents: seq<Entry>, byKey: map<string, Item>, key: string)
    requires Matches(contents, byKey)
    ensures Matches(Without(contents, key), byKey - {key})
    ensures key !in byKey ==> Without(contents, key) == contents && byKey - {key} == byKey
    ensures forall e :: e in Without(contents, key) ==> e in contents
  {
    if key !in byKey {
      MatchesKeys(contents, byKey);
      WithoutAbsentKey(contents, key);
    }
    WithoutRemovesKey(contents, key);
    WithoutKeepsOrder(contents, key);
  }

  /** Exchanging item i with the last one leaves a heap with a hole at i. */
  lemma SwapOut(items: seq<Item>, i: int, n: int)
    requires 0 <= i < n == |items| - 1 && HeapOrdered(items, n + 1)
    ensures OrderedExceptBelow(Swapped(items, i, n), n, i, i) && BridgesHole(Swapped(items, i, n), n, i)
  {
    var t := Swapped(items, i, n);
    forall k {:trigger Parent(k)} | 0 < k < n
      ensures Parent(k) != i && k != i ==> !LessItem(t[k], t[Parent(k)])
      ensures Parent(k) == i && 0 < i ==> !LessItem(t[k], t[Parent(i)])
    {
      var parent := Parent(k);
    }
  }

  lemma PrefixIsHeap(items: seq<Item>, n: int)
    requires 0 <= n <= |items| && HeapOrdered(items, n)
    ensures HeapOrdered(items[..n], n)
  {
  }

  class PriorityQueue {
    var items: seq<Item>
    var itemByKey: map<string, Item>
    var sequence: int
    ghost var Contents: seq<Entry>
    ghost var Repr: set<Item>

    /** Back-pointers and the key index are exact. */
    ghost predicate Indexed()
      reads this`items, this`itemByKey, this`Repr, Repr
    {
      && (forall k :: k in itemByKey ==> itemByKey[k] in Repr)
      && (forall i :: 0 <= i < |items| ==> items[i].key in itemByKey && itemByKey[items[i].key] == items[i])
      && (forall i :: 0 <= i < |items| ==> itemByKey[items[i].key].index == i)
      && (forall k :: k in itemByKey ==>
            && itemByKey[k].key == k && 0 <= itemByKey[k].index < |items|
            && items[itemByKey[k].index] == itemByKey[k])
    }

    ghost predicate Represents()
      reads this`Contents, this`itemByKey
    {
      Matches(Contents, itemByKey)
    }

    ghost predicate IsHeap()
      reads this, Repr
    {
      Indexed() && HeapOrdered(items, |items|) && Represents()
    }

    ghost predicate Valid()
      reads this, Repr
    {
      IsHeap() && forall e :: e in Contents ==> e.sequence < sequence
    }

    constructor ()
      ensures Valid() && Contents == [] && items == [] && sequence == 0 && Repr == {}
    {
      items, itemByKey, sequence, Contents, Repr := [], map[], 0, [], {};
    }

    lemma Lengths()
      requires IsHeap()
      ensures items == [] <==> Contents == []
      ensures Keys(Contents) == itemByKey.Keys
    {
      MatchesKeys(Contents, itemByKey);
      if items != [] { assert items[0].key in itemByKey; }
      if Contents != [] { assert Contents[0] in Contents; }
    }

    /** The root of the heap is the head of the sorted queue. */
    lemma RootIsHead()
      requires IsHeap() && items != []
      ensures Contents != [] && items[0].AsEntry() == Contents[0]
    {
      Lengths();
      var head := Contents[0];
      assert head in Contents;
      var x := itemByKey[head.key];
      RootIsLeast(items, |items|, x.index);
      assert itemByKey[items[0].key].AsEntry() in Contents;
      HeadAndTail(Contents);
    }

    lemma HeadRemoval()
      requires IsHeap() && items != []
      ensures Contents != [] && items[0].AsEntry() == Contents[0]
      ensures items[0].key in itemByKey && itemByKey[items[0].key] == items[0]
      ensures Matches(Contents[1..], itemByKey - {items[0].key})
      ensures forall e :: e in Contents[1..] ==> e in Contents
    {
      RootIsHead();
      WithoutHead(Contents);
      WithoutMatches(Contents, itemByKey, items[0].key);
    }

    predicate IsPending(key: string)
      reads this
    {
      key in itemByKey
    }

    predicate Less(i: int, j: int)
      requires 0 <= i < |items| && 0 <= j < |items|
      reads this
    {
      LessItem(items[i], items[j])
    }

    method Swap(i: int, j: int)
      requires 0 <= i < |items| && 0 <= j < |items| && Indexed()
      modifies this`items, Repr`index
      ensures Indexed()
      ensures items == Swapped(old(items), i, j)
    {
      items := items[i := items[j]][j := items[i]];
      items[i].index := i;
      items[j].index := j;
    }

    method Up(j0: int, ghost n: int)
      requires Indexed() && 0 <= j0 < n <= |items|
      requires OrderedExceptAt(items, n, j0) && BridgesHole(items, n, j0)
      modifies this`items, Repr`index
      ensures Indexed() && |items| == old(|items|) && HeapOrdered(items, n)
      ensures forall k :: n <= k < |items| ==> items[k] == old(items[k])
    {
      var j := j0;
      while true
        invariant 0 <= j < n <= |items| && |items| == old(|items|) && Indexed()
        invariant forall k :: n <= k < |items| ==> items[k] == old(items[k])
        invariant OrderedExceptAt(items, n, j) && BridgesHole(items, n, j)
        decreases j
      {
        var i := Parent(j);
        if i == j || !Less(j, i) {
          break;
        }
        UpStep(items, n, j);
        Swap(i, j);
        j := i;
      }
    }

    /** One round of `down`: swaps the hole i with its smaller child, or stays. */
    method DownOnce(i: int, n: int, ghost i0: int) returns (next: int)
      requires Indexed() && 0 <= i0 <= i <= n <= |items| && i < |items|
      requires OrderedExceptBelow(items, n, i, if i == i0 then i0 else 0) && BridgesHole(items, n, i)
      modifies this`items, Repr`index
      ensures Indexed() && |items| == old(|items|)
      ensures forall k :: n <= k < |items| ==> items[k] == old(items[k])
      ensures next == i ==> items == old(items)
      ensures next == i && i0 < i ==> HeapOrdered(items, n)
      ensures next == i == i0 ==> OrderedExceptAt(items, n, i0)
      ensures next != i ==> i < next < n
      ensures next != i ==> OrderedExceptBelow(items, n, next, 0) && BridgesHole(items, n, next)
    {
      next := i;
      var j1 := 2 * i + 1;
      if j1 >= n {
        NoChildren(i, n);
        DownStops(items, n, i0, i);
        return;
      }
      var j := j1;
      var j2 := j1 + 1;
      if j2 < n && Less(j2, j1) {
        j := j2;
      }
      SmallerChild(items, n, i, j);
      if !Less(j, i) {
        DownStops(items, n, i0, i);
        return;
      }
      DownStep(items, n, i0, i, j);
      Swap(i, j);
      next := j;
    }

    method Down(i0: int, n: int) returns (moved: bool)
      requires Indexed() && 0 <= i0 <= n <= |items| && i0 < |items|
      requires OrderedExceptBelow(items, n, i0, i0) && BridgesHole(items, n, i0)
      modifies this`items, Repr`index
      ensures Indexed() && |items| == old(|items|)
      ensures forall k :: n <= k < |items| ==> items[k] == old(items[k])
      ensures moved ==> HeapOrdered(items, n)
      ensures !moved ==> OrderedExceptAt(items, n, i0) && BridgesHole(items, n, i0)
    {
      var i := i0;
      while true
        invariant i0 <= i <= n <= |items| && i < |items| && |items| == old(|items|) && Indexed()
        invariant forall k :: n <= k < |items| ==> items[k] == old(items[k])
        invariant OrderedExceptBelow(items, n, i, if i == i0 then i0 else 0) && BridgesHole(items, n, i)
        decreases n - i
      {
        var next := DownOnce(i, n, i0);
        if next == i {
          break;
        }
        i := next;
      }
      moved := i > i0;
    }

    method Push(x: Item)
      requires Indexed() && x.key !in itemByKey
      modifies this`items, this`itemByKey, this`Repr, x`index
      ensures Indexed() && items == old(items) + [x] && itemByKey == old(itemByKey)[x.key := x]
      ensures Repr == old(Repr) + {x}
    {
      Repr := Repr + {x};
      x.index := |items|;
      items := items + [x];
      itemByKey := itemByKey[x.key := x];
    }

    method Pop() returns (x: Item)
      requires Indexed() && items != []
      modifies this`items, this`itemByKey, Repr`index
      ensures x == old(items)[|old(items)| - 1] && x.index == -1
      ensures items == old(items)[..|old(items)| - 1] && itemByKey == old(itemByKey) - {x.key}
      ensures Indexed()
    {
      var n := |items|;
      x := items[n - 1];
      x.index := -1;
      items := items[..n - 1];
      itemByKey := itemByKey - {x.key};
    }

    method HeapPush(x: Item)
      requires Indexed() && HeapOrdered(items, |items|) && x.key !in itemByKey
      modifies this`items, this`itemByKey, this`Repr, x`index, Repr`index
      ensures Indexed() && HeapOrdered(items, |items|)
      ensures itemByKey == old(itemByKey)[x.key := x] && Repr == old(Repr) + {x}
    {
      Push(x);
      NoChildren(|items| - 1, |items|);
      Up(|items| - 1, |items|);
    }

    method HeapPop() returns (x: Item)
      requires Indexed() && HeapOrdered(items, |items|) && items != []
      modifies this`items, this`itemByKey, Repr`index
      ensures Indexed() && HeapOrdered(items, |items|)
      ensures x == old(items)[0] && itemByKey == old(itemByKey) - {x.key}
    {
      var n := |items| - 1;
      if n > 0 { SwapOut(items, 0, n); }
      Swap(0, n);
      var _ := Down(0, n);
      PrefixIsHeap(items, n);
      x := Pop();
    }

    /** Item i changes places with the last one, and the hole it leaves is closed. */
    method MoveToEnd(i: int)
      requires Indexed() && HeapOrdered(items, |items|) && 0 <= i < |items|
      modifies this`items, Repr`index
      ensures Indexed() && |items| == old(|items|) && HeapOrdered(items, |items| - 1)
      ensures items[|items| - 1] == old(items)[i]
    {
      var n := |items| - 1;
      if n != i {
        SwapOut(items, i, n);
        Swap(i, n);
        var moved := Down(i, n);
        if !moved {
          Up(i, n);
        }
      }
    }

    method HeapRemove(i: int) returns (x: Item)
      requires Indexed() && HeapOrdered(items, |items|) && 0 <= i < |items|
      modifies this`items, this`itemByKey, Repr`index
      ensures Indexed() && HeapOrdered(items, |items|)
      ensures x == old(items)[i] && itemByKey == old(itemByKey) - {x.key}
    {
      MoveToEnd(i);
      PrefixIsHeap(items, |items| - 1);
      x := Pop();
    }

    /** The sorted queue follows the heap. */
    ghost method SetContents(contents: seq<Entry>)
      requires Indexed() && HeapOrdered(items, |items|) && Matches(contents, itemByKey)
      modifies this`Contents
      ensures IsHeap() && Contents == contents
    {
      Contents := contents;
    }

    /** heap.Push, seen from the sorted queue. */
    method PushItem(x: Item)
      requires IsHeap() && x.key !in itemByKey && forall e :: e in Contents ==> e.sequence != x.sequence
      modifies this`items, this`itemByKey, this`Contents, this`Repr, x`index, Repr`index
      ensures IsHeap() && Repr == old(Repr) + {x}
      ensures Contents == Insert(old(Contents), x.AsEntry())
    {
      InsertMatches(Contents, itemByKey, x);
      HeapPush(x);
      SetContents(Insert(Contents, x.AsEntry()));
    }

    /** heap.Push of an entry that is not new: `requeue` puts a popped item back. */
    method Restore(x: Item)
      requires Valid() && x.key !in itemByKey && x.sequence < sequence
      requires forall e :: e in Contents ==> e.sequence != x.sequence
      modifies this`items, this`itemByKey, this`Contents, this`Repr, x`index, Repr`index
      ensures Valid() && Repr == old(Repr) + {x}
      ensures Contents == Insert(old(Contents), x.AsEntry())
    {
      InsertAddsEntry(Contents, x.AsEntry());
      PushItem(x);
    }

    method Add(key: string, priority: int)
      requires Valid()
      modifies this, Repr`index
      ensures Valid()
      ensures key in old(itemByKey) ==>
        Contents == old(Contents) && sequence == old(sequence) && Repr == old(Repr)
      ensures key !in old(itemByKey) ==>
        && Contents == Insert(old(Contents), Entry(key, priority, old(sequence)))
        && sequence == old(sequence) + 1
        && old(Repr) <= Repr && fresh(Repr - old(Repr))
    {
      if key in itemByKey {
        return;
      }
      var x := new Item(key, priority, sequence);
      InsertAddsEntry(Contents, x.AsEntry());
      PushItem(x);
      sequence := sequence + 1;
    }

    /** heap.Remove, and the delete that finds the key gone already. */
    method RemoveItem(key: string)
      requires Indexed() && HeapOrdered(items, |items|) && key in itemByKey
      modifies this`items, this`itemByKey, Repr`index
      ensures Indexed() && HeapOrdered(items, |items|) && itemByKey == old(itemByKey) - {key}
    {
      var item := itemByKey[key];
      var _ := HeapRemove(item.index);
      assert itemByKey == itemByKey - {key};
      itemByKey := itemByKey - {key};
    }

    method Remove(key: string)
      requires Valid()
      modifies this`items, this`itemByKey, this`Contents, Repr`index
      ensures Valid()
      ensures Contents == Without(old(Contents), key)
    {
      ghost var rest := Without(Contents, key);
      WithoutMatches(Contents, itemByKey, key);
      if key in itemByKey {
        RemoveItem(key);
        SetContents(rest);
      }
    }

    method PopLeast() returns (x: Item)
      requires Valid() && items != []
      modifies this`items, this`itemByKey, this`Contents, Repr`index
      ensures Valid()
      ensures old(Contents) != [] && x.AsEntry() == old(Contents)[0] && Contents == old(Contents)[1..]
      ensures x in Repr
    {
      HeadRemoval();
      ghost var rest := Contents[1..];
      x := HeapPop();
      SetContents(rest);
    }

    method Peek() returns (x: Item)
      requires Valid() && items != []
      ensures Contents != [] && x.AsEntry() == Contents[0]
    {
      RootIsHead();
      x := items[0];
    }
  }
}
