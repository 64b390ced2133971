/** The abstract waiting queue: a sequence of entries in strictly increasing
    (priority, sequence) order. The heap of PriorityQueue.dfy refines it. */
module QueueOrder {

  /** One queued PipelineRun. `priority` is the creation time in nanoseconds,
      `sequence` the insertion counter that breaks ties. */
  datatype Entry = Entry(key: string, priority: int, sequence: int)

  predicate Before(a: Entry, b: Entry) {
    a.priority < b.priority || (a.priority == b.priority && a.sequence < b.sequence)
  }

  ghost predicate Precedes(e: Entry, s: seq<Entry>) {
    forall x :: x in s ==> Before(e, x) && e.key != x.key
  }

  /** Strictly sorted, no key twice; OrderedMeaning says so by index. */
  ghost predicate Ordered(s: seq<Entry>) {
    s == [] || (Precedes(s[0], s[1..]) && Ordered(s[1..]))
  }

  function Insert(s: seq<Entry>, e: Entry): seq<Entry> {
    if s == [] then [e]
    else if Before(e, s[0]) then [e] + s
    else [s[0]] + Insert(s[1..], e)
  }

  function Without(s: seq<Entry>, key: string): seq<Entry> {
    if s == [] then []
    else if s[0].key == key then Without(s[1..], key)
    else [s[0]] + Without(s[1..], key)
  }

  function Keys(s: seq<Entry>): set<string> {
    set e | e in s :: e.key
  }

  lemma HeadAndTail(s: seq<Entry>)
    requires s != []
    ensures forall x :: x in s <==> x == s[0] || x in s[1..]
    ensures Keys(s) == Keys(s[1..]) + {s[0].key}
  {
    assert s == [s[0]] + s[1..];
    assert forall x :: x in s <==> x == s[0] || x in s[1..];
  }

  ghost predicate OrderedByIndex(s: seq<Entry>) {
    forall i, j :: 0 <= i < j < |s| ==> Before(s[i], s[j]) && s[i].key != s[j].key
  }

  lemma {:induction false} OrderedMeaning(s: seq<Entry>)
    ensures Ordered(s) <==> OrderedByIndex(s)
  {
    if s != [] {
      OrderedMeaning(s[1..]);
      TailByIndex(s);
    }
  }

  lemma TailByIndex(s: seq<Entry>)
    requires s != []
    ensures OrderedByIndex(s) <==> Precedes(s[0], s[1..]) && OrderedByIndex(s[1..])
  {
    var t := s[1..];
    if OrderedByIndex(s) {
      forall x | x in t ensures Before(s[0], x) && s[0].key != x.key {
        var i :| 0 <= i < |t| && t[i] == x;
        assert s[i + 1] == x;
      }
    }
    if Precedes(s[0], t) && OrderedByIndex(t) {
      forall i, j | 0 <= i < j < |s| ensures Before(s[i], s[j]) && s[i].key != s[j].key {
        assert s[j] == t[j - 1] && t[j - 1] in t;
        assert i > 0 ==> s[i] == t[i - 1];
      }
    }
  }

  /** Inserting adds exactly the new entry. */
  lemma {:induction false} InsertAddsEntry(s: seq<Entry>, e: Entry)
    ensures |Insert(s, e)| == |s| + 1
    ensures forall x :: x in Insert(s, e) <==> x == e || x in s
    ensures Keys(Insert(s, e)) == Keys(s) + {e.key}
  {
    if s != [] {
      HeadAndTail(s);
      InsertAddsEntry(s[1..], e);
    }
    assert forall x :: x in Insert(s, e) <==> x == e || x in s;
    assert e in Insert(s, e);
  }

  /** Insertion keeps the order, as long as the key and the tie-breaker are new. */
  lemma {:induction false} InsertKeepsOrder(s: seq<Entry>, e: Entry)
    requires Ordered(s)
    requires forall x :: x in s ==> x.sequence != e.sequence && x.key != e.key
    ensures Ordered(Insert(s, e))
  {
    if s != [] {
      HeadAndTail(s);
      if Before(e, s[0]) {
        assert ([e] + s)[1..] == s;
      } else {
        InsertKeepsOrder(s[1..], e);
        InsertAddsEntry(s[1..], e);
        assert ([s[0]] + Insert(s[1..], e))[1..] == Insert(s[1..], e);
      }
    }
  }

  lemma {:induction false} WithoutMembers(s: seq<Entry>, key: string, x: Entry)
    ensures x in Without(s, key) <==> x in s && x.key != key
  {
    if s != [] {
      HeadAndTail(s);
      WithoutMembers(s[1..], key, x);
    }
  }

  /** Removal takes out exactly the entries of the key. */
  lemma WithoutRemovesKey(s: seq<Entry>, key: string)
    ensures forall x :: x in Without(s, key) <==> x in s && x.key != key
    ensures Keys(Without(s, key)) == Keys(s) - {key}
  {
    forall x ensures x in Without(s, key) <==> x in s && x.key != key {
      WithoutMembers(s, key, x);
    }
  }

  lemma {:induction false} WithoutKeepsOrder(s: seq<Entry>, key: string)
    requires Ordered(s)
    ensures Ordered(Without(s, key))
  {
    if s != [] {
      WithoutKeepsOrder(s[1..], key);
      WithoutRemovesKey(s[1..], key);
      assert s[0].key != key ==> Without(s, key)[1..] == Without(s[1..], key);
    }
  }

  lemma {:induction false} WithoutAbsentKey(s: seq<Entry>, key: string)
    requires key !in Keys(s)
    ensures Without(s, key) == s
  {
    if s != [] {
      HeadAndTail(s);
      WithoutAbsentKey(s[1..], key);
    }
  }

  lemma WithoutHead(s: seq<Entry>)
    requires s != [] && Ordered(s)
    ensures Without(s, s[0].key) == s[1..]
  {
    WithoutAbsentKey(s[1..], s[0].key);
  }

  /** Removing an entry again after inserting it restores the queue. */
  lemma {:induction false} WithoutUndoesInsert(s: seq<Entry>, e: Entry)
    requires e.key !in Keys(s)
    ensures Without(Insert(s, e), e.key) == s
  {
    WithoutAbsentKey(s, e.key);
    if s != [] {
      HeadAndTail(s);
      if Before(e, s[0]) {
        assert ([e] + s)[1..] == s;
      } else {
        WithoutUndoesInsert(s[1..], e);
        assert Insert(s, e)[1..] == Insert(s[1..], e);
      }
    }
  }

  /** A queue is determined by its entries: the sorted order is the only one. */
  lemma {:induction false} OrderIsUnique(s: seq<Entry>, t: seq<Entry>)
    requires Ordered(s) && Ordered(t)
    requires forall x :: x in s <==> x in t
    ensures s == t
  {
    assert forall i :: 0 <= i < |s| ==> s[i] in t;
    assert forall i :: 0 <= i < |t| ==> t[i] in s;
    if s != [] {
      HeadAndTail(s);
      HeadAndTail(t);
      assert s[0] in t && t[0] in s;
      OrderIsUnique(s[1..], t[1..]);
    }
  }

  /** Inserting the least entry puts it at the head. */
  lemma InsertLeast(s: seq<Entry>, e: Entry)
    requires Precedes(e, s)
    ensures Insert(s, e) == [e] + s
  {
    assert s != [] ==> s[0] in s;
  }

  lemma {:induction false} SubsetSize(a: set<string>, b: set<string>)
    requires a <= b
    ensures |a| <= |b|
  {
    if a != {} {
      var x :| x in a;
      SubsetSize(a - {x}, b - {x});
    }
  }
}
