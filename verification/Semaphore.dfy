/** The repository queue: a waiting queue, a running set and a limit.

    `Queue` is the specification. It has no permit counter: there is room exactly
    when the limit is zero (unlimited) or fewer than `limit` runs are running.
    `PrioritySemaphore` is the code's form, with a heap and a counting semaphore;
    its methods are proved to compute the specification's functions. */
module Semaphores {
  import opened QueueOrder
  import opened PriorityQueues

  datatype Queue = Queue(limit: nat, pending: seq<Entry>, running: map<string, Entry>, sequence: int)

  function NewQueue(limit: nat): Queue {
    Queue(limit, [], map[], 0)
  }

  predicate HasRoom(q: Queue) {
    q.limit == 0 || |q.running| < q.limit
  }

  predicate IsPending(q: Queue, key: string) {
    key in Keys(q.pending)
  }

  function Add(q: Queue, key: string, now: int): Queue {
    if key in q.running || IsPending(q, key) then q
    else q.(pending := Insert(q.pending, Entry(key, now, q.sequence)), sequence := q.sequence + 1)
  }

  function NextPending(q: Queue): string {
    if q.pending == [] then "" else q.pending[0].key
  }

  predicate Grants(q: Queue) {
    q.pending != [] && HasRoom(q)
  }

  function AcquireLatest(q: Queue): (Queue, string) {
    if Grants(q) then
      var e := q.pending[0];
      (q.(pending := q.pending[1..], running := q.running[e.key := e]), e.key)
    else
      (q, "")
  }

  /** The head is taken m times, as far as there is room. */
  function TakeSome(q: Queue, m: nat): Queue
    decreases m
  {
    if m == 0 then q else TakeSome(AcquireLatest(q).0, m - 1)
  }

  function Requeue(q: Queue, key: string): Queue {
    if key in q.running then
      q.(running := q.running - {key}, pending := Insert(q.pending, q.running[key]))
    else q
  }

  function Release(q: Queue, key: string): Queue {
    q.(running := q.running - {key})
  }

  function Drop(q: Queue, key: string): Queue {
    q.(pending := Without(q.pending, key))
  }

  function Resize(q: Queue, limit: nat): Queue {
    q.(limit := limit)
  }

  ghost predicate Holds(q: Queue, e: Entry) {
    e in q.pending || (e.key in q.running && q.running[e.key] == e)
  }

  /** What every reachable queue satisfies: order, no key twice, unique tie-breakers. */
  ghost predicate WellFormed(q: Queue) {
    && Ordered(q.pending)
    && (forall k :: k in q.running ==> q.running[k].key == k)
    && (forall e :: e in q.pending ==> e.key !in q.running)
    && (forall e :: Holds(q, e) ==> e.sequence < q.sequence)
    && (forall a, b :: Holds(q, a) && Holds(q, b) && a.sequence == b.sequence ==> a == b)
  }

  // ---------- what each operation keeps ----------

  lemma AddKeepsWellFormed(q: Queue, key: string, now: int)
    requires WellFormed(q)
    ensures WellFormed(Add(q, key, now))
    ensures Keys(Add(q, key, now).pending) == Keys(q.pending) + (if key in q.running then {} else {key})
  {
    if key !in q.running && !IsPending(q, key) {
      var e := Entry(key, now, q.sequence);
      assert forall x :: x in q.pending ==> Holds(q, x) && x.key in Keys(q.pending);
      InsertAddsEntry(q.pending, e);
      InsertKeepsOrder(q.pending, e);
      var r := Add(q, key, now);
      assert forall x :: Holds(r, x) ==> x == e || Holds(q, x);
    }
  }

  lemma AcquireMovesHead(q: Queue)
    requires WellFormed(q)
    ensures forall x :: Holds(AcquireLatest(q).0, x) ==> Holds(q, x)
  {
    if Grants(q) {
      HeadAndTail(q.pending);
    }
  }

  lemma AcquireKeepsWellFormed(q: Queue)
    requires WellFormed(q)
    ensures WellFormed(AcquireLatest(q).0)
    ensures Grants(q) ==>
      var r := AcquireLatest(q).0;
      && Keys(r.pending) == Keys(q.pending) - {q.pending[0].key}
      && q.pending[0].key in Keys(q.pending) && q.pending[0].key !in q.running
      && r.running.Keys == q.running.Keys + {q.pending[0].key}
  {
    if Grants(q) {
      HeadAndTail(q.pending);
      assert Holds(q, q.pending[0]);
      AcquireMovesHead(q);
    }
  }

  lemma RequeueKeepsWellFormed(q: Queue, key: string)
    requires WellFormed(q)
    ensures WellFormed(Requeue(q, key))
    ensures Keys(Requeue(q, key).pending) == Keys(q.pending) + (if key in q.running then {key} else {})
  {
    if key in q.running {
      var e := q.running[key];
      assert Holds(q, e);
      assert forall x :: x in q.pending ==> Holds(q, x);
      InsertAddsEntry(q.pending, e);
      InsertKeepsOrder(q.pending, e);
      assert forall x :: Holds(Requeue(q, key), x) ==> Holds(q, x);
    }
  }

  lemma RemovalsKeepWellFormed(q: Queue, key: string)
    requires WellFormed(q)
    ensures WellFormed(Release(q, key)) && WellFormed(Drop(q, key))
    ensures Keys(Drop(q, key).pending) == Keys(q.pending) - {key}
  {
    WithoutKeepsOrder(q.pending, key);
    WithoutRemovesKey(q.pending, key);
    assert forall x :: Holds(Release(q, key), x) ==> Holds(q, x);
    assert forall x :: Holds(Drop(q, key), x) ==> Holds(q, x);
  }

  lemma ResizeKeepsWellFormed(q: Queue, limit: nat)
    requires WellFormed(q)
    ensures WellFormed(Resize(q, limit))
  {
    assert forall x :: Holds(Resize(q, limit), x) ==> Holds(q, x);
  }

  // ---------- runs ----------

  datatype Step =
    | Adding(key: string, now: int)
    | Acquiring
    | Requeueing(key: string)
    | Releasing(key: string)
    | Dropping(key: string)
    | Resizing(limit: nat)

  function Apply(q: Queue, step: Step): Queue {
    match step
    case Adding(key, now) => Add(q, key, now)
    case Acquiring => AcquireLatest(q).0
    case Requeueing(key) => Requeue(q, key)
    case Releasing(key) => Release(q, key)
    case Dropping(key) => Drop(q, key)
    case Resizing(limit) => Resize(q, limit)
  }

  function Run(q: Queue, steps: seq<Step>): Queue
    decreases |steps|
  {
    if steps == [] then q else Run(Apply(q, steps[0]), steps[1..])
  }

  lemma ApplyKeepsWellFormed(q: Queue, step: Step)
    requires WellFormed(q)
    ensures WellFormed(Apply(q, step))
  {
    match step
    case Adding(key, now) => AddKeepsWellFormed(q, key, now);
    case Acquiring => AcquireKeepsWellFormed(q);
    case Requeueing(key) => RequeueKeepsWellFormed(q, key);
    case Releasing(key) => RemovalsKeepWellFormed(q, key);
    case Dropping(key) => RemovalsKeepWellFormed(q, key);
    case Resizing(limit) => ResizeKeepsWellFormed(q, limit);
  }

  lemma {:induction false} RunKeepsWellFormed(q: Queue, steps: seq<Step>)
    requires WellFormed(q)
    ensures WellFormed(Run(q, steps))
    decreases |steps|
  {
    if steps != [] {
      ApplyKeepsWellFormed(q, steps[0]);
      RunKeepsWellFormed(Apply(q, steps[0]), steps[1..]);
    }
  }

  /** The states of a queue: what some history of operations leads to. */
  ghost predicate Reachable(q: Queue) {
    exists limit: nat, steps: seq<Step> :: q == Run(NewQueue(limit), steps)
  }

  lemma NewQueueIsReachable(limit: nat)
    ensures Reachable(NewQueue(limit))
  {
    assert NewQueue(limit) == Run(NewQueue(limit), []);
  }

  lemma {:induction false} RunThenApply(q: Queue, steps: seq<Step>, step: Step)
    ensures Run(q, steps + [step]) == Apply(Run(q, steps), step)
    decreases |steps|
  {
    if steps == [] {
      assert Run(Apply(q, step), []) == Apply(q, step);
    } else {
      assert (steps + [step])[1..] == steps[1..] + [step];
      RunThenApply(Apply(q, steps[0]), steps[1..], step);
    }
  }

  lemma ReachableStep(q: Queue, step: Step)
    requires Reachable(q)
    ensures Reachable(Apply(q, step))
  {
    var limit: nat, steps :| q == Run(NewQueue(limit), steps);
    RunThenApply(NewQueue(limit), steps, step);
  }

  lemma ReachableIsWellFormed(q: Queue)
    requires Reachable(q)
    ensures WellFormed(q)
  {
    var limit: nat, steps :| q == Run(NewQueue(limit), steps);
    RunKeepsWellFormed(NewQueue(limit), steps);
  }

  /** While the running set is at or above a positive limit nothing is granted and,
      until the limit changes, the running set only shrinks. */
  lemma ExcessOnlyDrains(q: Queue, step: Step)
    requires 0 < q.limit <= |q.running| && !step.Resizing?
    ensures AcquireLatest(q) == (q, "")
    ensures Apply(q, step).running.Keys <= q.running.Keys
  {
  }

  lemma StepIsBounded(q: Queue, step: Step)
    requires 0 < q.limit && !step.Resizing?
    ensures Apply(q, step).limit == q.limit
    ensures |Apply(q, step).running| <= if |q.running| <= q.limit then q.limit else |q.running|
  {
    if step.Requeueing? || step.Releasing? {
      ShrinkingKeys(q.running, step.key);
    }
  }

  /** With a limit that stays n > 0, no run of the queue takes the running set above
      n, or above where it started. */
  lemma {:induction false} RunningIsBounded(q: Queue, steps: seq<Step>)
    requires 0 < q.limit && forall i :: 0 <= i < |steps| ==> !steps[i].Resizing?
    ensures Run(q, steps).limit == q.limit
    ensures |Run(q, steps).running| <= if |q.running| <= q.limit then q.limit else |q.running|
    decreases |steps|
  {
    if steps != [] {
      StepIsBounded(q, steps[0]);
      assert forall i :: 0 <= i < |steps| - 1 ==> steps[1..][i] == steps[i + 1];
      RunningIsBounded(Apply(q, steps[0]), steps[1..]);
    }
  }

  lemma ShrinkingKeys<T>(m: map<string, T>, key: string)
    ensures |m - {key}| == if key in m then |m| - 1 else |m|
  {
    var r := m - {key};
    if key in m {
      assert r.Keys == m.Keys - {key};
    } else {
      assert r == m;
    }
  }

  /** A granted key stays running, and so is not granted again, until it is released
      or requeued, whatever else happens in between. */
  lemma {:induction false} GrantedStaysRunning(q: Queue, steps: seq<Step>, key: string)
    requires WellFormed(q) && key in q.running && key != ""
    requires forall i :: 0 <= i < |steps| ==> steps[i] != Releasing(key) && steps[i] != Requeueing(key)
    ensures key in Run(q, steps).running
    ensures AcquireLatest(Run(q, steps)).1 != key
    decreases |steps|
  {
    if steps == [] {
      if Grants(q) { assert q.pending[0] in q.pending; }
    } else {
      ApplyKeepsWellFormed(q, steps[0]);
      assert steps[0] != Releasing(key) && steps[0] != Requeueing(key);
      assert forall i :: 0 <= i < |steps| - 1 ==> steps[1..][i] == steps[i + 1];
      GrantedStaysRunning(Apply(q, steps[0]), steps[1..], key);
    }
  }

  /** Giving a grant back restores the queue exactly, tie-breaker included. */
  lemma RequeueUndoesAcquire(q: Queue)
    requires WellFormed(q) && Grants(q)
    ensures Requeue(AcquireLatest(q).0, AcquireLatest(q).1) == q
  {
    var head := q.pending[0];
    assert head in q.pending;
    assert [head] + q.pending[1..] == q.pending;
    InsertLeast(q.pending[1..], head);
    assert q.running[head.key := head] - {head.key} == q.running;
  }

  /** No overtaking: the granted entry comes before everything still waiting. */
  lemma GrantIsLeast(q: Queue, e: Entry)
    requires WellFormed(q) && Grants(q) && e in AcquireLatest(q).0.pending
    ensures Before(q.pending[0], e) && AcquireLatest(q).1 == q.pending[0].key
  {
  }

  /** Entries were added in the order of the clock, none later than `now`. */
  ghost predicate ClockOrdered(q: Queue, now: int) {
    && (forall e :: Holds(q, e) ==> e.priority <= now)
    && (forall a, b :: Holds(q, a) && Holds(q, b) && a.sequence < b.sequence ==> a.priority <= b.priority)
  }

  ghost predicate ClockAdvances(steps: seq<Step>, now: int) {
    && (forall i :: 0 <= i < |steps| && steps[i].Adding? ==> now <= steps[i].now)
    && (forall i, j :: 0 <= i < j < |steps| && steps[i].Adding? && steps[j].Adding? ==> steps[i].now <= steps[j].now)
  }

  lemma ApplyKeepsClockOrder(q: Queue, step: Step, now: int)
    requires WellFormed(q) && ClockOrdered(q, now) && (step.Adding? ==> now <= step.now)
    ensures ClockOrdered(Apply(q, step), if step.Adding? then step.now else now)
  {
    var r := Apply(q, step);
    match step
    case Adding(key, t) =>
      InsertAddsEntry(q.pending, Entry(key, t, q.sequence));
      assert forall x :: Holds(r, x) ==> x == Entry(key, t, q.sequence) || Holds(q, x);
    case Requeueing(key) =>
      if key in q.running { InsertAddsEntry(q.pending, q.running[key]); }
      assert forall x :: Holds(r, x) ==> Holds(q, x);
    case Dropping(key) =>
      WithoutRemovesKey(q.pending, key);
      assert forall x :: Holds(r, x) ==> Holds(q, x);
    case Acquiring =>
      AcquireMovesHead(q);
    case _ =>
      assert forall x :: Holds(r, x) ==> Holds(q, x);
  }

  /** With a non-decreasing clock the queue is first come, first served: over every
      run, requeues and resizes included, whatever is granted was inserted before
      everything that still waits. */
  lemma {:induction false} FirstComeFirstServed(q: Queue, steps: seq<Step>, now: int, e: Entry)
    requires WellFormed(q) && ClockOrdered(q, now) && ClockAdvances(steps, now)
    requires Grants(Run(q, steps)) && e in AcquireLatest(Run(q, steps)).0.pending
    ensures Run(q, steps).pending[0].sequence < e.sequence
    decreases |steps|
  {
    if steps == [] {
      GrantIsLeast(q, e);
      assert q.pending[0] in q.pending && e in q.pending;
      assert Holds(q, q.pending[0]) && Holds(q, e);
    } else {
      ApplyKeepsWellFormed(q, steps[0]);
      ApplyKeepsClockOrder(q, steps[0], now);
      assert forall i :: 0 <= i < |steps| - 1 ==> steps[1..][i] == steps[i + 1];
      FirstComeFirstServed(Apply(q, steps[0]), steps[1..], if steps[0].Adding? then steps[0].now else now, e);
    }
  }

  // ---------- the code's form ----------

  /** golang.org/x/sync/semaphore.Weighted without its waiter queue. */
  datatype Weighted = Weighted(size: int, cur: int) {
    predicate CanAcquire(n: int) {
      size - cur >= n
    }

    function Acquire(n: int): Weighted
      requires CanAcquire(n)
    {
      Weighted(size, cur + n)
    }

    /** The library panics when more is released than is held. */
    function Release(n: int): Weighted
      requires n <= cur
    {
      Weighted(size, cur - n)
    }
  }

  ghost predicate MatchesRunning(running: map<string, Item>, entries: map<string, Entry>) {
    running.Keys == entries.Keys && forall k :: k in running ==> running[k].AsEntry() == entries[k]
  }

  lemma RemoveRunning(running: map<string, Item>, entries: map<string, Entry>, key: string)
    requires MatchesRunning(running, entries)
    ensures MatchesRunning(running - {key}, entries - {key})
    ensures |running - {key}| == if key in running then |running| - 1 else |running|
    ensures key !in running ==> running - {key} == running && entries - {key} == entries
  {
    ShrinkingKeys(running, key);
    var r, e := running - {key}, entries - {key};
    assert r.Keys == running.Keys - {key} && e.Keys == entries.Keys - {key};
  }

  lemma AddRunning(running: map<string, Item>, entries: map<string, Entry>, key: string, item: Item)
    requires MatchesRunning(running, entries) && key !in running
    ensures MatchesRunning(running[key := item], entries[key := item.AsEntry()])
    ensures |running[key := item]| == |running| + 1
  {
    assert running[key := item].Keys == running.Keys + {key};
    assert entries[key := item.AsEntry()].Keys == entries.Keys + {key};
  }

  lemma NoNewMember(items: set<Item>, x: Item)
    requires x in items
    ensures items + {x} == items
  {
  }

  class PrioritySemaphore {
    var limit: nat
    const pending: PriorityQueue
    var running: map<string, Item>
    var permits: Weighted
    ghost var State: Queue

    ghost predicate ShowsWaiting(contents: seq<Entry>, sequence: int)
      reads pending, pending.Repr
    {
      pending.Valid() && pending.Contents == contents && pending.sequence == sequence
    }

    ghost predicate ShowsRunning(entries: map<string, Entry>, repr: set<Item>)
      reads this`running
    {
      MatchesRunning(running, entries) && forall k :: k in running ==> running[k] in repr
    }

    /** The fields are those of s. */
    ghost predicate Shows(s: Queue)
      reads this`limit, this`running, pending, pending.Repr
    {
      s.limit == limit && ShowsWaiting(s.pending, s.sequence) && ShowsRunning(s.running, pending.Repr)
    }

    /** Used permits are min(|running|, limit), whatever the history of resizes. */
    ghost predicate Counts()
      reads this`limit, this`running, this`permits
    {
      permits == Weighted(limit, if |running| < limit then |running| else limit)
    }

    ghost predicate Valid()
      reads this, pending, pending.Repr
    {
      Shows(State) && Counts() && Reachable(State)
    }

    constructor (limit: nat)
      ensures Valid() && State == NewQueue(limit) && fresh(pending) && fresh(pending.Repr)
    {
      this.limit := limit;
      this.pending := new PriorityQueue();
      this.running := map[];
      this.permits := Weighted(limit, 0);
      this.State := NewQueue(limit);
      new;
      NewQueueIsReachable(limit);
    }

    lemma Lengths()
      requires Shows(State)
      ensures pending.items == [] <==> State.pending == []
      ensures pending.itemByKey.Keys == Keys(State.pending)
      ensures |running| == |State.running|
    {
      pending.Lengths();
      assert |running| == |running.Keys| && |State.running| == |State.running.Keys|;
    }

    /** Permit accounting, in every state that any history leads to: used permits are
        min(|running|, limit), so that a permit is free exactly when the specification
        has room; and no key both runs and waits. */
    lemma PermitsAgree()
      requires Valid()
      ensures permits.size == State.limit
      ensures permits.cur == if |State.running| < State.limit then |State.running| else State.limit
      ensures State.limit > 0 ==> (permits.CanAcquire(1) <==> HasRoom(State))
      ensures State.running.Keys !! Keys(State.pending)
    {
      Lengths();
      ReachableIsWellFormed(State);
    }

    lemma HeadNotRunning()
      requires Valid() && State.pending != []
      ensures State.pending[0].key !in running
    {
      ReachableIsWellFormed(State);
      assert State.pending[0] in State.pending;
    }

    /** What Restore needs of an item. */
    ghost predicate CanTakeBack(x: Item)
      reads pending`itemByKey, pending`Contents, pending`sequence, pending`Repr
    {
      && x in pending.Repr && x.key !in pending.itemByKey && x.sequence < pending.sequence
      && forall e :: e in pending.Contents ==> e.sequence != x.sequence
    }

    lemma RunningIsRestorable(key: string)
      requires Valid() && key in running
      ensures running[key].key == key && State.running[key] == running[key].AsEntry() && CanTakeBack(running[key])
    {
      pending.Lengths();
      ReachableIsWellFormed(State);
      assert Holds(State, State.running[key]);
      assert forall e :: e in pending.Contents ==> Holds(State, e);
      assert forall e :: e in pending.Contents ==> e.key != key;
    }

    /** The waiting keys, in the order of the heap's slice. */
    method CurrentPending() returns (keys: seq<string>)
      requires Valid()
      ensures forall k :: k in keys <==> IsPending(State, k)
      ensures forall i, j :: 0 <= i < j < |keys| ==> keys[i] != keys[j]
    {
      Lengths();
      keys := [];
      var i := 0;
      while i < |pending.items|
        invariant 0 <= i <= |pending.items| && |keys| == i
        invariant forall j :: 0 <= j < i ==> keys[j] == pending.items[j].key
      {
        keys := keys + [pending.items[i].key];
        i := i + 1;
      }
      KeysOfItems(keys);
    }

    lemma KeysOfItems(keys: seq<string>)
      requires pending.Indexed()
      requires |keys| == |pending.items| && forall j :: 0 <= j < |keys| ==> keys[j] == pending.items[j].key
      ensures forall k :: k in keys <==> k in pending.itemByKey
      ensures forall i, j :: 0 <= i < j < |keys| ==> keys[i] != keys[j]
    {
      forall k | k in pending.itemByKey ensures k in keys {
        var x := pending.itemByKey[k];
        assert keys[x.index] == k;
      }
      forall i, j | 0 <= i < j < |keys| ensures keys[i] != keys[j] {
        assert pending.itemByKey[keys[i]].index == i && pending.itemByKey[keys[j]].index == j;
      }
    }

    /** The running keys, in no particular order. */
    method CurrentRunning() returns (keys: seq<string>)
      requires Valid()
      ensures forall k :: k in keys <==> k in State.running
      ensures forall i, j :: 0 <= i < j < |keys| ==> keys[i] != keys[j]
    {
      keys := [];
      var rest := running.Keys;
      while rest != {}
        invariant rest <= running.Keys
        invariant forall k :: k in keys <==> k in running.Keys && k !in rest
        invariant forall i, j :: 0 <= i < j < |keys| ==> keys[i] != keys[j]
        decreases |rest|
      {
        var k :| k in rest;
        assert k !in keys;
        keys := keys + [k];
        rest := rest - {k};
      }
    }

    method NextPendingKey() returns (key: string)
      requires Valid()
      ensures key == NextPending(State)
    {
      Lengths();
      if |pending.items| == 0 {
        return "";
      }
      var head := pending.Peek();
      key := head.key;
    }

    /** The specification follows the fields. */
    ghost method SetState(s: Queue)
      requires Shows(s) && Counts() && Reachable(s)
      modifies this`State
      ensures Valid() && State == s
    {
      State := s;
    }

    method AddPending(key: string, now: int, ghost s: Queue)
      requires Shows(s) && key !in s.running && key !in pending.itemByKey
      modifies pending, pending.Repr
      ensures Shows(Add(s, key, now)) && fresh(pending.Repr - old(pending.Repr))
    {
      pending.Lengths();
      pending.Add(key, now);
    }

    method AddToQueue(key: string, now: int) returns (added: bool)
      requires Valid()
      modifies this, pending, pending.Repr
      ensures Valid() && fresh(pending.Repr - old(pending.Repr))
      ensures State == Add(old(State), key, now)
      ensures added <==> key !in old(State).running && !IsPending(old(State), key)
    {
      Lengths();
      if key in running {
        return false;
      }
      if pending.IsPending(key) {
        return false;
      }
      assert Reachable(Add(State, key, now)) by { ReachableStep(State, Adding(key, now)); }
      AddPending(key, now, State);
      SetState(Add(State, key, now));
      added := true;
    }

    method DropPending(key: string, ghost s: Queue)
      requires Shows(s)
      modifies pending, pending.Repr
      ensures Shows(Drop(s, key)) && pending.Repr == old(pending.Repr)
    {
      pending.Remove(key);
    }

    method RemoveFromQueue(key: string)
      requires Valid()
      modifies this, pending, pending.Repr
      ensures Valid() && pending.Repr == old(pending.Repr)
      ensures State == Drop(old(State), key)
    {
      assert Reachable(Drop(State, key)) by { ReachableStep(State, Dropping(key)); }
      DropPending(key, State);
      SetState(Drop(State, key));
    }

    method MoveHead(ghost s: Queue) returns (item: Item)
      requires Shows(s) && Grants(s) && pending.items != [] && s.pending[0].key !in running
      modifies this`running, pending, pending.Repr
      ensures Shows(AcquireLatest(s).0) && pending.Repr == old(pending.Repr)
      ensures item.key == AcquireLatest(s).1 && |running| == |old(running)| + 1
    {
      item := pending.PopLeast();
      AddRunning(running, s.running, item.key, item);
      running := running[item.key := item];
    }

    /** The head is taken, and with a limit a permit. */
    method TakeHead(ghost s: Queue) returns (item: Item)
      requires Shows(s) && Counts() && Grants(s) && pending.items != [] && s.pending[0].key !in running
      modifies this`running, this`permits, pending, pending.Repr
      ensures Shows(AcquireLatest(s).0) && Counts() && pending.Repr == old(pending.Repr)
      ensures item.key == AcquireLatest(s).1
    {
      if limit != 0 {
        permits := permits.Acquire(1);
      }
      item := MoveHead(s);
    }

    method AcquireNext() returns (key: string)
      requires Valid()
      modifies this, pending, pending.Repr
      ensures Valid() && pending.Repr == old(pending.Repr)
      ensures (State, key) == AcquireLatest(old(State))
    {
      PermitsAgree();
      assert Reachable(AcquireLatest(State).0) by { ReachableStep(State, Acquiring); }
      key := "";
      if |pending.items| > 0 {
        var ready := pending.Peek();
        if limit == 0 || permits.CanAcquire(1) {
          HeadNotRunning();
          var item := TakeHead(State);
          key := ready.key;
          SetState(AcquireLatest(State).0);
        }
      }
    }

    method MoveOut(key: string, ghost entries: map<string, Entry>, ghost repr: set<Item>)
      requires ShowsRunning(entries, repr) && key in running
      modifies this`running
      ensures ShowsRunning(entries - {key}, repr) && |running| == |old(running)| - 1
    {
      RemoveRunning(running, entries, key);
      running := running - {key};
    }

    /** One key less is running. */
    method ReturnPermit()
      requires permits == Weighted(limit, if |running| + 1 < limit then |running| + 1 else limit)
      modifies this`permits
      ensures Counts()
    {
      if |running| >= limit {
        return;
      }
      permits := permits.Release(1);
    }

    method TakeOut(key: string, ghost entries: map<string, Entry>, ghost repr: set<Item>)
      requires ShowsRunning(entries, repr) && Counts() && key in running
      modifies this`running, this`permits
      ensures ShowsRunning(entries - {key}, repr) && Counts()
    {
      MoveOut(key, entries, repr);
      ReturnPermit();
    }

    method PushBack(entry: Item)
      requires ShowsWaiting(pending.Contents, pending.sequence) && CanTakeBack(entry)
      modifies pending, pending.Repr
      ensures ShowsWaiting(Insert(old(pending.Contents), entry.AsEntry()), old(pending.sequence))
      ensures pending.Repr == old(pending.Repr)
    {
      NoNewMember(pending.Repr, entry);
      pending.Restore(entry);
    }

    method MoveBack(key: string, ghost entries: map<string, Entry>, ghost repr: set<Item>)
      requires ShowsRunning(entries, repr) && Counts() && key in running
      requires ShowsWaiting(pending.Contents, pending.sequence) && CanTakeBack(running[key])
      modifies this`running, this`permits, pending, pending.Repr
      ensures ShowsRunning(entries - {key}, repr) && Counts() && pending.Repr == old(pending.Repr)
      ensures ShowsWaiting(Insert(old(pending.Contents), old(running[key].AsEntry())), old(pending.sequence))
    {
      var entry := running[key];
      TakeOut(key, entries, repr);
      PushBack(entry);
    }

    method RequeueKey(key: string) returns (ok: bool)
      requires Valid()
      modifies this, pending, pending.Repr
      ensures Valid() && pending.Repr == old(pending.Repr)
      ensures State == Requeue(old(State), key)
      ensures ok <==> key in old(State).running
    {
      ok := key in running;
      if ok {
        RunningIsRestorable(key);
        assert Reachable(Requeue(State, key)) by { ReachableStep(State, Requeueing(key)); }
        MoveBack(key, State.running, pending.Repr);
        SetState(Requeue(State, key));
      }
    }

    method ReleaseKey(key: string)
      requires Valid()
      modifies this
      ensures Valid() && pending.Repr == old(pending.Repr)
      ensures State == Release(old(State), key)
    {
      if key !in running {
        RemoveRunning(running, State.running, key);
        return;
      }
      assert Reachable(Release(State, key)) by { ReachableStep(State, Releasing(key)); }
      TakeOut(key, State.running, pending.Repr);
      SetState(Release(State, key));
    }

    /** The new semaphore has all its permits free, so that the used ones are taken again. */
    method ResizeCounted(n: nat) returns (ok: bool)
      modifies this`limit, this`permits
      ensures ok && limit == n && Counts()
    {
      var cur := |running|;
      if cur > n {
        cur := n;
      }
      var resized := Weighted(n, 0);
      ok := resized.CanAcquire(cur);
      if ok {
        permits := resized.Acquire(cur);
        limit := n;
      }
    }

    method ResizeTo(n: nat) returns (ok: bool)
      requires Valid()
      modifies this
      ensures Valid() && pending.Repr == old(pending.Repr)
      ensures ok && State == Resize(old(State), n)
    {
      assert Reachable(Resize(State, n)) by { ReachableStep(State, Resizing(n)); }
      ok := ResizeCounted(n);
      SetState(Resize(State, n));
    }
  }
}
