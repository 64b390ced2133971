/** Rebuilding a repository's queue when the controller starts: the started runs are put
    back into the running set, then the queued ones wait behind them. */
module Recovery {
  import opened Wrappers
  import opened QueueOrder
  import opened Semaphores
  import opened Admissions
  import opened AdmissionInvariant
  import opened AdmissionSteps
  import opened AdmissionRuns
  import opened AdmissionProperties
  import opened AdmissionEffects

  /** One execution order, filtered by state, with the clock readings of its additions. */
  datatype Listing = Listing(keys: seq<string>, clock: seq<int>)

  ghost predicate ListingsOk(listings: seq<Listing>) {
    forall b :: b in listings ==> "" !in b.keys && |b.keys| <= |b.clock|
  }

  function AddStarted<Id>(s: Repo<Id>, n: nat, listings: seq<Listing>): Repo<Id>
    requires ListingsOk(listings)
    decreases |listings|
  {
    if listings == [] then s
    else
      assert listings[0] in listings && forall b :: b in listings[1..] ==> b in listings;
      AddStarted(AddListToRunningQueue(s, n, listings[0].keys, listings[0].clock).0, n, listings[1..])
  }

  function AddQueued<Id>(s: Repo<Id>, n: nat, listings: seq<Listing>): Repo<Id>
    requires ListingsOk(listings)
    decreases |listings|
  {
    if listings == [] then s
    else
      assert listings[0] in listings && forall b :: b in listings[1..] ==> b in listings;
      AddQueued(AddToPendingQueue(s, n, listings[0].keys, listings[0].clock), n, listings[1..])
  }

  /** No old ownership survives a reconstruction. */
  function Rebuild<Id>(s: Repo<Id>, n: nat, started: seq<Listing>, queued: seq<Listing>): Repo<Id>
    requires ListingsOk(started) && ListingsOk(queued)
  {
    AddQueued(AddStarted(RemoveRepository(s), n, started), n, queued)
  }

  // ---------- what the queue holds afterwards ----------

  ghost function Members(listings: seq<Listing>): set<string>
    decreases |listings|
  {
    if listings == [] then {} else (set k | k in listings[0].keys) + Members(listings[1..])
  }

  ghost function KeysOf(q: Queue): set<string> {
    q.running.Keys + Keys(q.pending)
  }

  predicate AtLimit(q: Queue, n: nat) {
    q.limit == n && |q.running| <= n
  }

  /** Nothing waits while there is room, and nothing is claimed. */
  ghost predicate Packed<Id>(s: Repo<Id>, n: nat, keys: set<string>) {
    && Consistent(s) && s.claims == map[] && s.queue.Some? && AtLimit(s.queue.value, n)
    && KeysOf(s.queue.value) == keys && !Grants(s.queue.value)
  }

  /** Without claims, taking is acquiring. */
  lemma {:induction false} UnclaimedTake<Id>(s: Repo<Id>, m: nat)
    requires s.claims == map[] && s.queue.Some?
    ensures TakeUnowned(s, m).0 == s.(queue := Some(TakeSome(s.queue.value, m)))
    decreases m
  {
    if m > 0 {
      UnclaimedTake(s.(queue := Some(AcquireLatest(s.queue.value).0)), m - 1);
    }
  }

  /** What one grant needs of a queue. */
  ghost predicate Apart(q: Queue) {
    Ordered(q.pending) && Keys(q.pending) !! q.running.Keys
  }

  lemma WellFormedIsApart(q: Queue)
    requires WellFormed(q)
    ensures Apart(q)
  {
  }

  /** One grant moves a key from waiting to running. */
  lemma OneTake(q: Queue)
    requires Apart(q) && Grants(q)
    ensures var r := AcquireLatest(q).0;
      Apart(r) && KeysOf(r) == KeysOf(q) && r.limit == q.limit && |r.running| == |q.running| + 1
  {
    var head := q.pending[0];
    HeadAndTail(q.pending);
    assert forall e :: e in q.pending[1..] ==> e.key != head.key;
    assert Keys(q.pending[1..]) == Keys(q.pending) - {head.key};
    assert head.key !in q.running;
  }

  lemma {:induction false} TakeNone(q: Queue, m: nat)
    requires !Grants(q)
    ensures TakeSome(q, m) == q
  {
    if m > 0 {
      TakeNone(q, m - 1);
    }
  }

  lemma {:induction false} TakeUntilFull(q: Queue, m: nat, n: nat)
    requires Apart(q) && AtLimit(q, n) && n > 0 && m + |q.running| >= n
    ensures AtLimit(TakeSome(q, m), n) && !Grants(TakeSome(q, m))
    decreases m
  {
    if Grants(q) {
      OneTake(q);
      TakeUntilFull(AcquireLatest(q).0, m - 1, n);
    } else {
      TakeNone(q, m);
    }
  }

  ghost predicate HoldsKeys(q: Queue, keys: set<string>) {
    KeysOf(q) == keys
  }

  lemma OneTakeKeys(q: Queue, keys: set<string>)
    requires Apart(q) && HoldsKeys(q, keys)
    ensures Apart(AcquireLatest(q).0) && HoldsKeys(AcquireLatest(q).0, keys)
  {
    if Grants(q) {
      OneTake(q);
    }
  }

  lemma {:induction false} TakingKeepsKeys(q: Queue, m: nat, keys: set<string>)
    requires Apart(q) && HoldsKeys(q, keys)
    ensures HoldsKeys(TakeSome(q, m), keys)
    decreases m
  {
    if m > 0 {
      OneTakeKeys(q, keys);
      TakingKeepsKeys(AcquireLatest(q).0, m - 1, keys);
    }
  }

  lemma AddedKeys(q: Queue, list: seq<string>, clock: seq<int>)
    requires WellFormed(q) && !InQueue(q, "") && "" !in list && |list| <= |clock|
    ensures KeysOf(AddList(q, list, clock)) == KeysOf(q) + (set k | k in list)
  {
    AddListEffect(q, list, clock);
    var q' := AddList(q, list, clock);
    forall k ensures k in KeysOf(q') <==> k in KeysOf(q) || k in list {
      assert InQueue(q', k) <==> InQueue(q, k) || k in list;
    }
  }

  /** Nothing was put in yet, or the queue is packed. */
  ghost predicate Filling<Id>(s: Repo<Id>, n: nat, keys: set<string>) {
    || (s.queue.None? && Consistent(s) && s.claims == map[] && keys == {})
    || Packed(s, n, keys)
  }

  lemma PendingStep<Id>(s: Repo<Id>, n: nat, b: Listing, keys: set<string>)
    requires Filling(s, n, keys) && "" !in b.keys && |b.keys| <= |b.clock|
    ensures var t := AddToPendingQueue(s, n, b.keys, b.clock);
      && Consistent(t) && t.claims == map[] && t.queue.Some? && AtLimit(t.queue.value, n)
      && KeysOf(t.queue.value) == keys + (set k | k in b.keys)
  {
    OpenQueueKeeps(s, n);
    var q := OpenQueue(s, n).queue.value;
    AddToPendingKeeps(s, n, b.keys, b.clock);
    AddListEffect(q, b.keys, b.clock);
    AddedKeys(q, b.keys, b.clock);
    assert KeysOf(q) == keys;
  }

  lemma StartedStep<Id>(s: Repo<Id>, n: nat, b: Listing, keys: set<string>)
    requires Filling(s, n, keys) && n > 0 && "" !in b.keys && |b.keys| <= |b.clock|
    ensures Packed(AddListToRunningQueue(s, n, b.keys, b.clock).0, n, keys + (set k | k in b.keys))
  {
    PendingStep(s, n, b, keys);
    var t := AddToPendingQueue(s, n, b.keys, b.clock);
    UnclaimedTake(t, n);
    WellFormedIsApart(t.queue.value);
    TakeUntilFull(t.queue.value, n, n);
    TakingKeepsKeys(t.queue.value, n, KeysOf(t.queue.value));
    TakeUnownedKeeps(t, n);
  }

  lemma MembersStep(listings: seq<Listing>, keys: set<string>)
    requires listings != []
    ensures keys + (set k | k in listings[0].keys) + Members(listings[1..]) == keys + Members(listings)
  {
  }

  lemma {:induction false} StartedArePacked<Id>(s: Repo<Id>, n: nat, listings: seq<Listing>, keys: set<string>)
    requires Filling(s, n, keys) && n > 0 && ListingsOk(listings)
    ensures Filling(AddStarted(s, n, listings), n, keys + Members(listings))
    decreases |listings|
  {
    if listings == [] {
      assert keys + Members(listings) == keys;
    } else {
      assert listings[0] in listings && forall b :: b in listings[1..] ==> b in listings;
      StartedStep(s, n, listings[0], keys);
      MembersStep(listings, keys);
      StartedArePacked(AddListToRunningQueue(s, n, listings[0].keys, listings[0].clock).0, n, listings[1..],
                       keys + (set k | k in listings[0].keys));
    }
  }

  /** The queued runs only wait: the running set stays as it is. */
  ghost predicate Waiting<Id>(s: Repo<Id>, running: set<string>, keys: set<string>) {
    && Consistent(s) && s.claims == map[]
    && (s.queue.None? ==> running == {} && keys == {})
    && (s.queue.Some? ==> s.queue.value.running.Keys == running && KeysOf(s.queue.value) == keys)
  }

  lemma QueuedStep<Id>(s: Repo<Id>, n: nat, b: Listing, running: set<string>, keys: set<string>)
    requires Waiting(s, running, keys) && "" !in b.keys && |b.keys| <= |b.clock|
    ensures Waiting(AddToPendingQueue(s, n, b.keys, b.clock), running, keys + (set k | k in b.keys))
  {
    OpenQueueKeeps(s, n);
    AddToPendingKeeps(s, n, b.keys, b.clock);
    AddedKeys(OpenQueue(s, n).queue.value, b.keys, b.clock);
  }

  lemma {:induction false} QueuedOnlyWait<Id>(
    s: Repo<Id>, n: nat, listings: seq<Listing>, running: set<string>, keys: set<string>)
    requires Waiting(s, running, keys) && ListingsOk(listings)
    ensures Waiting(AddQueued(s, n, listings), running, keys + Members(listings))
    decreases |listings|
  {
    if listings == [] {
      assert keys + Members(listings) == keys;
    } else {
      assert listings[0] in listings && forall b :: b in listings[1..] ==> b in listings;
      QueuedStep(s, n, listings[0], running, keys);
      MembersStep(listings, keys);
      QueuedOnlyWait(AddToPendingQueue(s, n, listings[0].keys, listings[0].clock), n, listings[1..], running,
                     keys + (set k | k in listings[0].keys));
    }
  }

  // ---------- the started runs stay in front ----------

  ghost predicate EnteredBy(q: Queue, now: int) {
    forall e :: Holds(q, e) ==> e.priority <= now
  }

  /** The keys of `first` were queued by `now`, and precede all others. */
  ghost predicate Ahead(q: Queue, first: set<string>, now: int) {
    && first <= KeysOf(q)
    && (forall e :: Holds(q, e) && e.key in first ==> e.priority <= now)
    && (forall e, f :: Holds(q, e) && Holds(q, f) && e.key in first && f.key !in first ==> Before(e, f))
  }

  ghost predicate ReadBy(listings: seq<Listing>, now: int) {
    forall b, t :: b in listings && t in b.clock ==> t <= now
  }

  ghost predicate ReadFrom(listings: seq<Listing>, now: int) {
    forall b, t :: b in listings && t in b.clock ==> now <= t
  }

  lemma {:induction false} AddListBy(q: Queue, list: seq<string>, clock: seq<int>, now: int)
    requires |list| <= |clock| && EnteredBy(q, now) && forall t :: t in clock ==> t <= now
    ensures EnteredBy(AddList(q, list, clock), now)
    decreases |list|
  {
    if list != [] {
      var e := Entry(list[0], clock[0], q.sequence);
      InsertAddsEntry(q.pending, e);
      assert clock[0] in clock && forall t :: t in clock[1..] ==> t in clock;
      AddListBy(Add(q, list[0], clock[0]), list[1..], clock[1..], now);
    }
  }

  lemma {:induction false} TakeBy<Id>(s: Repo<Id>, m: nat, now: int)
    requires Consistent(s) && s.queue.Some? && EnteredBy(s.queue.value, now)
    ensures EnteredBy(TakeUnowned(s, m).0.queue.value, now)
    decreases m
  {
    if m > 0 {
      AcquireUnownedKeeps(s);
      TakeBy(AcquireUnowned(s).0, m - 1, now);
    }
  }

  lemma StartedStepBy<Id>(s: Repo<Id>, n: nat, b: Listing, now: int)
    requires Consistent(s) && (s.queue.Some? ==> EnteredBy(s.queue.value, now))
    requires "" !in b.keys && |b.keys| <= |b.clock| && n > 0 && forall t :: t in b.clock ==> t <= now
    ensures var t := AddListToRunningQueue(s, n, b.keys, b.clock).0;
      t.queue.Some? && EnteredBy(t.queue.value, now)
  {
    AddToPendingKeeps(s, n, b.keys, b.clock);
    AddListBy(OpenQueue(s, n).queue.value, b.keys, b.clock, now);
    TakeBy(AddToPendingQueue(s, n, b.keys, b.clock), n, now);
  }

  lemma {:induction false} StartedBy<Id>(s: Repo<Id>, n: nat, listings: seq<Listing>, keys: set<string>, now: int)
    requires Filling(s, n, keys) && n > 0 && ListingsOk(listings) && ReadBy(listings, now)
    requires s.queue.Some? ==> EnteredBy(s.queue.value, now)
    ensures var t := AddStarted(s, n, listings); t.queue.Some? ==> EnteredBy(t.queue.value, now)
    decreases |listings|
  {
    if listings != [] {
      assert listings[0] in listings && forall b :: b in listings[1..] ==> b in listings;
      StartedStep(s, n, listings[0], keys);
      StartedStepBy(s, n, listings[0], now);
      StartedBy(AddListToRunningQueue(s, n, listings[0].keys, listings[0].clock).0, n, listings[1..],
                keys + (set k | k in listings[0].keys), now);
    }
  }

  lemma AddAhead(q: Queue, key: string, t: int, first: set<string>, now: int)
    requires WellFormed(q) && Ahead(q, first, now) && now <= t
    ensures Ahead(Add(q, key, t), first, now)
  {
    var q' := Add(q, key, t);
    if key !in q.running && !IsPending(q, key) {
      var x := Entry(key, t, q.sequence);
      InsertAddsEntry(q.pending, x);
      assert forall e :: Holds(q', e) ==> e == x || Holds(q, e);
    }
  }

  lemma {:induction false} AddListAhead(q: Queue, list: seq<string>, clock: seq<int>, first: set<string>, now: int)
    requires |list| <= |clock| && WellFormed(q) && Ahead(q, first, now) && forall t :: t in clock ==> now <= t
    ensures Ahead(AddList(q, list, clock), first, now)
    decreases |list|
  {
    if list != [] {
      AddKeepsWellFormed(q, list[0], clock[0]);
      assert clock[0] in clock && forall t :: t in clock[1..] ==> t in clock;
      AddAhead(q, list[0], clock[0], first, now);
      AddListAhead(Add(q, list[0], clock[0]), list[1..], clock[1..], first, now);
    }
  }

  lemma {:induction false} QueuedBehind<Id>(s: Repo<Id>, n: nat, listings: seq<Listing>, first: set<string>, now: int)
    requires Consistent(s) && ListingsOk(listings) && ReadFrom(listings, now)
    requires if s.queue.None? then first == {} else Ahead(s.queue.value, first, now)
    ensures var t := AddQueued(s, n, listings); t.queue.Some? ==> Ahead(t.queue.value, first, now)
    decreases |listings|
  {
    if listings != [] {
      assert listings[0] in listings && forall b :: b in listings[1..] ==> b in listings;
      OpenQueueKeeps(s, n);
      var q := OpenQueue(s, n).queue.value;
      assert Ahead(q, first, now) by {
        if s.queue.Some? {
          assert forall e :: Holds(q, e) ==> Holds(s.queue.value, e);
        }
      }
      AddListAhead(q, listings[0].keys, listings[0].clock, first, now);
      AddToPendingKeeps(s, n, listings[0].keys, listings[0].clock);
      QueuedBehind(AddToPendingQueue(s, n, listings[0].keys, listings[0].clock), n, listings[1..], first, now);
    }
  }

  // ---------- the theorem ----------

  lemma PackedSizes(q: Queue, n: nat)
    requires WellFormed(q) && AtLimit(q, n) && n > 0 && !Grants(q)
    ensures |KeysOf(q)| <= n ==> q.running.Keys == KeysOf(q)
    ensures |KeysOf(q)| > n ==> |q.running| == n
  {
    assert |q.running| == |q.running.Keys|;
    if q.pending == [] {
      assert KeysOf(q) == q.running.Keys;
    } else {
      var head := q.pending[0];
      assert head in q.pending && head.key !in q.running;
      SubsetSize(q.running.Keys + {head.key}, KeysOf(q));
    }
  }

  /** The started runs are running, or as many of them as the limit allows. */
  ghost predicate RunsFirst(running: set<string>, first: set<string>, n: nat) {
    if |first| <= n then running == first else running <= first && |running| == n
  }

  lemma StartedRestored<Id>(s: Repo<Id>, n: nat, started: seq<Listing>, now: int)
    requires n > 0 && ListingsOk(started) && ReadBy(started, now)
    ensures
      var u := AddStarted(RemoveRepository(s), n, started);
      && Waiting(u, RunningIn(u), Members(started)) && RunsFirst(RunningIn(u), Members(started), n)
      && (u.queue.Some? ==> Ahead(u.queue.value, Members(started), now))
  {
    var r := RemoveRepository(s);
    var u := AddStarted(r, n, started);
    StartedArePacked(r, n, started, {});
    StartedBy(r, n, started, {}, now);
    assert {} + Members(started) == Members(started);
    if u.queue.Some? {
      PackedSizes(u.queue.value, n);
      assert |u.queue.value.running| == |u.queue.value.running.Keys|;
      assert forall e :: Holds(u.queue.value, e) ==> e.key in KeysOf(u.queue.value);
    }
  }

  /** Whatever the clock reads, a reconstruction queues exactly the listed runs. */
  lemma RebuildKeys<Id>(s: Repo<Id>, n: nat, started: seq<Listing>, queued: seq<Listing>)
    requires n > 0 && ListingsOk(started) && ListingsOk(queued)
    ensures var t := Rebuild(s, n, started, queued);
      Waiting(t, RunningIn(AddStarted(RemoveRepository(s), n, started)), Members(started) + Members(queued))
  {
    var r := RemoveRepository(s);
    var u := AddStarted(r, n, started);
    StartedArePacked(r, n, started, {});
    assert {} + Members(started) == Members(started);
    QueuedOnlyWait(u, n, queued, RunningIn(u), Members(started));
  }

  lemma StartedRunning<Id>(s: Repo<Id>, n: nat, started: seq<Listing>)
    requires n > 0 && ListingsOk(started)
    ensures var u := AddStarted(RemoveRepository(s), n, started);
      && Consistent(u) && RunsFirst(RunningIn(u), Members(started), n)
      && Waiting(u, RunningIn(u), Members(started))
  {
    var r := RemoveRepository(s);
    var u := AddStarted(r, n, started);
    StartedArePacked(r, n, started, {});
    assert {} + Members(started) == Members(started);
    if u.queue.Some? {
      PackedSizes(u.queue.value, n);
      assert |u.queue.value.running| == |u.queue.value.running.Keys|;
    }
  }

  /** Whatever the clock reads, the started runs are running, or as many as fit. */
  lemma RebuildRunning<Id>(s: Repo<Id>, n: nat, started: seq<Listing>, queued: seq<Listing>)
    requires n > 0 && ListingsOk(started) && ListingsOk(queued)
    ensures RunsFirst(RunningIn(Rebuild(s, n, started, queued)), Members(started), n)
  {
    var u := AddStarted(RemoveRepository(s), n, started);
    StartedRunning(s, n, started);
    QueuedOnlyWait(u, n, queued, RunningIn(u), Members(started));
  }

  lemma {:induction false} AddStartedForm<Id>(s: Repo<Id>, n: nat, listings: seq<Listing>)
    requires ListingsOk(listings)
    ensures var t := AddStarted(s, n, listings); t == s.(queue := t.queue)
    decreases |listings|
  {
    if listings != [] {
      assert listings[0] in listings && forall b :: b in listings[1..] ==> b in listings;
      TakeUnownedForm(AddToPendingQueue(s, n, listings[0].keys, listings[0].clock), n);
      AddStartedForm(AddListToRunningQueue(s, n, listings[0].keys, listings[0].clock).0, n, listings[1..]);
    }
  }

  lemma {:induction false} AddQueuedForm<Id>(s: Repo<Id>, n: nat, listings: seq<Listing>)
    requires ListingsOk(listings)
    ensures var t := AddQueued(s, n, listings); t == s.(queue := t.queue)
    decreases |listings|
  {
    if listings != [] {
      assert listings[0] in listings && forall b :: b in listings[1..] ==> b in listings;
      AddQueuedForm(AddToPendingQueue(s, n, listings[0].keys, listings[0].clock), n, listings[1..]);
    }
  }

  lemma {:induction false} AddStartedBoth<Id>(s: Repo<Id>, n: nat, a: seq<Listing>, b: seq<Listing>)
    requires ListingsOk(a) && ListingsOk(b) && ListingsOk(a + b)
    ensures AddStarted(s, n, a + b) == AddStarted(AddStarted(s, n, a), n, b)
    decreases |a|
  {
    if a == [] {
      assert a + b == b;
    } else {
      assert a[0] in a && (a + b)[0] == a[0] && (a + b)[1..] == a[1..] + b;
      assert forall x :: x in a[1..] ==> x in a;
      assert forall x :: x in a[1..] + b ==> x in a + b;
      AddStartedBoth(AddListToRunningQueue(s, n, a[0].keys, a[0].clock).0, n, a[1..], b);
    }
  }

  lemma AddRunningKeeps<Id>(s: Repo<Id>, n: nat, b: Listing, k: string)
    requires Consistent(s) && n > 0 && "" !in b.keys && |b.keys| <= |b.clock| && k in RunningIn(s)
    ensures Consistent(AddListToRunningQueue(s, n, b.keys, b.clock).0)
    ensures k in RunningIn(AddListToRunningQueue(s, n, b.keys, b.clock).0)
  {
    AddToPendingKeeps(s, n, b.keys, b.clock);
    TakeUnownedConsistent(AddToPendingQueue(s, n, b.keys, b.clock), n);
    TakeUnownedGrows(AddToPendingQueue(s, n, b.keys, b.clock), n, k);
  }

  lemma {:induction false} AddStartedKeepsRunning<Id>(s: Repo<Id>, n: nat, listings: seq<Listing>, k: string)
    requires Consistent(s) && n > 0 && ListingsOk(listings) && k in RunningIn(s)
    ensures k in RunningIn(AddStarted(s, n, listings))
    decreases |listings|
  {
    if listings != [] {
      assert listings[0] in listings && forall b :: b in listings[1..] ==> b in listings;
      AddRunningKeeps(s, n, listings[0], k);
      AddStartedKeepsRunning(
        AddListToRunningQueue(s, n, listings[0].keys, listings[0].clock).0, n, listings[1..], k);
    }
  }

  lemma SameSize(a: set<string>, b: set<string>)
    requires a <= b && |b| <= |a|
    ensures a == b
  {
    if x :| x in b && x !in a {
      SubsetSize(a, b - {x});
    }
  }

  /** Slots are given in the order of the lists: once the first lists fill the limit, nothing
      that is listed later gets one. */
  lemma FirstListsFill<Id>(s: Repo<Id>, n: nat, a: seq<Listing>, b: seq<Listing>, queued: seq<Listing>)
    requires n > 0 && ListingsOk(a) && ListingsOk(b) && ListingsOk(a + b) && ListingsOk(queued)
    requires |Members(a)| == n
    ensures RunningIn(Rebuild(s, n, a + b, queued)) == Members(a)
  {
    var u := AddStarted(RemoveRepository(s), n, a);
    var v := AddStarted(RemoveRepository(s), n, a + b);
    StartedRunning(s, n, a);
    StartedRunning(s, n, a + b);
    AddStartedBoth(RemoveRepository(s), n, a, b);
    forall k | k in Members(a) ensures k in RunningIn(v) {
      AddStartedKeepsRunning(u, n, b, k);
    }
    SameSize(Members(a), RunningIn(v));
    QueuedOnlyWait(v, n, queued, RunningIn(v), Members(a + b));
  }

  /** No admission survives a reconstruction. */
  lemma RebuildForgets<Id>(s: Repo<Id>, n: nat, started: seq<Listing>, queued: seq<Listing>)
    requires ListingsOk(started) && ListingsOk(queued)
    ensures Rebuild(s, n, started, queued).admissions == map[]
  {
    AddStartedForm(RemoveRepository(s), n, started);
    AddQueuedForm(AddStarted(RemoveRepository(s), n, started), n, queued);
  }

  lemma {:induction false} AddStartedBounded<Id>(s: Repo<Id>, n: nat, listings: seq<Listing>)
    requires ListingsOk(listings) && n > 0 && RepoBounded(s, n)
    ensures RepoBounded(AddStarted(s, n, listings), n)
    decreases |listings|
  {
    if listings != [] {
      assert listings[0] in listings && forall b :: b in listings[1..] ==> b in listings;
      AddRunningBounded(s, n, listings[0].keys, listings[0].clock, n);
      AddStartedBounded(AddListToRunningQueue(s, n, listings[0].keys, listings[0].clock).0, n, listings[1..]);
    }
  }

  lemma {:induction false} AddQueuedBounded<Id>(s: Repo<Id>, n: nat, listings: seq<Listing>)
    requires ListingsOk(listings) && n > 0 && RepoBounded(s, n)
    ensures RepoBounded(AddQueued(s, n, listings), n)
    decreases |listings|
  {
    if listings != [] {
      assert listings[0] in listings && forall b :: b in listings[1..] ==> b in listings;
      PendingBounded(s, n, listings[0].keys, listings[0].clock, n);
      AddQueuedBounded(AddToPendingQueue(s, n, listings[0].keys, listings[0].clock), n, listings[1..]);
    }
  }

  lemma RebuildBounded<Id>(s: Repo<Id>, n: nat, started: seq<Listing>, queued: seq<Listing>)
    requires ListingsOk(started) && ListingsOk(queued) && n > 0
    ensures RepoBounded(Rebuild(s, n, started, queued), n)
  {
    AddStartedBounded(RemoveRepository(s), n, started);
    AddQueuedBounded(AddStarted(RemoveRepository(s), n, started), n, queued);
  }

  /** A reconstruction keeps no claim and puts every listed run into the queue. The
      started runs are running if they fit the limit; if they do not, exactly n of them
      are, and the rest of them wait ahead of all queued runs, provided that the clock
      read no later while the started runs were added than afterwards. */
  lemma RecoveryRebuild<Id>(s: Repo<Id>, n: nat, started: seq<Listing>, queued: seq<Listing>, now: int)
    requires n > 0 && ListingsOk(started) && ListingsOk(queued) && ReadBy(started, now) && ReadFrom(queued, now)
    ensures
      var t := Rebuild(s, n, started, queued);
      && Consistent(t) && t.claims == map[]
      && (t.queue.None? ==> started == [] && queued == [])
      && (t.queue.Some? ==>
            var q, first := t.queue.value, Members(started);
            && KeysOf(q) == first + Members(queued) && q.running.Keys !! Keys(q.pending)
            && RunsFirst(q.running.Keys, first, n)
            && (forall e, f :: e in q.pending && f in q.pending && e.key in first && f.key !in first ==> Before(e, f)))
  {
    var u := AddStarted(RemoveRepository(s), n, started);
    StartedRestored(s, n, started, now);
    QueuedOnlyWait(u, n, queued, RunningIn(u), Members(started));
    QueuedBehind(u, n, queued, Members(started), now);
    RebuildOpens(RemoveRepository(s), n, started, queued);
    var t := AddQueued(u, n, queued);
    if t.queue.Some? {
      assert forall e :: e in t.queue.value.pending ==> Holds(t.queue.value, e) && e.key !in t.queue.value.running;
    }
  }

  lemma {:induction false} RebuildOpens<Id>(s: Repo<Id>, n: nat, started: seq<Listing>, queued: seq<Listing>)
    requires ListingsOk(started) && ListingsOk(queued)
    ensures (started != [] || queued != [] || s.queue.Some?) ==> AddQueued(AddStarted(s, n, started), n, queued).queue.Some?
    decreases |started| + |queued|
  {
    if started != [] {
      assert started[0] in started && forall b :: b in started[1..] ==> b in started;
      RebuildOpens(AddListToRunningQueue(s, n, started[0].keys, started[0].clock).0, n, started[1..], queued);
    } else if queued != [] {
      assert queued[0] in queued && forall b :: b in queued[1..] ==> b in queued;
      RebuildOpens(AddToPendingQueue(s, n, queued[0].keys, queued[0].clock), n, [], queued[1..]);
    }
  }
}
