/** What the manager does to its queue, in terms of the semaphore's own operations. Every
    step first lists, releases, drops, requeues or resizes, and only then grants; so the
    queue is always one that a semaphore can reach, and it is served in the order in which
    keys were inserted. */
module QueueHistories {
  import opened Wrappers
  import opened QueueOrder
  import opened Semaphores
  import opened Admissions
  import opened AdmissionInvariant
  import opened AdmissionSteps
  import opened AdmissionRuns
  import opened AdmissionSystem

  // ---------- histories that grant nothing ----------

  /** The clock readings of the additions. */
  ghost function Readings(steps: seq<Step>): seq<int> {
    if steps == [] then [] else (if steps[0].Adding? then [steps[0].now] else []) + Readings(steps[1..])
  }

  ghost predicate NoneAcquires(steps: seq<Step>) {
    steps == [] || (!steps[0].Acquiring? && NoneAcquires(steps[1..]))
  }

  /** Some operations other than grants lead from q to q', with these clock readings. */
  ghost predicate Prepares(q: Queue, q': Queue, readings: seq<int>) {
    exists steps: seq<Step> :: NoneAcquires(steps) && Readings(steps) == readings && q' == Run(q, steps)
  }

  lemma {:induction false} RunBoth(q: Queue, a: seq<Step>, b: seq<Step>)
    ensures Run(q, a + b) == Run(Run(q, a), b)
    decreases |a|
  {
    if a == [] {
      assert a + b == b;
    } else {
      assert (a + b)[0] == a[0] && (a + b)[1..] == a[1..] + b;
      RunBoth(Apply(q, a[0]), a[1..], b);
    }
  }

  lemma {:induction false} ReadBoth(a: seq<Step>, b: seq<Step>)
    ensures Readings(a + b) == Readings(a) + Readings(b)
    decreases |a|
  {
    if a == [] {
      assert a + b == b;
    } else {
      assert (a + b)[0] == a[0] && (a + b)[1..] == a[1..] + b;
      ReadBoth(a[1..], b);
    }
  }

  lemma {:induction false} NeitherAcquires(a: seq<Step>, b: seq<Step>)
    requires NoneAcquires(a) && NoneAcquires(b)
    ensures NoneAcquires(a + b)
    decreases |a|
  {
    if a == [] {
      assert a + b == b;
    } else {
      assert (a + b)[0] == a[0] && (a + b)[1..] == a[1..] + b;
      NeitherAcquires(a[1..], b);
    }
  }

  lemma PreparesTwice(q: Queue, q1: Queue, q2: Queue, r1: seq<int>, r2: seq<int>)
    requires Prepares(q, q1, r1) && Prepares(q1, q2, r2)
    ensures Prepares(q, q2, r1 + r2)
  {
    var a: seq<Step> :| NoneAcquires(a) && Readings(a) == r1 && q1 == Run(q, a);
    var b: seq<Step> :| NoneAcquires(b) && Readings(b) == r2 && q2 == Run(q1, b);
    RunBoth(q, a, b);
    ReadBoth(a, b);
    NeitherAcquires(a, b);
  }

  lemma PreparesNothing(q: Queue)
    ensures Prepares(q, q, [])
  {
    assert NoneAcquires([]) && Readings([]) == [] && q == Run(q, []);
  }

  lemma PreparesOne(q: Queue, step: Step)
    requires !step.Acquiring?
    ensures Prepares(q, Apply(q, step), if step.Adding? then [step.now] else [])
  {
    assert [step][1..] == [];
    assert Run(q, [step]) == Apply(q, step) && NoneAcquires([step]);
    assert Readings([step]) == (if step.Adding? then [step.now] else []);
  }

  lemma {:induction false} AddListPrepares(q: Queue, list: seq<string>, clock: seq<int>)
    requires |list| <= |clock|
    ensures Prepares(q, AddList(q, list, clock), clock[..|list|])
    decreases |list|
  {
    if list == [] {
      PreparesNothing(q);
    } else {
      var q1 := Add(q, list[0], clock[0]);
      PreparesOne(q, Adding(list[0], clock[0]));
      AddListPrepares(q1, list[1..], clock[1..]);
      PreparesTwice(q, q1, AddList(q, list, clock), [clock[0]], clock[1..][..|list| - 1]);
      assert clock[..|list|] == [clock[0]] + clock[1..][..|list| - 1];
    }
  }

  lemma RemovalPrepares(q: Queue, key: string)
    ensures Prepares(q, Drop(Release(q, key), key), [])
  {
    PreparesOne(q, Releasing(key));
    PreparesOne(Release(q, key), Dropping(key));
    PreparesTwice(q, Release(q, key), Drop(Release(q, key), key), [], []);
  }

  // ---------- grants ----------

  ghost predicate Takes(q: Queue, q': Queue) {
    exists m: nat :: q' == TakeSome(q, m)
  }

  lemma TakesNothing(q: Queue)
    ensures Takes(q, q)
  {
    assert q == TakeSome(q, 0);
  }

  lemma TakesOneMore(q: Queue, q': Queue)
    requires Takes(AcquireLatest(q).0, q')
    ensures Takes(q, q')
  {
    var m: nat :| q' == TakeSome(AcquireLatest(q).0, m);
    assert q' == TakeSome(q, m + 1);
  }

  lemma {:induction false} ReacquireTakes(q: Queue, cs: seq<Candidate>, i: nat)
    ensures Takes(q, Reacquire(q, cs, i).0)
    decreases |cs| - i
  {
    if i >= |cs| {
      TakesNothing(q);
    } else if !cs[i].reserved && NextPending(q) == cs[i].key {
      var (q1, got) := AcquireLatest(q);
      ReacquireTakes(q1, if got != "" then cs[i := cs[i].(reserved := true)] else cs, i + 1);
      TakesOneMore(q, Reacquire(q, cs, i).0);
    } else {
      ReacquireTakes(q, cs, i + 1);
    }
  }

  lemma {:induction false} FillTakes<Id>(b: Batch<Id>, id: Id, limit: nat)
    ensures Takes(b.queue, Fill(b, id, limit).queue)
    decreases |b.queue.pending|
  {
    TakesNothing(b.queue);
    if limit != 0 && |b.candidates| >= limit {
    } else if NextPending(b.queue) in b.claims {
    } else {
      TakesNothing(AcquireLatest(b.queue).0);
      if AcquireLatest(b.queue).1 != "" {
        FillTakes(FillStep(b, id), id, limit);
      }
      TakesOneMore(b.queue, Fill(b, id, limit).queue);
    }
  }

  lemma {:induction false} TakeUnownedTakes<Id>(s: Repo<Id>, n: nat)
    requires s.queue.Some?
    ensures Takes(s.queue.value, TakeUnowned(s, n).0.queue.value)
    decreases n
  {
    TakesNothing(s.queue.value);
    if n > 0 {
      TakeUnownedTakes(AcquireUnowned(s).0, n - 1);
      if NextPending(s.queue.value) !in s.claims {
        TakesOneMore(s.queue.value, TakeUnowned(s, n).0.queue.value);
      }
    }
  }

  lemma {:induction false} TakesBoth(q: Queue, m: nat, n: nat)
    ensures TakeSome(TakeSome(q, m), n) == TakeSome(q, m + n)
    decreases m
  {
    if m > 0 {
      TakesBoth(AcquireLatest(q).0, m - 1, n);
    }
  }

  lemma TakesTwice(q: Queue, q1: Queue, q2: Queue)
    requires Takes(q, q1) && Takes(q1, q2)
    ensures Takes(q, q2)
  {
    var m: nat :| q1 == TakeSome(q, m);
    var n: nat :| q2 == TakeSome(q1, n);
    TakesBoth(q, m, n);
  }

  // ---------- the steps of the manager ----------

  /** First operations other than grants, then grants. */
  ghost predicate Follows(q: Queue, q': Queue, readings: seq<int>) {
    exists p: Queue :: Prepares(q, p, readings) && Takes(p, q')
  }

  lemma PreparesThenFollows(q: Queue, p: Queue, q': Queue, readings: seq<int>)
    requires Prepares(q, p, []) && Follows(p, q', readings)
    ensures Follows(q, q', readings)
  {
    var r: Queue :| Prepares(p, r, readings) && Takes(r, q');
    PreparesTwice(q, p, r, [], readings);
    assert [] + readings == readings;
  }

  lemma OnlyPrepares(q: Queue, q': Queue, readings: seq<int>)
    requires Prepares(q, q', readings)
    ensures Follows(q, q', readings)
  {
    TakesNothing(q');
  }

  lemma GrantTakes<Id>(s: Repo<Id>, id: Id, list: seq<string>, clock: seq<int>)
    requires s.queue.Some? && id in s.records && |list| <= |clock|
    ensures var t := Grant(s, id, list, clock).0;
      t.queue.Some? && Takes(AddList(s.queue.value, list, clock), t.queue.value)
  {
    var p := AddList(s.queue.value, list, clock);
    var r := s.records[id];
    var (q, cs) := Reacquire(p, r.candidates, 0);
    ReacquireTakes(p, r.candidates, 0);
    if cs == [] && !r.done {
      var limit := if r.promotion then 1 else q.limit;
      var b := Batch(q, s.claims, [], false);
      FillTakes(b, id, limit);
      TakesTwice(p, q, Fill(b, id, limit).queue);
    }
  }

  lemma GrantFollows<Id>(s: Repo<Id>, id: Id, list: seq<string>, clock: seq<int>)
    requires s.queue.Some? && id in s.records && |list| <= |clock|
    ensures var t := Grant(s, id, list, clock).0;
      t.queue.Some? && Follows(s.queue.value, t.queue.value, clock[..|list|])
  {
    AddListPrepares(s.queue.value, list, clock);
    GrantTakes(s, id, list, clock);
  }

  /** What a step does to the queue, whose readings are those of the listed keys or none. */
  ghost predicate Acts(q: Queue, q': Queue, clock: seq<int>) {
    Follows(q, q', []) || Follows(q, q', clock)
  }

  lemma ActsOnNothing(q: Queue, clock: seq<int>)
    ensures Acts(q, q, clock)
  {
    PreparesNothing(q);
    OnlyPrepares(q, q, []);
  }

  lemma PreparesThenActs(q: Queue, p: Queue, q': Queue, clock: seq<int>)
    requires Prepares(q, p, []) && Acts(p, q', clock)
    ensures Acts(q, q', clock)
  {
    if Follows(p, q', []) {
      PreparesThenFollows(q, p, q', []);
    } else {
      PreparesThenFollows(q, p, q', clock);
    }
  }

  lemma RemovedQueue<Id>(s: Repo<Id>, key: string)
    requires s.queue.Some?
    ensures RemoveFromQueue(s, key).queue == Some(Drop(Release(s.queue.value, key), key))
  {
  }

  lemma ReleasedQueue<Id>(s: Repo<Id>, id: Id, key: string)
    requires s.queue.Some? && id in s.records
    ensures ReleaseOwner(s, id, key).queue == Some(Drop(Release(s.queue.value, key), key))
    ensures id in ReleaseOwner(s, id, key).records
  {
    RemovedQueue(OwnerReleased(s, id), key);
    ReleaseOwnerRecords(s, id, key);
  }

  lemma EnterActs<Id>(s: Repo<Id>, id: Id, owner: Owner, list: seq<string>, clock: seq<int>, mode: Mode)
    requires s.queue.Some? && id in s.records && |list| <= |clock|
    ensures var t := Enter(s, id, owner, list, clock, mode).0;
      t.queue.Some? && Acts(s.queue.value, t.queue.value, clock[..|list|])
  {
    ActsOnNothing(s.queue.value, clock[..|list|]);
    if s.hasClaims && s.records[id].promotion == mode.Promotion? {
      if mode.Resume? && owner.finishing && InQueue(s.queue.value, owner.key) {
        var w := ReleaseOwner(s, id, owner.key);
        ReleasedQueue(s, id, owner.key);
        RemovalPrepares(s.queue.value, owner.key);
        GrantFollows(w, id, list, clock);
        PreparesThenActs(s.queue.value, w.queue.value, Grant(w, id, list, clock).0.queue.value, clock[..|list|]);
      } else {
        GrantFollows(s, id, list, clock);
      }
    }
  }

  /** The queue a step finds: a new one is opened with the step's limit. */
  function QueueOr<Id>(s: Repo<Id>, limit: nat): Queue {
    if s.queue.Some? then s.queue.value else NewQueue(limit)
  }

  lemma OpenPrepares<Id>(s: Repo<Id>, limit: nat)
    ensures Prepares(QueueOr(s, limit), OpenQueue(s, limit).queue.value, [])
  {
    if s.queue.Some? {
      PreparesOne(s.queue.value, Resizing(limit));
    } else {
      PreparesNothing(NewQueue(limit));
    }
  }

  lemma RegisteredPrepares<Id>(s: Repo<Id>, limit: nat, owner: Owner, mode: Mode, newId: Id)
    ensures var v := Registered(s, limit, owner, mode, newId);
      v.queue.Some? && Prepares(QueueOr(s, limit), v.queue.value, [])
  {
    OpenPrepares(s, limit);
    if mode.Promotion? {
      var q := OpenQueue(s, limit).queue.value;
      RemovedQueue(OpenQueue(s, limit), owner.key);
      RemovalPrepares(q, owner.key);
      PreparesTwice(QueueOr(s, limit), q, Drop(Release(q, owner.key), owner.key), [], []);
    }
  }

  lemma AcquireActs<Id>(
    s: Repo<Id>, limit: nat, owner: Owner, list: seq<string>, clock: seq<int>, mode: Mode, newId: Id)
    requires Linked(s) && |list| <= |clock|
    ensures var t := AcquireAdmission(s, limit, owner, list, clock, mode, newId).0;
      t.queue.Some? ==> Acts(QueueOr(s, limit), t.queue.value, clock[..|list|])
  {
    var q, r := QueueOr(s, limit), clock[..|list|];
    var o := OwnerKey(owner);
    AcquireForm(s, limit, owner, list, clock, mode, newId);
    ActsOnNothing(q, r);
    OpenPrepares(s, limit);
    OnlyPrepares(q, OpenQueue(s, limit).queue.value, []);
    if o in s.admissions {
      var u := OpenQueue(s, limit);
      EnterActs(u, s.admissions[o], owner, list, clock, mode);
      PreparesThenActs(q, u.queue.value, Enter(u, s.admissions[o], owner, list, clock, mode).0.queue.value, r);
    } else {
      var v := Registered(s, limit, owner, mode, newId);
      RegisteredPrepares(s, limit, owner, mode, newId);
      if newId in v.records {
        EnterActs(v, newId, owner, list, clock, mode);
        PreparesThenActs(q, v.queue.value, Enter(v, newId, owner, list, clock, mode).0.queue.value, r);
      }
    }
  }

  lemma FinishOnePrepares<Id>(s: Repo<Id>, id: Id, c: Candidate)
    requires s.queue.Some? && id in s.records
    ensures var t := FinishOne(s, id, c).0;
      t.queue.Some? && Prepares(s.queue.value, t.queue.value, [])
  {
    PreparesNothing(s.queue.value);
    RemovalPrepares(s.queue.value, c.key);
    PreparesOne(s.queue.value, Requeueing(c.key));
  }

  lemma {:induction false} FinishAllPrepares<Id>(s: Repo<Id>, id: Id, cs: seq<Candidate>)
    requires s.queue.Some? && id in s.records
    ensures Prepares(s.queue.value, FinishAll(s, id, cs).0.queue.value, [])
    decreases |cs|
  {
    if cs == [] {
      PreparesNothing(s.queue.value);
    } else {
      var t := FinishOne(s, id, cs[0]).0;
      FinishOnePrepares(s, id, cs[0]);
      FinishAllPrepares(t, id, cs[1..]);
      PreparesTwice(s.queue.value, t.queue.value, FinishAll(s, id, cs).0.queue.value, [], []);
    }
  }

  lemma FinishActs<Id>(s: Repo<Id>, id: Id, cs: seq<Candidate>)
    requires s.queue.Some? && id in s.records
    ensures var t := FinishAdmission(s, id, cs).0;
      t.queue.Some? && Follows(s.queue.value, t.queue.value, [])
  {
    PreparesNothing(s.queue.value);
    FinishAllPrepares(s, id, cs);
    if IsLive(s, id) {
      FinishForm(s, id, cs);
    }
    OnlyPrepares(s.queue.value, FinishAdmission(s, id, cs).0.queue.value, []);
  }

  lemma PendingPrepares<Id>(s: Repo<Id>, limit: nat, list: seq<string>, clock: seq<int>)
    requires |list| <= |clock|
    ensures Prepares(QueueOr(s, limit), AddToPendingQueue(s, limit, list, clock).queue.value, clock[..|list|])
  {
    var q := OpenQueue(s, limit).queue.value;
    OpenPrepares(s, limit);
    AddListPrepares(q, list, clock);
    PreparesTwice(QueueOr(s, limit), q, AddList(q, list, clock), [], clock[..|list|]);
    assert [] + clock[..|list|] == clock[..|list|];
  }

  lemma RunningListActs<Id>(s: Repo<Id>, limit: nat, list: seq<string>, clock: seq<int>)
    requires |list| <= |clock|
    ensures Follows(QueueOr(s, limit), AddListToRunningQueue(s, limit, list, clock).0.queue.value, clock[..|list|])
  {
    PendingPrepares(s, limit, list, clock);
    var t := AddToPendingQueue(s, limit, list, clock);
    TakesNothing(t.queue.value);
    TakeUnownedTakes(t, limit);
  }

  lemma RemovalActs<Id>(s: Repo<Id>, key: string)
    requires s.queue.Some?
    ensures Follows(s.queue.value, RemoveFromQueue(s, key).queue.value, [])
    ensures Follows(s.queue.value, RemoveAndTake(s, key).0.queue.value, [])
  {
    var t := RemoveFromQueue(s, key);
    RemovedQueue(s, key);
    RemovalPrepares(s.queue.value, key);
    TakesNothing(t.queue.value);
    TakesNothing(AcquireLatest(t.queue.value).0);
    TakesOneMore(t.queue.value, AcquireLatest(t.queue.value).0);
  }

  function LimitOf<Id>(e: Event<Id>): nat {
    match e
    case Acquire(limit, _, _, _, _, _) => limit
    case AddRunning(limit, _, _) => limit
    case AddPending(limit, _, _) => limit
    case _ => 0
  }

  /** The clock readings of a step, one for each listed key. */
  ghost function ClockOf<Id>(y: System<Id>, e: Event<Id>): seq<int>
    requires Enabled(y, e)
  {
    match e
    case Acquire(_, _, list, clock, _, _) => clock[..|list|]
    case AddRunning(_, list, clock) => clock[..|list|]
    case AddPending(_, list, clock) => clock[..|list|]
    case _ => []
  }

  /** Every step of the manager acts on its queue by operations of the semaphore, the
      grants last. */
  lemma EventActs<Id>(y: System<Id>, e: Event<Id>)
    requires Sound(y) && Enabled(y, e) && Next(y, e).repo.queue.Some?
    ensures Acts(QueueOr(y.repo, LimitOf(e)), Next(y, e).repo.queue.value, ClockOf(y, e))
  {
    var s := y.repo;
    match e
    case Acquire(limit, owner, list, clock, mode, newId) => AcquireActs(s, limit, owner, list, clock, mode, newId);
    case Finish(id) => FinishActs(s, id, y.leases[id]);
    case AddRunning(limit, list, clock) => RunningListActs(s, limit, list, clock);
    case AddPending(limit, list, clock) =>
      PendingPrepares(s, limit, list, clock);
      OnlyPrepares(QueueOr(s, limit), AddToPendingQueue(s, limit, list, clock).queue.value, clock[..|list|]);
    case Remove(key) => RemovalActs(s, key);
    case RemoveTaking(key) => RemovalActs(s, key);
    case RemoveAll =>
    case _ => ActsOnNothing(s.queue.value, []);
  }

  // ---------- the queue is always one that a semaphore can reach ----------

  lemma {:induction false} RunStaysReachable(q: Queue, steps: seq<Step>)
    requires Reachable(q)
    ensures Reachable(Run(q, steps))
    decreases |steps|
  {
    if steps != [] {
      ReachableStep(q, steps[0]);
      RunStaysReachable(Apply(q, steps[0]), steps[1..]);
    }
  }

  lemma {:induction false} TakeSomeStaysReachable(q: Queue, m: nat)
    requires Reachable(q)
    ensures Reachable(TakeSome(q, m))
    decreases m
  {
    if m > 0 {
      ReachableStep(q, Acquiring);
      TakeSomeStaysReachable(AcquireLatest(q).0, m - 1);
    }
  }

  lemma FollowsStaysReachable(q: Queue, q': Queue, readings: seq<int>)
    requires Reachable(q) && Follows(q, q', readings)
    ensures Reachable(q')
  {
    var p: Queue :| Prepares(q, p, readings) && Takes(p, q');
    var steps: seq<Step> :| NoneAcquires(steps) && Readings(steps) == readings && p == Run(q, steps);
    var m: nat :| q' == TakeSome(p, m);
    RunStaysReachable(q, steps);
    TakeSomeStaysReachable(p, m);
  }

  ghost predicate RepoReachable<Id>(s: Repo<Id>) {
    s.queue.Some? ==> Reachable(s.queue.value)
  }

  lemma StepStaysReachable<Id>(y: System<Id>, e: Event<Id>)
    requires Sound(y) && Enabled(y, e) && RepoReachable(y.repo)
    ensures RepoReachable(Next(y, e).repo)
  {
    if Next(y, e).repo.queue.Some? {
      var q, q' := QueueOr(y.repo, LimitOf(e)), Next(y, e).repo.queue.value;
      EventActs(y, e);
      NewQueueIsReachable(LimitOf(e));
      if Follows(q, q', []) {
        FollowsStaysReachable(q, q', []);
      } else {
        FollowsStaysReachable(q, q', ClockOf(y, e));
      }
    }
  }

  /** In every state of every run the manager's queue is one that a PrioritySemaphore
      reaches by its own operations, so that all that is proved about it holds. */
  lemma {:induction false} ManagerQueueIsReachable<Id>(y: System<Id>, events: seq<Event<Id>>)
    requires Sound(y) && RepoReachable(y.repo) && Behaves(y, events)
    ensures RepoReachable(After(y, events).repo)
    decreases |events|
  {
    if events != [] {
      NextKeepsSound(y, events[0]);
      StepStaysReachable(y, events[0]);
      ManagerQueueIsReachable(Next(y, events[0]), events[1..]);
    }
  }

  // ---------- first come, first served ----------

  /** The readings do not decrease, and begin no earlier than now. */
  ghost predicate Advancing(readings: seq<int>, now: int) {
    readings == [] || (now <= readings[0] && Advancing(readings[1..], readings[0]))
  }

  ghost function Latest(readings: seq<int>, now: int): int {
    if readings == [] then now else Latest(readings[1..], readings[0])
  }

  lemma {:induction false} LatestIsLate(readings: seq<int>, now: int)
    requires Advancing(readings, now)
    ensures now <= Latest(readings, now)
  {
    if readings != [] {
      LatestIsLate(readings[1..], readings[0]);
    }
  }

  lemma {:induction false} RunKeepsClockOrder(q: Queue, steps: seq<Step>, now: int)
    requires WellFormed(q) && ClockOrdered(q, now) && Advancing(Readings(steps), now)
    ensures WellFormed(Run(q, steps)) && ClockOrdered(Run(q, steps), Latest(Readings(steps), now))
    decreases |steps|
  {
    if steps != [] {
      var step := steps[0];
      var later := if step.Adding? then step.now else now;
      assert step.Adding? ==> Readings(steps)[0] == step.now && Readings(steps)[1..] == Readings(steps[1..]);
      assert !step.Adding? ==> Readings(steps) == Readings(steps[1..]);
      ApplyKeepsWellFormed(q, step);
      ApplyKeepsClockOrder(q, step, now);
      RunKeepsClockOrder(Apply(q, step), steps[1..], later);
    }
  }

  lemma {:induction false} TakeSomeKeepsClockOrder(q: Queue, m: nat, now: int)
    requires WellFormed(q) && ClockOrdered(q, now)
    ensures WellFormed(TakeSome(q, m)) && ClockOrdered(TakeSome(q, m), now)
    decreases m
  {
    if m > 0 {
      AcquireKeepsWellFormed(q);
      ApplyKeepsClockOrder(q, Acquiring, now);
      TakeSomeKeepsClockOrder(AcquireLatest(q).0, m - 1, now);
    }
  }

  /** The key runs now, and did not run before under the same entry. */
  ghost predicate NewlyRuns(q: Queue, q': Queue, k: string) {
    k in q'.running && !(k in q.running && q.running[k] == q'.running[k])
  }

  lemma {:induction false} PreparingStartsNothing(q: Queue, steps: seq<Step>, k: string)
    requires NoneAcquires(steps)
    ensures !NewlyRuns(q, Run(q, steps), k)
    decreases |steps|
  {
    if steps != [] {
      PreparingStartsNothing(Apply(q, steps[0]), steps[1..], k);
    }
  }

  lemma GrantKeepsRunning(q: Queue, k: string)
    requires WellFormed(q) && k in q.running
    ensures k in AcquireLatest(q).0.running && AcquireLatest(q).0.running[k] == q.running[k]
  {
    if Grants(q) {
      assert q.pending[0] in q.pending;
    }
  }

  lemma {:induction false} TakeSomeKeepsRest(q: Queue, m: nat, k: string)
    requires WellFormed(q) && k in q.running
    ensures k in TakeSome(q, m).running && TakeSome(q, m).running[k] == q.running[k]
    decreases m
  {
    if m > 0 {
      AcquireKeepsWellFormed(q);
      GrantKeepsRunning(q, k);
      TakeSomeKeepsRest(AcquireLatest(q).0, m - 1, k);
    }
  }

  lemma {:induction false} TakeSomeAddsNothing(q: Queue, m: nat, w: Entry)
    requires w in TakeSome(q, m).pending
    ensures w in q.pending
    decreases m
  {
    if m > 0 {
      TakeSomeAddsNothing(AcquireLatest(q).0, m - 1, w);
    }
  }

  lemma HeadStaysTaken(q: Queue, m: nat)
    requires WellFormed(q) && Grants(q) && m > 0
    ensures var head := q.pending[0];
      head.key in TakeSome(q, m).running && TakeSome(q, m).running[head.key] == head
  {
    var r := AcquireLatest(q).0;
    assert r.running[q.pending[0].key] == q.pending[0];
    AcquireKeepsWellFormed(q);
    TakeSomeKeepsRest(r, m - 1, q.pending[0].key);
  }

  lemma HeadPrecedesRest(q: Queue, m: nat, w: Entry)
    requires Ordered(q.pending) && Grants(q) && m > 0 && w in TakeSome(q, m).pending
    ensures Before(q.pending[0], w)
  {
    TakeSomeAddsNothing(AcquireLatest(q).0, m - 1, w);
  }

  lemma OnlyHeadIsNew(q: Queue, q': Queue, k: string)
    requires NewlyRuns(q, q', k) && !(Grants(q) && q.pending[0].key == k)
    ensures NewlyRuns(AcquireLatest(q).0, q', k)
  {
  }

  lemma {:induction false} TakenInOrder(q: Queue, m: nat, k: string, w: Entry)
    requires WellFormed(q) && NewlyRuns(q, TakeSome(q, m), k) && w in TakeSome(q, m).pending
    ensures Before(TakeSome(q, m).running[k], w)
    decreases m
  {
    if m > 0 {
      if Grants(q) && q.pending[0].key == k {
        HeadStaysTaken(q, m);
        HeadPrecedesRest(q, m, w);
      } else {
        AcquireKeepsWellFormed(q);
        OnlyHeadIsNew(q, TakeSome(q, m), k);
        TakenInOrder(AcquireLatest(q).0, m - 1, k, w);
      }
    }
  }

  lemma InsertedBefore(q: Queue, now: int, a: Entry, b: Entry)
    requires WellFormed(q) && ClockOrdered(q, now) && Holds(q, a) && Holds(q, b) && Before(a, b)
    ensures a.sequence < b.sequence
  {
  }

  /** A step of the manager that the clock accompanies keeps the order of insertion, and
      what it starts was inserted before everything that still waits. */
  lemma FollowsInOrder(q: Queue, q': Queue, readings: seq<int>, now: int)
    requires WellFormed(q) && ClockOrdered(q, now) && Follows(q, q', readings) && Advancing(readings, now)
    ensures WellFormed(q') && ClockOrdered(q', Latest(readings, now))
    ensures forall k, w :: NewlyRuns(q, q', k) && w in q'.pending ==> q'.running[k].sequence < w.sequence
  {
    var p: Queue :| Prepares(q, p, readings) && Takes(p, q');
    var steps: seq<Step> :| NoneAcquires(steps) && Readings(steps) == readings && p == Run(q, steps);
    var m: nat :| q' == TakeSome(p, m);
    RunKeepsClockOrder(q, steps, now);
    TakeSomeKeepsClockOrder(p, m, Latest(readings, now));
    forall k, w | NewlyRuns(q, q', k) && w in q'.pending ensures q'.running[k].sequence < w.sequence {
      PreparingStartsNothing(q, steps, k);
      TakenInOrder(p, m, k, w);
      assert Holds(q', w) && Holds(q', q'.running[k]);
      InsertedBefore(q', Latest(readings, now), q'.running[k], w);
    }
  }

  ghost predicate RepoClockOrdered<Id>(s: Repo<Id>, now: int) {
    s.queue.Some? ==> ClockOrdered(s.queue.value, now)
  }

  /** What newly runs was inserted before everything that waits. */
  ghost predicate InOrder(q: Queue, q': Queue) {
    forall k, w :: NewlyRuns(q, q', k) && w in q'.pending ==> q'.running[k].sequence < w.sequence
  }

  lemma ActsInOrder(q: Queue, q': Queue, clock: seq<int>, now: int)
    requires WellFormed(q) && ClockOrdered(q, now) && Acts(q, q', clock) && Advancing(clock, now)
    ensures ClockOrdered(q', Latest(clock, now)) && InOrder(q, q')
  {
    LatestIsLate(clock, now);
    if Follows(q, q', []) {
      FollowsInOrder(q, q', [], now);
    } else {
      FollowsInOrder(q, q', clock, now);
    }
  }

  /** What the step newly sets running was inserted before everything that still waits. */
  ghost predicate ServesInOrder<Id>(y: System<Id>, e: Event<Id>)
    requires Enabled(y, e)
  {
    Next(y, e).repo.queue.Some? ==>
      InOrder(QueueOr(y.repo, LimitOf(e)), Next(y, e).repo.queue.value)
  }

  lemma StepServesInOrder<Id>(y: System<Id>, e: Event<Id>, now: int)
    requires Sound(y) && Enabled(y, e) && RepoClockOrdered(y.repo, now) && Advancing(ClockOf(y, e), now)
    ensures RepoClockOrdered(Next(y, e).repo, Latest(ClockOf(y, e), now)) && ServesInOrder(y, e)
  {
    if Next(y, e).repo.queue.Some? {
      EventActs(y, e);
      ActsInOrder(QueueOr(y.repo, LimitOf(e)), Next(y, e).repo.queue.value, ClockOf(y, e), now);
    }
  }

  /** The clock does not go back over the run. */
  ghost predicate OnTime<Id>(y: System<Id>, events: seq<Event<Id>>, now: int)
    requires Behaves(y, events)
    decreases |events|
  {
    events == [] ||
    (Advancing(ClockOf(y, events[0]), now)
      && OnTime(Next(y, events[0]), events[1..], Latest(ClockOf(y, events[0]), now)))
  }

  ghost predicate AllServeInOrder<Id>(y: System<Id>, events: seq<Event<Id>>)
    requires Behaves(y, events)
    decreases |events|
  {
    events == [] || (ServesInOrder(y, events[0]) && AllServeInOrder(Next(y, events[0]), events[1..]))
  }

  /** With a clock that does not go back the manager serves first come, first served: over
      every run, requeues, releases and resizes included, whatever a step newly sets running
      was inserted before everything that still waits after it. */
  lemma {:induction false} ManagerServesInOrder<Id>(y: System<Id>, events: seq<Event<Id>>, now: int)
    requires Sound(y) && RepoClockOrdered(y.repo, now) && Behaves(y, events) && OnTime(y, events, now)
    ensures AllServeInOrder(y, events)
    decreases |events|
  {
    if events != [] {
      NextKeepsSound(y, events[0]);
      StepServesInOrder(y, events[0], now);
      ManagerServesInOrder(Next(y, events[0]), events[1..], Latest(ClockOf(y, events[0]), now));
    }
  }
}
