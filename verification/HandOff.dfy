/** Promotion: a finished owner hands its slot to one successor, once, and gives up
    its own place in the queue; and nobody's candidates are stranded. */
module HandOff {
  import opened Wrappers
  import opened Semaphores
  import opened Admissions
  import opened AdmissionInvariant
  import opened AdmissionSteps
  import opened AdmissionRuns
  import opened AdmissionSystem
  import opened AdmissionProperties

  // ---------- one hand-off per promotion ----------

  /** The record whose owner or worker takes the step. */
  ghost function Acting<Id>(y: System<Id>, e: Event<Id>): Option<Id> {
    match e
    case Acquire(_, owner, _, _, _, newId) => Some(Actor(y.repo, owner, newId))
    case Finish(id) => Some(id)
    case _ => None
  }

  lemma NextUndisturbed<Id>(y: System<Id>, e: Event<Id>)
    requires Sound(y) && Enabled(y, e)
    ensures OthersUndisturbed(y.repo, Next(y, e).repo, Acting(y, e))
  {
    var s, t := y.repo, Next(y, e).repo;
    match e {
      case Acquire(limit, owner, list, clock, mode, newId) =>
        AcquireUndisturbed(s, limit, owner, list, clock, mode, newId);
      case Finish(id) =>
        assert LeaseSound(s, id, y.leases[id]);
        FinishUndisturbed(s, id, y.leases[id]);
      case AddRunning(limit, list, clock) =>
        AddToPendingKeeps(s, limit, list, clock);
        TakeUnownedKeeps(AddToPendingQueue(s, limit, list, clock), limit);
        SameRecords(s, t, None);
      case Remove(key) => RemoveUndisturbed(s, key);
      case RemoveTaking(key) =>
        RemoveUndisturbed(s, key);
        if s.queue.Some? {
          RemoveFromQueueKeeps(s, key);
          AcquireUnownedKeeps(RemoveFromQueue(s, key));
          SameRecords(RemoveFromQueue(s, key), t, None);
          UndisturbedTwice(s, RemoveFromQueue(s, key), t, None);
        }
      case _ => SameRecords(s, t, None);
    }
  }

  lemma RemoveUndisturbed<Id>(s: Repo<Id>, key: string)
    requires Consistent(s)
    ensures OthersUndisturbed(s, RemoveFromQueue(s, key), None)
  {
    if s.queue.None? {
      SameRecords(s, s, None);
    } else {
      RemoveFromQueueKeeps(s, key);
      LossIsUndisturbed(s, RemoveFromQueue(s, key), key, None);
    }
  }

  /** How many successful starts finishing this batch records on the record. */
  ghost function Successes<Id>(s: Repo<Id>, id: Id, cs: seq<Candidate>): nat
    requires s.queue.Some? && id in s.records
    decreases |cs|
  {
    if cs == [] then 0
    else
      var t := FinishOne(s, id, cs[0]).0;
      (if Claimed(s, id, cs[0].key) && cs[0].outcome.Succeeded? then 1 else 0)
      + if t.queue.Some? && id in t.records then Successes(t, id, cs[1..]) else 0
  }

  /** How many successful starts a run records on the record while it is a promotion. */
  ghost function HandOffs<Id>(y: System<Id>, events: seq<Event<Id>>, id: Id): nat
    requires Behaves(y, events)
    decreases |events|
  {
    if events == [] then 0
    else HandOffsNow(y, events[0], id) + HandOffs(Next(y, events[0]), events[1..], id)
  }

  ghost function HandOffsNow<Id>(y: System<Id>, e: Event<Id>, id: Id): nat
    requires Enabled(y, e)
  {
    if e == Finish(id) && IsLive(y.repo, id) && y.repo.records[id].promotion && y.repo.queue.Some?
    then Successes(y.repo, id, y.leases[id]) else 0
  }

  /** The record has had its hand-off, or is gone. */
  ghost predicate Spent<Id>(s: Repo<Id>, id: Id) {
    && id in s.records
    && (IsLive(s, id) ==> s.records[id].promotion && s.records[id].done && s.records[id].candidates == [])
  }

  lemma {:induction false} NothingToFinish<Id>(s: Repo<Id>, id: Id, rest: seq<Candidate>)
    requires Recording(s, id, rest) && s.records[id].candidates == []
    ensures s.queue.Some? && Successes(s, id, rest) == 0 && FinishAll(s, id, rest).0 == s
    decreases |rest|
  {
    LiveRecord(s, id);
    if rest != [] {
      OwnClaims(s, id);
      assert CandidateKeys([]) == {};
      assert !Claimed(s, id, rest[0].key);
      FinishOneKeeps(s, id, rest);
      NothingToFinish(s, id, rest[1..]);
    }
  }

  /** One result of a promotion: a success uses up its only candidate. */
  lemma PromotionResult<Id>(s: Repo<Id>, id: Id, rest: seq<Candidate>)
    requires Recording(s, id, rest) && rest != [] && s.records[id].promotion
    ensures s.queue.Some?
    ensures var t := FinishOne(s, id, rest[0]).0;
      && Recording(t, id, rest[1..]) && t.records[id].promotion
      && (Claimed(s, id, rest[0].key) && rest[0].outcome.Succeeded? ==> Spent(t, id))
  {
    LiveRecord(s, id);
    var c := rest[0];
    FinishOneKeeps(s, id, rest);
    if Claimed(s, id, c.key) {
      OwnClaims(s, id);
      match c.outcome
      case Succeeded =>
        FinishSucceeded(s, id, c);
        OneCandidateLess(s.records[id].candidates, c.key);
      case Gone => FinishGone(s, id, c);
      case Retry =>
    }
  }

  lemma OneCandidateLess(cs: seq<Candidate>, key: string)
    requires |cs| <= 1 && key in CandidateKeys(cs)
    ensures WithoutCandidate(cs, key) == []
  {
    assert cs[0].key == key;
    assert WithoutCandidate(cs[1..], key) == [];
  }

  lemma {:induction false} AtMostOneSuccess<Id>(s: Repo<Id>, id: Id, rest: seq<Candidate>)
    requires Recording(s, id, rest) && s.records[id].promotion
    ensures s.queue.Some? && Successes(s, id, rest) <= 1
    ensures var t := FinishAll(s, id, rest).0;
      && IsLive(t, id) && t.records[id].promotion
      && (Successes(s, id, rest) == 1 ==> Spent(t, id))
    decreases |rest|
  {
    LiveRecord(s, id);
    if rest != [] {
      var t := FinishOne(s, id, rest[0]).0;
      PromotionResult(s, id, rest);
      LiveRecord(t, id);
      AtMostOneSuccess(t, id, rest[1..]);
      if Claimed(s, id, rest[0].key) && rest[0].outcome.Succeeded? {
        NothingToFinish(t, id, rest[1..]);
      }
    }
  }

  lemma SpentAside<Id>(s: Repo<Id>, t: Repo<Id>, id: Id)
    requires Spent(s, id) && id in t.records && Undisturbed(s, t, id)
    ensures Spent(t, id)
  {
    if IsLive(t, id) {
      NoneOfNone(t.records[id].candidates, s.records[id].candidates);
    }
  }

  lemma NoneOfNone(cs: seq<Candidate>, ds: seq<Candidate>)
    requires forall c :: c in cs ==> c in ds
    ensures ds == [] ==> cs == []
  {
    if cs != [] {
      assert cs[0] in ds;
    }
  }

  lemma SpentFinishes<Id>(y: System<Id>, e: Event<Id>)
    requires Sound(y) && e.Finish? && Enabled(y, e) && Spent(y.repo, e.id)
    ensures Spent(Next(y, e).repo, e.id) && HandOffsNow(y, e, e.id) == 0
  {
    var s := y.repo;
    assert LeaseSound(s, e.id, y.leases[e.id]);
    if IsLive(s, e.id) {
      LiveRecord(s, e.id);
      LeaseStarts(s, e.id, y.leases[e.id]);
      NothingToFinish(s, e.id, y.leases[e.id]);
    }
  }

  lemma SpentStays<Id>(y: System<Id>, e: Event<Id>, id: Id)
    requires Sound(y) && Enabled(y, e) && Spent(y.repo, id)
    ensures Spent(Next(y, e).repo, id) && HandOffsNow(y, e, id) == 0
  {
    if e == Finish(id) {
      SpentFinishes(y, e);
    } else if e.Acquire? && Actor(y.repo, e.owner, e.newId) == id {
      SpentOwnerGetsNothing(y, e, id);
    } else {
      NextUndisturbed(y, e);
      assert Undisturbed(y.repo, Next(y, e).repo, id);
      SpentAside(y.repo, Next(y, e).repo, id);
    }
  }

  /** A promotion that had its hand-off is granted nothing more. */
  lemma SpentOwnerGetsNothing<Id>(y: System<Id>, e: Event<Id>, id: Id)
    requires Sound(y) && e.Acquire? && Enabled(y, e) && Spent(y.repo, id) && Actor(y.repo, e.owner, e.newId) == id
    ensures Spent(Next(y, e).repo, id)
    ensures var reply := AcquireAdmission(y.repo, e.limit, e.owner, e.list, e.clock, e.mode, e.newId).1;
      reply.Leased? ==> reply.candidates == []
  {
    assert OwnerKey(e.owner) in y.repo.admissions;
    assert OwnerOk(y.repo, OwnerKey(e.owner));
    var t := OpenQueue(y.repo, e.limit);
    if e.mode.Promotion? && !y.repo.records[id].busy && t.hasClaims {
      GrantForm(t, id, e.list, e.clock);
      ReacquireLength(AddList(t.queue.value, e.list, e.clock), [], 0);
    }
  }

  /** Over every run a promotion record, a converted batch owner included, records at
      most one successful start. */
  lemma {:induction false} AtMostOneHandOff<Id>(y: System<Id>, events: seq<Event<Id>>, id: Id)
    requires Sound(y) && Behaves(y, events)
    ensures HandOffs(y, events, id) <= 1
    ensures Spent(y.repo, id) ==> HandOffs(y, events, id) == 0
    decreases |events|
  {
    if events != [] {
      var e := events[0];
      var z := Next(y, e);
      NextKeepsSound(y, e);
      AtMostOneHandOff(z, events[1..], id);
      if Spent(y.repo, id) {
        SpentStays(y, e, id);
      } else if HandOffsNow(y, e, id) > 0 {
        assert LeaseSound(y.repo, id, y.leases[id]);
        LeaseStarts(y.repo, id, y.leases[id]);
        AtMostOneSuccess(y.repo, id, y.leases[id]);
        assert Spent(z.repo, id);
      }
    }
  }

  /** A promotion record never holds more than one candidate. */
  lemma PromotionHoldsOne<Id>(events: seq<Event<Id>>, id: Id)
    requires Behaves(Start<Id>(), events)
    ensures var s := After(Start<Id>(), events).repo;
      IsLive(s, id) && s.records[id].promotion ==> |s.records[id].candidates| <= 1
  {
    StartIsSound<Id>();
    RunKeepsSound(Start<Id>(), events);
    var s := After(Start<Id>(), events).repo;
    if IsLive(s, id) {
      LiveRecord(s, id);
    }
  }

  // ---------- the owner leaves the queue ----------

  function Listed<Id>(e: Event<Id>): seq<string> {
    match e
    case Acquire(_, _, list, _, _, _) => list
    case AddRunning(_, list, _) => list
    case AddPending(_, list, _) => list
    case _ => []
  }

  ghost predicate Queued<Id>(s: Repo<Id>, k: string) {
    s.queue.Some? && InQueue(s.queue.value, k)
  }

  lemma {:induction false} ReacquireStaysIn(q: Queue, cs: seq<Candidate>, i: nat, k: string)
    requires WellFormed(q) && !InQueue(q, "") && !InQueue(q, k)
    ensures !InQueue(Reacquire(q, cs, i).0, k)
    decreases |cs| - i
  {
    if i < |cs| {
      if !cs[i].reserved && NextPending(q) == cs[i].key {
        AcquireEffect(q);
        var (q', got) := AcquireLatest(q);
        assert SamePlace(q, q', k) || k == got;
        ReacquireStaysIn(q', if got != "" then cs[i := cs[i].(reserved := true)] else cs, i + 1, k);
      } else {
        ReacquireStaysIn(q, cs, i + 1, k);
      }
    }
  }

  lemma GrantStaysIn<Id>(s: Repo<Id>, id: Id, list: seq<string>, clock: seq<int>, k: string)
    requires Consistent(s) && IsLive(s, id) && "" !in list && |list| <= |clock|
    requires !Queued(s, k) && k !in list
    ensures s.queue.Some? && !Queued(Grant(s, id, list, clock).0, k)
  {
    LiveRecord(s, id);
    AddListKeeps(s, list, clock);
    AddListEffect(s.queue.value, list, clock);
    var t := s.(queue := Some(AddList(s.queue.value, list, clock)));
    var q := t.queue.value;
    var r := s.records[id];
    ReacquireStaysIn(q, r.candidates, 0, k);
    ReacquireLength(q, r.candidates, 0);
    if r.candidates == [] && !r.done {
      EmptyBatchOk(t, id);
      var b := Batch(q, s.claims, [], false);
      var limit := if r.promotion then 1 else q.limit;
      FillEffect(b, id, limit);
      var d := Fill(b, id, limit);
      assert k !in b.claims && k in d.claims ==> IsPending(q, k);
      assert k in b.claims || k !in d.claims ==> SamePlace(q, d.queue, k);
    }
  }

  lemma EnterStaysIn<Id>(s: Repo<Id>, id: Id, owner: Owner, list: seq<string>, clock: seq<int>, mode: Mode, k: string)
    requires Consistent(s) && s.queue.Some? && IsLive(s, id) && "" !in list && |list| <= |clock|
    requires k !in list
    requires Queued(s, k) ==> k == owner.key && mode.Resume? && owner.finishing && s.hasClaims && !s.records[id].promotion
    ensures !Queued(Enter(s, id, owner, list, clock, mode).0, k)
  {
    LiveRecord(s, id);
    if s.records[id].promotion == mode.Promotion? {
      if mode.Resume? && owner.finishing && InQueue(s.queue.value, owner.key) {
        ReleaseOwnerKeeps(s, id, owner.key);
        ReleaseOwnerSource(s, id, owner.key);
        RemovalEffect(s.queue.value, owner.key);
        assert k != owner.key ==> SamePlace(s.queue.value, Drop(Release(s.queue.value, owner.key), owner.key), k);
        GrantStaysIn(ReleaseOwner(s, id, owner.key), id, list, clock, k);
      } else {
        GrantStaysIn(s, id, list, clock, k);
      }
    }
  }

  lemma AcquireStaysIn<Id>(y: System<Id>, e: Event<Id>, k: string)
    requires Sound(y) && e.Acquire? && Enabled(y, e) && k !in e.list && !Queued(y.repo, k)
    ensures !Queued(Next(y, e).repo, k)
  {
    var s := y.repo;
    var o := OwnerKey(e.owner);
    OpenQueueKeeps(s, e.limit);
    var t := OpenQueue(s, e.limit);
    assert o in s.admissions ==> OwnerOk(s, o);
    assert s.queue.Some? ==> SamePlace(s.queue.value, t.queue.value, k);
    if o in s.admissions {
      var id := s.admissions[o];
      if !(e.mode.Resume? && s.records[id].promotion) && !s.records[id].busy {
        EnterStaysIn(t, id, e.owner, e.list, e.clock, e.mode, k);
      }
    } else if !e.mode.Resume? && !(e.mode.Promotion? && !InQueue(t.queue.value, e.owner.key)) {
      RegisteredKeeps(s, e.limit, e.owner, e.mode, e.newId);
      if e.mode.Promotion? {
        RemovalEffect(t.queue.value, e.owner.key);
        assert k != e.owner.key ==>
          SamePlace(t.queue.value, Drop(Release(t.queue.value, e.owner.key), e.owner.key), k);
        RemoveFromQueueKeeps(t, e.owner.key);
      }
      EnterStaysIn(Registered(s, e.limit, e.owner, e.mode, e.newId), e.newId, e.owner, e.list, e.clock, e.mode, k);
    }
  }

  lemma {:induction false} TakeUnownedStaysIn<Id>(s: Repo<Id>, n: nat, k: string)
    requires Consistent(s) && s.queue.Some? && !Queued(s, k)
    ensures !Queued(TakeUnowned(s, n).0, k)
    decreases n
  {
    if n > 0 {
      AcquireUnownedKeeps(s);
      AcquireEffect(s.queue.value);
      assert k != AcquireLatest(s.queue.value).1 ==> SamePlace(s.queue.value, AcquireLatest(s.queue.value).0, k);
      TakeUnownedStaysIn(AcquireUnowned(s).0, n - 1, k);
    }
  }

  /** A key only gets into the queue by a list that names it. */
  lemma QueuedOnlyByLists<Id>(y: System<Id>, e: Event<Id>, k: string)
    requires Sound(y) && Enabled(y, e) && !Queued(y.repo, k) && k !in Listed(e)
    ensures !Queued(Next(y, e).repo, k)
  {
    var s := y.repo;
    match e
    case Acquire(_, _, _, _, _, _) => AcquireStaysIn(y, e, k);
    case Finish(id) => FinishConservesKeys(y, e, k);  FinishedClaimIsQueued(y, e, k);
    case AddRunning(limit, list, clock) =>
      PendingStaysIn(s, limit, list, clock, k);
      AddToPendingKeeps(s, limit, list, clock);
      TakeUnownedStaysIn(AddToPendingQueue(s, limit, list, clock), limit, k);
    case AddPending(limit, list, clock) => PendingStaysIn(s, limit, list, clock, k);
    case Remove(key) => RemoveStaysIn(s, key, k);
    case RemoveTaking(key) =>
      RemoveStaysIn(s, key, k);
      if s.queue.Some? {
        RemoveFromQueueKeeps(s, key);
        TakeUnownedStaysIn(RemoveFromQueue(s, key), 1, k);
        assert TakeUnowned(RemoveFromQueue(s, key), 1).0 == AcquireUnowned(RemoveFromQueue(s, key)).0;
      }
    case _ =>
  }

  lemma FinishedClaimIsQueued<Id>(y: System<Id>, e: Event<Id>, k: string)
    requires Sound(y) && e.Finish? && Enabled(y, e) && !Queued(y.repo, k)
    ensures !Claimed(y.repo, e.id, k)
  {
    if k in y.repo.claims {
      ClaimedIsHeld(y.repo, k);
    }
  }

  lemma PendingStaysIn<Id>(s: Repo<Id>, limit: nat, list: seq<string>, clock: seq<int>, k: string)
    requires Consistent(s) && "" !in list && |list| <= |clock| && k !in list && !Queued(s, k)
    ensures !Queued(AddToPendingQueue(s, limit, list, clock), k)
  {
    OpenQueueKeeps(s, limit);
    var t := OpenQueue(s, limit);
    assert s.queue.Some? ==> SamePlace(s.queue.value, t.queue.value, k);
    AddListEffect(t.queue.value, list, clock);
  }

  lemma RemoveStaysIn<Id>(s: Repo<Id>, key: string, k: string)
    requires Consistent(s) && !Queued(s, k)
    ensures !Queued(RemoveFromQueue(s, key), k)
  {
    if s.queue.Some? {
      RemoveFromQueueKeeps(s, key);
      RemovalEffect(s.queue.value, key);
      assert k != key ==> SamePlace(s.queue.value, Drop(Release(s.queue.value, key), key), k);
    }
  }

  /** The owner has a record that is a promotion, or will turn into one. */
  ghost predicate Leaving<Id>(s: Repo<Id>, owner: Owner) {
    && OwnerKey(owner) in s.admissions && s.admissions[OwnerKey(owner)] in s.records
    && var r := s.records[s.admissions[OwnerKey(owner)]]; r.promotion || r.releasedOwner
  }

  /** Once the owner is leaving, its key is not in the queue. */
  ghost predicate OwnerLeft<Id>(s: Repo<Id>, owner: Owner) {
    Leaving(s, owner) ==> !Queued(s, owner.key)
  }

  /** The step does not queue the owner's key again while the owner leaves, and the
      owner's admission is only used for that PipelineRun. */
  ghost predicate Respects<Id>(y: System<Id>, e: Event<Id>, owner: Owner) {
    && (e.Acquire? && OwnerKey(e.owner) == OwnerKey(owner) ==> e.owner.key == owner.key)
    && (owner.key in Listed(e) ==>
          && !Leaving(y.repo, owner)
          && !(e.Acquire? && OwnerKey(e.owner) == OwnerKey(owner) && ReleasesOwner(e.owner, e.mode)))
  }

  /** Recording makes a record leave only if it had released its owner. */
  lemma FinishLeaves<Id>(y: System<Id>, e: Event<Id>, owner: Owner)
    requires Sound(y) && e.Finish? && Enabled(y, e) && Leaving(Next(y, e).repo, owner)
    requires Next(y, e).repo.admissions[OwnerKey(owner)] == e.id
    ensures Leaving(y.repo, owner)
  {
    var s := y.repo;
    assert LeaseSound(s, e.id, y.leases[e.id]);
    if IsLive(s, e.id) {
      LiveRecord(s, e.id);
      FinishAllForm(s, e.id, y.leases[e.id]);
    }
  }

  lemma EnterLeaves<Id>(s: Repo<Id>, id: Id, owner: Owner, list: seq<string>, clock: seq<int>, mode: Mode)
    requires Consistent(s) && s.queue.Some? && IsLive(s, id) && !s.records[id].busy && |list| <= |clock|
    ensures var t := Enter(s, id, owner, list, clock, mode).0;
      && id in t.records && t.records[id].promotion == s.records[id].promotion
      && (t.records[id].releasedOwner ==>
            || s.records[id].releasedOwner
            || (mode.Resume? && owner.finishing && s.hasClaims && !s.records[id].promotion))
  {
    LiveRecord(s, id);
    if s.records[id].promotion == mode.Promotion? {
      if mode.Resume? && owner.finishing && InQueue(s.queue.value, owner.key) {
        ReleaseOwnerKeeps(s, id, owner.key);
        GrantForm(ReleaseOwner(s, id, owner.key), id, list, clock);
      } else {
        GrantForm(s, id, list, clock);
      }
    }
  }

  /** A new promotion record starts with its owner out of the queue. */
  lemma PromotedIsOut<Id>(s: Repo<Id>, limit: nat, owner: Owner, newId: Id)
    requires Consistent(s) && newId !in s.records && OwnerKey(owner) !in s.admissions
    ensures !Queued(Registered(s, limit, owner, Promotion, newId), owner.key)
  {
    OpenQueueKeeps(s, limit);
    RemovalEffect(OpenQueue(s, limit).queue.value, owner.key);
    RemoveFromQueueKeeps(OpenQueue(s, limit), owner.key);
  }

  /** The admission makes its owner leave. */
  ghost predicate MakesLeave<Id>(y: System<Id>, e: Event<Id>) {
    && Sound(y) && e.Acquire? && Enabled(y, e)
    && !Leaving(y.repo, e.owner) && Leaving(Next(y, e).repo, e.owner)
    && Next(y, e).repo.admissions[OwnerKey(e.owner)] == Actor(y.repo, e.owner, e.newId)
  }

  lemma OldOwnerLeaves<Id>(y: System<Id>, e: Event<Id>)
    requires MakesLeave(y, e) && OwnerKey(e.owner) in y.repo.admissions
    ensures ReleasesOwner(e.owner, e.mode)
    ensures e.owner.key !in e.list ==> !Queued(Next(y, e).repo, e.owner.key)
  {
    var s := y.repo;
    var o := OwnerKey(e.owner);
    AcquireForm(s, e.limit, e.owner, e.list, e.clock, e.mode, e.newId);
    OpenQueueKeeps(s, e.limit);
    assert OwnerOk(s, o);
    var id := s.admissions[o];
    if !s.records[id].busy {
      EnterLeaves(OpenQueue(s, e.limit), id, e.owner, e.list, e.clock, e.mode);
      if e.owner.key !in e.list {
        EnterStaysIn(OpenQueue(s, e.limit), id, e.owner, e.list, e.clock, e.mode, e.owner.key);
      }
    }
  }

  lemma NewOwnerLeaves<Id>(y: System<Id>, e: Event<Id>)
    requires MakesLeave(y, e) && OwnerKey(e.owner) !in y.repo.admissions
    ensures ReleasesOwner(e.owner, e.mode)
    ensures e.owner.key !in e.list ==> !Queued(Next(y, e).repo, e.owner.key)
  {
    var s := y.repo;
    var v := Registered(s, e.limit, e.owner, e.mode, e.newId);
    AcquireForm(s, e.limit, e.owner, e.list, e.clock, e.mode, e.newId);
    RegisteredKeeps(s, e.limit, e.owner, e.mode, e.newId);
    EnterLeaves(v, e.newId, e.owner, e.list, e.clock, e.mode);
    if e.mode.Promotion? && e.owner.key !in e.list {
      PromotedIsOut(s, e.limit, e.owner, e.newId);
      EnterStaysIn(v, e.newId, e.owner, e.list, e.clock, e.mode, e.owner.key);
    }
  }

  /** An admission that makes its owner leave takes the owner out of the queue. */
  lemma AcquireLeaves<Id>(y: System<Id>, e: Event<Id>)
    requires MakesLeave(y, e)
    ensures ReleasesOwner(e.owner, e.mode)
    ensures e.owner.key !in e.list ==> !Queued(Next(y, e).repo, e.owner.key)
  {
    if OwnerKey(e.owner) in y.repo.admissions {
      OldOwnerLeaves(y, e);
    } else {
      NewOwnerLeaves(y, e);
    }
  }

  lemma EnterRecords<Id>(s: Repo<Id>, id: Id, owner: Owner, list: seq<string>, clock: seq<int>, mode: Mode)
    requires Consistent(s) && s.queue.Some? && IsLive(s, id) && |list| <= |clock|
    ensures var t := Enter(s, id, owner, list, clock, mode).0;
      t.records.Keys == s.records.Keys && t.records[id].owner == s.records[id].owner
  {
    LiveRecord(s, id);
    if s.records[id].promotion == mode.Promotion? {
      if mode.Resume? && owner.finishing && InQueue(s.queue.value, owner.key) {
        ReleaseOwnerRecords(s, id, owner.key);
        var w := ReleaseOwner(s, id, owner.key);
        GrantForm(w, id, list, clock);
        assert Grant(w, id, list, clock).0.records.Keys == w.records.Keys;
      } else {
        GrantForm(s, id, list, clock);
        assert Grant(s, id, list, clock).0.records.Keys == s.records.Keys;
      }
    }
  }

  lemma RemovalKeepsRecords<Id>(s: Repo<Id>, key: string)
    ensures RemoveFromQueue(s, key).records.Keys == s.records.Keys
  {
  }

  lemma RegisteredRecords<Id>(s: Repo<Id>, limit: nat, owner: Owner, mode: Mode, newId: Id)
    ensures Registered(s, limit, owner, mode, newId).records.Keys == s.records.Keys + {newId}
  {
    RemovalKeepsRecords(OpenQueue(s, limit), owner.key);
  }

  /** The only record an AcquireAdmission may add is its owner's. */
  lemma AcquireRecords<Id>(y: System<Id>, e: Event<Id>)
    requires Sound(y) && e.Acquire? && Enabled(y, e)
    ensures var s, t, actor := y.repo, Next(y, e).repo, Actor(y.repo, e.owner, e.newId);
      && (forall id :: id in t.records ==> id in s.records || id == actor)
      && (actor in t.records ==> t.records[actor].owner == OwnerKey(e.owner))
  {
    var s := y.repo;
    var o := OwnerKey(e.owner);
    AcquireForm(s, e.limit, e.owner, e.list, e.clock, e.mode, e.newId);
    OpenQueueKeeps(s, e.limit);
    if o in s.admissions {
      assert OwnerOk(s, o);
      EnterRecords(OpenQueue(s, e.limit), s.admissions[o], e.owner, e.list, e.clock, e.mode);
    } else {
      RegisteredKeeps(s, e.limit, e.owner, e.mode, e.newId);
      RegisteredRecords(s, e.limit, e.owner, e.mode, e.newId);
      EnterRecords(Registered(s, e.limit, e.owner, e.mode, e.newId), e.newId, e.owner, e.list, e.clock, e.mode);
    }
  }

  lemma AcquireKeepsLeft<Id>(y: System<Id>, e: Event<Id>, owner: Owner)
    requires Sound(y) && e.Acquire? && Enabled(y, e) && Respects(y, e, owner)
    requires !Leaving(y.repo, owner) && Leaving(Next(y, e).repo, owner)
    requires Next(y, e).repo.admissions[OwnerKey(owner)] == Actor(y.repo, e.owner, e.newId)
    ensures !Queued(Next(y, e).repo, owner.key)
  {
    NextKeepsSound(y, e);
    AcquireRecords(y, e);
    assert OwnerOk(Next(y, e).repo, OwnerKey(owner));
    SameOwnerLeaves(y.repo, Next(y, e).repo, e.owner, owner);
    AcquireLeaves(y, e);
  }

  lemma UndisturbedLeaving<Id>(s: Repo<Id>, t: Repo<Id>, owner: Owner)
    requires Consistent(t) && Leaving(t, owner)
    requires t.admissions[OwnerKey(owner)] in s.records && Undisturbed(s, t, t.admissions[OwnerKey(owner)])
    ensures Leaving(s, owner)
  {
    assert OwnerOk(t, OwnerKey(owner)) && IsLive(t, t.admissions[OwnerKey(owner)]);
  }

  /** A record that leaves after the step and did not leave before is the actor's. */
  lemma OnlyActorsLeave<Id>(y: System<Id>, e: Event<Id>, owner: Owner)
    requires Sound(y) && Enabled(y, e) && !Leaving(y.repo, owner) && Leaving(Next(y, e).repo, owner)
    ensures e.Acquire? && Next(y, e).repo.admissions[OwnerKey(owner)] == Actor(y.repo, e.owner, e.newId)
  {
    var s, t := y.repo, Next(y, e).repo;
    NextKeepsSound(y, e);
    NextUndisturbed(y, e);
    var id := t.admissions[OwnerKey(owner)];
    if e.Acquire? {
      AcquireRecords(y, e);
      if id != Actor(s, e.owner, e.newId) {
        UndisturbedLeaving(s, t, owner);
      }
    } else {
      RecordsStay(y, e);
      if e.Finish? && e.id == id {
        FinishLeaves(y, e, owner);
      } else {
        UndisturbedLeaving(s, t, owner);
      }
    }
  }

  lemma FinishKeepsRecords<Id>(s: Repo<Id>, id: Id, cs: seq<Candidate>)
    requires Consistent(s) && LeaseOk(s, id, cs)
    ensures FinishAdmission(s, id, cs).0.records.Keys == s.records.Keys
  {
    if IsLive(s, id) {
      LiveRecord(s, id);
      FinishAllForm(s, id, cs);
      assert FinishAll(s, id, cs).0.records.Keys == s.records.Keys;
    }
  }

  lemma RecordsStay<Id>(y: System<Id>, e: Event<Id>)
    requires Sound(y) && Enabled(y, e) && !e.Acquire?
    ensures Next(y, e).repo.records.Keys == y.repo.records.Keys
  {
    match e
    case Finish(id) =>
      assert LeaseSound(y.repo, id, y.leases[id]);
      FinishKeepsRecords(y.repo, id, y.leases[id]);
    case AddRunning(limit, list, clock) => TakeUnownedForm(AddToPendingQueue(y.repo, limit, list, clock), limit);
    case Remove(key) => RemovalKeepsRecords(y.repo, key);
    case RemoveTaking(key) => RemovalKeepsRecords(y.repo, key);
    case _ =>
  }

  lemma OwnerLeftStays<Id>(y: System<Id>, e: Event<Id>, owner: Owner)
    requires Sound(y) && Enabled(y, e) && OwnerLeft(y.repo, owner) && Respects(y, e, owner)
    ensures OwnerLeft(Next(y, e).repo, owner)
  {
    if Leaving(y.repo, owner) {
      QueuedOnlyByLists(y, e, owner.key);
    } else if Leaving(Next(y, e).repo, owner) {
      OnlyActorsLeave(y, e, owner);
      AcquireKeepsLeft(y, e, owner);
    }
  }

  lemma SameOwnerLeaves<Id>(s: Repo<Id>, t: Repo<Id>, a: Owner, b: Owner)
    requires OwnerKey(a) == OwnerKey(b)
    ensures (Leaving(s, a) <==> Leaving(s, b)) && (Leaving(t, a) <==> Leaving(t, b))
  {
  }

  ghost predicate AllRespect<Id>(y: System<Id>, events: seq<Event<Id>>, owner: Owner)
    requires Behaves(y, events)
    decreases |events|
  {
    events == [] || (Respects(y, events[0], owner) && AllRespect(Next(y, events[0]), events[1..], owner))
  }

  lemma {:induction false} OwnerLeftInRuns<Id>(y: System<Id>, events: seq<Event<Id>>, owner: Owner)
    requires Sound(y) && OwnerLeft(y.repo, owner) && Behaves(y, events) && AllRespect(y, events, owner)
    ensures OwnerLeft(After(y, events).repo, owner)
    decreases |events|
  {
    if events != [] {
      NextKeepsSound(y, events[0]);
      OwnerLeftStays(y, events[0], owner);
      OwnerLeftInRuns(Next(y, events[0]), events[1..], owner);
    }
  }

  ghost predicate NeverListed<Id>(events: seq<Event<Id>>, k: string) {
    forall i :: 0 <= i < |events| ==> k !in Listed(events[i])
  }

  lemma {:induction false} StaysOut<Id>(y: System<Id>, events: seq<Event<Id>>, k: string)
    requires Sound(y) && Behaves(y, events) && !Queued(y.repo, k) && NeverListed(events, k)
    ensures !Queued(After(y, events).repo, k)
    decreases |events|
  {
    if events != [] {
      NextKeepsSound(y, events[0]);
      assert k !in Listed(events[0]);
      assert forall i :: 0 <= i < |events| - 1 ==> events[1..][i] == events[i + 1];
      QueuedOnlyByLists(y, events[0], k);
      StaysOut(Next(y, events[0]), events[1..], k);
    }
  }

  ghost predicate PromotionLeft<Id>(t: Repo<Id>, reply: AcquireReply<Id>, owner: Owner) {
    && (!reply.Refused? ==> !Queued(t, owner.key))
    && (reply.NoWork? ==> OwnerKey(owner) !in t.admissions)
    && (reply.Leased? ==> Leaving(t, owner))
  }

  lemma NewPromotionLeaves<Id>(y: System<Id>, e: Event<Id>)
    requires Sound(y) && e.Acquire? && e.mode.Promotion? && e.list == [] && Enabled(y, e)
    requires OwnerKey(e.owner) !in y.repo.admissions
    ensures var (t, reply) := AcquireAdmission(y.repo, e.limit, e.owner, e.list, e.clock, e.mode, e.newId);
      PromotionLeft(t, reply, e.owner)
  {
    var s := y.repo;
    OpenQueueKeeps(s, e.limit);
    AcquireReplies(s, e.limit, e.owner, e.list, e.clock, e.mode, e.newId);
    AcquireRecords(y, e);
    RegisteredKeeps(s, e.limit, e.owner, e.mode, e.newId);
    var t := OpenQueue(s, e.limit);
    var v := Registered(s, e.limit, e.owner, e.mode, e.newId);
    RemovalEffect(t.queue.value, e.owner.key);
    RemoveFromQueueKeeps(t, e.owner.key);
    EnterLeaves(v, e.newId, e.owner, e.list, e.clock, e.mode);
    EnterStaysIn(v, e.newId, e.owner, e.list, e.clock, e.mode, e.owner.key);
  }

  lemma EnterAnswers<Id>(s: Repo<Id>, id: Id, owner: Owner, list: seq<string>, clock: seq<int>, mode: Mode)
    requires s.queue.Some? && id in s.records && |list| <= |clock|
    ensures var reply := Enter(s, id, owner, list, clock, mode).1;
      && !reply.NoWork?
      && (s.records[id].promotion != mode.Promotion? ==> reply.Refused?)
  {
  }

  lemma PromotionGoesOn<Id>(s: Repo<Id>, id: Id, owner: Owner, clock: seq<int>)
    requires Consistent(s) && s.queue.Some? && IsLive(s, id) && !s.records[id].busy
    requires s.records[id].owner == OwnerKey(owner) && s.records[id].promotion
    ensures Leaving(Enter(s, id, owner, [], clock, Promotion).0, owner)
  {
    EnterLeaves(s, id, owner, [], clock, Promotion);
    EnterLease(s, id, owner, [], clock, Promotion);
    EnterRecords(s, id, owner, [], clock, Promotion);
  }

  lemma OldPromotionLeaves<Id>(y: System<Id>, e: Event<Id>)
    requires Sound(y) && e.Acquire? && e.mode.Promotion? && e.list == [] && Enabled(y, e)
    requires OwnerLeft(y.repo, e.owner) && OwnerKey(e.owner) in y.repo.admissions
    ensures var (t, reply) := AcquireAdmission(y.repo, e.limit, e.owner, e.list, e.clock, e.mode, e.newId);
      PromotionLeft(t, reply, e.owner)
  {
    var s := y.repo;
    var o := OwnerKey(e.owner);
    assert OwnerOk(s, o);
    var id := s.admissions[o];
    if !s.records[id].busy {
      OpenQueueKeeps(s, e.limit);
      EnterAnswers(OpenQueue(s, e.limit), id, e.owner, e.list, e.clock, e.mode);
      if s.records[id].promotion {
        PromotionGoesOn(OpenQueue(s, e.limit), id, e.owner, e.clock);
        QueuedOnlyByLists(y, e, e.owner.key);
      }
    }
  }

  /** A promotion call that is not refused leaves its owner outside the queue. */
  lemma PromotionLeaves<Id>(y: System<Id>, e: Event<Id>)
    requires Sound(y) && e.Acquire? && e.mode.Promotion? && e.list == [] && Enabled(y, e)
    requires OwnerLeft(y.repo, e.owner)
    ensures var (t, reply) := AcquireAdmission(y.repo, e.limit, e.owner, e.list, e.clock, e.mode, e.newId);
      PromotionLeft(t, reply, e.owner)
  {
    if OwnerKey(e.owner) in y.repo.admissions {
      OldPromotionLeaves(y, e);
    } else {
      NewPromotionLeaves(y, e);
    }
  }

  /** Recording without an error leaves the record without candidates. */
  lemma CleanFinish<Id>(y: System<Id>, e: Event<Id>)
    requires Sound(y) && e.Finish? && Enabled(y, e)
    requires FinishAdmission(y.repo, e.id, y.leases[e.id]).1 == []
    ensures var t := Next(y, e).repo; IsLive(t, e.id) ==> t.records[e.id].candidates == []
  {
    var s := y.repo;
    assert LeaseSound(s, e.id, y.leases[e.id]);
    if IsLive(s, e.id) {
      LiveRecord(s, e.id);
      LeaseStarts(s, e.id, y.leases[e.id]);
      FinishAllKeeps(s, e.id, y.leases[e.id]);
    }
  }

  /** No slot is lost behind a terminal state. When the promotion of a finished owner
      gets through without an error (nothing to hand off, or a lease that finishes
      cleanly after any interleaving that does not queue the owner again), the owner's
      key neither runs nor waits and its record holds no unfinished candidate. */
  lemma NoSlotLost<Id>(y: System<Id>, promote: Event<Id>, between: seq<Event<Id>>, finish: Event<Id>)
    requires Sound(y) && promote.Acquire? && promote.mode.Promotion? && promote.list == [] && Enabled(y, promote)
    requires OwnerLeft(y.repo, promote.owner)
    requires Behaves(Next(y, promote), between) && NeverListed(between, promote.owner.key)
    requires finish.Finish? && Enabled(After(Next(y, promote), between), finish)
    requires var z := After(Next(y, promote), between);
      FinishAdmission(z.repo, finish.id, z.leases[finish.id]).1 == []
    ensures var reply := AcquireAdmission(
        y.repo, promote.limit, promote.owner, promote.list, promote.clock, promote.mode, promote.newId).1;
      var z := Next(After(Next(y, promote), between), finish);
      && (reply.NoWork? ==>
            !Queued(Next(y, promote).repo, promote.owner.key)
            && OwnerKey(promote.owner) !in Next(y, promote).repo.admissions)
      && (reply.Leased? && reply.id == finish.id ==>
            !Queued(z.repo, promote.owner.key)
            && (IsLive(z.repo, finish.id) ==> z.repo.records[finish.id].candidates == []))
  {
    PromotionLeaves(y, promote);
    NextKeepsSound(y, promote);
    RunKeepsSound(Next(y, promote), between);
    var z := After(Next(y, promote), between);
    var reply := AcquireAdmission(
      y.repo, promote.limit, promote.owner, promote.list, promote.clock, promote.mode, promote.newId).1;
    if reply.Leased? {
      StaysOut(Next(y, promote), between, promote.owner.key);
      QueuedOnlyByLists(z, finish, promote.owner.key);
      CleanFinish(z, finish);
    }
  }

  // ---------- who holds an owner's record ----------

  /** The owner's live record is this one. */
  ghost predicate HasRecord<Id>(s: Repo<Id>, owner: Owner, id: Id) {
    OwnerKey(owner) in s.admissions && s.admissions[OwnerKey(owner)] == id
  }

  lemma FinishOnlyDropsOwners<Id>(s: Repo<Id>, id: Id, cs: seq<Candidate>, o: string)
    requires Consistent(s) && LeaseOk(s, id, cs)
    ensures var t := FinishAdmission(s, id, cs).0;
      o in t.admissions ==> o in s.admissions && t.admissions[o] == s.admissions[o]
  {
    if IsLive(s, id) {
      LiveRecord(s, id);
      FinishAllForm(s, id, cs);
    }
  }

  /** A record that a step left live under an owner key was so before, or was just made
      for that owner. */
  lemma LiveBefore<Id>(y: System<Id>, e: Event<Id>, o: string)
    requires Sound(y) && Enabled(y, e) && !e.Finish? && o in Next(y, e).repo.admissions
    ensures
      || (o in y.repo.admissions && Next(y, e).repo.admissions[o] == y.repo.admissions[o])
      || (e.Acquire? && OwnerKey(e.owner) == o && Next(y, e).repo.admissions[o] == Actor(y.repo, e.owner, e.newId))
  {
    var s, t := y.repo, Next(y, e).repo;
    var id := t.admissions[o];
    NextKeepsSound(y, e);
    NextUndisturbed(y, e);
    assert OwnerOk(t, o) && IsLive(t, id);
    if e.Acquire? {
      AcquireRecords(y, e);
    } else {
      RecordsStay(y, e);
    }
    if Acting(y, e) != Some(id) {
      assert Undisturbed(s, t, id);
    }
  }

  /** No step replaces the record of an owner: it stays or goes; and only an
      AcquireAdmission of the owner makes one where there was none. */
  lemma RecordStaysOrGoes<Id>(y: System<Id>, e: Event<Id>, o: string)
    requires Sound(y) && Enabled(y, e) && o in Next(y, e).repo.admissions
    ensures o in y.repo.admissions ==> Next(y, e).repo.admissions[o] == y.repo.admissions[o]
    ensures o !in y.repo.admissions ==> e.Acquire? && OwnerKey(e.owner) == o
  {
    if e.Finish? {
      assert LeaseSound(y.repo, e.id, y.leases[e.id]);
      FinishOnlyDropsOwners(y.repo, e.id, y.leases[e.id], o);
    } else {
      LiveBefore(y, e, o);
    }
  }

  // ---------- no second hand-off ----------

  /** The owner is not in the queue and is not handing over. */
  ghost predicate OwnerAway<Id>(s: Repo<Id>, owner: Owner) {
    !Queued(s, owner.key) && !Leaving(s, owner)
  }

  lemma EnterStaysAway<Id>(s: Repo<Id>, id: Id, owner: Owner, list: seq<string>, clock: seq<int>, mode: Mode)
    requires Consistent(s) && s.queue.Some? && IsLive(s, id) && |list| <= |clock| && !Queued(s, owner.key)
    requires !s.records[id].promotion && !s.records[id].releasedOwner
    ensures var (t, reply) := Enter(s, id, owner, list, clock, mode);
      && id in t.records && !t.records[id].promotion && !t.records[id].releasedOwner
      && (mode.Promotion? ==> reply.Refused?)
  {
    LiveRecord(s, id);
    GrantForm(s, id, list, clock);
  }

  lemma AwayOwnerAcquires<Id>(y: System<Id>, e: Event<Id>)
    requires Sound(y) && e.Acquire? && Enabled(y, e) && OwnerAway(y.repo, e.owner)
    ensures
      var (t, reply) := AcquireAdmission(y.repo, e.limit, e.owner, e.list, e.clock, e.mode, e.newId);
      var id := Actor(y.repo, e.owner, e.newId);
      && (id in t.records && (id in y.repo.records || t.records != y.repo.records) ==>
            !t.records[id].promotion && !t.records[id].releasedOwner)
      && (e.mode.Promotion? ==> !reply.Leased?)
  {
    var s := y.repo;
    var o := OwnerKey(e.owner);
    AcquireForm(s, e.limit, e.owner, e.list, e.clock, e.mode, e.newId);
    OpenQueueKeeps(s, e.limit);
    if s.queue.Some? {
      assert SamePlace(s.queue.value, OpenQueue(s, e.limit).queue.value, e.owner.key);
    }
    if o in s.admissions {
      assert OwnerOk(s, o);
      if !s.records[s.admissions[o]].busy {
        EnterStaysAway(OpenQueue(s, e.limit), s.admissions[o], e.owner, e.list, e.clock, e.mode);
      }
    } else if e.mode.Initial? {
      RegisteredKeeps(s, e.limit, e.owner, e.mode, e.newId);
      EnterStaysAway(Registered(s, e.limit, e.owner, e.mode, e.newId), e.newId, e.owner, e.list, e.clock, e.mode);
    }
  }

  lemma OwnerAwayStays<Id>(y: System<Id>, e: Event<Id>, owner: Owner)
    requires Sound(y) && Enabled(y, e) && OwnerAway(y.repo, owner)
    requires owner.key !in Listed(e)
    requires e.Acquire? && OwnerKey(e.owner) == OwnerKey(owner) ==> e.owner.key == owner.key
    ensures OwnerAway(Next(y, e).repo, owner)
  {
    QueuedOnlyByLists(y, e, owner.key);
    if Leaving(Next(y, e).repo, owner) {
      OnlyActorsLeave(y, e, owner);
      NextKeepsSound(y, e);
      AcquireRecords(y, e);
      assert OwnerOk(Next(y, e).repo, OwnerKey(owner));
      SameOwnerLeaves(y.repo, Next(y, e).repo, e.owner, owner);
      AwayOwnerAcquires(y, e);
    }
  }

  ghost predicate UsesOwnKey<Id>(events: seq<Event<Id>>, owner: Owner) {
    forall i :: 0 <= i < |events| && events[i].Acquire? && OwnerKey(events[i].owner) == OwnerKey(owner) ==>
      events[i].owner.key == owner.key
  }

  /** The owner handed its slot on: its record is spent, or gone. */
  ghost predicate HandedOff<Id>(s: Repo<Id>, owner: Owner, id: Id) {
    !Queued(s, owner.key) && Spent(s, id) && (OwnerAway(s, owner) || HasRecord(s, owner, id))
  }

  /** A promotion that records a successful start hands its owner's slot on. */
  lemma SuccessHandsOff<Id>(y: System<Id>, e: Event<Id>, owner: Owner)
    requires Sound(y) && e.Finish? && Enabled(y, e) && HandOffsNow(y, e, e.id) > 0
    requires HasRecord(y.repo, owner, e.id) && OwnerLeft(y.repo, owner)
    ensures HandedOff(Next(y, e).repo, owner, e.id)
  {
    assert OwnerOk(y.repo, OwnerKey(owner));
    assert LeaseSound(y.repo, e.id, y.leases[e.id]);
    LeaseStarts(y.repo, e.id, y.leases[e.id]);
    AtMostOneSuccess(y.repo, e.id, y.leases[e.id]);
    QueuedOnlyByLists(y, e, owner.key);
    if OwnerKey(owner) in Next(y, e).repo.admissions {
      RecordStaysOrGoes(y, e, OwnerKey(owner));
    }
  }

  lemma HandedOffStays<Id>(y: System<Id>, e: Event<Id>, owner: Owner, id: Id)
    requires Sound(y) && Enabled(y, e) && HandedOff(y.repo, owner, id)
    requires owner.key !in Listed(e)
    requires e.Acquire? && OwnerKey(e.owner) == OwnerKey(owner) ==> e.owner.key == owner.key
    ensures HandedOff(Next(y, e).repo, owner, id)
  {
    QueuedOnlyByLists(y, e, owner.key);
    SpentStays(y, e, id);
    if OwnerAway(y.repo, owner) {
      OwnerAwayStays(y, e, owner);
    } else if OwnerKey(owner) in Next(y, e).repo.admissions {
      RecordStaysOrGoes(y, e, OwnerKey(owner));
    }
  }

  lemma HandedOffGetsNothing<Id>(y: System<Id>, e: Event<Id>, id: Id)
    requires Sound(y) && e.Acquire? && e.mode.Promotion? && Enabled(y, e) && HandedOff(y.repo, e.owner, id)
    ensures var reply := AcquireAdmission(y.repo, e.limit, e.owner, e.list, e.clock, e.mode, e.newId).1;
      reply.Leased? ==> reply.candidates == []
  {
    if OwnerAway(y.repo, e.owner) {
      AwayOwnerAcquires(y, e);
    } else {
      SpentOwnerGetsNothing(y, e, id);
    }
  }

  /** An owner that handed its slot on is granted nothing by any later promotion call,
      whatever happens in between, its record forgotten or the repository removed, as
      long as nobody lists its key again. */
  lemma {:induction false} NoLaterHandOff<Id>(y: System<Id>, events: seq<Event<Id>>, e: Event<Id>, owner: Owner, id: Id)
    requires Sound(y) && HandedOff(y.repo, owner, id) && Behaves(y, events)
    requires NeverListed(events, owner.key) && UsesOwnKey(events, owner)
    requires e.Acquire? && e.mode.Promotion? && e.owner == owner && Enabled(After(y, events), e)
    ensures var s := After(y, events).repo;
      var reply := AcquireAdmission(s, e.limit, e.owner, e.list, e.clock, e.mode, e.newId).1;
      reply.Leased? ==> reply.candidates == []
    decreases |events|
  {
    if events == [] {
      HandedOffGetsNothing(y, e, id);
    } else {
      NextKeepsSound(y, events[0]);
      assert owner.key !in Listed(events[0]);
      assert forall i :: 0 <= i < |events| - 1 ==> events[1..][i] == events[i + 1];
      HandedOffStays(y, events[0], owner, id);
      NoLaterHandOff(Next(y, events[0]), events[1..], e, owner, id);
    }
  }

  /** The single hand-off. Take any run in which nobody queues a leaving owner again and in
      which recording a result of its promotion counts a successful start. From there on,
      whatever happens, every promotion call of the owner is granted nothing, as long as
      nobody lists its key. */
  lemma SingleHandOff<Id>(
    y: System<Id>, before: seq<Event<Id>>, handOff: Event<Id>, later: seq<Event<Id>>, again: Event<Id>, owner: Owner)
    requires Sound(y) && OwnerLeft(y.repo, owner) && Behaves(y, before) && AllRespect(y, before, owner)
    requires var y1 := After(y, before);
      && handOff.Finish? && Enabled(y1, handOff)
      && HasRecord(y1.repo, owner, handOff.id) && HandOffsNow(y1, handOff, handOff.id) > 0
      && Behaves(Next(y1, handOff), later)
    requires NeverListed(later, owner.key) && UsesOwnKey(later, owner)
    requires again.Acquire? && again.mode.Promotion? && again.owner == owner
    requires Enabled(After(Next(After(y, before), handOff), later), again)
    ensures
      var s := After(Next(After(y, before), handOff), later).repo;
      var reply := AcquireAdmission(s, again.limit, owner, again.list, again.clock, Promotion, again.newId).1;
      reply.Leased? ==> reply.candidates == []
  {
    var y1 := After(y, before);
    RunKeepsSound(y, before);
    OwnerLeftInRuns(y, before, owner);
    SuccessHandsOff(y1, handOff, owner);
    NextKeepsSound(y1, handOff);
    NoLaterHandOff(Next(y1, handOff), later, again, owner, handOff.id);
  }

  /** Owner keys tell PipelineRuns apart: a UID holds no slash. */
  lemma {:induction false} OwnerKeyIsInjective(a: Owner, b: Owner)
    requires '/' !in a.uid && '/' !in b.uid && OwnerKey(a) == OwnerKey(b)
    ensures a.key == b.key && a.uid == b.uid
  {
    var s := OwnerKey(a);
    var i, j := |a.key|, |b.key|;
    assert s == b.key + "/" + b.uid;
    assert s[i] == '/' && s[j] == '/';
    assert forall t :: i < t < |s| ==> s[t] == a.uid[t - i - 1];
    assert forall t :: j < t < |s| ==> s[t] == b.uid[t - j - 1];
    assert i == j;
    assert a.key == s[..i] && b.key == s[..j];
    assert a.uid == s[i + 1..] && b.uid == s[j + 1..];
  }
}
