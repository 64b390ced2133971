/** What the admission protocol guarantees over whole runs. */
module AdmissionProperties {
  import opened Wrappers
  import opened QueueOrder
  import opened Semaphores
  import opened Admissions
  import opened AdmissionInvariant
  import opened AdmissionSteps
  import opened AdmissionRuns
  import opened AdmissionSystem

  ghost function RunningIn<Id>(s: Repo<Id>): set<string> {
    if s.queue.None? then {} else s.queue.value.running.Keys
  }

  ghost function RunningKeys<Id>(y: System<Id>): set<string> {
    RunningIn(y.repo)
  }

  ghost predicate Waits<Id>(y: System<Id>, k: string) {
    y.repo.queue.Some? && IsPending(y.repo.queue.value, k)
  }

  // ---------- claims and candidates ----------

  ghost predicate HasCandidate<Id>(y: System<Id>, id: Id, k: string) {
    IsLive(y.repo, id) && k in CandidateKeys(y.repo.records[id].candidates)
  }

  /** In every reachable state a key is claimed by a record exactly when it is one of
      its candidates, of which it has one; no two live records share a candidate. */
  lemma ClaimsAreCandidates<Id>(events: seq<Event<Id>>, k: string, id: Id)
    requires Behaves(Start<Id>(), events)
    ensures var y := After(Start<Id>(), events);
      && (k in y.repo.claims && y.repo.claims[k] == id <==> HasCandidate(y, id, k))
      && (forall other: Id :: HasCandidate(y, id, k) && HasCandidate(y, other, k) ==> other == id)
      && (IsLive(y.repo, id) ==>
            var cs := y.repo.records[id].candidates;
            forall i, j :: 0 <= i < j < |cs| ==> cs[i].key != cs[j].key)
  {
    StartIsSound<Id>();
    RunKeepsSound(Start<Id>(), events);
    var y := After(Start<Id>(), events);
    if k in y.repo.claims {
      assert ClaimOk(y.repo, k);
    }
    forall other: Id | HasCandidate(y, other, k) ensures k in y.repo.claims && y.repo.claims[k] == other {
      OwnClaims(y.repo, other);
    }
    if IsLive(y.repo, id) {
      LiveRecord(y.repo, id);
      DistinctCandidates(y.repo.queue.value, y.repo.records[id].candidates);
    }
  }

  /** In every reachable state a reserved candidate is running and an unreserved one
      waits; between leases it is the attempted ones that keep their reservation. */
  lemma CandidatesAreQueued<Id>(events: seq<Event<Id>>, id: Id, c: Candidate)
    requires Behaves(Start<Id>(), events)
    requires IsLive(After(Start<Id>(), events).repo, id)
    requires c in After(Start<Id>(), events).repo.records[id].candidates
    ensures var y := After(Start<Id>(), events);
      && (if c.reserved then c.key in RunningKeys(y) && !Waits(y, c.key) else Waits(y, c.key) && c.key !in RunningKeys(y))
      && (!y.repo.records[id].busy ==> (c.reserved <==> c.attempted))
  {
    StartIsSound<Id>();
    RunKeepsSound(Start<Id>(), events);
    var y := After(Start<Id>(), events);
    LiveRecord(y.repo, id);
    assert Placed(y.repo.queue.value, c) && Settled(y.repo.records[id], c);
  }

  /** The errors "missing admission claims", "missing queue" and "cannot restore queue
      candidate" occur in no run. */
  lemma DefensiveErrorsUnreachable<Id>(events: seq<Event<Id>>, e: Event<Id>)
    requires Behaves(Start<Id>(), events) && Enabled(After(Start<Id>(), events), e)
    ensures var y := After(Start<Id>(), events);
      && (e.Acquire? ==>
            AcquireAdmission(y.repo, e.limit, e.owner, e.list, e.clock, e.mode, e.newId).1 != Refused(MissingClaims))
      && (e.Finish? ==>
            var errs := FinishAdmission(y.repo, e.id, y.leases[e.id]).1;
            errs == [] || errs == [Unfinished])
  {
    StartIsSound<Id>();
    RunKeepsSound(Start<Id>(), events);
    var y := After(Start<Id>(), events);
    if e.Acquire? {
      AcquireAdmissionKeeps(y.repo, e.limit, e.owner, e.list, e.clock, e.mode, e.newId);
    } else if e.Finish? {
      assert LeaseSound(y.repo, e.id, y.leases[e.id]);
      FinishAdmissionKeeps(y.repo, e.id, y.leases[e.id]);
    }
  }

  // ---------- finishing a batch ----------

  ghost predicate Claimed<Id>(s: Repo<Id>, id: Id, k: string) {
    k in s.claims && s.claims[k] == id
  }

  ghost predicate AttemptedBy<Id>(s: Repo<Id>, id: Id, k: string) {
    && Claimed(s, id, k) && id in s.records
    && exists c :: c in s.records[id].candidates && c.key == k && c.attempted
  }

  ghost predicate Fails(cs: seq<Candidate>, k: string) {
    exists c :: c in cs && c.key == k && c.outcome.Gone?
  }

  ghost predicate Succeeds(cs: seq<Candidate>, k: string) {
    exists c :: c in cs && c.key == k && c.outcome.Succeeded?
  }

  ghost predicate GivesBack(cs: seq<Candidate>, k: string) {
    exists c :: c in cs && c.key == k && c.outcome.Retry? && !c.attempted
  }

  /** What finishing a batch does to one key in the queue and in the claims. */
  ghost predicate FinishedAt<Id>(
    q: Queue, q': Queue, claims: map<string, Id>, claims': map<string, Id>, id: Id, cs: seq<Candidate>, k: string)
  {
    var mine := k in claims && claims[k] == id;
    && (k in q'.running <==> k in q.running && !(mine && (Fails(cs, k) || GivesBack(cs, k))))
    && (IsPending(q', k) <==> IsPending(q, k) || (mine && GivesBack(cs, k)))
    && (k in claims' <==> k in claims && !(mine && (Fails(cs, k) || Succeeds(cs, k))))
    && (k in claims' ==> claims'[k] == claims[k])
  }

  ghost predicate FinishedKey<Id>(s: Repo<Id>, t: Repo<Id>, id: Id, cs: seq<Candidate>, k: string) {
    && s.queue.Some? && t.queue.Some?
    && FinishedAt(s.queue.value, t.queue.value, s.claims, t.claims, id, cs, k)
  }

  lemma GoneAt<Id>(q: Queue, claims: map<string, Id>, id: Id, c: Candidate, k: string)
    requires WellFormed(q) && !InQueue(q, "") && c.key in q.running && c.key in claims && claims[c.key] == id
    requires c.outcome.Gone?
    ensures FinishedAt(q, Drop(Release(q, c.key), c.key), claims, claims - {c.key}, id, [c], k)
  {
    assert c in [c];
    RemovalEffect(q, c.key);
    if k != c.key {
      assert SamePlace(q, Drop(Release(q, c.key), c.key), k);
    } else {
      assert !IsPending(q, k) by { NotBoth(q, k); }
    }
  }

  lemma NotBoth(q: Queue, k: string)
    requires WellFormed(q) && k in q.running
    ensures !IsPending(q, k)
  {
  }

  lemma RetryAt<Id>(q: Queue, claims: map<string, Id>, id: Id, c: Candidate, k: string)
    requires WellFormed(q) && !InQueue(q, "") && c.key in q.running && c.key in claims && claims[c.key] == id
    requires c.outcome.Retry?
    ensures FinishedAt(q, if c.attempted then q else Requeue(q, c.key), claims, claims, id, [c], k)
  {
    assert c in [c];
    RequeueEffect(q, c.key);
    if k != c.key {
      assert SamePlace(q, Requeue(q, c.key), k);
    }
  }

  lemma SucceededAt<Id>(q: Queue, claims: map<string, Id>, id: Id, c: Candidate, k: string)
    requires c.key in claims && claims[c.key] == id && c.outcome.Succeeded?
    ensures FinishedAt(q, q, claims, claims - {c.key}, id, [c], k)
  {
    assert c in [c];
  }

  lemma FinishOneKey<Id>(s: Repo<Id>, id: Id, rest: seq<Candidate>, k: string)
    requires Recording(s, id, rest) && rest != []
    ensures s.queue.Some? && FinishedKey(s, FinishOne(s, id, rest[0]).0, id, [rest[0]], k)
  {
    var c := rest[0];
    LiveRecord(s, id);
    LeaseHeadTail(rest);
    if Claimed(s, id, c.key) {
      LeasedIsRunning(s, id, rest);
      match c.outcome
      case Succeeded =>
        FinishSucceeded(s, id, c);
        SucceededAt(s.queue.value, s.claims, id, c, k);
      case Gone =>
        FinishGone(s, id, c);
        GoneAt(s.queue.value, s.claims, id, c, k);
      case Retry =>
        FinishRetry(s, id, c);
        RetryAt(s.queue.value, s.claims, id, c, k);
    }
  }

  lemma FinishedTwice<Id>(s: Repo<Id>, t: Repo<Id>, u: Repo<Id>, id: Id, cs: seq<Candidate>, k: string)
    requires cs != [] && DistinctLease(cs)
    requires FinishedKey(s, t, id, [cs[0]], k) && FinishedKey(t, u, id, cs[1..], k)
    ensures FinishedKey(s, u, id, cs, k)
  {
    LeaseHeadTail(cs);
    assert cs == [cs[0]] + cs[1..];
    assert forall c :: c in cs <==> c in [cs[0]] || c in cs[1..];
    assert k == cs[0].key ==> forall c :: c in cs[1..] ==> c.key != k by {
      assert forall c :: c in cs[1..] ==> c.key in CandidateKeys(cs[1..]);
    }
  }

  lemma {:induction false} FinishAllKey<Id>(s: Repo<Id>, id: Id, rest: seq<Candidate>, k: string)
    requires Recording(s, id, rest)
    ensures s.queue.Some? && FinishedKey(s, FinishAll(s, id, rest).0, id, rest, k)
    decreases |rest|
  {
    LiveRecord(s, id);
    if rest != [] {
      var t := FinishOne(s, id, rest[0]).0;
      FinishOneKeeps(s, id, rest);
      FinishOneKey(s, id, rest, k);
      FinishAllKey(t, id, rest[1..], k);
      FinishedTwice(s, t, FinishAll(s, id, rest).0, id, rest, k);
    }
  }

  /** Recording a live lease releases exactly the claimed candidates reported gone,
      puts exactly the claimed unattempted retries back, and drops the claims of
      exactly the gone and the succeeded; results that are no longer claimed, and the
      results of a lease whose record is gone, change nothing. */
  lemma FinishConservesKeys<Id>(y: System<Id>, e: Event<Id>, k: string)
    requires Sound(y) && e.Finish? && Enabled(y, e)
    ensures !IsLive(y.repo, e.id) ==> Next(y, e).repo == y.repo
    ensures IsLive(y.repo, e.id) ==>
      FinishedKey(y.repo, Next(y, e).repo, e.id, y.leases[e.id], k)
  {
    assert LeaseSound(y.repo, e.id, y.leases[e.id]);
    if IsLive(y.repo, e.id) {
      LiveRecord(y.repo, e.id);
      LeaseStarts(y.repo, e.id, y.leases[e.id]);
      FinishForm(y.repo, e.id, y.leases[e.id]);
      FinishAllKey(y.repo, e.id, y.leases[e.id], k);
    }
  }

  // ---------- no key is granted twice ----------

  lemma {:induction false} ReacquireGrows(q: Queue, cs: seq<Candidate>, i: nat)
    ensures q.running.Keys <= Reacquire(q, cs, i).0.running.Keys
    decreases |cs| - i
  {
    if i < |cs| {
      if !cs[i].reserved && NextPending(q) == cs[i].key {
        var (q', got) := AcquireLatest(q);
        ReacquireGrows(q', if got != "" then cs[i := cs[i].(reserved := true)] else cs, i + 1);
      } else {
        ReacquireGrows(q, cs, i + 1);
      }
    }
  }

  lemma {:induction false} FillGrows<Id>(b: Batch<Id>, id: Id, limit: nat)
    ensures b.queue.running.Keys <= Fill(b, id, limit).queue.running.Keys
    decreases |b.queue.pending|
  {
    if limit != 0 && |b.candidates| >= limit {
    } else if NextPending(b.queue) in b.claims {
    } else if AcquireLatest(b.queue).1 != "" {
      FillGrows(FillStep(b, id), id, limit);
    }
  }

  /** A granted key is running afterwards; it was not running before, unless it is an
      attempted candidate of this very record. */
  ghost predicate Source<Id>(s: Repo<Id>, t: Repo<Id>, id: Id, c: Candidate)
    requires s.queue.Some? && t.queue.Some? && id in s.records
  {
    && c.key in t.queue.value.running
    && (c.key in s.queue.value.running ==>
          Claimed(s, id, c.key) && c in s.records[id].candidates && c.attempted)
  }

  lemma ResumeSource<Id>(s: Repo<Id>, id: Id, c: Candidate)
    requires Consistent(s) && IsLive(s, id) && !s.records[id].busy
    requires s.records[id].candidates != [] || s.records[id].done
    requires s.queue.Some? && Grant(s, id, [], []).1.Leased? && c in Grant(s, id, [], []).1.candidates
    ensures Grant(s, id, [], []).0.queue.Some? && Source(s, Grant(s, id, [], []).0, id, c)
  {
    LiveRecord(s, id);
    OwnClaims(s, id);
    var q := s.queue.value;
    var cs := s.records[id].candidates;
    ReacquireEffect(q, cs, 0);
    var (q', ds) := Reacquire(q, cs, 0);
    ReservedMembers(ds);
    var j :| 0 <= j < |ds| && ds[j] == c;
    assert Reserved(cs[j], ds[j]) && cs[j] in cs && Placed(q, cs[j]) && Settled(s.records[id], cs[j]);
    assert Placed(q', c);
  }

  lemma BatchSource<Id>(b: Batch<Id>, id: Id, limit: nat, c: Candidate)
    requires BatchOk(b, id) && b.candidates == [] && !b.blocked && c in Fill(b, id, limit).candidates
    ensures c.key !in b.queue.running && c.key in Fill(b, id, limit).queue.running
  {
    FillEffect(b, id, limit);
    var d := Fill(b, id, limit);
    assert c.key in CandidateKeys(d.candidates);
    assert CandidateKeys(b.candidates) == {};
    assert IsPending(b.queue, c.key);
  }

  lemma FreshSource<Id>(s: Repo<Id>, id: Id, c: Candidate)
    requires Consistent(s) && IsLive(s, id) && !s.records[id].busy
    requires s.records[id].candidates == [] && !s.records[id].done
    requires s.queue.Some? && Grant(s, id, [], []).1.Leased? && c in Grant(s, id, [], []).1.candidates
    ensures Grant(s, id, [], []).0.queue.Some? && Source(s, Grant(s, id, [], []).0, id, c)
  {
    EmptyBatchOk(s, id);
    assert Reacquire(s.queue.value, s.records[id].candidates, 0) == (s.queue.value, []);
    BatchSource(Batch(s.queue.value, s.claims, [], false), id,
      if s.records[id].promotion then 1 else s.queue.value.limit, c);
  }

  lemma GrantSource<Id>(s: Repo<Id>, id: Id, list: seq<string>, clock: seq<int>, c: Candidate)
    requires Consistent(s) && IsLive(s, id) && !s.records[id].busy && "" !in list && |list| <= |clock|
    requires s.queue.Some? && Grant(s, id, list, clock).1.Leased? && c in Grant(s, id, list, clock).1.candidates
    ensures Grant(s, id, list, clock).0.queue.Some? && Source(s, Grant(s, id, list, clock).0, id, c)
  {
    AddListKeeps(s, list, clock);
    AddListEffect(s.queue.value, list, clock);
    GrantAfterAdding(s, id, list, clock);
    var t := s.(queue := Some(AddList(s.queue.value, list, clock)));
    if s.records[id].candidates == [] && !s.records[id].done {
      FreshSource(t, id, c);
    } else {
      ResumeSource(t, id, c);
    }
  }

  lemma GrantKeepsRunning<Id>(s: Repo<Id>, id: Id, list: seq<string>, clock: seq<int>)
    requires s.queue.Some? && id in s.records && |list| <= |clock|
    ensures Grant(s, id, list, clock).0.queue.Some?
    ensures s.queue.value.running.Keys <= Grant(s, id, list, clock).0.queue.value.running.Keys
  {
    AddListRunning(s.queue.value, list, clock);
    var r := s.records[id];
    var q := AddList(s.queue.value, list, clock);
    ReacquireGrows(q, r.candidates, 0);
    var q' := Reacquire(q, r.candidates, 0).0;
    FillGrows(Batch(q', s.claims, [], false), id, if r.promotion then 1 else q'.limit);
  }

  lemma {:induction false} AddListRunning(q: Queue, list: seq<string>, clock: seq<int>)
    requires |list| <= |clock|
    ensures AddList(q, list, clock).running == q.running
    decreases |list|
  {
    if list != [] {
      AddListRunning(Add(q, list[0], clock[0]), list[1..], clock[1..]);
    }
  }

  /** Whether this call takes its owner's key out of the queue. */
  ghost predicate ReleasesOwner(owner: Owner, mode: Mode) {
    mode.Promotion? || (mode.Resume? && owner.finishing)
  }

  lemma ReleaseOwnerSource<Id>(s: Repo<Id>, id: Id, key: string)
    requires Consistent(s) && IsLive(s, id) && !s.records[id].promotion
    ensures var t := ReleaseOwner(s, id, key);
      && s.queue.Some? && t.queue == Some(Drop(Release(s.queue.value, key), key)) && id in t.records
      && t.claims == s.claims - {key}
      && (forall c :: c in t.records[id].candidates ==> c in s.records[id].candidates)
  {
    LiveRecord(s, id);
    OwnerReleasedKeeps(s, id);
    RemoveFromQueueKeeps(OwnerReleased(s, id), key);
    WithoutCandidateMembers(s.records[id].candidates, key);
  }

  /** What an AcquireAdmission does to the running set: only the owner's own key may
      leave it, and a leased key was not in it before, unless this record had attempted
      it or the call released it. */
  ghost predicate Sources<Id>(s: Repo<Id>, t: Repo<Id>, reply: AcquireReply<Id>, owner: Owner, mode: Mode) {
    && (forall k :: k in RunningIn(s) ==> k in RunningIn(t) || (k == owner.key && ReleasesOwner(owner, mode)))
    && (reply.Leased? ==> forall c :: c in reply.candidates ==>
          && c.key in RunningIn(t)
          && (c.key in RunningIn(s) ==>
                (AttemptedBy(s, reply.id, c.key) && c.attempted) || (c.key == owner.key && ReleasesOwner(owner, mode))))
  }

  lemma GrantSources<Id>(
    s: Repo<Id>, id: Id, owner: Owner, list: seq<string>, clock: seq<int>, mode: Mode)
    requires Consistent(s) && IsLive(s, id) && !s.records[id].busy && "" !in list && |list| <= |clock|
    requires s.queue.Some?
    ensures Sources(s, Grant(s, id, list, clock).0, Grant(s, id, list, clock).1, owner, mode)
  {
    var (t, reply) := Grant(s, id, list, clock);
    GrantKeepsRunning(s, id, list, clock);
    GrantLease(s, id, list, clock);
    if reply.Leased? {
      forall c | c in reply.candidates ensures Source(s, t, id, c) {
        GrantSource(s, id, list, clock, c);
      }
    }
  }

  lemma SourcesAfterRelease<Id>(
    s: Repo<Id>, w: Repo<Id>, t: Repo<Id>, reply: AcquireReply<Id>, owner: Owner, mode: Mode)
    requires Sources(w, t, reply, owner, mode) && ReleasesOwner(owner, mode)
    requires forall k :: k in RunningIn(s) ==> k in RunningIn(w) || k == owner.key
    requires reply.Leased? ==> forall k :: AttemptedBy(w, reply.id, k) ==> AttemptedBy(s, reply.id, k)
    ensures Sources(s, t, reply, owner, mode)
  {
  }

  lemma ReleasedAttempts<Id>(s: Repo<Id>, id: Id, key: string, k: string)
    requires Consistent(s) && IsLive(s, id) && !s.records[id].promotion && AttemptedBy(ReleaseOwner(s, id, key), id, k)
    ensures AttemptedBy(s, id, k)
  {
    ReleaseOwnerSource(s, id, key);
  }

  lemma EnterSources<Id>(s: Repo<Id>, id: Id, owner: Owner, list: seq<string>, clock: seq<int>, mode: Mode)
    requires Consistent(s) && s.queue.Some? && IsLive(s, id) && !s.records[id].busy && "" !in list && |list| <= |clock|
    ensures Sources(s, Enter(s, id, owner, list, clock, mode).0, Enter(s, id, owner, list, clock, mode).1, owner, mode)
  {
    LiveRecord(s, id);
    if s.records[id].promotion == mode.Promotion? {
      if mode.Resume? && owner.finishing && InQueue(s.queue.value, owner.key) {
        var w := ReleaseOwner(s, id, owner.key);
        ReleaseOwnerKeeps(s, id, owner.key);
        ReleaseOwnerSource(s, id, owner.key);
        GrantSources(w, id, owner, list, clock, mode);
        GrantLease(w, id, list, clock);
        forall k | AttemptedBy(w, id, k) ensures AttemptedBy(s, id, k) {
          ReleasedAttempts(s, id, owner.key, k);
        }
        var (t, reply) := Grant(w, id, list, clock);
        SourcesAfterRelease(s, w, t, reply, owner, mode);
      } else {
        GrantSources(s, id, owner, list, clock, mode);
      }
    }
  }

  lemma RegisteredRunning<Id>(s: Repo<Id>, limit: nat, owner: Owner, mode: Mode, newId: Id, k: string)
    requires k in RunningIn(s)
    ensures k in RunningIn(Registered(s, limit, owner, mode, newId)) || (k == owner.key && mode.Promotion?)
  {
  }

  lemma NewRecordSources<Id>(
    s: Repo<Id>, limit: nat, owner: Owner, list: seq<string>, clock: seq<int>, mode: Mode, newId: Id)
    requires Consistent(s) && newId !in s.records && OwnerKey(owner) !in s.admissions
    requires "" !in list && |list| <= |clock|
    ensures var v := Registered(s, limit, owner, mode, newId);
      v.queue.Some? && newId in v.records &&
      Sources(s, Enter(v, newId, owner, list, clock, mode).0, Enter(v, newId, owner, list, clock, mode).1, owner, mode)
  {
    var v := Registered(s, limit, owner, mode, newId);
    RegisteredKeeps(s, limit, owner, mode, newId);
    EnterSources(v, newId, owner, list, clock, mode);
    EnterLease(v, newId, owner, list, clock, mode);
    forall k | k in RunningIn(s) ensures k in RunningIn(v) || (k == owner.key && mode.Promotion?) {
      RegisteredRunning(s, limit, owner, mode, newId, k);
    }
  }

  lemma AcquireSources<Id>(
    s: Repo<Id>, limit: nat, owner: Owner, list: seq<string>, clock: seq<int>, mode: Mode, newId: Id)
    requires Consistent(s) && newId !in s.records && "" !in list && |list| <= |clock|
    ensures
      var (t, reply) := AcquireAdmission(s, limit, owner, list, clock, mode, newId);
      Sources(s, t, reply, owner, mode)
  {
    var o := OwnerKey(owner);
    AcquireForm(s, limit, owner, list, clock, mode, newId);
    OpenQueueKeeps(s, limit);
    if o in s.admissions {
      assert OwnerOk(s, o);
      var id := s.admissions[o];
      if !s.records[id].busy {
        EnterSources(OpenQueue(s, limit), id, owner, list, clock, mode);
        assert forall i: Id, k :: AttemptedBy(OpenQueue(s, limit), i, k) <==> AttemptedBy(s, i, k);
      }
    } else {
      NewRecordSources(s, limit, owner, list, clock, mode, newId);
    }
  }

  /** The steps that take a key out of the running set. */
  ghost predicate TakesOut<Id>(y: System<Id>, e: Event<Id>, k: string) {
    match e
    case Acquire(_, owner, _, _, mode, _) => k == owner.key && ReleasesOwner(owner, mode)
    case Finish(id) => id in y.leases && Claimed(y.repo, id, k) && (Fails(y.leases[id], k) || GivesBack(y.leases[id], k))
    case Remove(key) => key == k
    case RemoveTaking(key) => key == k
    case RemoveAll => true
    case _ => false
  }

  /** The keys a step hands to its caller to start. */
  ghost function Given<Id>(y: System<Id>, e: Event<Id>): set<string>
    requires Enabled(y, e)
  {
    match e
    case Acquire(limit, owner, list, clock, mode, newId) =>
      var reply := AcquireAdmission(y.repo, limit, owner, list, clock, mode, newId).1;
      if reply.Leased? then CandidateKeys(reply.candidates) else {}
    case AddRunning(limit, list, clock) => set k | k in AddListToRunningQueue(y.repo, limit, list, clock).1
    case RemoveTaking(key) => {RemoveAndTake(y.repo, key).1} - {""}
    case _ => {}
  }

  /** The key is handed out again to the record that already attempted it. */
  ghost predicate OwnAttempt<Id>(y: System<Id>, e: Event<Id>, k: string) {
    e.Acquire? && AttemptedBy(y.repo, Actor(y.repo, e.owner, e.newId), k)
  }

  /** AddListToRunningQueue without a limit does not move the keys it returns. */
  ghost predicate Unlimited<Id>(e: Event<Id>) {
    e.AddRunning? && e.limit == 0
  }

  lemma AcquiringKeepsRunning<Id>(y: System<Id>, e: Event<Id>, k: string)
    requires Sound(y) && Enabled(y, e) && e.Acquire? && k in RunningKeys(y) && !TakesOut(y, e, k)
    ensures k in RunningKeys(Next(y, e))
  {
    AcquireSources(y.repo, e.limit, e.owner, e.list, e.clock, e.mode, e.newId);
  }

  lemma FinishingKeepsRunning<Id>(y: System<Id>, e: Event<Id>, k: string)
    requires Sound(y) && Enabled(y, e) && e.Finish? && k in RunningKeys(y) && !TakesOut(y, e, k)
    ensures k in RunningKeys(Next(y, e))
  {
    FinishConservesKeys(y, e, k);
  }

  lemma AddingKeepsRunning<Id>(y: System<Id>, e: Event<Id>, k: string)
    requires Sound(y) && Enabled(y, e) && (e.AddRunning? || e.AddPending?) && k in RunningKeys(y)
    ensures k in RunningKeys(Next(y, e))
  {
    AddToPendingKeeps(y.repo, e.limit, e.list, e.clock);
    if e.AddRunning? && e.limit > 0 {
      TakeUnownedGrows(AddToPendingQueue(y.repo, e.limit, e.list, e.clock), e.limit, k);
    }
  }

  lemma RemovalKeepsRunning<Id>(s: Repo<Id>, key: string, k: string)
    requires k in RunningIn(s) && k != key
    ensures k in RunningIn(RemoveFromQueue(s, key))
  {
  }

  lemma TakingKeepsRunning<Id>(s: Repo<Id>, k: string)
    requires k in RunningIn(s)
    ensures k in RunningIn(AcquireUnowned(s).0)
  {
  }

  lemma RemovingKeepsRunning<Id>(y: System<Id>, e: Event<Id>, k: string)
    requires Enabled(y, e) && (e.Remove? || e.RemoveTaking?) && e.key != k && k in RunningKeys(y)
    ensures k in RunningKeys(Next(y, e))
  {
    RemovalKeepsRunning(y.repo, e.key, k);
    if e.RemoveTaking? {
      TakingKeepsRunning(RemoveFromQueue(y.repo, e.key), k);
    }
  }

  lemma RunningLeavesOnlyBy<Id>(y: System<Id>, e: Event<Id>, k: string)
    requires Sound(y) && Enabled(y, e)
    requires k in RunningKeys(y) && k !in RunningKeys(Next(y, e))
    ensures TakesOut(y, e, k)
  {
    if !TakesOut(y, e, k) {
      match e
      case Acquire(_, _, _, _, _, _) => AcquiringKeepsRunning(y, e, k);
      case Finish(_) => FinishingKeepsRunning(y, e, k);
      case AddRunning(_, _, _) => AddingKeepsRunning(y, e, k);
      case AddPending(_, _, _) => AddingKeepsRunning(y, e, k);
      case Remove(_) => RemovingKeepsRunning(y, e, k);
      case RemoveTaking(_) => RemovingKeepsRunning(y, e, k);
      case _ =>
    }
  }

  lemma AcquiredIsNew<Id>(y: System<Id>, e: Event<Id>, k: string)
    requires Sound(y) && Enabled(y, e) && e.Acquire? && k in Given(y, e)
    ensures k in RunningKeys(Next(y, e)) && (k !in RunningKeys(y) || TakesOut(y, e, k) || OwnAttempt(y, e, k))
  {
    AcquireSources(y.repo, e.limit, e.owner, e.list, e.clock, e.mode, e.newId);
    AcquireLease(y.repo, e.limit, e.owner, e.list, e.clock, e.mode, e.newId);
  }

  lemma AddedIsNew<Id>(y: System<Id>, e: Event<Id>, k: string)
    requires Sound(y) && Enabled(y, e) && e.AddRunning? && e.limit > 0 && k in Given(y, e)
    ensures k in RunningKeys(Next(y, e)) && k !in RunningKeys(y)
  {
    AddToPendingKeeps(y.repo, e.limit, e.list, e.clock);
    TakeUnownedKeeps(AddToPendingQueue(y.repo, e.limit, e.list, e.clock), e.limit);
  }

  /** Without a limit the waiting keys are handed out, and go on waiting. */
  lemma UnlimitedIsWaiting<Id>(y: System<Id>, e: Event<Id>, k: string)
    requires Sound(y) && Enabled(y, e) && Unlimited(e)
    ensures k in Given(y, e) <==> Waits(Next(y, e), k)
    ensures RunningKeys(Next(y, e)) == RunningKeys(y)
    ensures k in Given(y, e) ==> k !in RunningKeys(y)
  {
    AddToPendingKeeps(y.repo, 0, e.list, e.clock);
    var q := AddToPendingQueue(y.repo, 0, e.list, e.clock).queue.value;
    PendingKeysAre(q, k);
    if k in Given(y, e) && k in q.running {
      NotBoth(q, k);
    }
  }

  lemma PendingKeysAre(q: Queue, k: string)
    ensures k in PendingKeys(q) <==> IsPending(q, k)
  {
    var keys := PendingKeys(q);
    if IsPending(q, k) {
      var e :| e in q.pending && e.key == k;
      var i :| 0 <= i < |q.pending| && q.pending[i] == e;
      assert keys[i] == k;
    }
    if k in keys {
      var i :| 0 <= i < |keys| && keys[i] == k;
      assert q.pending[i] in q.pending;
    }
  }

  /** What a step hands out was not running before, unless the step itself took it out or
      it is this record's own attempt; and it is running afterwards if and only if the
      step has a limit. */
  lemma GivenIsNew<Id>(y: System<Id>, e: Event<Id>, k: string)
    requires Sound(y) && Enabled(y, e) && k in Given(y, e)
    ensures k in RunningKeys(Next(y, e)) <==> !Unlimited(e)
    ensures k !in RunningKeys(y) || TakesOut(y, e, k) || OwnAttempt(y, e, k)
  {
    match e
    case Acquire(_, _, _, _, _, _) => AcquiredIsNew(y, e, k);
    case AddRunning(limit, list, clock) =>
      if limit > 0 {
        AddedIsNew(y, e, k);
      } else {
        UnlimitedIsWaiting(y, e, k);
      }
    case RemoveTaking(key) =>
      RemoveFromQueueKeeps(y.repo, key);
      AcquireUnownedKeeps(RemoveFromQueue(y.repo, key));
  }

  ghost predicate NoneTakesOut<Id>(y: System<Id>, events: seq<Event<Id>>, k: string)
    requires Behaves(y, events)
    decreases |events|
  {
    events == [] || (!TakesOut(y, events[0], k) && NoneTakesOut(Next(y, events[0]), events[1..], k))
  }

  lemma {:induction false} StaysRunning<Id>(y: System<Id>, events: seq<Event<Id>>, k: string)
    requires Sound(y) && Behaves(y, events) && k in RunningKeys(y) && NoneTakesOut(y, events, k)
    ensures k in RunningKeys(After(y, events))
    decreases |events|
  {
    if events != [] {
      NextKeepsSound(y, events[0]);
      if k !in RunningKeys(Next(y, events[0])) {
        RunningLeavesOnlyBy(y, events[0], k);
      }
      StaysRunning(Next(y, events[0]), events[1..], k);
    }
  }

  /** No double grant. Once a step with a limit has handed out a key, no later step of any
      interleaving hands it out again unless some step in between, or that step itself,
      took it out of the running set; the only exception is its own admission retrying an
      attempted start. */
  lemma NoDoubleGrant<Id>(y: System<Id>, first: Event<Id>, between: seq<Event<Id>>, last: Event<Id>, k: string)
    requires Sound(y) && Enabled(y, first) && k in Given(y, first) && !Unlimited(first)
    requires Behaves(Next(y, first), between) && NoneTakesOut(Next(y, first), between, k)
    requires Enabled(After(Next(y, first), between), last)
    requires k in Given(After(Next(y, first), between), last)
    ensures
      var z := After(Next(y, first), between);
      TakesOut(z, last, k) || OwnAttempt(z, last, k)
  {
    GivenIsNew(y, first, k);
    NextKeepsSound(y, first);
    StaysRunning(Next(y, first), between, k);
    RunKeepsSound(Next(y, first), between);
    GivenIsNew(After(Next(y, first), between), last, k);
  }

  /** The keys that AddListToRunningQueue returns are running afterwards if and only if
      there is a limit, or there was nothing to return: nothing waited, and the whole list
      was running already. */
  lemma AddRunningMovesIffLimited<Id>(y: System<Id>, e: Event<Id>)
    requires Sound(y) && e.AddRunning? && Enabled(y, e)
    ensures (forall k :: k in Given(y, e) ==> k in RunningKeys(Next(y, e))) <==>
      e.limit > 0 || ((forall k :: k in e.list ==> k in RunningKeys(y)) && (forall k :: !Waits(y, k)))
  {
    if e.limit > 0 {
      forall k | k in Given(y, e) ensures k in RunningKeys(Next(y, e)) {
        AddedIsNew(y, e, k);
      }
    } else {
      forall k ensures k in Given(y, e) <==> Waits(y, k) || (k in e.list && k !in RunningKeys(y)) {
        UnlimitedGives(y, e, k);
      }
      forall k ensures k in Given(y, e) ==> k !in RunningKeys(Next(y, e)) {
        UnlimitedIsWaiting(y, e, k);
      }
    }
  }

  lemma UnlimitedGives<Id>(y: System<Id>, e: Event<Id>, k: string)
    requires Sound(y) && Enabled(y, e) && Unlimited(e)
    ensures k in Given(y, e) <==> Waits(y, k) || (k in e.list && k !in RunningKeys(y))
  {
    OpenQueueKeeps(y.repo, 0);
    OpenedPlace(y.repo, 0, k);
    var q := OpenQueue(y.repo, 0).queue.value;
    AddedPending(q, e.list, e.clock, k);
    PendingKeysAre(AddList(q, e.list, e.clock), k);
  }

  lemma OpenedPlace<Id>(s: Repo<Id>, limit: nat, k: string)
    ensures var q := OpenQueue(s, limit).queue.value;
      && (k in q.running <==> k in RunningIn(s))
      && (IsPending(q, k) <==> s.queue.Some? && IsPending(s.queue.value, k))
  {
  }

  lemma AddedPending(q: Queue, list: seq<string>, clock: seq<int>, k: string)
    requires WellFormed(q) && !InQueue(q, "") && "" !in list && |list| <= |clock|
    ensures IsPending(AddList(q, list, clock), k) <==> IsPending(q, k) || (k in list && k !in q.running)
  {
    AddListEffect(q, list, clock);
    var q' := AddList(q, list, clock);
    assert InQueue(q, k) ==> SamePlace(q, q', k);
    assert InQueue(q', k) <==> InQueue(q, k) || k in list;
    if k in q.running {
      NotBoth(q, k);
      NotBoth(q', k);
    }
  }

  /** Without a limit it always fails: whatever such a call hands out, the same call hands
      out again right afterwards. */
  lemma UnlimitedGrantsAgain<Id>(y: System<Id>, e: Event<Id>, k: string)
    requires Sound(y) && Enabled(y, e) && Unlimited(e) && k in Given(y, e)
    ensures Enabled(Next(y, e), e) && k in Given(Next(y, e), e)
    ensures !TakesOut(Next(y, e), e, k) && !OwnAttempt(Next(y, e), e, k)
  {
    NextKeepsSound(y, e);
    UnlimitedIsWaiting(y, e, k);
    UnlimitedGives(Next(y, e), e, k);
  }

  /** So without a limit two calls in a row return the same key twice. */
  lemma UnlimitedReturnsTwice()
    ensures
      var e: Event<nat> := AddRunning(0, ["ns/a"], [7]);
      && Sound(Start<nat>()) && Enabled(Start<nat>(), e) && Enabled(Next(Start<nat>(), e), e)
      && "ns/a" in Given(Start<nat>(), e) && "ns/a" in Given(Next(Start<nat>(), e), e)
      && !TakesOut(Next(Start<nat>(), e), e, "ns/a") && !OwnAttempt(Next(Start<nat>(), e), e, "ns/a")
  {
    var e: Event<nat> := AddRunning(0, ["ns/a"], [7]);
    var q0 := NewQueue(0);
    var entry := Entry("ns/a", 7, 0);
    var q1 := Add(q0, "ns/a", 7);
    assert q1 == Queue(0, [entry], map[], 1);
    AddListOne(q0, "ns/a", 7);
    assert entry in q1.pending;
    assert IsPending(q1, "ns/a");
    assert Resize(q1, 0) == q1;
    AddListOne(q1, "ns/a", 7);
    var first := AddListToRunningQueue(Start<nat>().repo, 0, ["ns/a"], [7]);
    assert first.0.queue == Some(q1) && first.1[0] == "ns/a";
    var second := AddListToRunningQueue(first.0, 0, ["ns/a"], [7]);
    assert second.1[0] == "ns/a";
  }

  lemma AddListOne(q: Queue, key: string, now: int)
    ensures AddList(q, [key], [now]) == Add(q, key, now)
  {
    assert AddList(Add(q, key, now), [key][1..], [now][1..]) == Add(q, key, now);
  }
}
