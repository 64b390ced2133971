/** The manager and its workers as a transition system: every Manager method is one
    step, and between steps workers change their private copies of leases. */
module AdmissionSystem {
  import opened Wrappers
  import opened Admissions
  import opened AdmissionInvariant
  import opened AdmissionSteps
  import opened AdmissionRuns

  datatype System<Id> = System(repo: Repo<Id>, leases: map<Id, seq<Candidate>>)

  datatype Event<Id> =
    | Acquire(limit: nat, owner: Owner, list: seq<string>, clock: seq<int>, mode: Mode, newId: Id)
    | Work(id: Id, candidates: seq<Candidate>)
    | Finish(id: Id)
    | Forget(owner: Owner)
    | AddRunning(limit: nat, list: seq<string>, clock: seq<int>)
    | AddPending(limit: nat, list: seq<string>, clock: seq<int>)
    | Remove(key: string)
    | RemoveTaking(key: string)
    | RemoveAll

  /** A worker sets uid and outcome and may mark a candidate attempted; it does not
      change keys and never takes an attempt back. */
  ghost predicate WorkerMay(before: seq<Candidate>, after: seq<Candidate>) {
    |before| == |after| &&
    forall i :: 0 <= i < |before| ==>
      && after[i] == before[i].(uid := after[i].uid, attempted := after[i].attempted, outcome := after[i].outcome)
      && (before[i].attempted ==> after[i].attempted)
  }

  ghost predicate Enabled<Id>(y: System<Id>, e: Event<Id>) {
    match e
    case Acquire(limit, owner, list, clock, mode, newId) =>
      newId !in y.repo.records && "" !in list && |list| <= |clock|
    case Work(id, cs) => id in y.leases && WorkerMay(y.leases[id], cs)
    case Finish(id) => id in y.leases && id in y.repo.records
    case AddRunning(limit, list, clock) => "" !in list && |list| <= |clock|
    case AddPending(limit, list, clock) => "" !in list && |list| <= |clock|
    case _ => true
  }

  ghost function Next<Id>(y: System<Id>, e: Event<Id>): System<Id>
    requires Enabled(y, e)
  {
    match e
    case Acquire(limit, owner, list, clock, mode, newId) =>
      var (t, reply) := AcquireAdmission(y.repo, limit, owner, list, clock, mode, newId);
      System(t, if reply.Leased? then y.leases[reply.id := reply.candidates] else y.leases)
    case Work(id, cs) => y.(leases := y.leases[id := cs])
    case Finish(id) => System(FinishAdmission(y.repo, id, y.leases[id]).0, y.leases - {id})
    case Forget(owner) => y.(repo := ForgetAdmission(y.repo, owner))
    case AddRunning(limit, list, clock) => y.(repo := AddListToRunningQueue(y.repo, limit, list, clock).0)
    case AddPending(limit, list, clock) => y.(repo := AddToPendingQueue(y.repo, limit, list, clock))
    case Remove(key) => y.(repo := RemoveFromQueue(y.repo, key))
    case RemoveTaking(key) => y.(repo := RemoveAndTake(y.repo, key).0)
    case RemoveAll => y.(repo := RemoveRepository(y.repo))
  }

  ghost predicate Behaves<Id>(y: System<Id>, events: seq<Event<Id>>)
    decreases |events|
  {
    events == [] || (Enabled(y, events[0]) && Behaves(Next(y, events[0]), events[1..]))
  }

  ghost function After<Id>(y: System<Id>, events: seq<Event<Id>>): System<Id>
    requires Behaves(y, events)
    decreases |events|
  {
    if events == [] then y else After(Next(y, events[0]), events[1..])
  }

  ghost function Start<Id>(): System<Id> {
    System(NewRepo(), map[])
  }

  // ---------- the invariant of all runs ----------

  /** The worker's copy knows every attempt that the record knows. */
  ghost predicate Remembers<Id>(s: Repo<Id>, id: Id, cs: seq<Candidate>)
    requires id in s.records
  {
    forall c, l :: c in s.records[id].candidates && l in cs && c.key == l.key && c.attempted ==> l.attempted
  }

  ghost predicate LeaseSound<Id>(s: Repo<Id>, id: Id, cs: seq<Candidate>) {
    LeaseOk(s, id, cs) && (IsLive(s, id) ==> Remembers(s, id, cs))
  }

  ghost predicate Sound<Id>(y: System<Id>) {
    Consistent(y.repo) && forall id :: id in y.leases ==> LeaseSound(y.repo, id, y.leases[id])
  }

  lemma LeaseSurvives<Id>(s: Repo<Id>, t: Repo<Id>, id: Id, cs: seq<Candidate>)
    requires LeaseSound(s, id, cs) && id in t.records && Undisturbed(s, t, id)
    ensures LeaseSound(t, id, cs)
  {
  }

  lemma LeasesSurvive<Id>(y: System<Id>, t: Repo<Id>, actor: Option<Id>)
    requires Sound(y) && OthersUndisturbed(y.repo, t, actor)
    ensures forall id :: id in y.leases && Some(id) != actor ==> LeaseSound(t, id, y.leases[id])
  {
    forall id | id in y.leases && Some(id) != actor ensures LeaseSound(t, id, y.leases[id]) {
      assert LeaseSound(y.repo, id, y.leases[id]);
      LeaseSurvives(y.repo, t, id, y.leases[id]);
    }
  }

  lemma NewLeaseRemembers<Id>(s: Repo<Id>, id: Id)
    requires Consistent(s) && IsLive(s, id)
    ensures Remembers(s, id, ReservedOnly(s.records[id].candidates))
  {
    LiveRecord(s, id);
    var cs := s.records[id].candidates;
    ReservedMembers(cs);
    DistinctCandidates(s.queue.value, cs);
    forall c, l | c in cs && l in ReservedOnly(cs) && c.key == l.key && c.attempted ensures l.attempted {
      var i :| 0 <= i < |cs| && cs[i] == c;
      var j :| 0 <= j < |cs| && cs[j] == l;
    }
  }

  lemma AcquireKeepsSound<Id>(y: System<Id>, e: Event<Id>)
    requires Sound(y) && e.Acquire? && Enabled(y, e)
    ensures Sound(Next(y, e))
  {
    AcquireAdmissionKeeps(y.repo, e.limit, e.owner, e.list, e.clock, e.mode, e.newId);
    AcquireUndisturbed(y.repo, e.limit, e.owner, e.list, e.clock, e.mode, e.newId);
    AcquireLease(y.repo, e.limit, e.owner, e.list, e.clock, e.mode, e.newId);
    AcquireReplies(y.repo, e.limit, e.owner, e.list, e.clock, e.mode, e.newId);
    var (t, reply) := AcquireAdmission(y.repo, e.limit, e.owner, e.list, e.clock, e.mode, e.newId);
    var actor := Actor(y.repo, e.owner, e.newId);
    LeasesSurvive(y, t, Some(actor));
    if reply.Leased? {
      NewLeaseRemembers(t, actor);
    } else if actor in y.leases {
      assert LeaseSound(y.repo, actor, y.leases[actor]);
      ActorNotLeased(y, e);
    }
  }

  /** Without a lease, an admission whose record is leased is not touched. */
  lemma ActorNotLeased<Id>(y: System<Id>, e: Event<Id>)
    requires Sound(y) && e.Acquire? && Enabled(y, e) && Actor(y.repo, e.owner, e.newId) in y.leases
    ensures
      var (t, reply) := AcquireAdmission(y.repo, e.limit, e.owner, e.list, e.clock, e.mode, e.newId);
      t == y.repo && !reply.Leased?
  {
    var actor := Actor(y.repo, e.owner, e.newId);
    assert LeaseSound(y.repo, actor, y.leases[actor]);
    assert OwnerKey(e.owner) in y.repo.admissions;
    assert OwnerOk(y.repo, OwnerKey(e.owner));
  }

  lemma WorkRemembers<Id>(s: Repo<Id>, id: Id, before: seq<Candidate>, after: seq<Candidate>)
    requires id in s.records && Remembers(s, id, before) && WorkerMay(before, after)
    ensures Remembers(s, id, after)
  {
    forall c, l | c in s.records[id].candidates && l in after && c.key == l.key && c.attempted ensures l.attempted {
      var i :| 0 <= i < |after| && after[i] == l;
      assert before[i] in before && before[i].key == l.key;
    }
  }

  lemma WorkReserves(before: seq<Candidate>, after: seq<Candidate>)
    requires WorkerMay(before, after) && forall c :: c in before ==> c.reserved
    ensures forall c :: c in after ==> c.reserved
  {
    forall c | c in after ensures c.reserved {
      var i :| 0 <= i < |after| && after[i] == c;
      assert before[i] in before;
    }
  }

  lemma WorkKeepsLease<Id>(s: Repo<Id>, id: Id, before: seq<Candidate>, after: seq<Candidate>)
    requires LeaseSound(s, id, before) && WorkerMay(before, after)
    ensures LeaseSound(s, id, after) && CandidateKeys(after) == CandidateKeys(before)
  {
    SameLeaseKeys(before, after);
    WorkReserves(before, after);
    if IsLive(s, id) {
      WorkRemembers(s, id, before, after);
    }
  }

  lemma WorkKeepsSound<Id>(y: System<Id>, e: Event<Id>)
    requires Sound(y) && e.Work? && Enabled(y, e)
    ensures Sound(Next(y, e))
  {
    assert LeaseSound(y.repo, e.id, y.leases[e.id]);
    WorkKeepsLease(y.repo, e.id, y.leases[e.id], e.candidates);
  }

  lemma {:induction false} SameLeaseKeys(before: seq<Candidate>, after: seq<Candidate>)
    requires |before| == |after| && forall i :: 0 <= i < |before| ==> after[i].key == before[i].key
    requires DistinctLease(before)
    ensures DistinctLease(after) && CandidateKeys(after) == CandidateKeys(before)
  {
    if before != [] {
      LeaseHeadTail(before);
      SameLeaseKeys(before[1..], after[1..]);
      assert after == [after[0]] + after[1..];
    }
  }

  lemma FinishKeepsSound<Id>(y: System<Id>, e: Event<Id>)
    requires Sound(y) && e.Finish? && Enabled(y, e)
    ensures Sound(Next(y, e))
  {
    assert LeaseSound(y.repo, e.id, y.leases[e.id]);
    FinishAdmissionKeeps(y.repo, e.id, y.leases[e.id]);
    FinishUndisturbed(y.repo, e.id, y.leases[e.id]);
    LeasesSurvive(y, FinishAdmission(y.repo, e.id, y.leases[e.id]).0, Some(e.id));
  }

  lemma OthersKeepSound<Id>(y: System<Id>, e: Event<Id>)
    requires Sound(y) && Enabled(y, e) && (e.Forget? || e.AddRunning? || e.AddPending?)
    ensures Sound(Next(y, e))
  {
    var s := y.repo;
    var t := Next(y, e).repo;
    match e {
      case Forget(owner) => ForgetAdmissionKeeps(s, owner);
      case AddPending(limit, list, clock) => AddToPendingKeeps(s, limit, list, clock);
      case AddRunning(limit, list, clock) =>
        AddToPendingKeeps(s, limit, list, clock);
        TakeUnownedKeeps(AddToPendingQueue(s, limit, list, clock), limit);
    }
    SameRecords(s, t, None);
    LeasesSurvive(y, t, None);
  }

  lemma RemovalsKeepSound<Id>(y: System<Id>, e: Event<Id>)
    requires Sound(y) && Enabled(y, e) && (e.Remove? || e.RemoveTaking? || e.RemoveAll?)
    ensures Sound(Next(y, e))
  {
    var s := y.repo;
    var t := Next(y, e).repo;
    if e.RemoveAll? {
      RemoveRepositoryKeeps(s);
      SameRecords(s, t, None);
    } else if s.queue.None? {
      SameRecords(s, s, None);
    } else {
      var u := RemoveFromQueue(s, e.key);
      RemoveFromQueueKeeps(s, e.key);
      LossIsUndisturbed(s, u, e.key, None);
      if e.RemoveTaking? {
        AcquireUnownedKeeps(u);
        SameRecords(u, t, None);
        UndisturbedTwice(s, u, t, None);
      }
    }
    LeasesSurvive(y, t, None);
  }

  /** Every step of every interleaving keeps claims, candidates, reservations, order
      and leases consistent. */
  lemma NextKeepsSound<Id>(y: System<Id>, e: Event<Id>)
    requires Sound(y) && Enabled(y, e)
    ensures Sound(Next(y, e))
  {
    if e.Acquire? {
      AcquireKeepsSound(y, e);
    } else if e.Work? {
      WorkKeepsSound(y, e);
    } else if e.Finish? {
      FinishKeepsSound(y, e);
    } else if e.Forget? || e.AddRunning? || e.AddPending? {
      OthersKeepSound(y, e);
    } else {
      RemovalsKeepSound(y, e);
    }
  }

  lemma {:induction false} RunKeepsSound<Id>(y: System<Id>, events: seq<Event<Id>>)
    requires Sound(y) && Behaves(y, events)
    ensures Sound(After(y, events))
    decreases |events|
  {
    if events != [] {
      NextKeepsSound(y, events[0]);
      RunKeepsSound(Next(y, events[0]), events[1..]);
    }
  }

  lemma StartIsSound<Id>()
    ensures Sound(Start<Id>())
  {
  }
}
