/** What the steps of the admission protocol leave behind: where candidates come from,
    who keeps a claim, and that a limit that stays is never exceeded. */
module AdmissionEffects {
  import opened Semaphores
  import opened Admissions
  import opened AdmissionInvariant
  import opened AdmissionSteps
  import opened AdmissionRuns
  import opened AdmissionSystem
  import opened AdmissionProperties

  // ---------- where candidates come from ----------

  predicate IsNew(c: Candidate) {
    c == Candidate(c.key, "", false, Retry, true)
  }

  /** The candidate was there, perhaps without its reservation. */
  predicate Known(cs: seq<Candidate>, c: Candidate) {
    c in cs || c.(reserved := false) in cs
  }

  lemma {:induction false} ReacquireOrigin(q: Queue, cs: seq<Candidate>, i: nat)
    ensures OnlyReserves(cs, Reacquire(q, cs, i).1)
    decreases |cs| - i
  {
    if i < |cs| {
      if !cs[i].reserved && NextPending(q) == cs[i].key {
        var (q', got) := AcquireLatest(q);
        var cs' := if got != "" then cs[i := cs[i].(reserved := true)] else cs;
        ReacquireOrigin(q', cs', i + 1);
        var ds := Reacquire(q', cs', i + 1).1;
        assert forall j :: 0 <= j < |cs| ==> Reserved(cs[j], cs'[j]) && Reserved(cs'[j], ds[j]);
      } else {
        ReacquireOrigin(q, cs, i + 1);
      }
    }
  }

  lemma ReservesKnown(cs: seq<Candidate>, ds: seq<Candidate>, c: Candidate)
    requires OnlyReserves(cs, ds) && c in ds
    ensures Known(cs, c)
  {
    var j :| 0 <= j < |ds| && ds[j] == c;
    assert Reserved(cs[j], ds[j]) && cs[j] in cs;
    if cs[j] != c {
      assert cs[j] == c.(reserved := false);
    }
  }

  lemma {:induction false} FillOrigin<Id>(b: Batch<Id>, id: Id, limit: nat)
    ensures forall c :: c in Fill(b, id, limit).candidates ==> c in b.candidates || IsNew(c)
    ensures forall k :: k in b.claims ==> k in Fill(b, id, limit).claims && Fill(b, id, limit).claims[k] == b.claims[k]
    decreases |b.queue.pending|
  {
    if limit != 0 && |b.candidates| >= limit {
    } else if NextPending(b.queue) in b.claims {
    } else if AcquireLatest(b.queue).1 != "" {
      FillOrigin(FillStep(b, id), id, limit);
    }
  }

  /** Every candidate of the record is new or was known to it. */
  ghost predicate Origin<Id>(s: Repo<Id>, t: Repo<Id>, id: Id) {
    id in s.records && id in t.records &&
    forall c :: c in t.records[id].candidates ==> IsNew(c) || Known(s.records[id].candidates, c)
  }

  ghost predicate ClaimsKept<Id>(s: Repo<Id>, t: Repo<Id>, except: set<string>) {
    forall k :: k in s.claims ==> (k in t.claims && t.claims[k] == s.claims[k]) || k in except
  }

  lemma GrantCandidates<Id>(s: Repo<Id>, id: Id, list: seq<string>, clock: seq<int>)
    requires s.queue.Some? && id in s.records && |list| <= |clock|
    ensures Origin(s, Grant(s, id, list, clock).0, id)
  {
    var r := s.records[id];
    var (q, cs) := Reacquire(AddList(s.queue.value, list, clock), r.candidates, 0);
    ReacquireOrigin(AddList(s.queue.value, list, clock), r.candidates, 0);
    FillOrigin(Batch(q, s.claims, [], false), id, if r.promotion then 1 else q.limit);
    forall c | c in cs ensures Known(r.candidates, c) {
      ReservesKnown(r.candidates, cs, c);
    }
  }

  lemma GrantOrigin<Id>(s: Repo<Id>, id: Id, list: seq<string>, clock: seq<int>)
    requires s.queue.Some? && id in s.records && |list| <= |clock|
    ensures Origin(s, Grant(s, id, list, clock).0, id)
    ensures ClaimsKept(s, Grant(s, id, list, clock).0, {})
  {
    GrantCandidates(s, id, list, clock);
    var r := s.records[id];
    var (q, cs) := Reacquire(AddList(s.queue.value, list, clock), r.candidates, 0);
    FillOrigin(Batch(q, s.claims, [], false), id, if r.promotion then 1 else q.limit);
  }

  lemma EnterOrigin<Id>(s: Repo<Id>, id: Id, owner: Owner, list: seq<string>, clock: seq<int>, mode: Mode)
    requires Consistent(s) && s.queue.Some? && IsLive(s, id) && |list| <= |clock|
    ensures Origin(s, Enter(s, id, owner, list, clock, mode).0, id)
    ensures ClaimsKept(s, Enter(s, id, owner, list, clock, mode).0,
                       if mode.Resume? && owner.finishing then {owner.key} else {})
  {
    LiveRecord(s, id);
    if s.records[id].promotion == mode.Promotion? {
      if mode.Resume? && owner.finishing && InQueue(s.queue.value, owner.key) {
        ReleaseOwnerSource(s, id, owner.key);
        GrantOrigin(ReleaseOwner(s, id, owner.key), id, list, clock);
      } else {
        GrantOrigin(s, id, list, clock);
      }
    }
  }

  /** What the owner's record holds before an admission: nothing if there is none. */
  function CandidatesBefore<Id>(s: Repo<Id>, id: Id): seq<Candidate> {
    if id in s.records then s.records[id].candidates else []
  }

  lemma AcquireOrigin<Id>(
    s: Repo<Id>, limit: nat, owner: Owner, list: seq<string>, clock: seq<int>, mode: Mode, newId: Id)
    requires Consistent(s) && newId !in s.records && |list| <= |clock|
    ensures
      var t, id := AcquireAdmission(s, limit, owner, list, clock, mode, newId).0, Actor(s, owner, newId);
      && (id in t.records ==>
            forall c :: c in t.records[id].candidates ==> IsNew(c) || Known(CandidatesBefore(s, id), c))
      && ClaimsKept(s, t, if ReleasesOwner(owner, mode) then {owner.key} else {})
  {
    AcquireForm(s, limit, owner, list, clock, mode, newId);
    OpenQueueKeeps(s, limit);
    if OwnerKey(owner) in s.admissions {
      assert OwnerOk(s, OwnerKey(owner));
      EnterOrigin(OpenQueue(s, limit), s.admissions[OwnerKey(owner)], owner, list, clock, mode);
    } else {
      RegisteredKeeps(s, limit, owner, mode, newId);
      EnterOrigin(Registered(s, limit, owner, mode, newId), newId, owner, list, clock, mode);
      RegisteredClaims(s, limit, owner, mode, newId);
    }
  }

  lemma RegisteredClaims<Id>(s: Repo<Id>, limit: nat, owner: Owner, mode: Mode, newId: Id)
    requires Consistent(s)
    ensures ClaimsKept(s, Registered(s, limit, owner, mode, newId), if mode.Promotion? then {owner.key} else {})
  {
    OpenQueueKeeps(s, limit);
    if mode.Promotion? {
      RemoveFromQueueKeeps(OpenQueue(s, limit), owner.key);
    }
  }

  lemma {:induction false} ReplaceOrigin(cs: seq<Candidate>, x: Candidate)
    ensures forall c :: c in ReplaceCandidate(cs, x) ==> c in cs || c == x
  {
    if cs != [] {
      assert cs == [cs[0]] + cs[1..];
      ReplaceOrigin(cs[1..], x);
    }
  }

  lemma FinishOneOrigin<Id>(s: Repo<Id>, id: Id, x: Candidate)
    requires s.queue.Some? && id in s.records && s.records[id].busy && x.reserved
    ensures var t := FinishOne(s, id, x).0;
      id in t.records &&
      forall c :: c in t.records[id].candidates ==>
        c in s.records[id].candidates || (c.outcome.Retry? && c.(reserved := true) == x)
  {
    if x.key in s.claims && s.claims[x.key] == id && !x.outcome.Retry? {
      ForgetBusy(s, id, x.key);
      WithoutCandidateMembers(s.records[id].candidates, x.key);
    } else {
      ReplaceOrigin(s.records[id].candidates, x);
      ReplaceOrigin(s.records[id].candidates, x.(reserved := false));
    }
  }

  lemma {:induction false} FinishAllOrigin<Id>(s: Repo<Id>, id: Id, cs: seq<Candidate>)
    requires s.queue.Some? && id in s.records && s.records[id].busy && forall c :: c in cs ==> c.reserved
    ensures var t := FinishAll(s, id, cs).0;
      id in t.records &&
      forall c :: c in t.records[id].candidates ==>
        c in s.records[id].candidates || (c.outcome.Retry? && c.(reserved := true) in cs)
    decreases |cs|
  {
    if cs != [] {
      FinishOneForm(s, id, cs[0]);
      FinishOneOrigin(s, id, cs[0]);
      FinishAllOrigin(FinishOne(s, id, cs[0]).0, id, cs[1..]);
    }
  }

  lemma FinishOrigin<Id>(s: Repo<Id>, id: Id, cs: seq<Candidate>)
    requires Consistent(s) && LeaseOk(s, id, cs)
    ensures var t := FinishAdmission(s, id, cs).0;
      IsLive(t, id) ==>
        && IsLive(s, id)
        && forall c :: c in t.records[id].candidates ==>
             c in s.records[id].candidates || (c.outcome.Retry? && c.(reserved := true) in cs)
  {
    if IsLive(s, id) {
      LiveRecord(s, id);
      FinishAllOrigin(s, id, cs);
    }
  }

  // ---------- who loses a claim ----------

  /** Claims only go with the owner's key, with a finished lease, or with a removal. */
  ghost predicate ClaimTaken<Id>(y: System<Id>, e: Event<Id>, id: Id, k: string) {
    match e
    case Acquire(_, owner, _, _, mode, _) => k == owner.key && ReleasesOwner(owner, mode)
    case Finish(done) => done == id
    case Remove(key) => key == k
    case RemoveTaking(key) => key == k
    case _ => false
  }

  lemma RemovedClaim<Id>(s: Repo<Id>, key: string, k: string)
    requires k in s.claims && k != key
    ensures k in RemoveFromQueue(s, key).claims && RemoveFromQueue(s, key).claims[k] == s.claims[k]
  {
  }

  lemma TakingKeepsClaims<Id>(s: Repo<Id>, key: string)
    ensures RemoveAndTake(s, key).0.claims == RemoveFromQueue(s, key).claims
  {
  }

  lemma AddedClaims<Id>(s: Repo<Id>, limit: nat, list: seq<string>, clock: seq<int>)
    requires Consistent(s) && "" !in list && |list| <= |clock|
    ensures AddListToRunningQueue(s, limit, list, clock).0.claims == s.claims
  {
    AddToPendingKeeps(s, limit, list, clock);
    TakeUnownedKeeps(AddToPendingQueue(s, limit, list, clock), limit);
  }

  lemma AcquiredClaim<Id>(y: System<Id>, e: Event<Id>, id: Id, k: string)
    requires Sound(y) && Enabled(y, e) && e.Acquire? && Claimed(y.repo, id, k)
    ensures Claimed(Next(y, e).repo, id, k) || ClaimTaken(y, e, id, k)
  {
    AcquireOrigin(y.repo, e.limit, e.owner, e.list, e.clock, e.mode, e.newId);
  }

  lemma FinishedClaim<Id>(y: System<Id>, e: Event<Id>, id: Id, k: string)
    requires Sound(y) && Enabled(y, e) && e.Finish? && Claimed(y.repo, id, k)
    ensures Claimed(Next(y, e).repo, id, k) || ClaimTaken(y, e, id, k)
  {
    FinishConservesKeys(y, e, k);
  }

  lemma RemovedClaims<Id>(y: System<Id>, e: Event<Id>, id: Id, k: string)
    requires (e.Remove? || e.RemoveTaking?) && Enabled(y, e) && e.key != k && Claimed(y.repo, id, k)
    ensures Claimed(Next(y, e).repo, id, k)
  {
    RemovedClaim(y.repo, e.key, k);
    TakingKeepsClaims(y.repo, e.key);
  }

  lemma AddingKeepsClaims<Id>(y: System<Id>, e: Event<Id>, id: Id, k: string)
    requires Sound(y) && Enabled(y, e) && Claimed(y.repo, id, k)
    requires e.Work? || e.Forget? || e.AddRunning? || e.AddPending?
    ensures Claimed(Next(y, e).repo, id, k)
  {
    if e.AddRunning? {
      AddedClaims(y.repo, e.limit, e.list, e.clock);
    }
  }

  lemma ClaimLeavesOnlyBy<Id>(y: System<Id>, e: Event<Id>, id: Id, k: string)
    requires Sound(y) && Enabled(y, e) && !e.RemoveAll? && Claimed(y.repo, id, k)
    ensures Claimed(Next(y, e).repo, id, k) || ClaimTaken(y, e, id, k)
  {
    if e.Acquire? {
      AcquiredClaim(y, e, id, k);
    } else if e.Finish? {
      FinishedClaim(y, e, id, k);
    } else if e.Remove? || e.RemoveTaking? {
      if e.key != k { RemovedClaims(y, e, id, k); }
    } else {
      AddingKeepsClaims(y, e, id, k);
    }
  }

  // ---------- the limit ----------

  /** The limit is at most n now, and so is the running set, whatever the limit was. */
  predicate Bounded(q: Queue, n: nat) {
    0 < q.limit <= n && |q.running| <= n
  }

  lemma ShrunkBounded(q: Queue, n: nat, key: string)
    requires Bounded(q, n)
    ensures Bounded(Release(q, key), n) && Bounded(Drop(Release(q, key), key), n) && Bounded(Requeue(q, key), n)
  {
    ShrinkingKeys(q.running, key);
  }

  lemma AcquireBounded(q: Queue, n: nat)
    requires Bounded(q, n)
    ensures Bounded(AcquireLatest(q).0, n)
  {
  }

  lemma {:induction false} AddListBounded(q: Queue, list: seq<string>, clock: seq<int>, n: nat)
    requires Bounded(q, n) && |list| <= |clock|
    ensures Bounded(AddList(q, list, clock), n)
    decreases |list|
  {
    if list != [] {
      AddListBounded(Add(q, list[0], clock[0]), list[1..], clock[1..], n);
    }
  }

  lemma {:induction false} ReacquireBounded(q: Queue, cs: seq<Candidate>, i: nat, n: nat)
    requires Bounded(q, n)
    ensures Bounded(Reacquire(q, cs, i).0, n)
    decreases |cs| - i
  {
    if i < |cs| {
      if !cs[i].reserved && NextPending(q) == cs[i].key {
        AcquireBounded(q, n);
        var (q', got) := AcquireLatest(q);
        ReacquireBounded(q', if got != "" then cs[i := cs[i].(reserved := true)] else cs, i + 1, n);
      } else {
        ReacquireBounded(q, cs, i + 1, n);
      }
    }
  }

  lemma {:induction false} FillBounded<Id>(b: Batch<Id>, id: Id, limit: nat, n: nat)
    requires Bounded(b.queue, n)
    ensures Bounded(Fill(b, id, limit).queue, n)
    decreases |b.queue.pending|
  {
    if limit != 0 && |b.candidates| >= limit {
    } else if NextPending(b.queue) in b.claims {
    } else {
      AcquireBounded(b.queue, n);
      if AcquireLatest(b.queue).1 != "" {
        FillBounded(FillStep(b, id), id, limit, n);
      }
    }
  }

  ghost predicate RepoBounded<Id>(s: Repo<Id>, n: nat) {
    s.queue.Some? ==> Bounded(s.queue.value, n)
  }

  lemma GrantBounded<Id>(s: Repo<Id>, id: Id, list: seq<string>, clock: seq<int>, n: nat)
    requires s.queue.Some? && id in s.records && |list| <= |clock| && RepoBounded(s, n)
    ensures RepoBounded(Grant(s, id, list, clock).0, n)
  {
    var r := s.records[id];
    var q := AddList(s.queue.value, list, clock);
    AddListBounded(s.queue.value, list, clock, n);
    ReacquireBounded(q, r.candidates, 0, n);
    var q' := Reacquire(q, r.candidates, 0).0;
    FillBounded(Batch(q', s.claims, [], false), id, if r.promotion then 1 else q'.limit, n);
  }

  lemma RemoveBounded<Id>(s: Repo<Id>, key: string, n: nat)
    requires RepoBounded(s, n)
    ensures RepoBounded(RemoveFromQueue(s, key), n)
  {
    if s.queue.Some? {
      ShrunkBounded(s.queue.value, n, key);
    }
  }

  lemma EnterBounded<Id>(s: Repo<Id>, id: Id, owner: Owner, list: seq<string>, clock: seq<int>, mode: Mode, n: nat)
    requires Consistent(s) && s.queue.Some? && IsLive(s, id) && |list| <= |clock| && RepoBounded(s, n)
    ensures RepoBounded(Enter(s, id, owner, list, clock, mode).0, n)
  {
    LiveRecord(s, id);
    if s.records[id].promotion == mode.Promotion? {
      if mode.Resume? && owner.finishing && InQueue(s.queue.value, owner.key) {
        ReleaseOwnerSource(s, id, owner.key);
        ShrunkBounded(s.queue.value, n, owner.key);
        GrantBounded(ReleaseOwner(s, id, owner.key), id, list, clock, n);
      } else {
        GrantBounded(s, id, list, clock, n);
      }
    }
  }

  lemma OpenBounded<Id>(s: Repo<Id>, limit: nat, n: nat)
    requires RepoBounded(s, n) && 0 < limit <= n
    ensures RepoBounded(OpenQueue(s, limit), n)
  {
  }

  lemma AcquireAdmissionBounded<Id>(
    s: Repo<Id>, limit: nat, owner: Owner, list: seq<string>, clock: seq<int>, mode: Mode, newId: Id, n: nat)
    requires Consistent(s) && newId !in s.records && |list| <= |clock| && RepoBounded(s, n) && 0 < limit <= n
    ensures RepoBounded(AcquireAdmission(s, limit, owner, list, clock, mode, newId).0, n)
  {
    AcquireForm(s, limit, owner, list, clock, mode, newId);
    OpenQueueKeeps(s, limit);
    OpenBounded(s, limit, n);
    if OwnerKey(owner) in s.admissions {
      assert OwnerOk(s, OwnerKey(owner));
      EnterBounded(OpenQueue(s, limit), s.admissions[OwnerKey(owner)], owner, list, clock, mode, n);
    } else {
      RegisteredKeeps(s, limit, owner, mode, newId);
      RemoveBounded(OpenQueue(s, limit), owner.key, n);
      EnterBounded(Registered(s, limit, owner, mode, newId), newId, owner, list, clock, mode, n);
    }
  }

  lemma {:induction false} FinishAllBounded<Id>(s: Repo<Id>, id: Id, cs: seq<Candidate>, n: nat)
    requires s.queue.Some? && id in s.records && s.records[id].busy && RepoBounded(s, n)
    ensures RepoBounded(FinishAll(s, id, cs).0, n)
    decreases |cs|
  {
    if cs != [] {
      FinishOneForm(s, id, cs[0]);
      ShrunkBounded(s.queue.value, n, cs[0].key);
      if cs[0].key in s.claims && s.claims[cs[0].key] == id && !cs[0].outcome.Retry? {
        ForgetBusy(s, id, cs[0].key);
      }
      FinishAllBounded(FinishOne(s, id, cs[0]).0, id, cs[1..], n);
    }
  }

  lemma {:induction false} TakeUnownedBounded<Id>(s: Repo<Id>, m: nat, n: nat)
    requires s.queue.Some? && RepoBounded(s, n)
    ensures RepoBounded(TakeUnowned(s, m).0, n)
    decreases m
  {
    if m > 0 {
      AcquireBounded(s.queue.value, n);
      TakeUnownedBounded(AcquireUnowned(s).0, m - 1, n);
    }
  }

  lemma PendingBounded<Id>(s: Repo<Id>, limit: nat, list: seq<string>, clock: seq<int>, n: nat)
    requires RepoBounded(s, n) && |list| <= |clock| && 0 < limit <= n
    ensures RepoBounded(AddToPendingQueue(s, limit, list, clock), n)
  {
    AddListBounded(OpenQueue(s, limit).queue.value, list, clock, n);
  }

  lemma AddRunningBounded<Id>(s: Repo<Id>, limit: nat, list: seq<string>, clock: seq<int>, n: nat)
    requires RepoBounded(s, n) && |list| <= |clock| && 0 < limit <= n
    ensures RepoBounded(AddListToRunningQueue(s, limit, list, clock).0, n)
  {
    PendingBounded(s, limit, list, clock, n);
    TakeUnownedBounded(AddToPendingQueue(s, limit, list, clock), limit, n);
  }

  lemma RemoveAndTakeBounded<Id>(s: Repo<Id>, key: string, n: nat)
    requires RepoBounded(s, n)
    ensures RepoBounded(RemoveAndTake(s, key).0, n)
  {
    RemoveBounded(s, key, n);
    if s.queue.Some? {
      AcquireBounded(RemoveFromQueue(s, key).queue.value, n);
    }
  }

  lemma FinishBounded<Id>(s: Repo<Id>, id: Id, cs: seq<Candidate>, n: nat)
    requires Consistent(s) && LeaseOk(s, id, cs) && RepoBounded(s, n)
    ensures RepoBounded(FinishAdmission(s, id, cs).0, n)
  {
    if IsLive(s, id) {
      LiveRecord(s, id);
      FinishForm(s, id, cs);
      FinishAllBounded(s, id, cs, n);
    }
  }

  /** The limit a step brings with it is positive and at most n. */
  ghost predicate LimitWithin<Id>(e: Event<Id>, n: nat) {
    match e
    case Acquire(limit, _, _, _, _, _) => 0 < limit <= n
    case AddRunning(limit, _, _) => 0 < limit <= n
    case AddPending(limit, _, _) => 0 < limit <= n
    case _ => true
  }

  /** While the limit stays positive and within n, however it changes from step to step,
      no step takes more than n keys into the running set. */
  lemma NextBounded<Id>(y: System<Id>, e: Event<Id>, n: nat)
    requires Sound(y) && Enabled(y, e) && LimitWithin(e, n) && RepoBounded(y.repo, n)
    ensures RepoBounded(Next(y, e).repo, n)
  {
    var s := y.repo;
    match e
    case Acquire(limit, owner, list, clock, mode, newId) =>
      AcquireAdmissionBounded(s, limit, owner, list, clock, mode, newId, n);
    case Finish(id) =>
      assert LeaseSound(s, id, y.leases[id]);
      FinishBounded(s, id, y.leases[id], n);
    case AddRunning(limit, list, clock) => AddRunningBounded(s, limit, list, clock, n);
    case AddPending(limit, list, clock) => PendingBounded(s, limit, list, clock, n);
    case Remove(key) => RemoveBounded(s, key, n);
    case RemoveTaking(key) => RemoveAndTakeBounded(s, key, n);
    case _ =>
  }
}
