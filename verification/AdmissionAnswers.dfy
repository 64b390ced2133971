/** What an admission answers to an owner that it knows, what recording a batch leaves of its
    record, and what becomes of a batch owner that released its own slot. */
module AdmissionAnswers {
  import opened Wrappers
  import opened Semaphores
  import opened Admissions
  import opened AdmissionInvariant
  import opened AdmissionSteps
  import opened AdmissionRuns
  import opened AdmissionSystem
  import opened AdmissionProperties
  import opened AdmissionEffects
  import opened HandOff
  import opened Progress

  // ---------- resuming ----------

  /** A candidate whose start was attempted, and which kept its slot. */
  ghost predicate HasAttempted(cs: seq<Candidate>) {
    exists c :: c in cs && c.attempted
  }

  /** The head of the queue is one of the waiting candidates, and there is room for it. */
  ghost predicate HeadIsOwn(q: Queue, cs: seq<Candidate>) {
    Grants(q) && exists c :: c in cs && !c.attempted && c.key == NextPending(q)
  }

  lemma {:induction false} ReacquireNothing(q: Queue, cs: seq<Candidate>, i: nat)
    requires forall c :: c in cs && !c.reserved && c.key == NextPending(q) ==> !Grants(q)
    ensures Reacquire(q, cs, i) == (q, cs)
    decreases |cs| - i
  {
    if i < |cs| {
      assert cs[i] in cs;
      ReacquireNothing(q, cs, i + 1);
    }
  }

  lemma {:induction false} NoneReserved(cs: seq<Candidate>)
    ensures ReservedOnly(cs) == [] <==> forall c :: c in cs ==> !c.reserved
  {
    ReservedMembers(cs);
    if ReservedOnly(cs) != [] {
      assert ReservedOnly(cs)[0] in ReservedOnly(cs);
    }
  }

  /** What was reserved stays so. */
  lemma ReservedStays(cs: seq<Candidate>, ds: seq<Candidate>, c: Candidate)
    requires OnlyReserves(cs, ds) && c in cs && c.reserved
    ensures c in ds
  {
    var j :| 0 <= j < |cs| && cs[j] == c;
    assert Reserved(cs[j], ds[j]);
  }

  /** The record is idle and has candidates: those that were attempted hold slots, the others
      wait. */
  ghost predicate IsResumable(q: Queue, cs: seq<Candidate>) {
    && WellFormed(q) && !InQueue(q, "") && InQueueOrder(q, KeySeq(cs)) && AllPlaced(q, cs)
    && forall c :: c in cs ==> c.attempted == c.reserved
  }

  lemma ReservedAfter(q: Queue, cs: seq<Candidate>)
    requires IsResumable(q, cs)
    ensures ReservedOnly(Reacquire(q, cs, 0).1) != [] <==> HasAttempted(cs) || HeadIsOwn(q, cs)
  {
    var ds := Reacquire(q, cs, 0).1;
    ReacquireOrigin(q, cs, 0);
    NoneReserved(ds);
    if c :| c in cs && c.attempted {
      ReservedStays(cs, ds, c);
    } else if HeadIsOwn(q, cs) {
      var c :| c in cs && !c.attempted && c.key == NextPending(q);
      OwnHeadIsReserved(q, cs, c);
      assert CandidateKeys([]) == {};
    } else {
      ReacquireNothing(q, cs, 0);
    }
  }

  /** What resuming the candidates answers: a lease exactly when one of them was attempted, or the
      head of the queue is one of them and can go; and it holds all that were attempted, only
      own candidates, and leaves none behind that can go. */
  ghost predicate ResumeAnswer<Id>(q: Queue, cs: seq<Candidate>, id: Id, t: Repo<Id>, reply: AcquireReply<Id>) {
    && t.queue.Some?
    && (if HasAttempted(cs) || HeadIsOwn(q, cs) then
          && reply.Leased? && reply.id == id
          && (forall c :: c in cs && c.attempted ==> c in reply.candidates)
          && (forall c :: c in reply.candidates ==> c in cs || c.(reserved := false) in cs)
        else reply == Refused(WaitingToResume) && t.queue == Some(q))
    && (forall c :: c in cs && c.key == NextPending(t.queue.value) ==> !Grants(t.queue.value))
  }

  lemma KnownSource(cs: seq<Candidate>, ds: seq<Candidate>, c: Candidate)
    requires OnlyReserves(cs, ds) && c in ReservedOnly(ds)
    ensures c in cs || c.(reserved := false) in cs
  {
    ReservedMembers(ds);
    ReservesKnown(cs, ds, c);
  }

  /** After resuming, the head is not a waiting candidate that could go; and a candidate that
      runs is no head. */
  lemma NoneCanGo(q: Queue, cs: seq<Candidate>, c: Candidate)
    requires IsResumable(q, cs) && c in cs
    ensures var q' := Reacquire(q, cs, 0).0; c.key == NextPending(q') ==> !Grants(q')
  {
    var (q', ds) := Reacquire(q, cs, 0);
    ReacquireIsMaximal(q, cs, 0);
    ReacquireOrigin(q, cs, 0);
    ReacquireEffect(q, cs, 0);
    var j :| 0 <= j < |cs| && cs[j] == c;
    assert Reserved(cs[j], ds[j]) && ds[j] in ds;
    if ds[j].reserved && Grants(q') && c.key == NextPending(q') {
      assert Placed(q', ds[j]);
      assert q'.pending[0] in q'.pending;
    }
  }

  lemma AddedIsResumable<Id>(s: Repo<Id>, id: Id, list: seq<string>, clock: seq<int>)
    requires Consistent(s) && IsLive(s, id) && !s.records[id].busy && "" !in list && |list| <= |clock|
    ensures s.queue.Some? && IsResumable(AddList(s.queue.value, list, clock), s.records[id].candidates)
  {
    LiveRecord(s, id);
    AddListKeeps(s, list, clock);
    AddListEffect(s.queue.value, list, clock);
    LiveRecord(s.(queue := Some(AddList(s.queue.value, list, clock))), id);
    assert forall c :: c in s.records[id].candidates ==> Settled(s.records[id], c);
  }

  lemma BatchAnswers<Id>(s: Repo<Id>, id: Id, q: Queue, cs: seq<Candidate>)
    requires id in s.records && IsResumable(q, cs) && cs != []
    ensures var (q', ds) := Reacquire(q, cs, 0);
      var (t, reply) := ResumeBatch(s, id, q', ds);
      ResumeAnswer(q, cs, id, t, reply)
  {
    var (q', ds) := Reacquire(q, cs, 0);
    ReacquireOrigin(q, cs, 0);
    ReservedAfter(q, cs);
    ReservedMembers(ds);
    forall c | c in cs && c.attempted ensures c in ReservedOnly(ds) {
      ReservedStays(cs, ds, c);
    }
    forall c | c in ReservedOnly(ds) ensures c in cs || c.(reserved := false) in cs {
      KnownSource(cs, ds, c);
    }
    forall c | c in cs && c.key == NextPending(q') ensures !Grants(q') {
      NoneCanGo(q, cs, c);
    }
    if !HasAttempted(cs) && !HeadIsOwn(q, cs) {
      ReacquireNothing(q, cs, 0);
    }
  }

  /** The answer to a record with candidates. */
  lemma GrantResumes<Id>(s: Repo<Id>, id: Id, list: seq<string>, clock: seq<int>)
    requires Consistent(s) && IsLive(s, id) && !s.records[id].busy && s.records[id].candidates != []
    requires "" !in list && |list| <= |clock|
    ensures s.queue.Some?
    ensures var (t, reply) := Grant(s, id, list, clock);
      ResumeAnswer(AddList(s.queue.value, list, clock), s.records[id].candidates, id, t, reply)
  {
    AddedIsResumable(s, id, list, clock);
    var q, cs := AddList(s.queue.value, list, clock), s.records[id].candidates;
    ReacquireLength(q, cs, 0);
    BatchAnswers(s, id, q, cs);
  }

  lemma GrantEmpty<Id>(s: Repo<Id>, id: Id, list: seq<string>, clock: seq<int>)
    requires s.queue.Some? && id in s.records && s.records[id].candidates == [] && s.records[id].done
    requires |list| <= |clock|
    ensures var (t, reply) := Grant(s, id, list, clock);
      reply == Leased(id, []) && t.queue == Some(AddList(s.queue.value, list, clock))
  {
  }

  lemma RemovedRecord<Id>(s: Repo<Id>, key: string, id: Id)
    requires s.queue.Some? && id in s.records && (key in s.claims ==> s.claims[key] in s.records)
    ensures id in RemoveFromQueue(s, key).records
    ensures RemoveFromQueue(s, key).records[id] ==
      if key in s.claims && s.claims[key] == id
      then s.records[id].(done := true, candidates := WithoutCandidate(s.records[id].candidates, key))
      else s.records[id]
  {
  }

  /** What the record of a released owner looks like. */
  lemma ReleasedRecord<Id>(s: Repo<Id>, id: Id, key: string)
    requires Consistent(s) && IsLive(s, id) && !s.records[id].promotion && s.queue.Some?
    ensures var w := ReleaseOwner(s, id, key);
      && w.queue == Some(Drop(Release(s.queue.value, key), key)) && id in w.records
      && w.records[id].releasedOwner && w.records[id].busy == s.records[id].busy
      && w.records[id].candidates == WithoutCandidate(s.records[id].candidates, key)
      && (w.records[id].candidates == [] ==> w.records[id].done)
  {
    var u := OwnerReleased(s, id);
    assert key in s.claims ==> ClaimOk(s, key);
    RemovedRecord(u, key, id);
    if !(key in s.claims && s.claims[key] == id) {
      OwnClaims(s, id);
      NothingWithout(s.records[id].candidates, key);
    }
  }

  lemma {:induction false} NothingWithout(cs: seq<Candidate>, key: string)
    requires key !in CandidateKeys(cs)
    ensures WithoutCandidate(cs, key) == cs
  {
    if cs != [] {
      assert cs[0] in cs && CandidateKeys(cs[1..]) <= CandidateKeys(cs);
      NothingWithout(cs[1..], key);
    }
  }

  /** What an idle record answers that is not to be released. */
  ghost predicate IdleAnswer<Id>(
    q: Queue, claims: map<string, Id>, r: Record, id: Id, limit: nat, t: Repo<Id>, reply: AcquireReply<Id>)
  {
    if r.candidates != [] then ResumeAnswer(q, r.candidates, id, t, reply)
    else if r.done then reply == Leased(id, []) && t.queue == Some(q)
    else FreshGrant(q, claims, id, if r.promotion then 1 else limit, t, reply)
  }

  lemma GrantAnswers<Id>(s: Repo<Id>, id: Id, list: seq<string>, clock: seq<int>)
    requires Consistent(s) && IsLive(s, id) && !s.records[id].busy && "" !in list && |list| <= |clock|
    ensures s.queue.Some?
    ensures var (t, reply) := Grant(s, id, list, clock);
      IdleAnswer(AddList(s.queue.value, list, clock), s.claims, s.records[id], id, s.queue.value.limit, t, reply)
  {
    LiveRecord(s, id);
    AddListEffect(s.queue.value, list, clock);
    if s.records[id].candidates != [] {
      GrantResumes(s, id, list, clock);
    } else if s.records[id].done {
      GrantEmpty(s, id, list, clock);
    } else {
      GrantIsFresh(s, id, list, clock);
    }
  }

  /** What a finished owner answers whose own slot is released on the way. */
  ghost predicate ReleasedAnswer<Id>(
    q: Queue, cs: seq<Candidate>, id: Id, t: Repo<Id>, reply: AcquireReply<Id>)
  {
    && id in t.records && t.records[id].releasedOwner
    && if cs == [] then reply == Leased(id, []) && t.queue == Some(q) else ResumeAnswer(q, cs, id, t, reply)
  }

  lemma ReleaseAnswers<Id>(s: Repo<Id>, id: Id, key: string, list: seq<string>, clock: seq<int>)
    requires Consistent(s) && IsLive(s, id) && !s.records[id].busy && !s.records[id].promotion && s.queue.Some?
    requires "" !in list && |list| <= |clock|
    ensures id in ReleaseOwner(s, id, key).records && ReleaseOwner(s, id, key).queue.Some?
    ensures var (t, reply) := Grant(ReleaseOwner(s, id, key), id, list, clock);
      ReleasedAnswer(
        AddList(Drop(Release(s.queue.value, key), key), list, clock), WithoutCandidate(s.records[id].candidates, key),
        id, t, reply)
  {
    var w := ReleaseOwner(s, id, key);
    ReleaseOwnerKeeps(s, id, key);
    ReleasedRecord(s, id, key);
    GrantAnswers(w, id, list, clock);
    GrantForm(w, id, list, clock);
  }

  /** What an admission answers to an owner that has a record. */
  ghost predicate KnownAnswer<Id>(
    s: Repo<Id>, limit: nat, owner: Owner, list: seq<string>, clock: seq<int>, mode: Mode,
    t: Repo<Id>, reply: AcquireReply<Id>)
    requires OwnerKey(owner) in s.admissions && s.admissions[OwnerKey(owner)] in s.records && |list| <= |clock|
  {
    var id := s.admissions[OwnerKey(owner)];
    var r, q := s.records[id], OpenQueue(s, limit).queue.value;
    if mode.Resume? && r.promotion then t == s && reply == NoWork
    else if r.busy then t == s && reply == Refused(Busy)
    else if r.promotion != mode.Promotion? then t == OpenQueue(s, limit) && reply == Refused(MustResumeFirst)
    else if mode.Resume? && owner.finishing && InQueue(q, owner.key) then
      ReleasedAnswer(
        AddList(Drop(Release(q, owner.key), owner.key), list, clock), WithoutCandidate(r.candidates, owner.key),
        id, t, reply)
    else IdleAnswer(AddList(q, list, clock), s.claims, r, id, limit, t, reply)
  }

  /** Every answer to an owner with a record, exactly. */
  lemma KnownOwner<Id>(
    s: Repo<Id>, limit: nat, owner: Owner, list: seq<string>, clock: seq<int>, mode: Mode, newId: Id)
    requires Consistent(s) && OwnerKey(owner) in s.admissions && "" !in list && |list| <= |clock|
    ensures s.admissions[OwnerKey(owner)] in s.records
    ensures var (t, reply) := AcquireAdmission(s, limit, owner, list, clock, mode, newId);
      KnownAnswer(s, limit, owner, list, clock, mode, t, reply)
  {
    var o := OwnerKey(owner);
    assert OwnerOk(s, o);
    var id := s.admissions[o];
    var r := s.records[id];
    if !(mode.Resume? && r.promotion) && !r.busy && r.promotion == mode.Promotion? {
      var u := OpenQueue(s, limit);
      OpenQueueKeeps(s, limit);
      LiveRecord(u, id);
      if mode.Resume? && owner.finishing && InQueue(u.queue.value, owner.key) {
        ReleaseAnswers(u, id, owner.key, list, clock);
      } else {
        GrantAnswers(u, id, list, clock);
      }
    } else if !(mode.Resume? && r.promotion) && !r.busy {
      OpenQueueKeeps(s, limit);
      LiveRecord(OpenQueue(s, limit), id);
    }
  }

  // ---------- a key that is removed ----------

  /** Removing a key that a record claims takes the candidate out of it, counts the record as
      done, and drops it if and only if it is an idle batch that has not released its owner and
      held nothing else. */
  lemma RemovalOfClaim<Id>(s: Repo<Id>, key: string)
    requires Consistent(s) && key in s.claims
    ensures IsLive(s, s.claims[key])
    ensures var id, t := s.claims[key], RemoveFromQueue(s, key);
      var r := s.records[id];
      && id in t.records && t.records[id].done && t.claims == s.claims - {key}
      && (forall c :: c in t.records[id].candidates <==> c in r.candidates && c.key != key)
      && (IsLive(t, id) <==> r.promotion || r.busy || r.releasedOwner || exists c :: c in r.candidates && c.key != key)
  {
    assert ClaimOk(s, key);
    var id := s.claims[key];
    var r := s.records[id];
    LiveRecord(s, id);
    RemoveFromQueueKeeps(s, key);
    RemovedRecord(s, key, id);
    WithoutCandidateMembers(r.candidates, key);
    var t := RemoveFromQueue(s, key);
    NoneOfNone(t.records[id].candidates, r.candidates);
    RemovedAdmission(s, key);
    if c :| c in r.candidates && c.key != key {
      assert c in t.records[id].candidates;
    }
    if t.records[id].candidates != [] {
      assert t.records[id].candidates[0] in t.records[id].candidates;
    }
  }

  lemma RemovedAdmission<Id>(s: Repo<Id>, key: string)
    requires key in s.claims && IsLive(s, s.claims[key]) && s.queue.Some?
    ensures var id, t := s.claims[key], RemoveFromQueue(s, key);
      && id in t.records
      && (IsLive(t, id) <==>
            s.records[id].promotion || s.records[id].busy || s.records[id].releasedOwner || t.records[id].candidates != [])
  {
  }

  /** After a removal the head of the queue is taken if it is unclaimed and there is room. */
  lemma RemovalTakesNext<Id>(s: Repo<Id>, key: string)
    requires Consistent(s) && s.queue.Some?
    ensures
      var (t, next) := RemoveAndTake(s, key);
      var q := Drop(Release(s.queue.value, key), key);
      if NextPending(q) in s.claims - {key} || !Grants(q) then next == "" && t.queue == Some(q)
      else
        && next == q.pending[0].key && t.queue.Some?
        && next in t.queue.value.running && t.queue.value.pending == q.pending[1..]
  {
    RemoveFromQueueKeeps(s, key);
  }

  // ---------- forgetting an admission ----------

  /** Forgetting the admission of an owner drops its record if and only if nobody holds it and
      it claims no key; everything else stays. */
  lemma ForgettingDropsIdle<Id>(s: Repo<Id>, owner: Owner)
    requires Consistent(s) && OwnerKey(owner) in s.admissions
    ensures s.admissions[OwnerKey(owner)] in s.records
    ensures var o, t := OwnerKey(owner), ForgetAdmission(s, owner);
      var id := s.admissions[o];
      && (o in t.admissions <==> s.records[id].busy || exists k :: Claimed(s, id, k))
      && (forall p :: p != o ==> (p in t.admissions <==> p in s.admissions))
      && (forall p :: p in t.admissions ==> t.admissions[p] == s.admissions[p])
      && t == s.(admissions := t.admissions)
  {
    var o := OwnerKey(owner);
    assert OwnerOk(s, o);
    var id := s.admissions[o];
    LiveRecord(s, id);
    OwnClaims(s, id);
    if s.records[id].candidates != [] {
      var c := s.records[id].candidates[0];
      assert c in s.records[id].candidates && Claimed(s, id, c.key);
    }
  }

  // ---------- recording a batch ----------

  /** Some result of the batch that is still claimed is a successful start. */
  ghost predicate RecordsSuccess<Id>(s: Repo<Id>, id: Id, cs: seq<Candidate>) {
    exists c :: c in cs && Claimed(s, id, c.key) && c.outcome.Succeeded?
  }

  ghost predicate OnlyLosesClaim<Id>(s: Repo<Id>, t: Repo<Id>, id: Id, key: string, done: bool) {
    id in t.records && t.records[id].done == done && forall k :: k != key ==> (Claimed(t, id, k) <==> Claimed(s, id, k))
  }

  lemma LostResult<Id>(s: Repo<Id>, id: Id, c: Candidate)
    requires IsLive(s, id) && s.records[id].busy && s.queue.Some? && Claimed(s, id, c.key) && !c.outcome.Retry?
    ensures OnlyLosesClaim(s, FinishOne(s, id, c).0, id, c.key, s.records[id].done || c.outcome.Succeeded?)
  {
    if c.outcome.Succeeded? {
      SucceededForm(s, id, c);
    } else {
      GoneForm(s, id, c);
      UnclaimedRemoval(LostCandidate(s, id, c.key, false), c.key);
    }
  }

  lemma KeptResult<Id>(s: Repo<Id>, id: Id, c: Candidate)
    requires id in s.records && s.queue.Some? && (!Claimed(s, id, c.key) || c.outcome.Retry?)
    ensures OnlyLosesClaim(s, FinishOne(s, id, c).0, id, c.key, s.records[id].done)
  {
  }

  /** One result leaves the claims of the others alone, and the record is done afterwards if it
      was before, or if this was a success. */
  lemma OneResult<Id>(s: Repo<Id>, id: Id, c: Candidate)
    requires IsLive(s, id) && s.records[id].busy && s.queue.Some?
    ensures OnlyLosesClaim(
      s, FinishOne(s, id, c).0, id, c.key, s.records[id].done || (Claimed(s, id, c.key) && c.outcome.Succeeded?))
  {
    if Claimed(s, id, c.key) && !c.outcome.Retry? {
      LostResult(s, id, c);
    } else {
      KeptResult(s, id, c);
    }
  }

  lemma SuccessFirstOrLater<Id>(s: Repo<Id>, t: Repo<Id>, id: Id, cs: seq<Candidate>)
    requires cs != [] && DistinctLease(cs)
    requires forall k :: k != cs[0].key ==> (Claimed(t, id, k) <==> Claimed(s, id, k))
    ensures RecordsSuccess(s, id, cs) <==>
      (Claimed(s, id, cs[0].key) && cs[0].outcome.Succeeded?) || RecordsSuccess(t, id, cs[1..])
  {
    LeaseHeadTail(cs);
    assert cs == [cs[0]] + cs[1..];
    assert forall c :: c in cs[1..] ==> c.key in CandidateKeys(cs[1..]);
  }

  lemma {:induction false} DoneAfter<Id>(s: Repo<Id>, id: Id, cs: seq<Candidate>)
    requires Recording(s, id, cs)
    ensures s.queue.Some?
    ensures FinishAll(s, id, cs).0.records[id].done <==> s.records[id].done || RecordsSuccess(s, id, cs)
    decreases |cs|
  {
    LiveRecord(s, id);
    if cs != [] {
      var t := FinishOne(s, id, cs[0]).0;
      OneResult(s, id, cs[0]);
      FinishOneKeeps(s, id, cs);
      LiveRecord(t, id);
      SuccessFirstOrLater(s, t, id, cs);
      DoneAfter(t, id, cs[1..]);
    }
  }

  /** What recording a batch makes of its record: with candidates left it stays as it was, idle,
      and the call says so; a promotion stays and is done exactly if it was or a start
      succeeded; a batch owner that released its slot is ready to hand on, whatever it had
      done; any other batch is dropped exactly if it is done. */
  lemma FinishSettles<Id>(y: System<Id>, e: Event<Id>)
    requires Sound(y) && e.Finish? && Enabled(y, e) && IsLive(y.repo, e.id)
    ensures
      var s, cs, t := y.repo, y.leases[e.id], Next(y, e).repo;
      var r, done := s.records[e.id], s.records[e.id].done || RecordsSuccess(s, e.id, cs);
      && e.id in t.records && !t.records[e.id].busy
      && var r' := t.records[e.id];
         if r'.candidates != [] then
           && FinishAdmission(s, e.id, cs).1 == [Unfinished] && IsLive(t, e.id)
           && r'.promotion == r.promotion && r'.releasedOwner == r.releasedOwner && r'.done == done
         else
           && FinishAdmission(s, e.id, cs).1 == []
           && (if r.promotion then IsLive(t, e.id) && r'.promotion && r'.done == done
               else if r.releasedOwner then IsLive(t, e.id) && r'.promotion && !r'.done
               else (IsLive(t, e.id) <==> !done) && !r'.promotion)
  {
    var s, cs := y.repo, y.leases[e.id];
    assert LeaseSound(s, e.id, cs);
    LiveRecord(s, e.id);
    LeaseStarts(s, e.id, cs);
    DoneAfter(s, e.id, cs);
    FinishAllForm(s, e.id, cs);
    FinishAllKeeps(s, e.id, cs);
    SettledRecord(s, e.id, cs);
  }

  lemma SettledRecord<Id>(s: Repo<Id>, id: Id, cs: seq<Candidate>)
    requires IsLive(s, id) && s.queue.Some?
    requires OwnRecordOnly(s, FinishAll(s, id, cs).0, id) && FinishAll(s, id, cs).1 == []
    ensures
      var t := FinishAdmission(s, id, cs).0;
      var r, m := s.records[id], FinishAll(s, id, cs).0.records[id];
      && id in t.records && !t.records[id].busy && t.records[id].candidates == m.candidates
      && var r' := t.records[id];
         if r'.candidates != [] then
           && FinishAdmission(s, id, cs).1 == [Unfinished] && IsLive(t, id)
           && r'.promotion == r.promotion && r'.releasedOwner == r.releasedOwner && r'.done == m.done
         else
           && FinishAdmission(s, id, cs).1 == []
           && (if r.promotion then IsLive(t, id) && r'.promotion && r'.done == m.done
               else if r.releasedOwner then IsLive(t, id) && r'.promotion && !r'.done
               else (IsLive(t, id) <==> !m.done) && !r'.promotion)
  {
  }

  // ---------- an owner that released its slot ----------

  /** The owner's record is a promotion that has nothing yet and has handed nothing on. */
  ghost predicate Ready<Id>(s: Repo<Id>, owner: Owner, id: Id) {
    && HasRecord(s, owner, id) && id in s.records
    && var r := s.records[id]; r.promotion && !r.done && !r.busy && r.candidates == []
  }

  /** Recording a batch that leaves nothing makes the released owner ready to hand on. */
  lemma ConvertedIsReady<Id>(y: System<Id>, e: Event<Id>, owner: Owner)
    requires Sound(y) && e.Finish? && Enabled(y, e) && HasRecord(y.repo, owner, e.id)
    requires !y.repo.records[e.id].promotion && y.repo.records[e.id].releasedOwner
    requires e.id in Next(y, e).repo.records && Next(y, e).repo.records[e.id].candidates == []
    ensures Ready(Next(y, e).repo, owner, e.id)
  {
    assert OwnerOk(y.repo, OwnerKey(owner));
    FinishSettles(y, e);
    LiveRecord(y.repo, e.id);
    FinishAllForm(y.repo, e.id, y.leases[e.id]);
  }

  ghost predicate ClaimsNothing<Id>(claims: map<string, Id>, id: Id) {
    forall k :: k in claims ==> claims[k] != id
  }

  lemma RemovalLeavesUnclaimed<Id>(s: Repo<Id>, key: string, id: Id)
    requires id in s.records && ClaimsNothing(s.claims, id)
    ensures id in RemoveFromQueue(s, key).records && RemoveFromQueue(s, key).records[id] == s.records[id]
  {
  }

  lemma ReleaseLeavesUnclaimed<Id>(s: Repo<Id>, actor: Id, key: string, id: Id)
    requires id in s.records && actor in s.records && actor != id && ClaimsNothing(s.claims, id)
    ensures ReleaseOwner(s, actor, key).records.Keys == s.records.Keys
    ensures ReleaseOwner(s, actor, key).records[id] == s.records[id]
  {
    ReleaseOwnerRecords(s, actor, key);
    RemovalLeavesUnclaimed(OwnerReleased(s, actor), key, id);
  }

  lemma EnterLeavesUnclaimed<Id>(
    s: Repo<Id>, actor: Id, owner: Owner, list: seq<string>, clock: seq<int>, mode: Mode, id: Id)
    requires Consistent(s) && s.queue.Some? && actor in s.records && id in s.records && actor != id && |list| <= |clock|
    requires IsLive(s, actor) && ClaimsNothing(s.claims, id)
    ensures var t := Enter(s, actor, owner, list, clock, mode).0; id in t.records && t.records[id] == s.records[id]
  {
    if s.records[actor].promotion == mode.Promotion? {
      if mode.Resume? && owner.finishing && InQueue(s.queue.value, owner.key) {
        ReleaseLeavesUnclaimed(s, actor, owner.key, id);
        ReleaseOwnerKeeps(s, actor, owner.key);
        GrantForm(ReleaseOwner(s, actor, owner.key), actor, list, clock);
      } else {
        GrantForm(s, actor, list, clock);
      }
    }
  }

  lemma OldOwnerLeavesUnclaimed<Id>(s: Repo<Id>, e: Event<Id>, id: Id)
    requires Consistent(s) && e.Acquire? && Enabled(System(s, map[]), e) && id in s.records
    requires OwnerKey(e.owner) in s.admissions && s.admissions[OwnerKey(e.owner)] != id && ClaimsNothing(s.claims, id)
    ensures var t := AcquireAdmission(s, e.limit, e.owner, e.list, e.clock, e.mode, e.newId).0;
      id in t.records && t.records[id] == s.records[id]
  {
    var u := OpenQueue(s, e.limit);
    var actor := s.admissions[OwnerKey(e.owner)];
    AcquireForm(s, e.limit, e.owner, e.list, e.clock, e.mode, e.newId);
    OpenQueueKeeps(s, e.limit);
    assert OwnerOk(s, OwnerKey(e.owner));
    EnterLeavesUnclaimed(u, actor, e.owner, e.list, e.clock, e.mode, id);
  }

  lemma RegistrationLeavesUnclaimed<Id>(s: Repo<Id>, e: Event<Id>, id: Id)
    requires Consistent(s) && e.Acquire? && id in s.records && id != e.newId && ClaimsNothing(s.claims, id)
    ensures var v := Registered(s, e.limit, e.owner, e.mode, e.newId);
      id in v.records && v.records[id] == s.records[id] && ClaimsNothing(v.claims, id)
  {
    RegisteredState(s, e.limit, e.owner, e.mode, e.newId);
    RemovalLeavesUnclaimed(OpenQueue(s, e.limit), e.owner.key, id);
  }

  lemma NewOwnerLeavesUnclaimed<Id>(s: Repo<Id>, e: Event<Id>, id: Id)
    requires Consistent(s) && e.Acquire? && Enabled(System(s, map[]), e) && id in s.records
    requires OwnerKey(e.owner) !in s.admissions && ClaimsNothing(s.claims, id)
    ensures var t := AcquireAdmission(s, e.limit, e.owner, e.list, e.clock, e.mode, e.newId).0;
      id in t.records && t.records[id] == s.records[id]
  {
    var v := Registered(s, e.limit, e.owner, e.mode, e.newId);
    AcquireForm(s, e.limit, e.owner, e.list, e.clock, e.mode, e.newId);
    RegisteredKeeps(s, e.limit, e.owner, e.mode, e.newId);
    RegistrationLeavesUnclaimed(s, e, id);
    EnterLeavesUnclaimed(v, e.newId, e.owner, e.list, e.clock, e.mode, id);
  }

  /** An admission of another owner does not touch a record that claims nothing. */
  lemma AcquireLeavesUnclaimed<Id>(y: System<Id>, e: Event<Id>, id: Id)
    requires Sound(y) && e.Acquire? && Enabled(y, e) && id in y.repo.records
    requires Actor(y.repo, e.owner, e.newId) != id && ClaimsNothing(y.repo.claims, id)
    ensures id in Next(y, e).repo.records && Next(y, e).repo.records[id] == y.repo.records[id]
  {
    if OwnerKey(e.owner) in y.repo.admissions {
      OldOwnerLeavesUnclaimed(y.repo, e, id);
    } else {
      NewOwnerLeavesUnclaimed(y.repo, e, id);
    }
  }

  lemma FinishLeavesOthers<Id>(s: Repo<Id>, other: Id, cs: seq<Candidate>, id: Id)
    requires Consistent(s) && LeaseOk(s, other, cs) && id in s.records && id != other
    ensures var t := FinishAdmission(s, other, cs).0; id in t.records && t.records[id] == s.records[id]
  {
    if IsLive(s, other) {
      LiveRecord(s, other);
      FinishAllForm(s, other, cs);
    }
  }

  lemma AddingLeavesRecords<Id>(s: Repo<Id>, limit: nat, list: seq<string>, clock: seq<int>)
    requires |list| <= |clock|
    ensures AddListToRunningQueue(s, limit, list, clock).0.records == s.records
  {
    TakeUnownedForm(AddToPendingQueue(s, limit, list, clock), limit);
  }

  lemma TakingRemovalLeavesUnclaimed<Id>(s: Repo<Id>, key: string, id: Id)
    requires id in s.records && ClaimsNothing(s.claims, id)
    ensures id in RemoveAndTake(s, key).0.records && RemoveAndTake(s, key).0.records[id] == s.records[id]
  {
    RemovalLeavesUnclaimed(s, key, id);
  }

  lemma OthersLeaveUnclaimed<Id>(y: System<Id>, e: Event<Id>, id: Id)
    requires Sound(y) && Enabled(y, e) && id in y.repo.records && !e.Acquire? && e != Finish(id)
    requires ClaimsNothing(y.repo.claims, id)
    ensures id in Next(y, e).repo.records && Next(y, e).repo.records[id] == y.repo.records[id]
  {
    match e
    case Finish(other) =>
      assert LeaseSound(y.repo, other, y.leases[other]);
      FinishLeavesOthers(y.repo, other, y.leases[other], id);
    case AddRunning(limit, list, clock) => AddingLeavesRecords(y.repo, limit, list, clock);
    case Remove(key) => RemovalLeavesUnclaimed(y.repo, key, id);
    case RemoveTaking(key) => TakingRemovalLeavesUnclaimed(y.repo, key, id);
    case _ =>
  }

  lemma ReadyClaimsNothing<Id>(s: Repo<Id>, owner: Owner, id: Id)
    requires Consistent(s) && Ready(s, owner, id)
    ensures IsLive(s, id) && ClaimsNothing(s.claims, id)
  {
    assert OwnerOk(s, OwnerKey(owner));
    OwnClaims(s, id);
    assert CandidateKeys([]) == {};
  }

  /** A lease of a live record makes it busy. */
  lemma IdleIsNotLeased<Id>(y: System<Id>, id: Id)
    requires Sound(y) && IsLive(y.repo, id) && !y.repo.records[id].busy
    ensures id !in y.leases
  {
    assert id in y.leases ==> LeaseSound(y.repo, id, y.leases[id]);
  }

  /** It stays ready, whatever others do, as long as its record is there. */
  lemma ReadyStays<Id>(y: System<Id>, e: Event<Id>, owner: Owner, id: Id)
    requires Sound(y) && Enabled(y, e) && Ready(y.repo, owner, id) && HasRecord(Next(y, e).repo, owner, id)
    requires !(e.Acquire? && OwnerKey(e.owner) == OwnerKey(owner))
    ensures Ready(Next(y, e).repo, owner, id)
  {
    ReadyClaimsNothing(y.repo, owner, id);
    IdleIsNotLeased(y, id);
    assert OwnerOk(y.repo, OwnerKey(owner));
    if e.Acquire? {
      if OwnerKey(e.owner) in y.repo.admissions {
        assert OwnerOk(y.repo, OwnerKey(e.owner));
      }
      AcquireLeavesUnclaimed(y, e, id);
    } else {
      OthersLeaveUnclaimed(y, e, id);
    }
  }

  /** The owner's own admission does not come in between. */
  ghost predicate NotOwners<Id>(events: seq<Event<Id>>, owner: Owner) {
    events == []
    || (!(events[0].Acquire? && OwnerKey(events[0].owner) == OwnerKey(owner)) && NotOwners(events[1..], owner))
  }

  lemma {:induction false} ReadyInRuns<Id>(y: System<Id>, events: seq<Event<Id>>, owner: Owner, id: Id)
    requires Sound(y) && Behaves(y, events) && NotOwners(events, owner) && Ready(y.repo, owner, id)
    ensures OwnerKey(owner) in After(y, events).repo.admissions ==> Ready(After(y, events).repo, owner, id)
    decreases |events|
  {
    if events != [] {
      NextKeepsSound(y, events[0]);
      if OwnerKey(owner) in Next(y, events[0]).repo.admissions {
        RecordStaysOrGoes(y, events[0], OwnerKey(owner));
        ReadyStays(y, events[0], owner, id);
        ReadyInRuns(Next(y, events[0]), events[1..], owner, id);
      } else {
        AbsentInRuns(Next(y, events[0]), events[1..], owner);
      }
    }
  }

  lemma {:induction false} AbsentInRuns<Id>(y: System<Id>, events: seq<Event<Id>>, owner: Owner)
    requires Sound(y) && Behaves(y, events) && NotOwners(events, owner) && OwnerKey(owner) !in y.repo.admissions
    ensures OwnerKey(owner) !in After(y, events).repo.admissions
    decreases |events|
  {
    if events != [] {
      NextKeepsSound(y, events[0]);
      if OwnerKey(owner) in Next(y, events[0]).repo.admissions {
        RecordStaysOrGoes(y, events[0], OwnerKey(owner));
      }
      AbsentInRuns(Next(y, events[0]), events[1..], owner);
    }
  }

  /** The hand-off of a batch owner that released its slot. After recording its last results,
      and whatever others do in between, its next promotion call takes the head of the queue it
      then finds, exactly when the head is unclaimed and there is room, unless its record was
      forgotten or the repository removed. */
  lemma ConvertedOwnerHandsOn<Id>(
    y: System<Id>, finish: Event<Id>, between: seq<Event<Id>>, promote: Event<Id>, owner: Owner)
    requires Sound(y) && finish.Finish? && Enabled(y, finish) && HasRecord(y.repo, owner, finish.id)
    requires !y.repo.records[finish.id].promotion && y.repo.records[finish.id].releasedOwner
    requires finish.id in Next(y, finish).repo.records && Next(y, finish).repo.records[finish.id].candidates == []
    requires Behaves(Next(y, finish), between) && NotOwners(between, owner)
    requires promote.Acquire? && promote.mode.Promotion? && promote.owner == owner
    requires Enabled(After(Next(y, finish), between), promote)
    requires OwnerKey(owner) in After(Next(y, finish), between).repo.admissions
    ensures
      var s := After(Next(y, finish), between).repo;
      var (t, reply) :=
        AcquireAdmission(s, promote.limit, owner, promote.list, promote.clock, Promotion, promote.newId);
      var q := AddList(OpenQueue(s, promote.limit).queue.value, promote.list, promote.clock);
      FreshGrant(q, s.claims, finish.id, 1, t, reply)
  {
    ConvertedIsReady(y, finish, owner);
    NextKeepsSound(y, finish);
    RunKeepsSound(Next(y, finish), between);
    ReadyInRuns(Next(y, finish), between, owner, finish.id);
    var s := After(Next(y, finish), between).repo;
    KnownOwner(s, promote.limit, owner, promote.list, promote.clock, Promotion, promote.newId);
  }
}
