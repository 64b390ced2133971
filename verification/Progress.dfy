/** Nobody waits behind a head that could go: an admission that finds room always takes
    the head of the queue if it may have it, and takes as much as it can. */
module Progress {
  import opened Wrappers
  import opened QueueOrder
  import opened Semaphores
  import opened Admissions
  import opened AdmissionInvariant
  import opened AdmissionSteps
  import opened AdmissionRuns
  import opened AdmissionEffects

  // ---------- resuming one's own candidates ----------

  /** The waiting candidate that is the head of the queue gets its reservation. */
  lemma {:induction false} ReacquireTakesHead(q: Queue, cs: seq<Candidate>, i: nat, j: nat)
    requires i <= j < |cs| && !cs[j].reserved && Grants(q) && NextPending(q) == cs[j].key && cs[j].key != ""
    requires forall m :: i <= m < j ==> cs[m].key != cs[j].key
    ensures |Reacquire(q, cs, i).1| == |cs| && Reacquire(q, cs, i).1[j] == cs[j].(reserved := true)
    decreases j - i
  {
    if i < j {
      ReacquireTakesHead(q, cs, i + 1, j);
    } else {
      var cs' := cs[j := cs[j].(reserved := true)];
      ReacquireOrigin(AcquireLatest(q).0, cs', j + 1);
      assert Reserved(cs'[j], Reacquire(AcquireLatest(q).0, cs', j + 1).1[j]);
    }
  }

  lemma OwnHeadIsReserved(q: Queue, cs: seq<Candidate>, c: Candidate)
    requires WellFormed(q) && !InQueue(q, "") && Grants(q) && InQueueOrder(q, KeySeq(cs)) && AllPlaced(q, cs)
    requires c in cs && c.key == NextPending(q)
    ensures NextPending(q) in CandidateKeys(ReservedOnly(Reacquire(q, cs, 0).1))
  {
    DistinctCandidates(q, cs);
    assert q.pending[0] in q.pending;
    assert Placed(q, c);
    var j :| 0 <= j < |cs| && cs[j] == c;
    ReacquireTakesHead(q, cs, 0, j);
    var ds := Reacquire(q, cs, 0).1;
    ReservedMembers(ds);
    assert ds[j] in ReservedOnly(ds);
  }

  lemma ResumeTakesHead<Id>(s: Repo<Id>, id: Id)
    requires Consistent(s) && IsLive(s, id) && s.queue.Some? && Grants(s.queue.value)
    requires NextPending(s.queue.value) in s.claims && s.claims[NextPending(s.queue.value)] == id
    ensures var reply := Grant(s, id, [], []).1;
      reply.Leased? && reply.id == id && NextPending(s.queue.value) in CandidateKeys(reply.candidates)
  {
    LiveRecord(s, id);
    OwnClaims(s, id);
    var cs := s.records[id].candidates;
    var c :| c in cs && c.key == NextPending(s.queue.value);
    OwnHeadIsReserved(s.queue.value, cs, c);
    ReacquireLength(s.queue.value, cs, 0);
  }

  /** No stuck head: when the head of the queue is claimed by the owner's record, the
      record is not leased, there is room, and the mode fits an owner that is not being
      released, then the owner's call returns a lease that holds the head. */
  lemma OwnHeadIsGranted<Id>(s: Repo<Id>, limit: nat, owner: Owner, mode: Mode, newId: Id)
    requires Consistent(s) && s.queue.Some? && OwnerKey(owner) in s.admissions
    requires var id := s.admissions[OwnerKey(owner)];
      && id in s.records && !s.records[id].busy && s.records[id].promotion == mode.Promotion?
      && NextPending(s.queue.value) in s.claims && s.claims[NextPending(s.queue.value)] == id
    requires mode.Resume? ==> !owner.finishing
    requires s.queue.value.pending != [] && HasRoom(Resize(s.queue.value, limit))
    ensures var reply := AcquireAdmission(s, limit, owner, [], [], mode, newId).1;
      && reply.Leased? && reply.id == s.admissions[OwnerKey(owner)]
      && NextPending(s.queue.value) in CandidateKeys(reply.candidates)
  {
    var t := OpenQueue(s, limit);
    var id := s.admissions[OwnerKey(owner)];
    assert OwnerOk(s, OwnerKey(owner));
    OpenQueueKeeps(s, limit);
    LiveRecord(t, id);
    ResumeTakesHead(t, id);
  }

  /** The waiting candidates before index i cannot go: there is no room, or the head is
      none of them and none of those still to come. */
  ghost predicate CannotGo(q: Queue, cs: seq<Candidate>, i: nat) {
    forall m :: 0 <= m < |cs| && m < i && !cs[m].reserved ==>
      || !Grants(q)
      || (NextPending(q) != cs[m].key && forall n :: i <= n < |cs| ==> NextPending(q) != cs[n].key)
  }

  lemma HeadIsNotLater(q: Queue, cs: seq<Candidate>, i: nat, n: nat)
    requires WellFormed(q) && InQueueOrder(q, KeySeq(cs)) && AllPlaced(q, cs) && i < n < |cs|
    requires !cs[i].reserved && Grants(q)
    ensures NextPending(q) != cs[n].key
  {
    KeySeqMembers(cs);
    OrderByIndex(q, KeySeq(cs), i, n);
    assert Placed(q, cs[i]);
    var e :| e in q.pending && e.key == cs[i].key;
    assert Holds(q, e) && q.pending[0] in q.pending && Holds(q, q.pending[0]);
    HeadAndTail(q.pending);
  }

  lemma CannotGoStep(q: Queue, cs: seq<Candidate>, i: nat)
    requires WellFormed(q) && InQueueOrder(q, KeySeq(cs)) && AllPlaced(q, cs)
    requires i < |cs| && CannotGo(q, cs, i)
    requires cs[i].reserved || NextPending(q) != cs[i].key || !Grants(q)
    ensures CannotGo(q, cs, i + 1)
  {
    forall n | i < n < |cs| && !cs[i].reserved && Grants(q) ensures NextPending(q) != cs[n].key {
      HeadIsNotLater(q, cs, i, n);
    }
  }

  lemma CannotGoTaken(q: Queue, cs: seq<Candidate>, i: nat)
    requires i < |cs| && CannotGo(q, cs, i) && Grants(q) && NextPending(q) == cs[i].key
    ensures CannotGo(AcquireLatest(q).0, cs[i := cs[i].(reserved := true)], i + 1)
  {
  }

  /** Resuming leaves nothing behind that could go: as long as there is room, the head
      is not one of the record's own waiting candidates. The order of the candidates
      matters here, since each is looked at once. */
  lemma {:induction false} ReacquireIsMaximal(q: Queue, cs: seq<Candidate>, i: nat)
    requires WellFormed(q) && !InQueue(q, "") && InQueueOrder(q, KeySeq(cs)) && AllPlaced(q, cs)
    requires i <= |cs| && CannotGo(q, cs, i)
    ensures var (q', ds) := Reacquire(q, cs, i);
      forall c :: c in ds && !c.reserved ==> !Grants(q') || NextPending(q') != c.key
    decreases |cs| - i
  {
    if i == |cs| {
      forall c | c in cs && !c.reserved ensures !Grants(q) || NextPending(q) != c.key {
        var m :| 0 <= m < |cs| && cs[m] == c;
      }
    } else if !cs[i].reserved && NextPending(q) == cs[i].key && Grants(q) {
      AcquireEffect(q);
      var q1, cs1 := AcquireLatest(q).0, cs[i := cs[i].(reserved := true)];
      ResumeOne(q, cs, i);
      OnlyReservesKeys(cs, cs1);
      OrderSurvives(q, q1, KeySeq(cs));
      CannotGoTaken(q, cs, i);
      ReacquireIsMaximal(q1, cs1, i + 1);
    } else {
      CannotGoStep(q, cs, i);
      ReacquireIsMaximal(q, cs, i + 1);
    }
  }

  // ---------- a new batch ----------

  /** A batch only ends at its limit, at a head that is claimed, or without room. */
  lemma {:induction false} FillIsMaximal<Id>(b: Batch<Id>, id: Id, limit: nat)
    requires WellFormed(b.queue) && !InQueue(b.queue, "") && (limit != 0 ==> |b.candidates| <= limit)
    ensures var d := Fill(b, id, limit);
      (limit != 0 && |d.candidates| == limit) || NextPending(d.queue) in d.claims || !Grants(d.queue)
    decreases |b.queue.pending|
  {
    if limit != 0 && |b.candidates| >= limit {
    } else if NextPending(b.queue) in b.claims {
    } else {
      AcquireEffect(b.queue);
      if AcquireLatest(b.queue).1 != "" {
        FillIsMaximal(FillStep(b, id), id, limit);
      }
    }
  }

  /** How many entries at the front of the queue no admission claims. */
  function Unclaimed<Id>(pending: seq<Entry>, claims: map<string, Id>): (n: nat)
    ensures n <= |pending|
  {
    if pending == [] || pending[0].key in claims then 0 else 1 + Unclaimed(pending[1..], claims)
  }

  /** At most n, and no more than a limit leaves; 0 is no limit. */
  function Capped(n: nat, limit: nat, used: nat): (m: nat)
    ensures m <= n
  {
    if limit == 0 || n + used <= limit then n else if used <= limit then limit - used else 0
  }

  /** What a batch of at most `limit` takes: as many unclaimed entries as there are at the
      front of the queue, free slots, and places in the batch. */
  function BatchSize<Id>(q: Queue, claims: map<string, Id>, limit: nat): (n: nat)
    ensures n <= |q.pending|
  {
    Capped(Capped(Unclaimed(q.pending, claims), q.limit, |q.running|), limit, 0)
  }

  function NewCandidates(entries: seq<Entry>): seq<Candidate> {
    seq(|entries|, i requires 0 <= i < |entries| => Candidate(entries[i].key, "", false, Retry, true))
  }

  lemma {:induction false} OthersUnclaimed<Id>(pending: seq<Entry>, claims: map<string, Id>, key: string, id: Id)
    requires key !in Keys(pending)
    ensures Unclaimed(pending, claims[key := id]) == Unclaimed(pending, claims)
  {
    if pending != [] {
      assert pending[0] in pending && Keys(pending[1..]) <= Keys(pending);
      OthersUnclaimed(pending[1..], claims, key, id);
    }
  }

  lemma NewCandidatesStep(entries: seq<Entry>, n: nat)
    requires 0 < n <= |entries|
    ensures NewCandidates(entries[..n])
      == [Candidate(entries[0].key, "", false, Retry, true)] + NewCandidates(entries[1..][..n - 1])
  {
    assert entries[..n][0] == entries[0];
    assert forall i :: 0 < i < n ==> entries[..n][i] == entries[1..][..n - 1][i - 1];
  }

  lemma GrantShifts<Id>(q: Queue, claims: map<string, Id>, id: Id)
    requires WellFormed(q) && Grants(q) && NextPending(q) !in claims
    ensures var r := AcquireLatest(q).0;
      && |r.running| == |q.running| + 1 && r.limit == q.limit
      && Unclaimed(q.pending, claims) == 1 + Unclaimed(r.pending, claims[NextPending(q) := id])
  {
    var head := q.pending[0];
    HeadAndTail(q.pending);
    assert head in q.pending && head.key !in Keys(q.pending[1..]);
    OthersUnclaimed(q.pending[1..], claims, head.key, id);
  }

  /** How many more keys the batch takes. */
  function MoreTaken<Id>(b: Batch<Id>, limit: nat): (n: nat)
    ensures n <= |b.queue.pending|
  {
    Capped(Capped(Unclaimed(b.queue.pending, b.claims), b.queue.limit, |b.queue.running|), limit, |b.candidates|)
  }

  predicate Stops<Id>(b: Batch<Id>, limit: nat) {
    (limit != 0 && |b.candidates| >= limit) || NextPending(b.queue) in b.claims || !Grants(b.queue)
  }

  lemma NothingTaken<Id>(b: Batch<Id>, id: Id, limit: nat)
    requires WellFormed(b.queue) && !InQueue(b.queue, "") && Stops(b, limit)
    ensures MoreTaken(b, limit) == 0
    ensures Fill(b, id, limit).candidates == b.candidates && Fill(b, id, limit).queue == b.queue
  {
    AcquireEffect(b.queue);
  }

  lemma OneMoreTaken<Id>(b: Batch<Id>, id: Id, limit: nat)
    requires WellFormed(b.queue) && !InQueue(b.queue, "") && !Stops(b, limit)
    ensures MoreTaken(b, limit) == 1 + MoreTaken(FillStep(b, id), limit)
    ensures Fill(b, id, limit) == Fill(FillStep(b, id), id, limit)
    ensures FillStep(b, id).queue == AcquireLatest(b.queue).0 && FillStep(b, id).queue.pending == b.queue.pending[1..]
    ensures WellFormed(FillStep(b, id).queue) && !InQueue(FillStep(b, id).queue, "")
  {
    AcquireEffect(b.queue);
    GrantShifts(b.queue, b.claims, id);
  }

  lemma CandidatesStep<Id>(b: Batch<Id>, id: Id, m: nat)
    requires WellFormed(b.queue) && !InQueue(b.queue, "") && Grants(b.queue) && 0 < m <= |b.queue.pending|
    ensures |FillStep(b, id).queue.pending| == |b.queue.pending| - 1
    ensures FillStep(b, id).candidates + NewCandidates(FillStep(b, id).queue.pending[..m - 1])
      == b.candidates + NewCandidates(b.queue.pending[..m])
  {
    NewCandidatesStep(b.queue.pending, m);
  }

  /** What a batch takes, exactly: its candidates. */
  lemma {:induction false} FillCandidates<Id>(b: Batch<Id>, id: Id, limit: nat)
    requires WellFormed(b.queue) && !InQueue(b.queue, "")
    ensures Fill(b, id, limit).candidates == b.candidates + NewCandidates(b.queue.pending[..MoreTaken(b, limit)])
    decreases |b.queue.pending|
  {
    if Stops(b, limit) {
      NothingTaken(b, id, limit);
    } else {
      OneMoreTaken(b, id, limit);
      CandidatesStep(b, id, MoreTaken(b, limit));
      FillCandidates(FillStep(b, id), id, limit);
    }
  }

  lemma TakeOneMore(q: Queue, n: nat)
    requires n > 0
    ensures TakeSome(q, n) == TakeSome(AcquireLatest(q).0, n - 1)
  {
  }

  /** And the queue it leaves. */
  lemma {:induction false} FillQueue<Id>(b: Batch<Id>, id: Id, limit: nat)
    requires WellFormed(b.queue) && !InQueue(b.queue, "")
    ensures Fill(b, id, limit).queue == TakeSome(b.queue, MoreTaken(b, limit))
    decreases |b.queue.pending|
  {
    if Stops(b, limit) {
      NothingTaken(b, id, limit);
    } else {
      OneMoreTaken(b, id, limit);
      FillQueue(FillStep(b, id), id, limit);
      TakeOneMore(b.queue, MoreTaken(b, limit));
    }
  }

  /** What a new batch of at most `limit` answers and takes, in terms of the queue it finds: it is
      refused exactly when the head belongs to another admission; otherwise it leases the front
      of the queue, as far as it is unclaimed, there are free slots, and the limit allows. The
      record is then busy with them, and done if there are none. */
  ghost predicate FreshGrant<Id>(
    q: Queue, claims: map<string, Id>, id: Id, limit: nat, t: Repo<Id>, reply: AcquireReply<Id>)
  {
    if NextPending(q) in claims then reply == Refused(OwnedByAnother) && t.queue == Some(q)
    else
      var n := BatchSize(q, claims, limit);
      && reply == Leased(id, NewCandidates(q.pending[..n])) && t.queue == Some(TakeSome(q, n))
      && id in t.records && t.records[id].busy && t.records[id].candidates == reply.candidates
      && (t.records[id].done <==> n == 0)
  }

  lemma {:induction false} TakenStayCandidates<Id>(b: Batch<Id>, id: Id, limit: nat)
    requires b.candidates != []
    ensures Fill(b, id, limit).candidates != [] && (!b.blocked ==> !Fill(b, id, limit).blocked)
    decreases |b.queue.pending|
  {
    if limit != 0 && |b.candidates| >= limit {
    } else if NextPending(b.queue) in b.claims {
    } else if AcquireLatest(b.queue).1 != "" {
      TakenStayCandidates(FillStep(b, id), id, limit);
    }
  }

  lemma BlockedIffClaimed<Id>(q: Queue, claims: map<string, Id>, id: Id, limit: nat)
    requires WellFormed(q) && !InQueue(q, "")
    ensures Fill(Batch(q, claims, [], false), id, limit).blocked <==> NextPending(q) in claims
  {
    var b := Batch(q, claims, [], false);
    AcquireEffect(q);
    if NextPending(q) !in claims && Grants(q) {
      TakenStayCandidates(FillStep(b, id), id, limit);
    }
  }

  lemma TakeBatchIsFresh<Id>(s: Repo<Id>, id: Id, q: Queue)
    requires id in s.records && WellFormed(q) && !InQueue(q, "")
    ensures
      var (t, reply) := TakeBatch(s, id, q);
      FreshGrant(q, s.claims, id, if s.records[id].promotion then 1 else q.limit, t, reply)
  {
    var b, limit := Batch(q, s.claims, [], false), if s.records[id].promotion then 1 else q.limit;
    FillCandidates(b, id, limit);
    FillQueue(b, id, limit);
    BlockedIffClaimed(q, s.claims, id, limit);
    assert [] + NewCandidates(q.pending[..MoreTaken(b, limit)]) == NewCandidates(q.pending[..MoreTaken(b, limit)]);
    if NextPending(q) in s.claims {
      BlockedTakesNothing(q, s.claims, id, limit);
    }
  }

  lemma GrantIsFresh<Id>(s: Repo<Id>, id: Id, list: seq<string>, clock: seq<int>)
    requires Consistent(s) && IsLive(s, id) && s.records[id].candidates == [] && !s.records[id].done
    requires s.queue.Some? && "" !in list && |list| <= |clock|
    ensures
      var q := AddList(s.queue.value, list, clock);
      var (t, reply) := Grant(s, id, list, clock);
      FreshGrant(q, s.claims, id, if s.records[id].promotion then 1 else q.limit, t, reply)
  {
    var q := AddList(s.queue.value, list, clock);
    AddListEffect(s.queue.value, list, clock);
    assert Reacquire(q, s.records[id].candidates, 0) == (q, []);
    assert Grant(s, id, list, clock) == TakeBatch(s, id, q);
    TakeBatchIsFresh(s, id, q);
  }

  lemma BlockedTakesNothing<Id>(q: Queue, claims: map<string, Id>, id: Id, limit: nat)
    requires NextPending(q) in claims
    ensures Fill(Batch(q, claims, [], false), id, limit).queue == q
  {
  }

  /** The queue that a first admission finds. A promotion takes its owner out before. */
  function QueueFound(q: Queue, owner: Owner, list: seq<string>, clock: seq<int>, mode: Mode): Queue
    requires |list| <= |clock|
  {
    AddList(if mode.Promotion? then Drop(Release(q, owner.key), owner.key) else q, list, clock)
  }

  lemma RegisteredState<Id>(s: Repo<Id>, limit: nat, owner: Owner, mode: Mode, newId: Id)
    requires Consistent(s)
    ensures var q := OpenQueue(s, limit).queue.value;
      var v := Registered(s, limit, owner, mode, newId);
      && v.queue == Some(if mode.Promotion? then Drop(Release(q, owner.key), owner.key) else q)
      && v.claims == (if mode.Promotion? then s.claims - {owner.key} else s.claims)
  {
    if mode.Promotion? {
      OpenQueueKeeps(s, limit);
      RemoveFromQueueKeeps(OpenQueue(s, limit), owner.key);
    }
  }

  /** What a first admission of an owner answers and takes. An initial one leases the front of
      the queue up to the limit; a promotion at most one key, and counts the slot and the claim
      of its own owner as free; it has nothing to hand on when the owner is not in the queue.
      Resuming finds nothing and does nothing. */
  lemma FirstAdmission<Id>(
    s: Repo<Id>, limit: nat, owner: Owner, list: seq<string>, clock: seq<int>, mode: Mode, newId: Id)
    requires Consistent(s) && newId !in s.records && OwnerKey(owner) !in s.admissions
    requires "" !in list && |list| <= |clock|
    ensures
      var (t, reply) := AcquireAdmission(s, limit, owner, list, clock, mode, newId);
      var q := OpenQueue(s, limit).queue.value;
      if mode.Resume? then reply == NoWork && t == s
      else if mode.Promotion? && !InQueue(q, owner.key) then reply == NoWork && t == OpenQueue(s, limit)
      else
        FreshGrant(
          QueueFound(q, owner, list, clock, mode),
          if mode.Promotion? then s.claims - {owner.key} else s.claims, newId,
          if mode.Promotion? then 1 else limit, t, reply)
  {
    var q := OpenQueue(s, limit).queue.value;
    if !mode.Resume? && (mode.Promotion? ==> InQueue(q, owner.key)) {
      RegisteredKeeps(s, limit, owner, mode, newId);
      RegisteredState(s, limit, owner, mode, newId);
      var v := Registered(s, limit, owner, mode, newId);
      LiveRecord(v, newId);
      GrantIsFresh(v, newId, list, clock);
      AddListEffect(v.queue.value, list, clock);
    }
  }

  /** So a first batch that is leased ends at the limit, at a claimed head, or without room. */
  lemma FirstBatchIsMaximal<Id>(
    s: Repo<Id>, limit: nat, owner: Owner, list: seq<string>, clock: seq<int>, newId: Id)
    requires Consistent(s) && newId !in s.records && OwnerKey(owner) !in s.admissions
    requires "" !in list && |list| <= |clock|
    requires AcquireAdmission(s, limit, owner, list, clock, Initial, newId).1.Leased?
    ensures
      var (t, reply) := AcquireAdmission(s, limit, owner, list, clock, Initial, newId);
      && t.queue.Some?
      && (|| (limit > 0 && |reply.candidates| == limit)
          || NextPending(t.queue.value) in s.claims
          || !Grants(t.queue.value))
  {
    FirstAdmission(s, limit, owner, list, clock, Initial, newId);
    OpenQueueKeeps(s, limit);
    var q0 := OpenQueue(s, limit).queue.value;
    var q := AddList(q0, list, clock);
    AddListEffect(q0, list, clock);
    StopsForAReason(q, s.claims, limit);
  }

  /** And when nobody claims anything, it holds as many keys as there are free slots, or all
      that wait. */
  lemma FirstBatchFillsSlots<Id>(
    s: Repo<Id>, limit: nat, owner: Owner, list: seq<string>, clock: seq<int>, newId: Id)
    requires Consistent(s) && newId !in s.records && OwnerKey(owner) !in s.admissions && s.claims == map[]
    requires "" !in list && |list| <= |clock|
    ensures
      var reply := AcquireAdmission(s, limit, owner, list, clock, Initial, newId).1;
      var q := AddList(OpenQueue(s, limit).queue.value, list, clock);
      reply == Leased(newId, NewCandidates(q.pending[..Capped(|q.pending|, limit, |q.running|)]))
  {
    FirstAdmission(s, limit, owner, list, clock, Initial, newId);
    OpenQueueKeeps(s, limit);
    var q0 := OpenQueue(s, limit).queue.value;
    AddListEffect(q0, list, clock);
    AllUnclaimed(AddList(q0, list, clock).pending, s.claims);
  }

  lemma {:induction false} AllUnclaimed<Id>(pending: seq<Entry>, claims: map<string, Id>)
    requires claims == map[]
    ensures Unclaimed(pending, claims) == |pending|
  {
    if pending != [] {
      AllUnclaimed(pending[1..], claims);
    }
  }

  lemma GrantCount(q: Queue)
    requires WellFormed(q) && Grants(q)
    ensures |AcquireLatest(q).0.running| == |q.running| + 1
  {
    assert q.pending[0] in q.pending;
  }

  /** Taking as many as fit leaves the rest of the queue. */
  lemma {:induction false} TakenFront(q: Queue, n: nat)
    requires WellFormed(q) && n <= |q.pending| && (q.limit == 0 || n == 0 || |q.running| + n <= q.limit)
    ensures TakeSome(q, n).pending == q.pending[n..] && TakeSome(q, n).limit == q.limit
    ensures |TakeSome(q, n).running| == |q.running| + n
    decreases n
  {
    if n > 0 {
      GrantCount(q);
      AcquireKeepsWellFormed(q);
      assert q.pending[1..][n - 1..] == q.pending[n..];
      TakenFront(AcquireLatest(q).0, n - 1);
    }
  }

  lemma {:induction false} AfterUnclaimed<Id>(pending: seq<Entry>, claims: map<string, Id>)
    ensures var n := Unclaimed(pending, claims); n < |pending| ==> pending[n].key in claims
  {
    if pending != [] && pending[0].key !in claims {
      AfterUnclaimed(pending[1..], claims);
    }
  }

  lemma StopsForAReason<Id>(q: Queue, claims: map<string, Id>, limit: nat)
    requires WellFormed(q)
    ensures var n := BatchSize(q, claims, limit);
      || (limit > 0 && n == limit) || NextPending(TakeSome(q, n)) in claims || !Grants(TakeSome(q, n))
  {
    TakenFront(q, BatchSize(q, claims, limit));
    AfterUnclaimed(q.pending, claims);
  }

  lemma FreedSlot(q: Queue, owner: Owner, list: seq<string>, clock: seq<int>)
    requires WellFormed(q) && !InQueue(q, "") && "" !in list && |list| <= |clock|
    requires owner.key in q.running && |q.running| <= q.limit
    ensures HasRoom(QueueFound(q, owner, list, clock, Promotion))
  {
    var r := Drop(Release(q, owner.key), owner.key);
    RemovalEffect(q, owner.key);
    AddListEffect(r, list, clock);
    assert r.running.Keys == q.running.Keys - {owner.key};
    assert |r.running| == |r.running.Keys| && |q.running| == |q.running.Keys|;
  }

  /** A finished owner hands its slot on. If it holds a slot within the limit and has no
      record yet, its promotion takes the head behind it, whatever it lists, unless the
      head belongs to another admission or nobody waits. */
  lemma PromotionTakesHead<Id>(s: Repo<Id>, limit: nat, owner: Owner, list: seq<string>, clock: seq<int>, newId: Id)
    requires Consistent(s) && newId !in s.records && OwnerKey(owner) !in s.admissions
    requires "" !in list && |list| <= |clock|
    requires s.queue.Some? && owner.key in s.queue.value.running && |s.queue.value.running| <= limit
    ensures
      var q := QueueFound(Resize(s.queue.value, limit), owner, list, clock, Promotion);
      var reply := AcquireAdmission(s, limit, owner, list, clock, Promotion, newId).1;
      q.pending != [] && (NextPending(q) in s.claims ==> NextPending(q) == owner.key) ==>
        reply == Leased(newId, [Candidate(NextPending(q), "", false, Retry, true)])
  {
    FirstAdmission(s, limit, owner, list, clock, Promotion, newId);
    OpenQueueKeeps(s, limit);
    FreedSlot(Resize(s.queue.value, limit), owner, list, clock);
    var q := QueueFound(Resize(s.queue.value, limit), owner, list, clock, Promotion);
    if q.pending != [] && NextPending(q) !in s.claims - {owner.key} {
      OneIsTaken(q, s.claims - {owner.key});
    }
  }

  lemma OneIsTaken<Id>(q: Queue, claims: map<string, Id>)
    requires Grants(q) && NextPending(q) !in claims
    ensures BatchSize(q, claims, 1) == 1
    ensures NewCandidates(q.pending[..1]) == [Candidate(NextPending(q), "", false, Retry, true)]
  {
  }
}
