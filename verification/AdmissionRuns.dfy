/** Runs of the admission protocol: the manager's state for one repository together
    with the leases that workers hold, under every interleaving of operations. */
module AdmissionRuns {
  import opened Wrappers
  import opened Semaphores
  import opened Admissions
  import opened AdmissionInvariant
  import opened AdmissionSteps

  // ---------- the operations without a lease ----------

  lemma AcquireUnownedKeeps<Id>(s: Repo<Id>)
    requires Consistent(s) && s.queue.Some?
    ensures var (t, key) := AcquireUnowned(s);
      && Consistent(t) && t.queue.Some? && t == s.(queue := t.queue) && QueueOk(s.queue.value, t.queue.value)
      && (key != "" ==> key !in s.claims && key !in s.queue.value.running && key in t.queue.value.running)
      && (forall k :: k in s.queue.value.running ==> k in t.queue.value.running)
  {
    var q := s.queue.value;
    AcquireEffect(q);
    assert forall k :: SamePlace(q, q, k);
    if NextPending(q) !in s.claims {
      QueueChange(s, AcquireLatest(q).0);
    }
  }

  lemma {:induction false} TakeUnownedForm<Id>(s: Repo<Id>, n: nat)
    requires s.queue.Some?
    ensures TakeUnowned(s, n).0 == s.(queue := TakeUnowned(s, n).0.queue)
    decreases n
  {
    if n > 0 {
      TakeUnownedForm(AcquireUnowned(s).0, n - 1);
    }
  }

  lemma {:induction false} TakeUnownedConsistent<Id>(s: Repo<Id>, n: nat)
    requires Consistent(s) && s.queue.Some?
    ensures Consistent(TakeUnowned(s, n).0)
    decreases n
  {
    if n > 0 {
      AcquireUnownedKeeps(s);
      TakeUnownedConsistent(AcquireUnowned(s).0, n - 1);
    }
  }

  lemma {:induction false} TakeUnownedGrows<Id>(s: Repo<Id>, n: nat, k: string)
    requires s.queue.Some? && k in s.queue.value.running
    ensures k in TakeUnowned(s, n).0.queue.value.running
    decreases n
  {
    if n > 0 {
      TakeUnownedGrows(AcquireUnowned(s).0, n - 1, k);
    }
  }

  lemma {:induction false} TakenKey<Id>(s: Repo<Id>, n: nat, k: string)
    requires Consistent(s) && s.queue.Some? && k in TakeUnowned(s, n).1
    ensures k !in s.claims && k !in s.queue.value.running && k in TakeUnowned(s, n).0.queue.value.running
    decreases n
  {
    var (t, key) := AcquireUnowned(s);
    AcquireUnownedKeeps(s);
    if k == key && key != "" {
      TakeUnownedGrows(t, n - 1, k);
    } else {
      TakenKey(t, n - 1, k);
    }
  }

  lemma TakeUnownedKeeps<Id>(s: Repo<Id>, n: nat)
    requires Consistent(s) && s.queue.Some?
    ensures var (t, keys) := TakeUnowned(s, n);
      && Consistent(t) && t.queue.Some? && t == s.(queue := t.queue)
      && (forall k :: k in keys ==> k !in s.claims && k !in s.queue.value.running && k in t.queue.value.running)
      && (forall k :: k in s.queue.value.running ==> k in t.queue.value.running)
  {
    TakeUnownedForm(s, n);
    TakeUnownedConsistent(s, n);
    var (t, keys) := TakeUnowned(s, n);
    forall k | k in keys ensures k !in s.claims && k !in s.queue.value.running && k in t.queue.value.running {
      TakenKey(s, n, k);
    }
    forall k | k in s.queue.value.running ensures k in t.queue.value.running {
      TakeUnownedGrows(s, n, k);
    }
  }

  lemma AddToPendingKeeps<Id>(s: Repo<Id>, limit: nat, list: seq<string>, clock: seq<int>)
    requires Consistent(s) && "" !in list && |list| <= |clock|
    ensures var t := AddToPendingQueue(s, limit, list, clock);
      && Consistent(t) && t.queue.Some? && t == s.(queue := t.queue) && t.queue.value.limit == limit
      && t.queue.value.running == (if s.queue.Some? then s.queue.value.running else map[])
  {
    OpenQueueKeeps(s, limit);
    AddListKeeps(OpenQueue(s, limit), list, clock);
    AddListEffect(OpenQueue(s, limit).queue.value, list, clock);
  }

  lemma RemoveRepositoryKeeps<Id>(s: Repo<Id>)
    ensures Consistent(RemoveRepository(s))
  {
  }

  // ---------- what a live lease does not notice ----------

  /** A record only loses candidates, whatever others do. */
  ghost predicate Undisturbed<Id>(s: Repo<Id>, t: Repo<Id>, id: Id) {
    IsLive(t, id) ==>
      && IsLive(s, id)
      && t.records[id].owner == s.records[id].owner
      && t.records[id].busy == s.records[id].busy
      && t.records[id].promotion == s.records[id].promotion
      && t.records[id].releasedOwner == s.records[id].releasedOwner
      && (s.records[id].done ==> t.records[id].done)
      && forall c :: c in t.records[id].candidates ==> c in s.records[id].candidates
  }

  /** Every record except `actor` is undisturbed, and none disappears. */
  ghost predicate OthersUndisturbed<Id>(s: Repo<Id>, t: Repo<Id>, actor: Option<Id>) {
    && s.records.Keys <= t.records.Keys
    && forall id :: id in s.records && Some(id) != actor ==> Undisturbed(s, t, id)
  }

  lemma UndisturbedTwice<Id>(s: Repo<Id>, t: Repo<Id>, u: Repo<Id>, actor: Option<Id>)
    requires OthersUndisturbed(s, t, actor) && OthersUndisturbed(t, u, actor)
    ensures OthersUndisturbed(s, u, actor)
  {
    forall id | id in s.records && Some(id) != actor ensures Undisturbed(s, u, id) {
      assert Undisturbed(s, t, id) && Undisturbed(t, u, id);
    }
  }

  lemma SameRecords<Id>(s: Repo<Id>, t: Repo<Id>, actor: Option<Id>)
    requires t.records == s.records
    requires forall o :: o in t.admissions ==> o in s.admissions && t.admissions[o] == s.admissions[o]
    ensures OthersUndisturbed(s, t, actor)
  {
  }

  lemma LossIsUndisturbed<Id>(s: Repo<Id>, t: Repo<Id>, key: string, actor: Option<Id>)
    requires RecordsLose(s, t, key)
    ensures OthersUndisturbed(s, t, actor)
  {
    forall id | id in s.records && Some(id) != actor ensures Undisturbed(s, t, id) {
      WithoutCandidateMembers(s.records[id].candidates, key);
    }
  }

  lemma OneRecordChanges<Id>(s: Repo<Id>, t: Repo<Id>, id: Id)
    requires id in s.records && id in t.records && t.records == s.records[id := t.records[id]]
    requires forall o :: o in t.admissions ==> o in s.admissions && t.admissions[o] == s.admissions[o]
    ensures OthersUndisturbed(s, t, Some(id))
  {
  }

  /** Only the record, the claims and the queue are touched; the record's owner and
      what it leads to stay. */
  ghost predicate OwnRecordOnly<Id>(s: Repo<Id>, t: Repo<Id>, id: Id) {
    && id in s.records && id in t.records && t.queue.Some?
    && t.admissions == s.admissions && t.hasAdmissions == s.hasAdmissions
    && t.records == s.records[id := t.records[id]]
    && t.records[id] == s.records[id].(
         busy := t.records[id].busy, done := t.records[id].done, candidates := t.records[id].candidates)
  }

  lemma TakeBatchForm<Id>(s: Repo<Id>, id: Id, q: Queue)
    requires id in s.records
    ensures OwnRecordOnly(s, TakeBatch(s, id, q).0, id)
  {
    assert s.records[id := s.records[id]] == s.records;
  }

  lemma ResumeBatchForm<Id>(s: Repo<Id>, id: Id, q: Queue, cs: seq<Candidate>)
    requires id in s.records
    ensures OwnRecordOnly(s, ResumeBatch(s, id, q, cs).0, id)
  {
  }

  lemma GrantForm<Id>(s: Repo<Id>, id: Id, list: seq<string>, clock: seq<int>)
    requires s.queue.Some? && id in s.records && |list| <= |clock|
    ensures OwnRecordOnly(s, Grant(s, id, list, clock).0, id)
  {
    var (q, cs) := Reacquire(AddList(s.queue.value, list, clock), s.records[id].candidates, 0);
    TakeBatchForm(s, id, q);
    ResumeBatchForm(s, id, q, cs);
  }

  lemma GrantUndisturbed<Id>(s: Repo<Id>, id: Id, list: seq<string>, clock: seq<int>)
    requires s.queue.Some? && id in s.records && |list| <= |clock|
    ensures OthersUndisturbed(s, Grant(s, id, list, clock).0, Some(id))
  {
    GrantForm(s, id, list, clock);
    OneRecordChanges(s, Grant(s, id, list, clock).0, id);
  }

  lemma ReleaseOwnerUndisturbed<Id>(s: Repo<Id>, id: Id, key: string)
    requires Consistent(s) && IsLive(s, id) && !s.records[id].promotion
    ensures OthersUndisturbed(s, ReleaseOwner(s, id, key), Some(id))
  {
    LiveRecord(s, id);
    var u := OwnerReleased(s, id);
    OwnerReleasedKeeps(s, id);
    OneRecordChanges(s, u, id);
    RemoveFromQueueKeeps(u, key);
    var v := RemoveFromQueue(u, key);
    LossIsUndisturbed(u, v, key, Some(id));
    UndisturbedTwice(s, u, v, Some(id));
    if v.records[id].candidates == [] {
      OneRecordChanges(v, ReleaseOwner(s, id, key), id);
      UndisturbedTwice(s, v, ReleaseOwner(s, id, key), Some(id));
    }
  }

  lemma RemovalKeepsOwners<Id>(s: Repo<Id>, key: string, id: Id)
    requires id in s.records
    ensures RemoveFromQueue(s, key).records.Keys == s.records.Keys
    ensures RemoveFromQueue(s, key).records[id].owner == s.records[id].owner
  {
  }

  lemma ReleaseOwnerRecords<Id>(s: Repo<Id>, id: Id, key: string)
    requires id in s.records
    ensures ReleaseOwner(s, id, key).records.Keys == s.records.Keys
    ensures ReleaseOwner(s, id, key).records[id].owner == s.records[id].owner
  {
    RemovalKeepsOwners(OwnerReleased(s, id), key, id);
  }

  lemma EnterUndisturbed<Id>(s: Repo<Id>, id: Id, owner: Owner, list: seq<string>, clock: seq<int>, mode: Mode)
    requires Consistent(s) && s.queue.Some? && IsLive(s, id) && |list| <= |clock|
    ensures OthersUndisturbed(s, Enter(s, id, owner, list, clock, mode).0, Some(id))
  {
    LiveRecord(s, id);
    SameRecords(s, s, Some(id));
    if s.records[id].promotion == mode.Promotion? {
      if mode.Resume? && owner.finishing && InQueue(s.queue.value, owner.key) {
        var w := ReleaseOwner(s, id, owner.key);
        ReleaseOwnerUndisturbed(s, id, owner.key);
        ReleaseOwnerKeeps(s, id, owner.key);
        GrantUndisturbed(w, id, list, clock);
        UndisturbedTwice(s, w, Grant(w, id, list, clock).0, Some(id));
      } else {
        GrantUndisturbed(s, id, list, clock);
      }
    }
  }

  /** The record that an owner's AcquireAdmission works on. */
  function Actor<Id>(s: Repo<Id>, owner: Owner, newId: Id): Id {
    if OwnerKey(owner) in s.admissions then s.admissions[OwnerKey(owner)] else newId
  }

  /** The state in which AcquireAdmission enters with a record that was not there. */
  function Registered<Id>(s: Repo<Id>, limit: nat, owner: Owner, mode: Mode, newId: Id): Repo<Id> {
    var t := OpenQueue(s, limit);
    Register(if mode.Promotion? then RemoveFromQueue(t, owner.key) else t, OwnerKey(owner), mode.Promotion?, newId)
  }

  lemma RegisteredKeeps<Id>(s: Repo<Id>, limit: nat, owner: Owner, mode: Mode, newId: Id)
    requires Consistent(s) && newId !in s.records && OwnerKey(owner) !in s.admissions
    ensures var t := Registered(s, limit, owner, mode, newId);
      && Consistent(t) && t.queue.Some? && IsLive(t, newId)
      && t.records[newId] == Record(OwnerKey(owner), mode.Promotion?, false, false, false, [])
  {
    OpenQueueKeeps(s, limit);
    var t := OpenQueue(s, limit);
    if mode.Promotion? {
      RemoveFromQueueKeeps(t, owner.key);
      RecordAdded(RemoveFromQueue(t, owner.key), OwnerKey(owner), true, newId);
    } else {
      RecordAdded(t, OwnerKey(owner), false, newId);
    }
  }

  /** AcquireAdmission in terms of Enter. */
  lemma AcquireForm<Id>(
    s: Repo<Id>, limit: nat, owner: Owner, list: seq<string>, clock: seq<int>, mode: Mode, newId: Id)
    requires Linked(s) && |list| <= |clock|
    ensures
      var r := AcquireAdmission(s, limit, owner, list, clock, mode, newId);
      var o := OwnerKey(owner);
      if o in s.admissions then
        && s.admissions[o] in s.records
        && (r == (s, NoWork) || r == (s, Refused(Busy)) ||
              (!s.records[s.admissions[o]].busy
               && r == Enter(OpenQueue(s, limit), s.admissions[o], owner, list, clock, mode)))
      else
        var v := Registered(s, limit, owner, mode, newId);
        || r == (s, NoWork)
        || r == (OpenQueue(s, limit), NoWork)
        || (v.queue.Some? && newId in v.records && r == Enter(v, newId, owner, list, clock, mode))
  {
    var o := OwnerKey(owner);
    assert o in s.admissions ==> OwnerOk(s, o);
  }

  lemma RegisterUndisturbed<Id>(s: Repo<Id>, o: string, promotion: bool, id: Id)
    requires o !in s.admissions && id !in s.records
    ensures OthersUndisturbed(s, Register(s, o, promotion, id), Some(id))
  {
  }

  lemma RegisteredUndisturbed<Id>(s: Repo<Id>, limit: nat, owner: Owner, mode: Mode, newId: Id)
    requires Consistent(s) && newId !in s.records && OwnerKey(owner) !in s.admissions
    ensures OthersUndisturbed(s, Registered(s, limit, owner, mode, newId), Some(newId))
  {
    OpenQueueKeeps(s, limit);
    var t := OpenQueue(s, limit);
    SameRecords(s, t, Some(newId));
    var u := if mode.Promotion? then RemoveFromQueue(t, owner.key) else t;
    if mode.Promotion? {
      RemoveFromQueueKeeps(t, owner.key);
      LossIsUndisturbed(t, u, owner.key, Some(newId));
      UndisturbedTwice(s, t, u, Some(newId));
    }
    RegisterUndisturbed(u, OwnerKey(owner), mode.Promotion?, newId);
    UndisturbedTwice(s, u, Register(u, OwnerKey(owner), mode.Promotion?, newId), Some(newId));
  }

  lemma AcquireUndisturbed<Id>(
    s: Repo<Id>, limit: nat, owner: Owner, list: seq<string>, clock: seq<int>, mode: Mode, newId: Id)
    requires Consistent(s) && newId !in s.records && |list| <= |clock|
    ensures OthersUndisturbed(s, AcquireAdmission(s, limit, owner, list, clock, mode, newId).0, Some(Actor(s, owner, newId)))
  {
    var o := OwnerKey(owner);
    var actor := Actor(s, owner, newId);
    var t := OpenQueue(s, limit);
    AcquireForm(s, limit, owner, list, clock, mode, newId);
    OpenQueueKeeps(s, limit);
    SameRecords(s, s, Some(actor));
    SameRecords(s, t, Some(actor));
    if o in s.admissions {
      assert OwnerOk(s, o);
      EnterUndisturbed(t, actor, owner, list, clock, mode);
      UndisturbedTwice(s, t, Enter(t, actor, owner, list, clock, mode).0, Some(actor));
    } else {
      var v := Registered(s, limit, owner, mode, newId);
      RegisteredKeeps(s, limit, owner, mode, newId);
      RegisteredUndisturbed(s, limit, owner, mode, newId);
      EnterUndisturbed(v, newId, owner, list, clock, mode);
      UndisturbedTwice(s, v, Enter(v, newId, owner, list, clock, mode).0, Some(actor));
    }
  }

  lemma LostForm<Id>(s: Repo<Id>, id: Id, c: Candidate)
    requires s.queue.Some? && id in s.records && s.records[id].busy && c.key in s.claims && s.claims[c.key] == id
    requires !c.outcome.Retry?
    ensures OwnRecordOnly(s, FinishOne(s, id, c).0, id) && FinishOne(s, id, c).0.records[id].busy
  {
    ForgetBusy(s, id, c.key);
  }

  lemma FinishOneForm<Id>(s: Repo<Id>, id: Id, c: Candidate)
    requires s.queue.Some? && id in s.records && s.records[id].busy
    ensures OwnRecordOnly(s, FinishOne(s, id, c).0, id) && FinishOne(s, id, c).0.records[id].busy
  {
    if c.key in s.claims && s.claims[c.key] == id && !c.outcome.Retry? {
      LostForm(s, id, c);
    } else {
      assert s.records[id := s.records[id]] == s.records;
    }
  }

  lemma {:induction false} FinishAllForm<Id>(s: Repo<Id>, id: Id, rest: seq<Candidate>)
    requires s.queue.Some? && id in s.records && s.records[id].busy
    ensures OwnRecordOnly(s, FinishAll(s, id, rest).0, id) && FinishAll(s, id, rest).0.records[id].busy
    decreases |rest|
  {
    if rest == [] {
      assert s.records[id := s.records[id]] == s.records;
    } else {
      FinishOneForm(s, id, rest[0]);
      FinishAllForm(FinishOne(s, id, rest[0]).0, id, rest[1..]);
    }
  }

  lemma FinishUndisturbed<Id>(s: Repo<Id>, id: Id, cs: seq<Candidate>)
    requires Consistent(s) && LeaseOk(s, id, cs)
    ensures OthersUndisturbed(s, FinishAdmission(s, id, cs).0, Some(id))
  {
    if IsLive(s, id) {
      LiveRecord(s, id);
      FinishAllForm(s, id, cs);
      var t := FinishAdmission(s, id, cs).0;
      assert t.records == s.records[id := t.records[id]];
      OneRecordChanges(s, t, id);
    } else {
      SameRecords(s, s, Some(id));
    }
  }

  // ---------- leases ----------

  lemma {:induction false} ReservedAreDistinct(q: Queue, cs: seq<Candidate>)
    requires InQueueOrder(q, KeySeq(cs))
    ensures DistinctLease(ReservedOnly(cs))
    ensures forall c :: c in cs ==> (c.reserved <==> c.key in CandidateKeys(ReservedOnly(cs)))
  {
    ReservedMembers(cs);
    if cs != [] {
      assert KeySeq(cs)[1..] == KeySeq(cs[1..]);
      assert cs == [cs[0]] + cs[1..];
      KeySeqMembers(cs[1..]);
      ReservedMembers(cs[1..]);
      ReservedAreDistinct(q, cs[1..]);
      var rest := ReservedOnly(cs[1..]);
      assert cs[0].key !in CandidateKeys(cs[1..]);
      assert CandidateKeys(rest) <= CandidateKeys(cs[1..]);
      if cs[0].reserved {
        assert ([cs[0]] + rest)[1..] == rest;
        assert CandidateKeys([cs[0]] + rest) == CandidateKeys(rest) + {cs[0].key};
        assert forall c :: c in cs[1..] ==> c.key in CandidateKeys(cs[1..]);
      }
    }
  }

  lemma {:induction false} AllReserved(cs: seq<Candidate>)
    requires forall c :: c in cs ==> c.reserved
    ensures ReservedOnly(cs) == cs
  {
    if cs != [] {
      assert cs == [cs[0]] + cs[1..];
      AllReserved(cs[1..]);
    }
  }

  /** A lease holds exactly the reserved candidates of its record, now busy; without
      a lease the record is not busy. */
  ghost predicate LeasedFrom<Id>(t: Repo<Id>, reply: AcquireReply<Id>, id: Id) {
    && IsLive(t, id)
    && if reply.Leased? then
         reply.id == id && t.records[id].busy && reply.candidates == ReservedOnly(t.records[id].candidates)
       else !t.records[id].busy
  }

  lemma {:induction false} ReacquireLength(q: Queue, cs: seq<Candidate>, i: nat)
    ensures |Reacquire(q, cs, i).1| == |cs|
    decreases |cs| - i
  {
    if i < |cs| {
      if !cs[i].reserved && NextPending(q) == cs[i].key {
        var (q', got) := AcquireLatest(q);
        ReacquireLength(q', if got != "" then cs[i := cs[i].(reserved := true)] else cs, i + 1);
      } else {
        ReacquireLength(q, cs, i + 1);
      }
    }
  }

  lemma GrantLease<Id>(s: Repo<Id>, id: Id, list: seq<string>, clock: seq<int>)
    requires Consistent(s) && IsLive(s, id) && !s.records[id].busy
    requires "" !in list && |list| <= |clock|
    ensures s.queue.Some?
    ensures LeasedFrom(Grant(s, id, list, clock).0, Grant(s, id, list, clock).1, id)
  {
    LiveRecord(s, id);
    var r := s.records[id];
    var q := AddList(s.queue.value, list, clock);
    ReacquireLength(q, r.candidates, 0);
    GrantForm(s, id, list, clock);
    if r.candidates == [] && !r.done {
      AddListKeeps(s, list, clock);
      EmptyBatchOk(s.(queue := Some(q)), id);
      var limit := if r.promotion then 1 else q.limit;
      var b := Batch(q, s.claims, [], false);
      FillEffect(b, id, limit);
      var d := Fill(b, id, limit);
      assert forall c :: c in d.candidates ==> c.reserved;
      AllReserved(d.candidates);
    }
  }

  lemma EnterLease<Id>(s: Repo<Id>, id: Id, owner: Owner, list: seq<string>, clock: seq<int>, mode: Mode)
    requires Consistent(s) && s.queue.Some? && IsLive(s, id) && !s.records[id].busy
    requires "" !in list && |list| <= |clock|
    ensures LeasedFrom(Enter(s, id, owner, list, clock, mode).0, Enter(s, id, owner, list, clock, mode).1, id)
  {
    LiveRecord(s, id);
    if s.records[id].promotion == mode.Promotion? {
      if mode.Resume? && owner.finishing && InQueue(s.queue.value, owner.key) {
        ReleaseOwnerKeeps(s, id, owner.key);
        GrantLease(ReleaseOwner(s, id, owner.key), id, list, clock);
      } else {
        GrantLease(s, id, list, clock);
      }
    }
  }

  lemma AcquireReplies<Id>(
    s: Repo<Id>, limit: nat, owner: Owner, list: seq<string>, clock: seq<int>, mode: Mode, newId: Id)
    requires Consistent(s) && newId !in s.records && "" !in list && |list| <= |clock|
    ensures var (t, reply) := AcquireAdmission(s, limit, owner, list, clock, mode, newId);
      var actor := Actor(s, owner, newId);
      || LeasedFrom(t, reply, actor)
      || (!reply.Leased? && t.records == s.records)
  {
    var o := OwnerKey(owner);
    assert o in s.admissions ==> OwnerOk(s, o);
    if o in s.admissions {
      OpenQueueKeeps(s, limit);
      var actor := s.admissions[o];
      if !(mode.Resume? && s.records[actor].promotion) && !s.records[actor].busy {
        EnterLease(OpenQueue(s, limit), actor, owner, list, clock, mode);
      }
    } else if !mode.Resume? && !(mode.Promotion? && !InQueue(OpenQueue(s, limit).queue.value, owner.key)) {
      RegisteredKeeps(s, limit, owner, mode, newId);
      EnterLease(Registered(s, limit, owner, mode, newId), newId, owner, list, clock, mode);
    }
  }

  /** A lease is only given on a record that was not busy, and is in order. */
  lemma AcquireLease<Id>(
    s: Repo<Id>, limit: nat, owner: Owner, list: seq<string>, clock: seq<int>, mode: Mode, newId: Id)
    requires Consistent(s) && newId !in s.records && "" !in list && |list| <= |clock|
    ensures var (t, reply) := AcquireAdmission(s, limit, owner, list, clock, mode, newId);
      reply.Leased? ==>
        && reply.id == Actor(s, owner, newId) && LeaseOk(t, reply.id, reply.candidates)
        && reply.candidates == ReservedOnly(t.records[reply.id].candidates)
        && (reply.id in s.records ==> IsLive(s, reply.id) && !s.records[reply.id].busy)
  {
    AcquireReplies(s, limit, owner, list, clock, mode, newId);
    var (t, reply) := AcquireAdmission(s, limit, owner, list, clock, mode, newId);
    assert OwnerKey(owner) in s.admissions ==> OwnerOk(s, OwnerKey(owner));
    if reply.Leased? {
      AcquireAdmissionKeeps(s, limit, owner, list, clock, mode, newId);
      LeaseFromRecord(t, reply.id);
    }
  }

  /** The reserved candidates of a busy record are a lease in order. */
  lemma LeaseFromRecord<Id>(s: Repo<Id>, id: Id)
    requires Consistent(s) && IsLive(s, id) && s.records[id].busy
    ensures LeaseOk(s, id, ReservedOnly(s.records[id].candidates))
  {
    LiveRecord(s, id);
    ReservedMembers(s.records[id].candidates);
    ReservedAreDistinct(s.queue.value, s.records[id].candidates);
  }
}
