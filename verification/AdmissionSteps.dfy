/** Every operation of the admission protocol keeps the invariant. */
module AdmissionSteps {
  import opened Wrappers
  import opened QueueOrder
  import opened Semaphores
  import opened Admissions
  import opened AdmissionInvariant

  // ---------- the queue's own steps ----------

  /** Entries only move or vanish. */
  ghost predicate NothingNew(q: Queue, q': Queue) {
    forall e :: Holds(q', e) ==> Holds(q, e)
  }

  lemma AcquireEffect(q: Queue)
    requires WellFormed(q) && !InQueue(q, "")
    ensures var (q', key) := AcquireLatest(q);
      && WellFormed(q') && NothingNew(q, q') && !InQueue(q', "") && q'.limit == q.limit
      && (Grants(q) <==> key != "")
      && (!Grants(q) ==> q' == q)
      && (Grants(q) ==> key == NextPending(q) && IsPending(q, key) && key in q'.running && !IsPending(q', key))
      && (forall k :: k != key ==> SamePlace(q, q', k))
  {
    AcquireKeepsWellFormed(q);
    AcquireMovesHead(q);
    if Grants(q) {
      assert q.pending[0] in q.pending;
      HeadAndTail(q.pending);
    }
  }

  lemma RemovalEffect(q: Queue, key: string)
    requires WellFormed(q) && !InQueue(q, "")
    ensures var q' := Drop(Release(q, key), key);
      && WellFormed(q') && NothingNew(q, q') && !InQueue(q', "") && q'.limit == q.limit
      && !InQueue(q', key)
      && (forall k :: k != key ==> SamePlace(q, q', k))
  {
    RemovalsKeepWellFormed(q, key);
    RemovalsKeepWellFormed(Release(q, key), key);
    WithoutRemovesKey(q.pending, key);
    assert NothingNew(q, Release(q, key)) && NothingNew(Release(q, key), Drop(Release(q, key), key));
  }

  lemma RequeueEffect(q: Queue, key: string)
    requires WellFormed(q) && !InQueue(q, "") && key in q.running
    ensures var q' := Requeue(q, key);
      && WellFormed(q') && NothingNew(q, q') && !InQueue(q', "") && q'.limit == q.limit
      && key !in q'.running && IsPending(q', key)
      && (forall k :: k != key ==> SamePlace(q, q', k))
  {
    RequeueKeepsWellFormed(q, key);
    InsertAddsEntry(q.pending, q.running[key]);
    assert q.running[key].key == key;
    assert NothingNew(q, Requeue(q, key));
  }

  lemma AddEffect(q: Queue, key: string, now: int)
    requires WellFormed(q) && !InQueue(q, "") && key != ""
    ensures var q' := Add(q, key, now);
      && WellFormed(q') && !InQueue(q', "") && q'.limit == q.limit && q'.running == q.running
      && InQueue(q', key)
      && (forall k :: k != key || InQueue(q, k) ==> SamePlace(q, q', k))
  {
    AddKeepsWellFormed(q, key, now);
    if !InQueue(q, key) {
      var e := Entry(key, now, q.sequence);
      InsertAddsEntry(q.pending, e);
      assert forall x :: Holds(Add(q, key, now), x) ==> x == e || Holds(q, x);
    }
  }

  /** What adding a list does to the place of a key. */
  ghost predicate AddsOnly(q: Queue, q': Queue, list: seq<string>, k: string) {
    && (InQueue(q', k) <==> InQueue(q, k) || k in list)
    && (k !in list || InQueue(q, k) ==> SamePlace(q, q', k))
  }

  lemma AddsOnlyHead(q: Queue, key: string, now: int, k: string)
    requires WellFormed(q) && !InQueue(q, "") && key != ""
    ensures AddsOnly(q, Add(q, key, now), [key], k)
  {
    AddEffect(q, key, now);
  }

  lemma AddsOnlyBoth(q: Queue, q1: Queue, q': Queue, key: string, rest: seq<string>, k: string)
    requires AddsOnly(q, q1, [key], k) && AddsOnly(q1, q', rest, k)
    ensures AddsOnly(q, q', [key] + rest, k)
  {
  }

  lemma {:induction false} AddListPlaces(q: Queue, list: seq<string>, clock: seq<int>, k: string)
    requires WellFormed(q) && !InQueue(q, "") && "" !in list && |list| <= |clock|
    ensures AddsOnly(q, AddList(q, list, clock), list, k)
    decreases |list|
  {
    if list != [] {
      var q1 := Add(q, list[0], clock[0]);
      AddEffect(q, list[0], clock[0]);
      AddsOnlyHead(q, list[0], clock[0], k);
      AddListPlaces(q1, list[1..], clock[1..], k);
      AddsOnlyBoth(q, q1, AddList(q, list, clock), list[0], list[1..], k);
      assert list == [list[0]] + list[1..];
    }
  }

  lemma {:induction false} AddListKeepsRunning(q: Queue, list: seq<string>, clock: seq<int>)
    requires WellFormed(q) && !InQueue(q, "") && "" !in list && |list| <= |clock|
    ensures var q' := AddList(q, list, clock);
      WellFormed(q') && !InQueue(q', "") && q'.limit == q.limit && q'.running == q.running
    decreases |list|
  {
    if list != [] {
      AddEffect(q, list[0], clock[0]);
      AddListKeepsRunning(Add(q, list[0], clock[0]), list[1..], clock[1..]);
    }
  }

  lemma AddListEffect(q: Queue, list: seq<string>, clock: seq<int>)
    requires WellFormed(q) && !InQueue(q, "") && "" !in list && |list| <= |clock|
    ensures var q' := AddList(q, list, clock);
      && WellFormed(q') && !InQueue(q', "") && q'.limit == q.limit && q'.running == q.running
      && (forall k :: InQueue(q', k) <==> InQueue(q, k) || k in list)
      && (forall k :: k !in list || InQueue(q, k) ==> SamePlace(q, q', k))
  {
    AddListKeepsRunning(q, list, clock);
    var q' := AddList(q, list, clock);
    forall k ensures InQueue(q', k) <==> InQueue(q, k) || k in list {
      AddListPlaces(q, list, clock, k);
    }
    forall k | k !in list || InQueue(q, k) ensures SamePlace(q, q', k) {
      AddListPlaces(q, list, clock, k);
    }
  }

  // ---------- opening the queue, removal, forgetting ----------

  lemma OpenQueueKeeps<Id>(s: Repo<Id>, limit: nat)
    requires Consistent(s)
    ensures Consistent(OpenQueue(s, limit))
    ensures s.queue.Some? ==> forall k :: SamePlace(s.queue.value, OpenQueue(s, limit).queue.value, k)
  {
    if s.queue.Some? {
      ResizeKeepsWellFormed(s.queue.value, limit);
      QueueChange(s, Resize(s.queue.value, limit));
    } else {
      var t := OpenQueue(s, limit);
      assert Linked(t);
    }
  }

  /** What taking a key out of the queue does to the records: its candidate is gone
      from the record that claims it, nothing else changes but `done`. */
  ghost predicate RecordsLose<Id>(s: Repo<Id>, t: Repo<Id>, key: string) {
    && t.records.Keys == s.records.Keys
    && (forall id :: id in s.records ==>
          && t.records[id] == s.records[id].(done := t.records[id].done, candidates := t.records[id].candidates)
          && (s.records[id].done ==> t.records[id].done)
          && (key in s.claims && s.claims[key] == id ==>
                t.records[id].candidates == WithoutCandidate(s.records[id].candidates, key))
          && (key !in s.claims || s.claims[key] != id ==> t.records[id] == s.records[id]))
    && (forall o :: o in t.admissions ==> o in s.admissions && t.admissions[o] == s.admissions[o])
    && (forall o :: o in s.admissions && o !in t.admissions && s.admissions[o] in t.records ==>
          var r := t.records[s.admissions[o]]; !r.busy && !r.promotion && !r.releasedOwner && r.candidates == [])
  }

  lemma WithoutCandidateOk(q: Queue, r: Record, key: string)
    requires RecordOk(q, r) && key in CandidateKeys(r.candidates)
    ensures RecordOk(q, r.(candidates := WithoutCandidate(r.candidates, key)))
    ensures RecordOk(q, r.(candidates := WithoutCandidate(r.candidates, key), done := true))
    ensures CandidateKeys(WithoutCandidate(r.candidates, key)) == CandidateKeys(r.candidates) - {key}
  {
    WithoutCandidateMembers(r.candidates, key);
    WithoutCandidateOrder(q, r.candidates, key);
    if r.promotion {
      var c :| c in r.candidates && c.key == key;
      assert |r.candidates| == 1 && r.candidates[0].key == key;
      assert WithoutCandidate(r.candidates, key) == WithoutCandidate(r.candidates[1..], key) == [];
    }
  }

  function MarkDone<Id>(s: Repo<Id>, id: Id, done: bool): Repo<Id>
    requires id in s.records
  {
    s.(records := s.records[id := s.records[id].(done := done || s.records[id].done)])
  }

  function Loses(r: Record, key: string, done: bool): Record {
    r.(done := done || r.done, candidates := WithoutCandidate(r.candidates, key))
  }

  predicate Abandoned(r: Record) {
    !r.promotion && !r.busy && !r.releasedOwner && r.candidates == []
  }

  /** Forgetting a claimed candidate is a change of its record, and perhaps its deletion. */
  lemma ForgetForm<Id>(s: Repo<Id>, key: string, done: bool)
    requires key in s.claims && s.claims[key] in s.records && s.queue.Some?
    ensures
      var id := s.claims[key];
      var r := Loses(s.records[id], key, done);
      var u := Changed(s, id, r, s.claims - {key}, s.queue.value);
      ForgetCandidate(MarkDone(s, id, done), key)
        == if Abandoned(r) then u.(admissions := u.admissions - {r.owner}) else u
  {
    var id := s.claims[key];
    var m := MarkDone(s, id, done);
    assert m.records[id := Loses(s.records[id], key, done)] == s.records[id := Loses(s.records[id], key, done)];
  }

  lemma OwnClaims<Id>(s: Repo<Id>, id: Id)
    requires Linked(s) && IsLive(s, id)
    ensures forall k :: k in CandidateKeys(s.records[id].candidates) <==> k in s.claims && s.claims[k] == id
    ensures ClaimsChangeOnly(s.claims, s.claims, id, s.records[id])
  {
    assert OwnerOk(s, s.records[id].owner);
    forall k | k in s.claims && s.claims[k] == id ensures k in CandidateKeys(s.records[id].candidates) {
      assert ClaimOk(s, k);
    }
  }

  function LostCandidate<Id>(s: Repo<Id>, id: Id, key: string, done: bool): Repo<Id>
    requires id in s.records && s.queue.Some?
  {
    Changed(s, id, Loses(s.records[id], key, done), s.claims - {key}, s.queue.value)
  }

  lemma LosingIsLoss<Id>(s: Repo<Id>, id: Id, key: string, done: bool)
    requires key in s.claims && s.claims[key] == id && IsLive(s, id) && s.queue.Some?
    ensures var u := LostCandidate(s, id, key, done);
      && RecordsLose(s, u, key)
      && (Abandoned(u.records[id]) ==> RecordsLose(s, u.(admissions := u.admissions - {u.records[id].owner}), key))
  {
  }

  lemma ForgetEffect<Id>(s: Repo<Id>, key: string, done: bool)
    requires key in s.claims && IsLive(s, s.claims[key]) && s.queue.Some?
    ensures
      var t := ForgetCandidate(MarkDone(s, s.claims[key], done), key);
      && RecordsLose(s, t, key) && t.claims == s.claims - {key}
      && t.queue == s.queue && t.hasAdmissions == s.hasAdmissions
      && t.records[s.claims[key]].done == (done || s.records[s.claims[key]].done)
  {
    ForgetForm(s, key, done);
    LosingIsLoss(s, s.claims[key], key, done);
  }

  lemma LosesKeeps<Id>(s: Repo<Id>, key: string, done: bool)
    requires Consistent(s) && key in s.claims
    ensures IsLive(s, s.claims[key]) && s.queue.Some?
    ensures var u := LostCandidate(s, s.claims[key], key, done); Consistent(u) && IsLive(u, s.claims[key])
  {
    assert ClaimOk(s, key);
    var id := s.claims[key];
    var r := s.records[id];
    var q := s.queue.value;
    OwnClaims(s, id);
    assert OwnerOk(s, r.owner) && RecordOk(q, r);
    WithoutCandidateOk(q, r, key);
    RecordChange(s, id, Loses(r, key, done), s.claims - {key}, q);
  }

  /** Forgetting a claimed candidate, with `done` set or not. */
  lemma ForgetCandidateKeeps<Id>(s: Repo<Id>, key: string, done: bool)
    requires Consistent(s) && key in s.claims
    ensures IsLive(s, s.claims[key])
    ensures Consistent(ForgetCandidate(MarkDone(s, s.claims[key], done), key))
  {
    LosesKeeps(s, key, done);
    ForgetForm(s, key, done);
    var u := LostCandidate(s, s.claims[key], key, done);
    var r := u.records[s.claims[key]];
    if Abandoned(r) {
      RecordDeleted(u, r.owner);
    }
  }

  function Forgotten<Id>(s: Repo<Id>, key: string): Repo<Id> {
    if key in s.claims && s.claims[key] in s.records then ForgetCandidate(MarkDone(s, s.claims[key], true), key) else s
  }

  lemma RemoveForm<Id>(s: Repo<Id>, key: string)
    requires s.queue.Some?
    ensures RemoveFromQueue(s, key) == Forgotten(s, key).(queue := Some(Drop(Release(s.queue.value, key), key)))
  {
  }

  /** The records and claims after a key is forgotten. */
  ghost predicate Loss<Id>(s: Repo<Id>, t: Repo<Id>, key: string) {
    RecordsLose(s, t, key) && t.claims == s.claims - {key} && t.queue == s.queue && t.hasAdmissions == s.hasAdmissions
  }

  lemma ForgottenKeeps<Id>(s: Repo<Id>, key: string)
    requires Consistent(s) && s.queue.Some?
    ensures Consistent(Forgotten(s, key)) && Loss(s, Forgotten(s, key), key)
  {
    if key in s.claims {
      ForgetCandidateKeeps(s, key, true);
      ForgetEffect(s, key, true);
    } else {
      assert s.claims - {key} == s.claims;
    }
  }

  /** Taking a key out of the queue. */
  lemma RemoveFromQueueKeeps<Id>(s: Repo<Id>, key: string)
    requires Consistent(s) && s.queue.Some?
    ensures
      var t := RemoveFromQueue(s, key);
      && Consistent(t) && RecordsLose(s, t, key) && t.claims == s.claims - {key}
      && t.queue == Some(Drop(Release(s.queue.value, key), key)) && t.hasAdmissions == s.hasAdmissions
  {
    RemovalEffect(s.queue.value, key);
    RemoveForm(s, key);
    ForgottenKeeps(s, key);
    QueueChange(Forgotten(s, key), Drop(Release(s.queue.value, key), key));
  }

  lemma ForgetAdmissionKeeps<Id>(s: Repo<Id>, owner: Owner)
    requires Consistent(s)
    ensures Consistent(ForgetAdmission(s, owner))
  {
    if ForgetAdmission(s, owner) != s {
      RecordDeleted(s, OwnerKey(owner));
    }
  }

  // ---------- the owner's own candidates ----------

  /** The order of candidates by index. */
  lemma {:induction false} OrderByIndex(q: Queue, ks: seq<string>, i: nat, j: nat)
    requires InQueueOrder(q, ks) && i < j < |ks|
    ensures ks[i] != ks[j] && Earlier(q, ks[i], ks[j])
  {
    assert ks[j] == ks[1..][j - 1];
    if i > 0 {
      OrderByIndex(q, ks[1..], i - 1, j - 1);
    } else {
      assert ks[j] in ks[1..];
    }
  }

  lemma DistinctCandidates(q: Queue, cs: seq<Candidate>)
    requires InQueueOrder(q, KeySeq(cs))
    ensures forall i, j :: 0 <= i < j < |cs| ==> cs[i].key != cs[j].key
  {
    KeySeqMembers(cs);
    forall i, j | 0 <= i < j < |cs| ensures cs[i].key != cs[j].key {
      OrderByIndex(q, KeySeq(cs), i, j);
    }
  }

  ghost predicate Reserved(c: Candidate, c': Candidate) {
    c' == c || c' == c.(reserved := true)
  }

  lemma {:induction false} SameKeySeq(cs: seq<Candidate>, ds: seq<Candidate>)
    requires |cs| == |ds| && forall i :: 0 <= i < |cs| ==> cs[i].key == ds[i].key
    ensures KeySeq(cs) == KeySeq(ds)
  {
    if cs != [] {
      SameKeySeq(cs[1..], ds[1..]);
    }
  }

  ghost predicate AllPlaced(q: Queue, cs: seq<Candidate>) {
    forall c :: c in cs ==> Placed(q, c)
  }

  ghost predicate OnlyReserves(cs: seq<Candidate>, ds: seq<Candidate>) {
    |cs| == |ds| && forall j :: 0 <= j < |cs| ==> Reserved(cs[j], ds[j])
  }

  lemma OnlyReservesKeys(cs: seq<Candidate>, ds: seq<Candidate>)
    requires OnlyReserves(cs, ds)
    ensures KeySeq(ds) == KeySeq(cs) && CandidateKeys(ds) == CandidateKeys(cs)
  {
    assert forall j :: 0 <= j < |cs| ==> Reserved(cs[j], ds[j]);
    SameKeySeq(cs, ds);
    KeySeqMembers(cs);
    KeySeqMembers(ds);
  }

  ghost predicate QueueOk(q: Queue, q': Queue) {
    WellFormed(q') && NothingNew(q, q') && !InQueue(q', "") && q'.limit == q.limit
  }

  /** Candidates only get reserved, and no other key moves. */
  ghost predicate Resumes(q: Queue, cs: seq<Candidate>, q': Queue, ds: seq<Candidate>) {
    && QueueOk(q, q') && OnlyReserves(cs, ds) && AllPlaced(q', ds)
    && (forall k :: k !in CandidateKeys(cs) ==> SamePlace(q, q', k))
  }

  lemma ResumesAgain(q: Queue, cs: seq<Candidate>, q1: Queue, cs1: seq<Candidate>, q2: Queue, cs2: seq<Candidate>)
    requires Resumes(q, cs, q1, cs1) && Resumes(q1, cs1, q2, cs2)
    ensures Resumes(q, cs, q2, cs2)
  {
    OnlyReservesKeys(cs, cs1);
    forall j | 0 <= j < |cs| ensures Reserved(cs[j], cs2[j]) {
      assert Reserved(cs[j], cs1[j]) && Reserved(cs1[j], cs2[j]);
    }
    forall k | k !in CandidateKeys(cs) ensures SamePlace(q, q2, k) {
      assert SamePlace(q, q1, k) && SamePlace(q1, q2, k);
    }
  }

  lemma ResumeOne(q: Queue, cs: seq<Candidate>, i: nat)
    requires WellFormed(q) && !InQueue(q, "") && InQueueOrder(q, KeySeq(cs)) && AllPlaced(q, cs)
    requires i < |cs| && !cs[i].reserved && NextPending(q) == cs[i].key && Grants(q)
    ensures Resumes(q, cs, AcquireLatest(q).0, cs[i := cs[i].(reserved := true)])
  {
    AcquireEffect(q);
    DistinctCandidates(q, cs);
    var q1 := AcquireLatest(q).0;
    var ds := cs[i := cs[i].(reserved := true)];
    forall c | c in ds ensures Placed(q1, c) {
      var j :| 0 <= j < |ds| && ds[j] == c;
      if j != i {
        assert cs[j] in cs && cs[j].key != cs[i].key && SamePlace(q, q1, cs[j].key);
      }
    }
    assert cs[i] in cs;
  }

  /** Re-acquiring only reserves the record's own waiting candidates. */
  lemma {:induction false} ReacquireEffect(q: Queue, cs: seq<Candidate>, i: nat)
    requires WellFormed(q) && !InQueue(q, "") && InQueueOrder(q, KeySeq(cs)) && AllPlaced(q, cs)
    ensures Resumes(q, cs, Reacquire(q, cs, i).0, Reacquire(q, cs, i).1)
    decreases |cs| - i
  {
    if i >= |cs| {
    } else if !cs[i].reserved && NextPending(q) == cs[i].key && Grants(q) {
      AcquireEffect(q);
      var q1 := AcquireLatest(q).0;
      var cs1 := cs[i := cs[i].(reserved := true)];
      ResumeOne(q, cs, i);
      OnlyReservesKeys(cs, cs1);
      OrderSurvives(q, q1, KeySeq(cs));
      ReacquireEffect(q1, cs1, i + 1);
      ResumesAgain(q, cs, q1, cs1, Reacquire(q, cs, i).0, Reacquire(q, cs, i).1);
    } else {
      ReacquireEffect(q, cs, i + 1);
    }
  }

  // ---------- a new batch ----------

  ghost predicate BatchOk<Id>(b: Batch<Id>, id: Id) {
    && WellFormed(b.queue) && !InQueue(b.queue, "")
    && (forall c :: c in b.candidates ==> c == Candidate(c.key, "", false, Retry, true) && c.key in b.queue.running)
    && InQueueOrder(b.queue, KeySeq(b.candidates))
    && (forall c, k :: c in b.candidates && IsPending(b.queue, k) ==> Earlier(b.queue, c.key, k))
    && (forall k :: k in CandidateKeys(b.candidates) <==> k in b.claims && b.claims[k] == id)
  }

  /** What a batch takes was waiting and unclaimed; claimed keys do not move. */
  ghost predicate Takes<Id>(b: Batch<Id>, d: Batch<Id>, id: Id) {
    && QueueOk(b.queue, d.queue)
    && (forall k :: k in b.claims ==> k in d.claims && d.claims[k] == b.claims[k])
    && (forall k :: k in d.claims && k !in b.claims ==> d.claims[k] == id && IsPending(b.queue, k))
    && (forall k :: k in b.claims || k !in d.claims ==> SamePlace(b.queue, d.queue, k))
  }

  function FillStep<Id>(b: Batch<Id>, id: Id): Batch<Id> {
    var (q, next) := AcquireLatest(b.queue);
    Batch(q, b.claims[next := id], b.candidates + [Candidate(next, "", false, Retry, true)], false)
  }

  lemma {:induction false} AppendInOrder(q: Queue, ks: seq<string>, k: string)
    requires InQueueOrder(q, ks) && forall x :: x in ks ==> x != k && Earlier(q, x, k)
    ensures InQueueOrder(q, ks + [k])
  {
    if ks == [] {
      assert ([k])[1..] == [];
    } else {
      var rest := ks[1..];
      forall x | x in rest ensures x != k && Earlier(q, x, k) {
        assert x in ks;
      }
      AppendInOrder(q, rest, k);
      assert (ks + [k])[0] == ks[0] && ks[0] in ks && (ks + [k])[1..] == rest + [k];
      assert EarlierThanAll(q, ks[0], rest + [k]);
    }
  }

  lemma {:induction false} KeySeqAppend(cs: seq<Candidate>, c: Candidate)
    ensures KeySeq(cs + [c]) == KeySeq(cs) + [c.key]
    ensures CandidateKeys(cs + [c]) == CandidateKeys(cs) + {c.key}
  {
    if cs != [] {
      assert (cs + [c])[1..] == cs[1..] + [c];
      KeySeqAppend(cs[1..], c);
      assert cs == [cs[0]] + cs[1..];
    }
    assert c in cs + [c];
  }

  /** The head, once taken, precedes everything that still waits. */
  lemma HeadIsEarliest(q: Queue, k: string)
    requires WellFormed(q) && Grants(q) && IsPending(AcquireLatest(q).0, k)
    ensures Earlier(AcquireLatest(q).0, NextPending(q), k)
  {
    AcquireKeepsWellFormed(q);
    AcquireMovesHead(q);
    var q1 := AcquireLatest(q).0;
    var head := q.pending[0];
    assert head in q.pending;
    HeadAndTail(q.pending);
    forall x, y | Holds(q1, x) && Holds(q1, y) && x.key == head.key && y.key == k ensures Before(x, y) {
      assert x == head;
      assert y in q1.pending;
    }
  }

  lemma FillOneTakes<Id>(b: Batch<Id>, id: Id)
    requires BatchOk(b, id) && Grants(b.queue) && NextPending(b.queue) !in b.claims
    ensures Takes(b, FillStep(b, id), id)
  {
    AcquireEffect(b.queue);
  }

  lemma FillOneOrder<Id>(b: Batch<Id>, id: Id)
    requires BatchOk(b, id) && Grants(b.queue) && NextPending(b.queue) !in b.claims
    ensures InQueueOrder(FillStep(b, id).queue, KeySeq(FillStep(b, id).candidates))
  {
    AcquireEffect(b.queue);
    var (q, next) := AcquireLatest(b.queue);
    KeySeqMembers(b.candidates);
    KeySeqAppend(b.candidates, Candidate(next, "", false, Retry, true));
    assert next !in CandidateKeys(b.candidates);
    OrderSurvives(b.queue, q, KeySeq(b.candidates));
    forall x | x in KeySeq(b.candidates) ensures x != next && Earlier(q, x, next) {
      var c :| c in b.candidates && c.key == x;
      assert Earlier(b.queue, c.key, next);
    }
    AppendInOrder(q, KeySeq(b.candidates), next);
  }

  lemma FillOneAhead<Id>(b: Batch<Id>, id: Id, c: Candidate, k: string)
    requires BatchOk(b, id) && Grants(b.queue) && NextPending(b.queue) !in b.claims
    requires c in FillStep(b, id).candidates && IsPending(FillStep(b, id).queue, k)
    ensures Earlier(FillStep(b, id).queue, c.key, k)
  {
    AcquireEffect(b.queue);
    if c in b.candidates {
      assert SamePlace(b.queue, FillStep(b, id).queue, k);
      assert Earlier(b.queue, c.key, k);
    } else {
      HeadIsEarliest(b.queue, k);
    }
  }

  lemma FillOneClaims<Id>(b: Batch<Id>, id: Id)
    requires BatchOk(b, id) && Grants(b.queue)
    ensures var d := FillStep(b, id);
      && WellFormed(d.queue) && !InQueue(d.queue, "")
      && (forall c :: c in d.candidates ==> c == Candidate(c.key, "", false, Retry, true) && c.key in d.queue.running)
      && (forall k :: k in CandidateKeys(d.candidates) <==> k in d.claims && d.claims[k] == id)
  {
    AcquireEffect(b.queue);
    KeySeqAppend(b.candidates, Candidate(AcquireLatest(b.queue).1, "", false, Retry, true));
    assert forall c :: c in b.candidates ==> c.key in AcquireLatest(b.queue).0.running;
  }

  lemma FillOne<Id>(b: Batch<Id>, id: Id)
    requires BatchOk(b, id) && Grants(b.queue) && NextPending(b.queue) !in b.claims
    ensures BatchOk(FillStep(b, id), id) && Takes(b, FillStep(b, id), id)
  {
    var d := FillStep(b, id);
    FillOneTakes(b, id);
    FillOneOrder(b, id);
    FillOneClaims(b, id);
    forall c, k | c in d.candidates && IsPending(d.queue, k) ensures Earlier(d.queue, c.key, k) {
      FillOneAhead(b, id, c, k);
    }
  }

  lemma TakesAgain<Id>(b: Batch<Id>, d: Batch<Id>, e: Batch<Id>, id: Id)
    requires Takes(b, d, id) && Takes(d, e, id)
    ensures Takes(b, e, id)
  {
    forall k | k in e.claims && k !in b.claims ensures e.claims[k] == id && IsPending(b.queue, k) {
      if k !in d.claims {
        assert SamePlace(b.queue, d.queue, k);
      }
    }
    forall k | k in b.claims || k !in e.claims ensures SamePlace(b.queue, e.queue, k) {
      assert SamePlace(b.queue, d.queue, k) && SamePlace(d.queue, e.queue, k);
    }
  }

  lemma {:induction false} FillEffect<Id>(b: Batch<Id>, id: Id, limit: nat)
    requires BatchOk(b, id) && !b.blocked
    ensures var d := Fill(b, id, limit);
      && BatchOk(d, id) && Takes(b, d, id) && (d.blocked ==> b.candidates == [] && d == b.(blocked := true))
      && (limit != 0 && |b.candidates| <= limit ==> |d.candidates| <= limit)
    decreases |b.queue.pending|
  {
    if limit != 0 && |b.candidates| >= limit {
    } else if NextPending(b.queue) in b.claims {
    } else {
      AcquireEffect(b.queue);
      if Grants(b.queue) {
        FillOne(b, id);
        FillEffect(FillStep(b, id), id, limit);
        TakesAgain(b, FillStep(b, id), Fill(b, id, limit), id);
      }
    }
  }

  // ---------- AcquireAdmission ----------

  lemma AddListKeeps<Id>(s: Repo<Id>, list: seq<string>, clock: seq<int>)
    requires Consistent(s) && s.queue.Some? && "" !in list && |list| <= |clock|
    ensures Consistent(s.(queue := Some(AddList(s.queue.value, list, clock))))
  {
    AddListEffect(s.queue.value, list, clock);
    forall k | k in s.claims ensures InQueue(s.queue.value, k) {
      ClaimedIsHeld(s, k);
    }
    QueueChange(s, AddList(s.queue.value, list, clock));
  }

  /** The candidate behind a claim, and where its key is. */
  lemma ClaimedIsHeld<Id>(s: Repo<Id>, k: string)
    requires Consistent(s) && k in s.claims
    ensures s.queue.Some? && IsLive(s, s.claims[k]) && InQueue(s.queue.value, k)
    ensures exists c :: c in s.records[s.claims[k]].candidates && c.key == k && Placed(s.queue.value, c)
  {
    assert ClaimOk(s, k);
    var r := s.records[s.claims[k]];
    assert RecordOk(s.queue.value, r);
    var c :| c in r.candidates && c.key == k;
    assert Placed(s.queue.value, c);
  }

  lemma LiveRecord<Id>(s: Repo<Id>, id: Id)
    requires Consistent(s) && IsLive(s, id)
    ensures s.queue.Some? && s.hasClaims && RecordOk(s.queue.value, s.records[id])
  {
    assert OwnerOk(s, s.records[id].owner);
  }

  /** The record resumed with the candidates ds is in order. */
  lemma ResumedRecordOk(q: Queue, r: Record, q': Queue, ds: seq<Candidate>)
    requires RecordOk(q, r) && !r.busy && Resumes(q, r.candidates, q', ds)
    ensures RecordOk(q', r.(candidates := ds, busy := true))
    ensures ReservedOnly(ds) == [] ==> ds == r.candidates && RecordOk(q', r.(candidates := ds))
  {
    var cs := r.candidates;
    OnlyReservesKeys(cs, ds);
    OrderSurvives(q, q', KeySeq(cs));
    forall c | c in ds ensures c.outcome.Retry? && (c.attempted ==> c.reserved) {
      var j :| 0 <= j < |ds| && ds[j] == c;
      assert Reserved(cs[j], ds[j]) && cs[j] in cs && Settled(r, cs[j]);
    }
    if ReservedOnly(ds) == [] {
      ReservedMembers(ds);
      forall j | 0 <= j < |cs| ensures ds[j] == cs[j] {
        assert ds[j] in ds && Reserved(cs[j], ds[j]);
      }
      assert ds == cs;
    }
  }

  lemma GrantResumeKeeps<Id>(s: Repo<Id>, id: Id)
    requires Consistent(s) && IsLive(s, id) && !s.records[id].busy
    requires s.records[id].candidates != [] || s.records[id].done
    ensures s.queue.Some? && Consistent(Grant(s, id, [], []).0)
  {
    LiveRecord(s, id);
    OwnClaims(s, id);
    var r := s.records[id];
    var q := s.queue.value;
    ReacquireEffect(q, r.candidates, 0);
    var (q', cs) := Reacquire(q, r.candidates, 0);
    ResumedRecordOk(q, r, q', cs);
    OnlyReservesKeys(r.candidates, cs);
    RecordChange(s, id, r.(candidates := cs, busy := true), s.claims, q');
    if ReservedOnly(cs) == [] {
      RecordChange(s, id, r.(candidates := cs), s.claims, q');
    }
  }

  lemma FilledRecordOk<Id>(r: Record, d: Batch<Id>, id: Id)
    requires BatchOk(d, id) && (r.promotion ==> |d.candidates| <= 1)
    ensures RecordOk(d.queue, r.(candidates := d.candidates, done := d.candidates == [], busy := true))
  {
  }

  lemma EmptyBatchOk<Id>(s: Repo<Id>, id: Id)
    requires Consistent(s) && IsLive(s, id) && s.records[id].candidates == []
    ensures s.queue.Some? && BatchOk(Batch(s.queue.value, s.claims, [], false), id)
  {
    LiveRecord(s, id);
    OwnClaims(s, id);
    assert CandidateKeys([]) == {};
  }

  lemma GrantFreshKeeps<Id>(s: Repo<Id>, id: Id)
    requires Consistent(s) && IsLive(s, id) && !s.records[id].busy
    requires s.records[id].candidates == [] && !s.records[id].done
    ensures s.queue.Some? && Consistent(Grant(s, id, [], []).0)
  {
    LiveRecord(s, id);
    EmptyBatchOk(s, id);
    var r := s.records[id];
    var q := s.queue.value;
    var b := Batch(q, s.claims, [], false);
    var limit := if r.promotion then 1 else q.limit;
    FillEffect(b, id, limit);
    var d := Fill(b, id, limit);
    FilledRecordOk(r, d, id);
    var r' := r.(candidates := d.candidates, done := d.candidates == [], busy := true);
    RecordChange(s, id, r', d.claims, d.queue);
    assert Reacquire(q, r.candidates, 0) == (q, []);
  }

  /** Adding the list first is the same as adding it beforehand. */
  lemma GrantAfterAdding<Id>(s: Repo<Id>, id: Id, list: seq<string>, clock: seq<int>)
    requires s.queue.Some? && id in s.records && |list| <= |clock|
    ensures Grant(s, id, list, clock) == Grant(s.(queue := Some(AddList(s.queue.value, list, clock))), id, [], [])
  {
  }

  lemma GrantKeeps<Id>(s: Repo<Id>, id: Id, list: seq<string>, clock: seq<int>)
    requires Consistent(s) && IsLive(s, id) && !s.records[id].busy
    requires "" !in list && |list| <= |clock|
    ensures s.queue.Some? && Consistent(Grant(s, id, list, clock).0)
  {
    LiveRecord(s, id);
    AddListKeeps(s, list, clock);
    GrantAfterAdding(s, id, list, clock);
    var t := s.(queue := Some(AddList(s.queue.value, list, clock)));
    if s.records[id].candidates == [] && !s.records[id].done {
      GrantFreshKeeps(t, id);
    } else {
      GrantResumeKeeps(t, id);
    }
  }

  /** Changing only the flags of a live record. */
  lemma FlagsChange<Id>(s: Repo<Id>, id: Id, r: Record)
    requires Consistent(s) && IsLive(s, id)
    requires r.owner == s.records[id].owner && r.candidates == s.records[id].candidates
    requires s.queue.Some? ==> RecordOk(s.queue.value, r)
    ensures Consistent(s.(records := s.records[id := r]))
    ensures IsLive(s.(records := s.records[id := r]), id)
  {
    LiveRecord(s, id);
    OwnClaims(s, id);
    assert forall k :: SamePlace(s.queue.value, s.queue.value, k);
    RecordChange(s, id, r, s.claims, s.queue.value);
  }

  lemma OwnerReleasedKeeps<Id>(s: Repo<Id>, id: Id)
    requires Consistent(s) && IsLive(s, id)
    ensures var u := OwnerReleased(s, id); Consistent(u) && IsLive(u, id) && u.records.Keys == s.records.Keys
  {
    LiveRecord(s, id);
    FlagsChange(s, id, s.records[id].(releasedOwner := true));
    assert OwnerReleased(s, id).records.Keys == s.records.Keys;
  }

  lemma ReleaseOwnerKeeps<Id>(s: Repo<Id>, id: Id, key: string)
    requires Consistent(s) && IsLive(s, id) && !s.records[id].promotion
    ensures
      var t := ReleaseOwner(s, id, key);
      && Consistent(t) && IsLive(t, id)
      && t.records[id].busy == s.records[id].busy && !t.records[id].promotion && t.records[id].releasedOwner
      && (t.records[id].candidates == [] ==> t.records[id].done)
      && t.queue.Some? && !InQueue(t.queue.value, key)
  {
    LiveRecord(s, id);
    OwnerReleasedKeeps(s, id);
    RemoveFromQueueKeeps(OwnerReleased(s, id), key);
    RemovalEffect(s.queue.value, key);
    var v := RemoveFromQueue(OwnerReleased(s, id), key);
    assert IsLive(v, id);
    LiveRecord(v, id);
    if v.records[id].candidates == [] {
      FlagsChange(v, id, v.records[id].(done := true));
    }
  }

  lemma ReleasedGrantKeeps<Id>(s: Repo<Id>, id: Id, key: string, list: seq<string>, clock: seq<int>)
    requires Consistent(s) && IsLive(s, id) && !s.records[id].busy && !s.records[id].promotion
    requires "" !in list && |list| <= |clock|
    ensures ReleaseOwner(s, id, key).queue.Some? && id in ReleaseOwner(s, id, key).records
    ensures Consistent(Grant(ReleaseOwner(s, id, key), id, list, clock).0)
  {
    ReleaseOwnerKeeps(s, id, key);
    GrantKeeps(ReleaseOwner(s, id, key), id, list, clock);
  }

  lemma EnterKeeps<Id>(s: Repo<Id>, id: Id, owner: Owner, list: seq<string>, clock: seq<int>, mode: Mode)
    requires Consistent(s) && s.queue.Some? && IsLive(s, id) && !s.records[id].busy
    requires "" !in list && |list| <= |clock|
    ensures Consistent(Enter(s, id, owner, list, clock, mode).0)
  {
    LiveRecord(s, id);
    if s.records[id].promotion == mode.Promotion? {
      if mode.Resume? && owner.finishing && InQueue(s.queue.value, owner.key) {
        ReleasedGrantKeeps(s, id, owner.key, list, clock);
      } else {
        GrantKeeps(s, id, list, clock);
      }
    }
  }

  lemma GrantHasClaims<Id>(s: Repo<Id>, id: Id, list: seq<string>, clock: seq<int>)
    requires s.queue.Some? && id in s.records && |list| <= |clock|
    ensures Grant(s, id, list, clock).1 != Refused(MissingClaims)
  {
  }

  lemma EnterHasClaims<Id>(s: Repo<Id>, id: Id, owner: Owner, list: seq<string>, clock: seq<int>, mode: Mode)
    requires s.queue.Some? && s.hasClaims && id in s.records && |list| <= |clock|
    ensures Enter(s, id, owner, list, clock, mode).1 != Refused(MissingClaims)
  {
    GrantHasClaims(s, id, list, clock);
    if mode.Resume? && owner.finishing && InQueue(s.queue.value, owner.key) {
      GrantHasClaims(ReleaseOwner(s, id, owner.key), id, list, clock);
    }
  }

  /** AcquireAdmission keeps the invariant, and never finds the claims missing. */
  lemma AcquireAdmissionKeeps<Id>(
    s: Repo<Id>, limit: nat, owner: Owner, list: seq<string>, clock: seq<int>, mode: Mode, newId: Id)
    requires Consistent(s) && newId !in s.records
    requires "" !in list && |list| <= |clock|
    ensures Consistent(AcquireAdmission(s, limit, owner, list, clock, mode, newId).0)
    ensures AcquireAdmission(s, limit, owner, list, clock, mode, newId).1 != Refused(MissingClaims)
  {
    var o := OwnerKey(owner);
    var t := OpenQueue(s, limit);
    OpenQueueKeeps(s, limit);
    assert o in s.admissions ==> OwnerOk(s, o);
    if o in s.admissions && s.admissions[o] in s.records {
      if !(mode.Resume? && s.records[s.admissions[o]].promotion) && !s.records[s.admissions[o]].busy {
        EnterKeeps(t, s.admissions[o], owner, list, clock, mode);
        EnterHasClaims(t, s.admissions[o], owner, list, clock, mode);
      }
    } else if !mode.Resume? && !(mode.Promotion? && !InQueue(t.queue.value, owner.key)) {
      var u := if mode.Promotion? then RemoveFromQueue(t, owner.key) else t;
      if mode.Promotion? {
        RemoveFromQueueKeeps(t, owner.key);
      }
      RecordAdded(u, o, mode.Promotion?, newId);
      EnterKeeps(Register(u, o, mode.Promotion?, newId), newId, owner, list, clock, mode);
      EnterHasClaims(Register(u, o, mode.Promotion?, newId), newId, owner, list, clock, mode);
    }
  }

  // ---------- FinishAdmission ----------

  ghost predicate DistinctLease(cs: seq<Candidate>) {
    cs == [] || (cs[0].key !in CandidateKeys(cs[1..]) && DistinctLease(cs[1..]))
  }

  /** What a lease still says about the live record it was given for: the record is
      busy and its reserved candidates are the leased ones. */
  ghost predicate LeaseOk<Id>(s: Repo<Id>, id: Id, cs: seq<Candidate>) {
    && id in s.records && DistinctLease(cs) && (forall c :: c in cs ==> c.reserved)
    && (IsLive(s, id) ==>
          && s.records[id].busy
          && forall c :: c in s.records[id].candidates ==> (c.reserved <==> c.key in CandidateKeys(cs)))
  }

  /** While a batch is being recorded: what is left is reserved, the others are settled. */
  ghost predicate Recording<Id>(s: Repo<Id>, id: Id, rest: seq<Candidate>) {
    && Consistent(s) && IsLive(s, id) && s.records[id].busy
    && DistinctLease(rest) && (forall c :: c in rest ==> c.reserved)
    && LeftInOrder(s.records[id].candidates, rest)
  }

  lemma LeaseStarts<Id>(s: Repo<Id>, id: Id, cs: seq<Candidate>)
    requires Consistent(s) && IsLive(s, id) && LeaseOk(s, id, cs)
    ensures Recording(s, id, cs)
  {
    LiveRecord(s, id);
    assert forall c :: c in s.records[id].candidates ==> Settled(s.records[id], c);
  }

  lemma LeaseHeadTail(cs: seq<Candidate>)
    requires cs != [] && DistinctLease(cs)
    ensures cs[0] in cs && DistinctLease(cs[1..])
    ensures CandidateKeys(cs) == CandidateKeys(cs[1..]) + {cs[0].key} && cs[0].key !in CandidateKeys(cs[1..])
    ensures forall c :: c in cs[1..] ==> c in cs
  {
    assert cs == [cs[0]] + cs[1..];
  }

  lemma {:induction false} LeaseKeysDistinct(cs: seq<Candidate>, i: nat, j: nat)
    requires DistinctLease(cs) && i < j < |cs|
    ensures cs[i].key != cs[j].key
    decreases |cs|
  {
    LeaseHeadTail(cs);
    if i == 0 {
      assert cs[1..][j - 1] in cs[1..];
    } else {
      LeaseKeysDistinct(cs[1..], i - 1, j - 1);
    }
  }

  lemma ForgetBusy<Id>(s: Repo<Id>, id: Id, key: string)
    requires id in s.records && s.records[id].busy && s.queue.Some? && key in s.claims && s.claims[key] == id
    ensures ForgetCandidate(s, key) == LostCandidate(s, id, key, false)
  {
  }

  lemma UnclaimedRemoval<Id>(s: Repo<Id>, key: string)
    requires s.queue.Some? && key !in s.claims
    ensures RemoveFromQueue(s, key) == s.(queue := Some(Drop(Release(s.queue.value, key), key)))
  {
  }

  lemma GoneForm<Id>(s: Repo<Id>, id: Id, c: Candidate)
    requires IsLive(s, id) && s.records[id].busy && s.queue.Some?
    requires c.key in s.claims && s.claims[c.key] == id && c.outcome.Gone?
    ensures FinishOne(s, id, c).0 == RemoveFromQueue(LostCandidate(s, id, c.key, false), c.key)
  {
    ForgetBusy(s, id, c.key);
  }

  lemma FinishGone<Id>(s: Repo<Id>, id: Id, c: Candidate)
    requires Consistent(s) && IsLive(s, id) && s.records[id].busy && s.queue.Some?
    requires c.key in s.claims && s.claims[c.key] == id && c.outcome.Gone?
    ensures
      var t := FinishOne(s, id, c).0;
      && Consistent(t)
      && t == LostCandidate(s, id, c.key, false).(queue := Some(Drop(Release(s.queue.value, c.key), c.key)))
  {
    GoneForm(s, id, c);
    LosesKeeps(s, c.key, false);
    var u := LostCandidate(s, id, c.key, false);
    UnclaimedRemoval(u, c.key);
    RemoveFromQueueKeeps(u, c.key);
  }

  lemma SucceededForm<Id>(s: Repo<Id>, id: Id, c: Candidate)
    requires IsLive(s, id) && s.records[id].busy && s.queue.Some?
    requires c.key in s.claims && s.claims[c.key] == id && c.outcome.Succeeded?
    ensures FinishOne(s, id, c).0 == LostCandidate(s, id, c.key, true)
  {
    ForgetBusy(s, id, c.key);
    assert s.records[id := Loses(s.records[id], c.key, false)][id := Loses(s.records[id], c.key, true)]
      == s.records[id := Loses(s.records[id], c.key, true)];
  }

  lemma FinishSucceeded<Id>(s: Repo<Id>, id: Id, c: Candidate)
    requires Consistent(s) && IsLive(s, id) && s.records[id].busy && s.queue.Some?
    requires c.key in s.claims && s.claims[c.key] == id && c.outcome.Succeeded?
    ensures
      var t := FinishOne(s, id, c).0;
      Consistent(t) && t == LostCandidate(s, id, c.key, true)
  {
    SucceededForm(s, id, c);
    LosesKeeps(s, c.key, true);
  }

  lemma ReplacedPlaced(q: Queue, q': Queue, r: Record, c: Candidate, x: Candidate)
    requires RecordOk(q, r) && x in r.candidates && x.key != c.key
    requires forall k :: k != c.key ==> SamePlace(q, q', k)
    ensures Placed(q', x) && Settled(r, x)
  {
    assert Placed(q, x) && SamePlace(q, q', x.key);
  }

  lemma RetryRecordOk(q: Queue, q': Queue, r: Record, c: Candidate)
    requires RecordOk(q, r) && c.key in CandidateKeys(r.candidates) && r.busy
    requires NothingNew(q, q') && forall k :: k != c.key ==> SamePlace(q, q', k)
    requires Placed(q', c) && (c.attempted ==> c.reserved) && c.outcome.Retry?
    ensures RecordOk(q', r.(candidates := ReplaceCandidate(r.candidates, c)))
    ensures CandidateKeys(ReplaceCandidate(r.candidates, c)) == CandidateKeys(r.candidates)
  {
    var ds := ReplaceCandidate(r.candidates, c);
    ReplaceKeepsKeys(r.candidates, c);
    KeySeqMembers(r.candidates);
    KeySeqMembers(ds);
    OrderSurvives(q, q', KeySeq(r.candidates));
    forall x | x in ds ensures Placed(q', x) && Settled(r.(candidates := ds), x) {
      ReplaceMembers(q, r.candidates, c);
      if x != c {
        ReplacedPlaced(q, q', r, c, x);
      }
    }
  }

  function Retried<Id>(s: Repo<Id>, id: Id, c: Candidate): Repo<Id>
    requires id in s.records && s.queue.Some?
  {
    var r := s.records[id];
    Changed(s, id, r.(candidates := ReplaceCandidate(r.candidates, c.(reserved := c.attempted))), s.claims,
      if c.attempted then s.queue.value else Requeue(s.queue.value, c.key))
  }

  lemma FinishRetry<Id>(s: Repo<Id>, id: Id, c: Candidate)
    requires Consistent(s) && IsLive(s, id) && s.records[id].busy && s.queue.Some?
    requires c.key in s.claims && s.claims[c.key] == id && c.outcome.Retry? && c.reserved
    requires c.key in s.queue.value.running
    ensures FinishOne(s, id, c) == (Retried(s, id, c), []) && Consistent(Retried(s, id, c))
  {
    LiveRecord(s, id);
    OwnClaims(s, id);
    var q := s.queue.value;
    var r := s.records[id];
    var c' := c.(reserved := c.attempted);
    var q' := if c.attempted then q else Requeue(q, c.key);
    if !c.attempted { RequeueEffect(q, c.key); }
    assert forall k :: SamePlace(q, q, k);
    RetryRecordOk(q, q', r, c');
    RecordChange(s, id, r.(candidates := ReplaceCandidate(r.candidates, c')), s.claims, q');
    assert c.attempted ==> c' == c;
  }

  lemma LeasedIsRunning<Id>(s: Repo<Id>, id: Id, rest: seq<Candidate>)
    requires Recording(s, id, rest) && rest != [] && rest[0].key in s.claims && s.claims[rest[0].key] == id
    ensures s.queue.Some? && rest[0].key in s.queue.value.running
    ensures rest[0].key in CandidateKeys(s.records[id].candidates)
  {
    LiveRecord(s, id);
    LeaseHeadTail(rest);
    OwnClaims(s, id);
    var x :| x in s.records[id].candidates && x.key == rest[0].key;
    assert Placed(s.queue.value, x) && x.reserved;
  }

  /** The candidates that are left over after one result was recorded. */
  ghost predicate LeftInOrder(cs: seq<Candidate>, rest: seq<Candidate>) {
    forall c :: c in cs ==> if c.key in CandidateKeys(rest) then c.reserved else c.attempted <==> c.reserved
  }

  lemma LeftAfterLoss(cs: seq<Candidate>, rest: seq<Candidate>)
    requires rest != [] && DistinctLease(rest) && LeftInOrder(cs, rest)
    ensures LeftInOrder(WithoutCandidate(cs, rest[0].key), rest[1..])
    ensures rest[0].key !in CandidateKeys(cs) ==> LeftInOrder(cs, rest[1..])
  {
    LeaseHeadTail(rest);
    WithoutCandidateMembers(cs, rest[0].key);
    assert forall c :: c in cs ==> c.key in CandidateKeys(cs);
  }

  lemma LeftAfterRetry(q: Queue, cs: seq<Candidate>, rest: seq<Candidate>)
    requires rest != [] && DistinctLease(rest) && LeftInOrder(cs, rest)
    requires InQueueOrder(q, KeySeq(cs)) && rest[0].key in CandidateKeys(cs)
    ensures LeftInOrder(ReplaceCandidate(cs, rest[0].(reserved := rest[0].attempted)), rest[1..])
  {
    LeaseHeadTail(rest);
    ReplaceMembers(q, cs, rest[0].(reserved := rest[0].attempted));
  }

  /** Recording one result keeps everything in order and restores what it must. */
  lemma FinishOneKeeps<Id>(s: Repo<Id>, id: Id, rest: seq<Candidate>)
    requires Recording(s, id, rest) && rest != []
    ensures s.queue.Some? && FinishOne(s, id, rest[0]).1 == []
    ensures Recording(FinishOne(s, id, rest[0]).0, id, rest[1..])
  {
    LiveRecord(s, id);
    LeaseHeadTail(rest);
    var c := rest[0];
    var cs := s.records[id].candidates;
    LeftAfterLoss(cs, rest);
    if c.key in s.claims && s.claims[c.key] == id {
      LeasedIsRunning(s, id, rest);
      match c.outcome
      case Succeeded => FinishSucceeded(s, id, c);
      case Gone => FinishGone(s, id, c);
      case Retry =>
        FinishRetry(s, id, c);
        LeftAfterRetry(s.queue.value, cs, rest);
    } else {
      OwnClaims(s, id);
    }
  }

  lemma {:induction false} FinishAllKeeps<Id>(s: Repo<Id>, id: Id, rest: seq<Candidate>)
    requires Recording(s, id, rest)
    ensures s.queue.Some? && FinishAll(s, id, rest).1 == []
    ensures Recording(FinishAll(s, id, rest).0, id, [])
    decreases |rest|
  {
    LiveRecord(s, id);
    if rest != [] {
      FinishOneKeeps(s, id, rest);
      FinishAllKeeps(FinishOne(s, id, rest[0]).0, id, rest[1..]);
    }
  }

  /** A record that is no longer live may change freely. */
  lemma DeadChange<Id>(s: Repo<Id>, id: Id, r: Record)
    requires Consistent(s) && id in s.records && !IsLive(s, id) && r.owner == s.records[id].owner
    ensures Consistent(s.(records := s.records[id := r]))
  {
    var t := s.(records := s.records[id := r]);
    forall o | o in t.admissions ensures OwnerOk(t, o) && t.admissions[o] != id {
      assert OwnerOk(s, o);
    }
    forall k | k in t.claims ensures ClaimOk(t, k) {
      assert ClaimOk(s, k);
    }
  }

  lemma SettleKeeps<Id>(s: Repo<Id>, id: Id)
    requires Recording(s, id, [])
    ensures
      var u := Settle(s, id);
      Consistent(u.(records := u.records[id := u.records[id].(busy := false)]))
  {
    LiveRecord(s, id);
    var r := s.records[id];
    assert CandidateKeys([]) == {};
    if !r.promotion && r.candidates == [] && r.releasedOwner {
      var r' := r.(promotion := true, done := false, busy := false);
      FlagsChange(s, id, r');
      var u := Settle(s, id);
      assert u.records[id := r'] == s.records[id := r'];
    } else if !r.promotion && r.candidates == [] && r.done {
      RecordDeleted(s, r.owner);
      DeadChange(Settle(s, id), id, r.(busy := false));
    } else {
      FlagsChange(s, id, r.(busy := false));
    }
  }

  /** Past its results, FinishAdmission only touches the record and who is live. */
  lemma FinishForm<Id>(s: Repo<Id>, id: Id, cs: seq<Candidate>)
    requires IsLive(s, id) && s.queue.Some?
    ensures var t, u := FinishAdmission(s, id, cs).0, FinishAll(s, id, cs).0;
      t.queue == u.queue && t.claims == u.claims
  {
  }

  /** FinishAdmission keeps the invariant, and of its errors only "unfinished" occurs:
      the queue is there and every unattempted candidate can be restored. */
  lemma FinishAdmissionKeeps<Id>(s: Repo<Id>, id: Id, cs: seq<Candidate>)
    requires Consistent(s) && LeaseOk(s, id, cs)
    ensures Consistent(FinishAdmission(s, id, cs).0)
    ensures FinishAdmission(s, id, cs).1 == [] || FinishAdmission(s, id, cs).1 == [Unfinished]
  {
    if IsLive(s, id) {
      LiveRecord(s, id);
      LeaseStarts(s, id, cs);
      FinishAllKeeps(s, id, cs);
      SettleKeeps(FinishAll(s, id, cs).0, id);
    }
  }
}
