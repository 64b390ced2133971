/** What every state of the admission protocol satisfies, and that every operation
    keeps it. */
module AdmissionInvariant {
  import opened Wrappers
  import opened QueueOrder
  import opened Semaphores
  import opened Admissions

  // ---------- candidates and their order ----------

  function KeySeq(cs: seq<Candidate>): seq<string> {
    if cs == [] then [] else [cs[0].key] + KeySeq(cs[1..])
  }

  /** Key a was queued before key b, as far as the queue knows both. */
  ghost predicate Earlier(q: Queue, a: string, b: string) {
    forall x, y :: Holds(q, x) && Holds(q, y) && x.key == a && y.key == b ==> Before(x, y)
  }

  ghost predicate EarlierThanAll(q: Queue, a: string, ks: seq<string>) {
    forall k :: k in ks ==> k != a && Earlier(q, a, k)
  }

  /** No key twice, and in the order of the queue. */
  ghost predicate InQueueOrder(q: Queue, ks: seq<string>) {
    ks == [] || (EarlierThanAll(q, ks[0], ks[1..]) && InQueueOrder(q, ks[1..]))
  }

  /** A reserved candidate is running, an unreserved one waits. */
  ghost predicate Placed(q: Queue, c: Candidate) {
    if c.reserved then c.key in q.running else IsPending(q, c.key)
  }

  /** A candidate is still to be started; between leases exactly the attempted ones keep
      their reservation. */
  ghost predicate Settled(r: Record, c: Candidate) {
    c.outcome.Retry? && if r.busy then c.attempted ==> c.reserved else c.attempted <==> c.reserved
  }

  ghost predicate RecordOk(q: Queue, r: Record) {
    && (forall c :: c in r.candidates ==> Placed(q, c) && Settled(r, c))
    && InQueueOrder(q, KeySeq(r.candidates))
    && (r.promotion ==> |r.candidates| <= 1)
    && (r.promotion && r.done ==> r.candidates == [])
  }

  // ---------- claims ----------

  /** A record's candidates are claimed by it. */
  ghost predicate ClaimsAll<Id>(s: Repo<Id>, id: Id, r: Record) {
    forall c :: c in r.candidates ==> c.key in s.claims && s.claims[c.key] == id
  }

  ghost predicate OwnerOk<Id>(s: Repo<Id>, o: string)
    requires o in s.admissions
  {
    && s.admissions[o] in s.records
    && s.records[s.admissions[o]].owner == o
    && ClaimsAll(s, s.admissions[o], s.records[s.admissions[o]])
  }

  ghost predicate ClaimOk<Id>(s: Repo<Id>, k: string)
    requires k in s.claims
  {
    && IsLive(s, s.claims[k])
    && k in CandidateKeys(s.records[s.claims[k]].candidates)
  }

  /** Claims and the candidates of the live records are in bijection. */
  ghost predicate Linked<Id>(s: Repo<Id>) {
    && (forall o :: o in s.admissions ==> OwnerOk(s, o))
    && (forall k :: k in s.claims ==> ClaimOk(s, k))
  }

  ghost predicate Shape<Id>(s: Repo<Id>) {
    && s.hasAdmissions == s.hasClaims
    && (!s.hasAdmissions ==> s.admissions == map[] && s.claims == map[])
    && (s.hasAdmissions ==> s.queue.Some?)
    && (s.queue.Some? ==> WellFormed(s.queue.value) && !InQueue(s.queue.value, ""))
  }

  ghost predicate RecordsOk<Id>(s: Repo<Id>)
    requires s.queue.Some?
  {
    forall o :: o in s.admissions && s.admissions[o] in s.records ==>
      RecordOk(s.queue.value, s.records[s.admissions[o]])
  }

  ghost predicate Consistent<Id>(s: Repo<Id>) {
    Shape(s) && Linked(s) && (s.queue.Some? ==> RecordsOk(s))
  }

  // ---------- facts about candidate lists ----------

  lemma {:induction false} KeySeqIndices(cs: seq<Candidate>)
    ensures |KeySeq(cs)| == |cs|
    ensures forall i :: 0 <= i < |cs| ==> KeySeq(cs)[i] == cs[i].key
  {
    if cs != [] {
      KeySeqIndices(cs[1..]);
    }
  }

  lemma KeySeqMembers(cs: seq<Candidate>)
    ensures |KeySeq(cs)| == |cs|
    ensures forall i :: 0 <= i < |cs| ==> KeySeq(cs)[i] == cs[i].key
    ensures forall k :: k in KeySeq(cs) <==> k in CandidateKeys(cs)
  {
    KeySeqIndices(cs);
    forall k | k in KeySeq(cs) ensures k in CandidateKeys(cs) {
      var i :| 0 <= i < |cs| && KeySeq(cs)[i] == k;
      assert cs[i] in cs;
    }
    forall k | k in CandidateKeys(cs) ensures k in KeySeq(cs) {
      var c :| c in cs && c.key == k;
      var i :| 0 <= i < |cs| && cs[i] == c;
      assert KeySeq(cs)[i] == k;
    }
  }

  lemma {:induction false} WithoutCandidateMembers(cs: seq<Candidate>, key: string)
    ensures forall c :: c in WithoutCandidate(cs, key) <==> c in cs && c.key != key
    ensures |WithoutCandidate(cs, key)| <= |cs|
  {
    if cs != [] {
      WithoutCandidateMembers(cs[1..], key);
      assert cs == [cs[0]] + cs[1..];
    }
  }

  lemma {:induction false} WithoutCandidateOrder(q: Queue, cs: seq<Candidate>, key: string)
    requires InQueueOrder(q, KeySeq(cs))
    ensures InQueueOrder(q, KeySeq(WithoutCandidate(cs, key)))
  {
    if cs != [] {
      assert KeySeq(cs)[1..] == KeySeq(cs[1..]);
      WithoutCandidateOrder(q, cs[1..], key);
      var t := WithoutCandidate(cs[1..], key);
      WithoutCandidateMembers(cs[1..], key);
      KeySeqMembers(t);
      KeySeqMembers(cs[1..]);
      if cs[0].key != key {
        var u := [cs[0]] + t;
        assert u[1..] == t && KeySeq(u)[1..] == KeySeq(t);
        assert forall k :: k in KeySeq(t) ==> k in KeySeq(cs[1..]);
      }
    }
  }

  lemma {:induction false} ReplaceKeepsKeys(cs: seq<Candidate>, c: Candidate)
    ensures KeySeq(ReplaceCandidate(cs, c)) == KeySeq(cs)
    ensures |ReplaceCandidate(cs, c)| == |cs|
  {
    if cs != [] && cs[0].key != c.key {
      ReplaceKeepsKeys(cs[1..], c);
    }
  }

  /** With distinct keys, replacing changes exactly the candidate of that key. */
  lemma {:induction false} ReplaceMembers(q: Queue, cs: seq<Candidate>, c: Candidate)
    requires InQueueOrder(q, KeySeq(cs)) && c.key in CandidateKeys(cs)
    ensures forall x :: x in ReplaceCandidate(cs, c) <==> x == c || (x in cs && x.key != c.key)
  {
    assert cs == [cs[0]] + cs[1..];
    assert KeySeq(cs)[1..] == KeySeq(cs[1..]);
    KeySeqMembers(cs[1..]);
    if cs[0].key == c.key {
      forall x | x in cs[1..] ensures x.key != c.key {
        assert x.key in CandidateKeys(cs[1..]);
      }
    } else {
      ReplaceMembers(q, cs[1..], c);
    }
  }

  lemma {:induction false} ReservedMembers(cs: seq<Candidate>)
    ensures forall c :: c in ReservedOnly(cs) <==> c in cs && c.reserved
  {
    if cs != [] {
      ReservedMembers(cs[1..]);
      assert cs == [cs[0]] + cs[1..];
    }
  }

  /** The order survives every change of the queue that adds nothing under these keys. */
  lemma {:induction false} OrderSurvives(q: Queue, q': Queue, ks: seq<string>)
    requires InQueueOrder(q, ks)
    requires forall e :: Holds(q', e) && e.key in ks ==> Holds(q, e)
    ensures InQueueOrder(q', ks)
  {
    if ks != [] {
      assert ks == [ks[0]] + ks[1..];
      OrderSurvives(q, q', ks[1..]);
    }
  }

  ghost predicate SamePlace(q: Queue, q': Queue, k: string) {
    && (k in q.running <==> k in q'.running)
    && (IsPending(q, k) <==> IsPending(q', k))
    && (forall e :: Holds(q', e) && e.key == k ==> Holds(q, e))
  }

  lemma RecordSurvives(q: Queue, q': Queue, r: Record)
    requires RecordOk(q, r)
    requires forall k :: k in CandidateKeys(r.candidates) ==> SamePlace(q, q', k)
    ensures RecordOk(q', r)
  {
    KeySeqMembers(r.candidates);
    forall c | c in r.candidates ensures Placed(q', c) {
      assert c.key in CandidateKeys(r.candidates);
      assert Placed(q, c);
    }
    OrderSurvives(q, q', KeySeq(r.candidates));
  }

  // ---------- changes of the queue ----------

  lemma QueueChangeLinked<Id>(s: Repo<Id>, q': Queue)
    requires Linked(s)
    ensures Linked(s.(queue := Some(q')))
  {
    var t := s.(queue := Some(q'));
    assert forall o :: o in t.admissions ==> OwnerOk(s, o);
    assert forall k :: k in t.claims ==> ClaimOk(s, k);
  }

  lemma OwnerRecordSurvives<Id>(s: Repo<Id>, q': Queue, o: string)
    requires Consistent(s) && s.queue.Some? && o in s.admissions && s.admissions[o] in s.records
    requires forall k :: k in s.claims ==> SamePlace(s.queue.value, q', k)
    ensures RecordOk(q', s.records[s.admissions[o]])
  {
    var r := s.records[s.admissions[o]];
    assert OwnerOk(s, o);
    forall k | k in CandidateKeys(r.candidates) ensures SamePlace(s.queue.value, q', k) {
      assert k in s.claims;
    }
    RecordSurvives(s.queue.value, q', r);
  }

  /** Replacing the queue keeps the invariant when the claimed keys stay in place. */
  lemma QueueChange<Id>(s: Repo<Id>, q': Queue)
    requires Consistent(s) && s.queue.Some? && WellFormed(q') && !InQueue(q', "")
    requires forall k :: k in s.claims ==> SamePlace(s.queue.value, q', k)
    ensures Consistent(s.(queue := Some(q')))
  {
    QueueChangeLinked(s, q');
    forall o | o in s.admissions && s.admissions[o] in s.records
      ensures RecordOk(q', s.records[s.admissions[o]])
    {
      OwnerRecordSurvives(s, q', o);
    }
  }

  // ---------- changes of one record ----------

  function Changed<Id>(s: Repo<Id>, id: Id, r: Record, claims: map<string, Id>, q: Queue): Repo<Id> {
    s.(queue := Some(q), claims := claims, records := s.records[id := r])
  }

  /** Only the claims of record `id` differ, and they are its candidates. */
  ghost predicate ClaimsChangeOnly<Id>(before: map<string, Id>, after: map<string, Id>, id: Id, r: Record) {
    && (forall k :: k in before && before[k] != id ==> k in after && after[k] == before[k])
    && (forall k :: k in after && after[k] != id ==> k in before && before[k] == after[k])
    && (forall k :: k in after && after[k] == id ==> k in CandidateKeys(r.candidates))
    && (forall k :: k in CandidateKeys(r.candidates) ==> k in after && after[k] == id)
  }

  /** Changing one live record, its claims and the queue keeps the invariant when the
      record is in order afterwards and the others' keys stay in place. */
  lemma RecordChange<Id>(s: Repo<Id>, id: Id, r: Record, claims: map<string, Id>, q: Queue)
    requires Consistent(s) && s.queue.Some? && IsLive(s, id)
    requires r.owner == s.records[id].owner && RecordOk(q, r)
    requires ClaimsChangeOnly(s.claims, claims, id, r)
    requires WellFormed(q) && !InQueue(q, "")
    requires forall k :: k in s.claims && s.claims[k] != id ==> SamePlace(s.queue.value, q, k)
    ensures Consistent(Changed(s, id, r, claims, q))
  {
    var t := Changed(s, id, r, claims, q);
    forall o | o in t.admissions ensures OwnerOk(t, o) {
      assert OwnerOk(s, o);
      if t.admissions[o] == id {
        assert forall c :: c in r.candidates ==> c.key in CandidateKeys(r.candidates);
      }
    }
    forall k | k in t.claims ensures ClaimOk(t, k) {
      if t.claims[k] != id {
        assert ClaimOk(s, k);
      }
    }
    forall o | o in t.admissions && t.admissions[o] in t.records
      ensures RecordOk(q, t.records[t.admissions[o]])
    {
      if t.admissions[o] != id {
        assert OwnerOk(s, o);
        var x := s.records[s.admissions[o]];
        assert forall k :: k in CandidateKeys(x.candidates) ==> k in s.claims && s.claims[k] != id;
        RecordSurvives(s.queue.value, q, x);
      }
    }
  }

  lemma OwnerStaysOk<Id>(s: Repo<Id>, t: Repo<Id>, o: string)
    requires o in s.admissions && OwnerOk(s, o) && o in t.admissions && t.admissions[o] == s.admissions[o]
    requires t.admissions[o] in t.records && t.records[t.admissions[o]] == s.records[s.admissions[o]]
    requires t.claims == s.claims
    ensures OwnerOk(t, o)
  {
  }

  lemma ClaimStaysOk<Id>(s: Repo<Id>, t: Repo<Id>, k: string)
    requires k in s.claims && ClaimOk(s, k) && t.claims == s.claims
    requires IsLive(t, t.claims[k]) && t.records[t.claims[k]] == s.records[s.claims[k]]
    ensures ClaimOk(t, k)
  {
  }

  lemma ClaimsAreElsewhere<Id>(s: Repo<Id>, o: string, k: string)
    requires Linked(s) && o in s.admissions && s.admissions[o] in s.records && k in s.claims
    requires s.records[s.admissions[o]].candidates == []
    ensures ClaimOk(s, k) && s.records[s.claims[k]].owner != o
  {
    assert ClaimOk(s, k);
    assert CandidateKeys([]) == {};
  }

  lemma DeletionKeepsLinked<Id>(s: Repo<Id>, o: string)
    requires Linked(s) && o in s.admissions && s.admissions[o] in s.records
    requires s.records[s.admissions[o]].candidates == []
    ensures Linked(s.(admissions := s.admissions - {o}))
  {
    var t := s.(admissions := s.admissions - {o});
    forall p | p in t.admissions ensures OwnerOk(t, p) {
      assert OwnerOk(s, p);
      OwnerStaysOk(s, t, p);
    }
    forall k | k in t.claims ensures ClaimOk(t, k) {
      ClaimsAreElsewhere(s, o, k);
      ClaimStaysOk(s, t, k);
    }
  }

  /** Deleting a live record without candidates keeps the invariant. */
  lemma RecordDeleted<Id>(s: Repo<Id>, o: string)
    requires Consistent(s) && o in s.admissions && s.admissions[o] in s.records
    requires s.records[s.admissions[o]].candidates == []
    ensures Consistent(s.(admissions := s.admissions - {o}))
  {
    DeletionKeepsLinked(s, o);
  }

  lemma AdditionKeepsLinked<Id>(s: Repo<Id>, o: string, promotion: bool, id: Id)
    requires Linked(s) && o !in s.admissions && id !in s.records
    ensures Linked(Register(s, o, promotion, id))
  {
    var t := Register(s, o, promotion, id);
    forall p | p in t.admissions ensures OwnerOk(t, p) {
      if p != o {
        assert OwnerOk(s, p);
        OwnerStaysOk(s, t, p);
      }
    }
    forall k | k in t.claims ensures ClaimOk(t, k) {
      assert ClaimOk(s, k);
      ClaimStaysOk(s, t, k);
    }
  }

  lemma NewRecordIsOk(q: Queue, o: string, promotion: bool)
    ensures RecordOk(q, Record(o, promotion, false, false, false, []))
  {
    assert KeySeq([]) == [];
  }

  /** A new record starts without candidates. */
  lemma RecordAdded<Id>(s: Repo<Id>, o: string, promotion: bool, id: Id)
    requires Consistent(s) && s.queue.Some? && o !in s.admissions && id !in s.records
    ensures Consistent(Register(s, o, promotion, id)) && IsLive(Register(s, o, promotion, id), id)
  {
    AdditionKeepsLinked(s, o, promotion, id);
    NewRecordIsOk(s.queue.value, o, promotion);
  }
}
