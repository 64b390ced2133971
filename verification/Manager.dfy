/** The queue manager's state for one repository key, in the code's form: the
    repository's semaphore, and two maps that share admission records with each other
    and with the leases that workers hold. The semaphore appears as the value that
    PrioritySemaphore is proved to keep. Every method runs under the manager's lock, and
    does to the state what the function of Admission.dfy of the same name does. */
module Managers {
  import opened Wrappers
  import opened Semaphores
  import opened Admissions
  import opened AdmissionSteps

  class AdmissionState {
    const owner: string
    var promotion: bool
    var busy: bool
    var done: bool
    var releasedOwner: bool
    var candidates: seq<Candidate>

    constructor (owner: string, promotion: bool)
      ensures this.owner == owner && AsRecord() == Record(owner, promotion, false, false, false, [])
    {
      this.owner, this.promotion := owner, promotion;
      busy, done, releasedOwner, candidates := false, false, false, [];
    }

    ghost function AsRecord(): Record
      reads this
    {
      Record(owner, promotion, busy, done, releasedOwner, candidates)
    }
  }

  /** A lease: the worker's private copy of the candidates. */
  class Admission {
    var candidates: seq<Candidate>
    const state: AdmissionState

    constructor (state: AdmissionState, candidates: seq<Candidate>)
      ensures this.state == state && this.candidates == candidates
    {
      this.state, this.candidates := state, candidates;
    }
  }

  /** The lease or the error that an admission returns. */
  ghost predicate Answers(work: Admission?, error: Option<AcquireError>, reply: AcquireReply<AdmissionState>)
    reads work
  {
    match reply
    case NoWork => work == null && error == None
    case Refused(e) => work == null && error == Some(e)
    case Leased(id, cs) => work != null && work.state == id && work.candidates == cs && error == None
  }

  // ---------- loops over the queue ----------

  method AddAll(q0: Queue, list: seq<string>, clock: seq<int>) returns (q: Queue)
    requires |list| <= |clock|
    ensures q == AddList(q0, list, clock)
  {
    q := q0;
    var i := 0;
    while i < |list|
      invariant 0 <= i <= |list|
      invariant AddList(q, list[i..], clock[i..]) == AddList(q0, list, clock)
    {
      q := Add(q, list[i], clock[i]);
      assert list[i..][1..] == list[i + 1..] && clock[i..][1..] == clock[i + 1..];
      i := i + 1;
    }
  }

  method ReacquireOwn(q0: Queue, cs: seq<Candidate>) returns (q: Queue, ds: seq<Candidate>)
    ensures (q, ds) == Reacquire(q0, cs, 0)
  {
    q, ds := q0, cs;
    var i := 0;
    while i < |ds|
      invariant 0 <= i <= |ds|
      invariant Reacquire(q, ds, i) == Reacquire(q0, cs, 0)
    {
      if !ds[i].reserved && NextPending(q) == ds[i].key {
        var (q', got) := AcquireLatest(q);
        q := q';
        if got != "" {
          ds := ds[i := ds[i].(reserved := true)];
        }
      }
      i := i + 1;
    }
  }

  method FillBatch(b: Batch<AdmissionState>, state: AdmissionState, limit: nat) returns (d: Batch<AdmissionState>)
    requires !b.blocked
    ensures d == Fill(b, state, limit)
  {
    d := b;
    var more := true;
    while more && (limit == 0 || |d.candidates| < limit)
      invariant more ==> !d.blocked && Fill(d, state, limit) == Fill(b, state, limit)
      invariant !more ==> d == Fill(b, state, limit)
      decreases more, |d.queue.pending|
    {
      if NextPending(d.queue) in d.claims {
        d := d.(blocked := d.candidates == []);
        more := false;
      } else {
        var (q, next) := AcquireLatest(d.queue);
        if next == "" {
          d := d.(queue := q);
          more := false;
        } else {
          d := Batch(q, d.claims[next := state], d.candidates + [Candidate(next, "", false, Retry, true)], false);
        }
      }
    }
  }

  method ReservedCandidates(cs: seq<Candidate>) returns (ds: seq<Candidate>)
    ensures ds == ReservedOnly(cs)
  {
    ds := [];
    var i := 0;
    while i < |cs|
      invariant 0 <= i <= |cs|
      invariant ds + ReservedOnly(cs[i..]) == ReservedOnly(cs)
    {
      if cs[i].reserved {
        ds := ds + [cs[i]];
      }
      assert cs[i..][1..] == cs[i + 1..];
      i := i + 1;
    }
  }

  lemma {:induction false} FillClaims(b: Batch<AdmissionState>, id: AdmissionState, limit: nat)
    ensures forall k :: k in Fill(b, id, limit).claims ==>
      Fill(b, id, limit).claims[k] == id || (k in b.claims && Fill(b, id, limit).claims[k] == b.claims[k])
    decreases |b.queue.pending|
  {
    if limit != 0 && |b.candidates| >= limit {
    } else if NextPending(b.queue) in b.claims {
    } else {
      var (q, next) := AcquireLatest(b.queue);
      if next != "" {
        var c := Candidate(next, "", false, Retry, true);
        FillClaims(Batch(q, b.claims[next := id], b.candidates + [c], false), id, limit);
      }
    }
  }

  class Manager {
    var queue: Option<Queue>
    var hasAdmissions: bool
    var admissions: map<string, AdmissionState>
    var hasClaims: bool
    var claims: map<string, AdmissionState>
    /** Every record that was ever made, and what it holds. */
    ghost var Records: map<AdmissionState, Record>

    ghost predicate Tracked()
      reads this`hasAdmissions, this`hasClaims, this`admissions, this`claims, this`Records
    {
      && hasAdmissions == hasClaims && (!hasAdmissions ==> admissions == map[] && claims == map[])
      && (forall o :: o in admissions ==> admissions[o] in Records)
      && (forall k :: k in claims ==> claims[k] in Records)
    }

    /** Records says what the records hold, except for the one being changed. */
    ghost predicate ValidBut(changing: set<AdmissionState>)
      reads this`hasAdmissions, this`hasClaims, this`admissions, this`claims, this`Records, Records.Keys
    {
      Tracked() && forall a :: a in Records.Keys && a !in changing ==> Records[a] == a.AsRecord()
    }

    ghost predicate Valid()
      reads this`hasAdmissions, this`hasClaims, this`admissions, this`claims, this`Records, Records.Keys
    {
      ValidBut({})
    }

    ghost function State(): Repo<AdmissionState>
      reads this
    {
      Repo(queue, hasAdmissions, admissions, hasClaims, claims, Records)
    }

    constructor ()
      ensures Valid() && State() == NewRepo()
    {
      queue, hasAdmissions, admissions, hasClaims, claims, Records := None, false, map[], false, map[], map[];
    }

    ghost method Note(state: AdmissionState)
      requires state in Records && ValidBut({state})
      modifies this`Records
      ensures Valid() && Records == old(Records)[state := state.AsRecord()] && Records.Keys == old(Records.Keys)
    {
      Records := Records[state := state.AsRecord()];
    }

    method GetSemaphore(limit: nat)
      modifies this`queue
      ensures State() == OpenQueue(old(State()), limit)
    {
      if queue.None? {
        queue := Some(NewQueue(limit));
      } else if limit != queue.value.limit {
        queue := Some(Resize(queue.value, limit));
      }
    }

    method WriteCandidates(state: AdmissionState, cs: seq<Candidate>)
      requires Valid() && state in Records
      modifies this`Records, state`candidates
      ensures Valid() && Records.Keys == old(Records.Keys)
      ensures Records == old(Records)[state := old(Records)[state].(candidates := cs)]
    {
      state.candidates := cs;
      Note(state);
    }

    method Unlink(key: string, owner: string, abandoned: bool)
      requires Valid()
      modifies this`admissions, this`claims
      ensures Valid() && claims == old(claims) - {key}
      ensures admissions == if abandoned then old(admissions) - {owner} else old(admissions)
    {
      claims := claims - {key};
      if abandoned {
        admissions := admissions - {owner};
      }
    }

    method ForgetCandidateOf(key: string)
      requires Valid()
      modifies this`admissions, this`claims, this`Records, Records.Keys`candidates
      ensures Valid() && Records.Keys == old(Records.Keys) && State() == ForgetCandidate(old(State()), key)
    {
      if key in claims {
        var state := claims[key];
        WriteCandidates(state, WithoutCandidate(state.candidates, key));
        var abandoned := !state.promotion && !state.busy && !state.releasedOwner && state.candidates == [];
        Unlink(key, state.owner, abandoned);
      }
    }

    method MarkDone(state: AdmissionState)
      requires Valid() && state in Records
      modifies this`Records, state`done
      ensures Valid() && Records.Keys == old(Records.Keys)
      ensures Records == old(Records)[state := old(Records)[state].(done := true)]
    {
      state.done := true;
      Note(state);
    }

    method Unclaim(key: string)
      requires Valid()
      modifies this`admissions, this`claims, this`Records, Records.Keys`candidates, Records.Keys`done
      ensures Valid() && Records.Keys == old(Records.Keys) && State() == Forgotten(old(State()), key)
    {
      if key in claims {
        MarkDone(claims[key]);
        ForgetCandidateOf(key);
      }
    }

    method Remove(key: string) returns (found: bool)
      requires Valid()
      modifies this`queue, this`admissions, this`claims, this`Records, Records.Keys`candidates, Records.Keys`done
      ensures Valid() && Records.Keys == old(Records.Keys)
      ensures State() == RemoveFromQueue(old(State()), key) && found == old(queue).Some?
    {
      found := queue.Some?;
      if found {
        RemoveForm(State(), key);
        Unclaim(key);
        queue := Some(Drop(Release(queue.value, key), key));
      }
    }

    method ForgetAdmissionOf(owner: Owner)
      requires Valid()
      modifies this`admissions
      ensures Valid() && State() == ForgetAdmission(old(State()), owner)
    {
      var key := OwnerKey(owner);
      if key in admissions && !admissions[key].busy && admissions[key].candidates == [] {
        admissions := admissions - {key};
      }
    }

    method RegisterState(state: AdmissionState)
      requires Valid() && state !in Records
      requires state.AsRecord() == Record(state.owner, state.promotion, false, false, false, [])
      modifies this`hasAdmissions, this`hasClaims, this`admissions, this`claims, this`Records
      ensures Valid() && Records.Keys == old(Records.Keys) + {state}
      ensures State() == Register(old(State()), state.owner, state.promotion, state)
    {
      if !hasAdmissions {
        hasAdmissions, admissions := true, map[];
        hasClaims, claims := true, map[];
      }
      admissions := admissions[state.owner := state];
      Records := Records[state := state.AsRecord()];
    }

    method MarkReleased(state: AdmissionState)
      requires Valid() && state in Records
      modifies this`Records, state`releasedOwner
      ensures Valid() && Records.Keys == old(Records.Keys) && State() == OwnerReleased(old(State()), state)
    {
      state.releasedOwner := true;
      Note(state);
    }

    method ReleaseOwnerOf(state: AdmissionState, key: string)
      requires Valid() && state in Records
      modifies this`queue, this`admissions, this`claims, this`Records
      modifies Records.Keys`candidates, Records.Keys`done, Records.Keys`releasedOwner
      ensures Valid() && Records.Keys == old(Records.Keys) && State() == ReleaseOwner(old(State()), state, key)
    {
      MarkReleased(state);
      var _ := Remove(key);
      if state.candidates == [] {
        MarkDone(state);
      }
    }

    method WriteBatch(state: AdmissionState, d: Batch<AdmissionState>)
      requires Valid() && state in Records && hasClaims && forall k :: k in d.claims ==> d.claims[k] in Records
      modifies this`claims, this`Records, state`candidates, state`done, state`busy
      ensures Valid() && claims == d.claims
      ensures Records.Keys == old(Records.Keys)
      ensures Records == old(Records)[state :=
        old(Records)[state].(candidates := d.candidates, done := d.candidates == [], busy := true)]
    {
      claims := d.claims;
      state.candidates := d.candidates;
      state.done := d.candidates == [];
      state.busy := true;
      Note(state);
    }

    method TakeBatchFor(state: AdmissionState, q: Queue) returns (work: Admission?, error: Option<AcquireError>)
      requires Valid() && state in Records && hasClaims
      modifies this`queue, this`claims, this`Records, state`candidates, state`done, state`busy
      ensures Valid() && Records.Keys == old(Records.Keys) && (work != null ==> fresh(work))
      ensures var (t, reply) := TakeBatch(old(State()), state, q);
        State() == t && Answers(work, error, reply)
    {
      work, error := null, None;
      var limit := if state.promotion then 1 else q.limit;
      FillClaims(Batch(q, claims, [], false), state, limit);
      var d := FillBatch(Batch(q, claims, [], false), state, limit);
      queue := Some(d.queue);
      if d.blocked {
        error := Some(OwnedByAnother);
      } else {
        WriteBatch(state, d);
        work := new Admission(state, d.candidates);
      }
    }

    method WriteResumed(state: AdmissionState, cs: seq<Candidate>, leased: bool)
      requires Valid() && state in Records
      modifies this`Records, state`candidates, state`busy
      ensures Valid() && Records.Keys == old(Records.Keys)
      ensures Records == old(Records)[state :=
        old(Records)[state].(candidates := cs, busy := leased || old(Records)[state].busy)]
    {
      state.candidates := cs;
      if leased {
        state.busy := true;
      }
      Note(state);
    }

    method ResumeFor(state: AdmissionState, q: Queue, cs: seq<Candidate>)
      returns (work: Admission?, error: Option<AcquireError>)
      requires Valid() && state in Records
      modifies this`queue, this`Records, state`candidates, state`busy
      ensures Valid() && Records.Keys == old(Records.Keys) && (work != null ==> fresh(work))
      ensures var (t, reply) := ResumeBatch(old(State()), state, q, cs);
        State() == t && Answers(work, error, reply)
    {
      work, error := null, None;
      queue := Some(q);
      var reserved := ReservedCandidates(cs);
      var waits := cs != [] && reserved == [];
      WriteResumed(state, cs, !waits);
      if waits {
        error := Some(WaitingToResume);
      } else {
        work := new Admission(state, reserved);
      }
    }

    method GrantFor(state: AdmissionState, list: seq<string>, clock: seq<int>)
      returns (work: Admission?, error: Option<AcquireError>)
      requires Valid() && state in Records && queue.Some? && hasClaims && |list| <= |clock|
      modifies this`queue, this`claims, this`Records, state`candidates, state`done, state`busy
      ensures Valid() && Records.Keys == old(Records.Keys) && (work != null ==> fresh(work))
      ensures var (t, reply) := Grant(old(State()), state, list, clock);
        State() == t && Answers(work, error, reply)
    {
      var q := AddAll(queue.value, list, clock);
      var cs;
      q, cs := ReacquireOwn(q, state.candidates);
      if cs == [] && !state.done {
        work, error := TakeBatchFor(state, q);
      } else {
        work, error := ResumeFor(state, q, cs);
      }
    }

    /** The part of an admission after the record is found or made. */
    method EnterFor(state: AdmissionState, owner: Owner, list: seq<string>, clock: seq<int>, mode: Mode)
      returns (work: Admission?, error: Option<AcquireError>)
      requires Valid() && state in Records && queue.Some? && |list| <= |clock|
      modifies this`queue, this`admissions, this`claims, this`Records, Records.Keys
      ensures Valid() && Records.Keys == old(Records.Keys) && (work != null ==> fresh(work))
      ensures var (t, reply) := Enter(old(State()), state, owner, list, clock, mode);
        State() == t && Answers(work, error, reply)
    {
      work, error := null, None;
      if !hasClaims {
        error := Some(MissingClaims);
      } else if state.promotion != mode.Promotion? {
        error := Some(MustResumeFirst);
      } else {
        if mode.Resume? && owner.finishing && InQueue(queue.value, owner.key) {
          ReleaseOwnerOf(state, owner.key);
        }
        work, error := GrantFor(state, list, clock);
      }
    }

    /** `made` is the record that a new owner gets. */
    method AcquireAdmissionFor(limit: nat, owner: Owner, list: seq<string>, clock: seq<int>, mode: Mode)
      returns (work: Admission?, error: Option<AcquireError>, ghost made: AdmissionState)
      requires Valid() && |list| <= |clock|
      modifies this, Records.Keys
      ensures Valid() && fresh(made) && Records.Keys <= old(Records.Keys) + {made} && (work != null ==> fresh(work))
      ensures var (t, reply) := AcquireAdmission(old(State()), limit, owner, list, clock, mode, made);
        State() == t && Answers(work, error, reply)
    {
      work, error := null, None;
      var key := OwnerKey(owner);
      var unused := new AdmissionState(key, mode.Promotion?);
      made := unused;
      if key in admissions {
        var state := admissions[key];
        if mode.Resume? && state.promotion {
          return;
        }
        if state.busy {
          error := Some(Busy);
          return;
        }
        GetSemaphore(limit);
        work, error := EnterFor(state, owner, list, clock, mode);
      } else {
        if mode.Resume? {
          return;
        }
        GetSemaphore(limit);
        if mode.Promotion? {
          if !InQueue(queue.value, owner.key) {
            return;
          }
          var _ := Remove(owner.key);
        }
        RegisterState(unused);
        work, error := EnterFor(unused, owner, list, clock, mode);
      }
    }

    method SucceededFor(state: AdmissionState, c: Candidate)
      requires Valid() && state in Records && queue.Some? && c.key in claims && claims[c.key] == state
      requires c.outcome.Succeeded?
      modifies this`admissions, this`claims, this`Records, Records.Keys`candidates, Records.Keys`done
      ensures Valid() && Records.Keys == old(Records.Keys)
      ensures State() == FinishOne(old(State()), state, c).0
    {
      ForgetCandidateOf(c.key);
      MarkDone(state);
    }

    method GoneFor(state: AdmissionState, c: Candidate)
      requires Valid() && state in Records && queue.Some? && c.key in claims && claims[c.key] == state
      requires c.outcome.Gone?
      modifies this`queue, this`admissions, this`claims, this`Records, Records.Keys`candidates, Records.Keys`done
      ensures Valid() && Records.Keys == old(Records.Keys)
      ensures State() == FinishOne(old(State()), state, c).0
    {
      ForgetCandidateOf(c.key);
      var _ := Remove(c.key);
    }

    method RetryFor(state: AdmissionState, c: Candidate) returns (errs: seq<FinishError>)
      requires Valid() && state in Records && queue.Some? && c.key in claims && claims[c.key] == state
      requires c.outcome.Retry?
      modifies this`queue, this`Records, state`candidates
      ensures Valid() && Records.Keys == old(Records.Keys)
      ensures (State(), errs) == FinishOne(old(State()), state, c)
    {
      var d := c;
      if !c.attempted {
        if c.key !in queue.value.running {
          return [CannotRestore(c.key)];
        }
        queue := Some(Requeue(queue.value, c.key));
        d := c.(reserved := false);
      }
      WriteCandidates(state, ReplaceCandidate(state.candidates, d));
      return [];
    }

    /** One result of a batch. */
    method FinishOneFor(state: AdmissionState, c: Candidate) returns (errs: seq<FinishError>)
      requires Valid() && state in Records && queue.Some?
      modifies this`queue, this`admissions, this`claims, this`Records, Records.Keys
      ensures Valid() && Records.Keys == old(Records.Keys)
      ensures (State(), errs) == FinishOne(old(State()), state, c)
    {
      errs := [];
      if c.key in claims && claims[c.key] == state {
        match c.outcome
        case Succeeded => SucceededFor(state, c);
        case Gone => GoneFor(state, c);
        case Retry => errs := RetryFor(state, c);
      }
    }

    /** The first of the remaining results; the others are still to be recorded. */
    method FinishNext(state: AdmissionState, cs: seq<Candidate>, i: nat) returns (now: seq<FinishError>)
      requires Valid() && state in Records && queue.Some? && i < |cs|
      modifies this`queue, this`admissions, this`claims, this`Records, Records.Keys
      ensures Valid() && Records.Keys == old(Records.Keys) && queue.Some?
      ensures FinishAll(old(State()), state, cs[i..]).0 == FinishAll(State(), state, cs[i + 1..]).0
      ensures FinishAll(old(State()), state, cs[i..]).1 == now + FinishAll(State(), state, cs[i + 1..]).1
    {
      FinishRest(State(), state, cs, i);
      now := FinishOneFor(state, cs[i]);
    }

    method FinishAllFor(state: AdmissionState, cs: seq<Candidate>) returns (errs: seq<FinishError>)
      requires Valid() && state in Records && queue.Some?
      modifies this`queue, this`admissions, this`claims, this`Records, Records.Keys
      ensures Valid() && Records.Keys == old(Records.Keys) && queue.Some?
      ensures (State(), errs) == FinishAll(old(State()), state, cs)
    {
      errs := [];
      ghost var (last, all) := FinishAll(State(), state, cs);
      var i := 0;
      assert cs[0..] == cs;
      while i < |cs|
        invariant 0 <= i <= |cs|
        invariant Valid() && Records.Keys == old(Records.Keys) && queue.Some?
        invariant FinishAll(State(), state, cs[i..]).0 == last
        invariant errs + FinishAll(State(), state, cs[i..]).1 == all
      {
        var now := FinishNext(state, cs, i);
        errs := errs + now;
        i := i + 1;
      }
      assert cs[i..] == [] && errs + [] == errs;
    }

    /** After the batch: a released batch owner turns into a promotion record, a
        completed batch is dropped. */
    method SettleFor(state: AdmissionState)
      requires Valid() && state in Records
      modifies this`admissions, this`Records, state`promotion, state`done
      ensures Valid() && Records.Keys == old(Records.Keys) && State() == Settle(old(State()), state)
    {
      if !state.promotion && state.candidates == [] {
        if state.releasedOwner {
          state.promotion := true;
          state.done := false;
          Note(state);
        } else if state.done {
          admissions := admissions - {state.owner};
        }
      }
    }

    method EndLease(state: AdmissionState)
      requires Valid() && state in Records
      modifies this`Records, state`busy
      ensures Valid() && Records.Keys == old(Records.Keys)
      ensures Records == old(Records)[state := old(Records)[state].(busy := false)]
    {
      state.busy := false;
      Note(state);
    }

    /** All results are recorded and the batch is settled, while the lease is still busy. */
    method RecordBatch(state: AdmissionState, cs: seq<Candidate>) returns (errs: seq<FinishError>)
      requires Valid() && state in Records && queue.Some?
      modifies this`queue, this`admissions, this`claims, this`Records, Records.Keys
      ensures Valid() && Records.Keys == old(Records.Keys)
      ensures var (t, all) := FinishAll(old(State()), state, cs);
        var u := Settle(t, state);
        State() == u && errs == if u.records[state].candidates != [] then all + [Unfinished] else all
    {
      errs := FinishAllFor(state, cs);
      SettleFor(state);
      if state.candidates != [] {
        errs := errs + [Unfinished];
      }
    }

    method FinishAdmissionFor(work: Admission) returns (errs: seq<FinishError>)
      requires Valid() && work.state in Records
      modifies this`queue, this`admissions, this`claims, this`Records, Records.Keys
      ensures Valid() && Records.Keys == old(Records.Keys)
      ensures (State(), errs) == FinishAdmission(old(State()), work.state, work.candidates)
    {
      errs := [];
      var state := work.state;
      if state.owner !in admissions || admissions[state.owner] != state {
        return;
      }
      if queue.None? {
        errs := [MissingQueue];
      } else {
        errs := RecordBatch(state, work.candidates);
      }
      EndLease(state);
    }

    method AcquireUnownedKey() returns (key: string)
      requires queue.Some?
      modifies this`queue
      ensures queue.Some? && (State(), key) == AcquireUnowned(old(State()))
    {
      key := "";
      if NextPending(queue.value) !in claims {
        var (q, got) := AcquireLatest(queue.value);
        queue, key := Some(q), got;
      }
    }

    method AddToPending(limit: nat, list: seq<string>, clock: seq<int>)
      requires |list| <= |clock|
      modifies this`queue
      ensures queue.Some? && State() == AddToPendingQueue(old(State()), limit, list, clock)
    {
      GetSemaphore(limit);
      var q := AddAll(queue.value, list, clock);
      queue := Some(q);
    }

    method TakeUnownedKeys(n: nat) returns (keys: seq<string>)
      requires queue.Some?
      modifies this`queue
      ensures (State(), keys) == TakeUnowned(old(State()), n)
    {
      keys := [];
      var i := 0;
      while i < n
        invariant 0 <= i <= n && queue.Some?
        invariant TakeUnowned(State(), n - i).0 == TakeUnowned(old(State()), n).0
        invariant keys + TakeUnowned(State(), n - i).1 == TakeUnowned(old(State()), n).1
      {
        TakeRest(State(), n - i);
        var key := AcquireUnownedKey();
        if key != "" {
          keys := keys + [key];
        }
        i := i + 1;
      }
      assert keys + [] == keys;
    }

    method AddListToRunning(limit: nat, list: seq<string>, clock: seq<int>) returns (keys: seq<string>)
      requires |list| <= |clock|
      modifies this`queue
      ensures (State(), keys) == AddListToRunningQueue(old(State()), limit, list, clock)
    {
      AddToPending(limit, list, clock);
      if limit == 0 {
        keys := PendingKeys(queue.value);
      } else {
        keys := TakeUnownedKeys(limit);
      }
    }

    method RemoveAndTakeItem(key: string) returns (next: string)
      requires Valid()
      modifies this`queue, this`admissions, this`claims, this`Records, Records.Keys
      ensures Valid() && (State(), next) == RemoveAndTake(old(State()), key)
    {
      next := "";
      var found := Remove(key);
      if found {
        next := AcquireUnownedKey();
      }
    }

    method RemoveRepositoryState()
      requires Valid()
      modifies this`queue, this`hasAdmissions, this`admissions, this`hasClaims, this`claims
      ensures Valid() && State() == RemoveRepository(old(State()))
    {
      queue := None;
      hasAdmissions, admissions := false, map[];
      hasClaims, claims := false, map[];
    }
  }

  /** The first of the remaining results, then the others. */
  lemma FinishRest(s: Repo<AdmissionState>, id: AdmissionState, cs: seq<Candidate>, i: nat)
    requires s.queue.Some? && id in s.records && i < |cs|
    ensures var (t, now) := FinishOne(s, id, cs[i]);
      && t.queue.Some? && id in t.records
      && FinishAll(s, id, cs[i..]).0 == FinishAll(t, id, cs[i + 1..]).0
      && FinishAll(s, id, cs[i..]).1 == now + FinishAll(t, id, cs[i + 1..]).1
  {
    assert cs[i..][1..] == cs[i + 1..];
  }

  lemma TakeRest(s: Repo<AdmissionState>, n: nat)
    requires s.queue.Some? && n > 0
    ensures var (t, key) := AcquireUnowned(s);
      && t.queue.Some?
      && TakeUnowned(s, n).0 == TakeUnowned(t, n - 1).0
      && TakeUnowned(s, n).1 == (if key != "" then [key] else []) + TakeUnowned(t, n - 1).1
  {
  }
}
