/** The admission protocol for one repository, as functions on its state: which
    queued PipelineRuns an owner may start, and what becomes of the ones it could
    not. Manager.dfy has the same operations in the code's form. */
module Admissions {
  import opened Wrappers
  import opened Semaphores

  datatype Mode = Initial | Resume | Promotion

  datatype Outcome = Retry | Succeeded | Gone

  datatype Candidate = Candidate(key: string, uid: string, attempted: bool, outcome: Outcome, reserved: bool)

  datatype Record = Record(
    owner: string, promotion: bool, busy: bool, done: bool, releasedOwner: bool, candidates: seq<Candidate>)

  /** What the queue reads of a PipelineRun that owns an admission. */
  datatype Owner = Owner(key: string, uid: string, finishing: bool)

  function OwnerKey(owner: Owner): string {
    owner.key + "/" + owner.uid
  }

  /** The manager's state for one repository. `Id` is the identity of a record, which
      the code compares to recognise an invalidated lease; `records` holds every record
      ever made, live or not. The two flags say whether the inner maps exist. */
  datatype Repo<Id> = Repo(
    queue: Option<Queue>,
    hasAdmissions: bool, admissions: map<string, Id>,
    hasClaims: bool, claims: map<string, Id>,
    records: map<Id, Record>)

  function NewRepo<Id>(): Repo<Id> {
    Repo(None, false, map[], false, map[], map[])
  }

  datatype AcquireError = Busy | MissingClaims | MustResumeFirst | OwnedByAnother | WaitingToResume

  datatype AcquireReply<Id> = NoWork | Refused(error: AcquireError) | Leased(id: Id, candidates: seq<Candidate>)

  datatype FinishError = MissingQueue | CannotRestore(key: string) | Unfinished

  // ---------- candidates ----------

  function WithoutCandidate(cs: seq<Candidate>, key: string): seq<Candidate> {
    if cs == [] then []
    else if cs[0].key == key then WithoutCandidate(cs[1..], key)
    else [cs[0]] + WithoutCandidate(cs[1..], key)
  }

  /** The first candidate with the key of c is overwritten by c. */
  function ReplaceCandidate(cs: seq<Candidate>, c: Candidate): seq<Candidate> {
    if cs == [] then []
    else if cs[0].key == c.key then [c] + cs[1..]
    else [cs[0]] + ReplaceCandidate(cs[1..], c)
  }

  function ReservedOnly(cs: seq<Candidate>): seq<Candidate> {
    if cs == [] then []
    else if cs[0].reserved then [cs[0]] + ReservedOnly(cs[1..])
    else ReservedOnly(cs[1..])
  }

  function CandidateKeys(cs: seq<Candidate>): set<string> {
    set c | c in cs :: c.key
  }

  // ---------- the operations ----------

  function OpenQueue<Id>(s: Repo<Id>, limit: nat): Repo<Id> {
    s.(queue := Some(if s.queue.Some? then Resize(s.queue.value, limit) else NewQueue(limit)))
  }

  function ForgetCandidate<Id>(s: Repo<Id>, key: string): Repo<Id> {
    if key in s.claims && s.claims[key] in s.records then
      var id := s.claims[key];
      var r := s.records[id];
      var rest := r.(candidates := WithoutCandidate(r.candidates, key));
      var abandoned := !r.promotion && !r.busy && !r.releasedOwner && rest.candidates == [];
      s.(claims := s.claims - {key},
         records := s.records[id := rest],
         admissions := if abandoned then s.admissions - {r.owner} else s.admissions)
    else s
  }

  function RemoveFromQueue<Id>(s: Repo<Id>, key: string): Repo<Id> {
    if s.queue.None? then s
    else
      var done :=
        if key in s.claims && s.claims[key] in s.records
        then s.(records := s.records[s.claims[key] := s.records[s.claims[key]].(done := true)])
        else s;
      ForgetCandidate(done, key).(queue := Some(Drop(Release(s.queue.value, key), key)))
  }

  function ForgetAdmission<Id>(s: Repo<Id>, owner: Owner): Repo<Id> {
    var o := OwnerKey(owner);
    if o in s.admissions && s.admissions[o] in s.records
       && !s.records[s.admissions[o]].busy && s.records[s.admissions[o]].candidates == []
    then s.(admissions := s.admissions - {o})
    else s
  }

  predicate InQueue(q: Queue, key: string) {
    key in q.running || IsPending(q, key)
  }

  /** Each key of the list is added with the clock reading of its own iteration. */
  function AddList(q: Queue, list: seq<string>, clock: seq<int>): Queue
    requires |list| <= |clock|
    decreases |list|
  {
    if list == [] then q else AddList(Add(q, list[0], clock[0]), list[1..], clock[1..])
  }

  function Register<Id>(s: Repo<Id>, ownerKey: string, promotion: bool, id: Id): Repo<Id> {
    s.(hasAdmissions := true,
       hasClaims := if s.hasAdmissions then s.hasClaims else true,
       admissions := s.admissions[ownerKey := id],
       records := s.records[id := Record(ownerKey, promotion, false, false, false, [])])
  }

  function OwnerReleased<Id>(s: Repo<Id>, id: Id): Repo<Id>
    requires id in s.records
  {
    s.(records := s.records[id := s.records[id].(releasedOwner := true)])
  }

  function ReleaseOwner<Id>(s: Repo<Id>, id: Id, key: string): Repo<Id>
    requires id in s.records
  {
    var t := RemoveFromQueue(OwnerReleased(s, id), key);
    if id in t.records && t.records[id].candidates == []
    then t.(records := t.records[id := t.records[id].(done := true)])
    else t
  }

  /** The loop that takes the owner's own requeued candidates again, in order. */
  function Reacquire(q: Queue, cs: seq<Candidate>, i: nat): (Queue, seq<Candidate>)
    decreases |cs| - i
  {
    if i >= |cs| then (q, cs)
    else if !cs[i].reserved && NextPending(q) == cs[i].key then
      var (q', got) := AcquireLatest(q);
      Reacquire(q', if got != "" then cs[i := cs[i].(reserved := true)] else cs, i + 1)
    else Reacquire(q, cs, i + 1)
  }

  datatype Batch<Id> = Batch(queue: Queue, claims: map<string, Id>, candidates: seq<Candidate>, blocked: bool)

  /** The loop that takes new candidates from the head of the queue. It is blocked when
      the very first head belongs to another admission. */
  function Fill<Id>(b: Batch<Id>, id: Id, limit: nat): Batch<Id>
    decreases |b.queue.pending|
  {
    if limit != 0 && |b.candidates| >= limit then b
    else if NextPending(b.queue) in b.claims then b.(blocked := b.candidates == [])
    else
      var (q, next) := AcquireLatest(b.queue);
      if next == "" then b.(queue := q)
      else Fill(Batch(q, b.claims[next := id], b.candidates + [Candidate(next, "", false, Retry, true)], false), id, limit)
  }

  /** The record has nothing unfinished and takes a new batch, one key for a promotion. */
  function TakeBatch<Id>(s: Repo<Id>, id: Id, q: Queue): (Repo<Id>, AcquireReply<Id>)
    requires id in s.records
  {
    var r := s.records[id];
    var b := Fill(Batch(q, s.claims, [], false), id, if r.promotion then 1 else q.limit);
    if b.blocked then (s.(queue := Some(b.queue)), Refused(OwnedByAnother))
    else
      (s.(queue := Some(b.queue), claims := b.claims,
          records := s.records[id := r.(candidates := b.candidates, done := b.candidates == [], busy := true)]),
       Leased(id, b.candidates))
  }

  /** The record goes on with its candidates cs, of which only the reserved are leased. */
  function ResumeBatch<Id>(s: Repo<Id>, id: Id, q: Queue, cs: seq<Candidate>): (Repo<Id>, AcquireReply<Id>)
    requires id in s.records
  {
    var waits := cs != [] && ReservedOnly(cs) == [];
    (s.(queue := Some(q),
        records := s.records[id := s.records[id].(candidates := cs, busy := !waits || s.records[id].busy)]),
     if waits then Refused(WaitingToResume) else Leased(id, ReservedOnly(cs)))
  }

  /** The part of AcquireAdmission after the record is known to be the owner's. */
  function Grant<Id>(s: Repo<Id>, id: Id, list: seq<string>, clock: seq<int>): (Repo<Id>, AcquireReply<Id>)
    requires s.queue.Some? && id in s.records && |list| <= |clock|
  {
    var r := s.records[id];
    var (q, cs) := Reacquire(AddList(s.queue.value, list, clock), r.candidates, 0);
    if cs == [] && !r.done then TakeBatch(s, id, q) else ResumeBatch(s, id, q, cs)
  }

  /** The part of AcquireAdmission after the record is found or made. */
  function Enter<Id>(s: Repo<Id>, id: Id, owner: Owner, list: seq<string>, clock: seq<int>, mode: Mode)
    : (Repo<Id>, AcquireReply<Id>)
    requires s.queue.Some? && id in s.records && |list| <= |clock|
  {
    if !s.hasClaims then (s, Refused(MissingClaims))
    else if s.records[id].promotion != mode.Promotion? then (s, Refused(MustResumeFirst))
    else if mode.Resume? && owner.finishing && InQueue(s.queue.value, owner.key) then
      Grant(ReleaseOwner(s, id, owner.key), id, list, clock)
    else Grant(s, id, list, clock)
  }

  function AcquireAdmission<Id>(
    s: Repo<Id>, limit: nat, owner: Owner, list: seq<string>, clock: seq<int>, mode: Mode, newId: Id)
    : (Repo<Id>, AcquireReply<Id>)
    requires |list| <= |clock|
  {
    var o := OwnerKey(owner);
    if o in s.admissions && s.admissions[o] in s.records then
      var id := s.admissions[o];
      if mode.Resume? && s.records[id].promotion then (s, NoWork)
      else if s.records[id].busy then (s, Refused(Busy))
      else Enter(OpenQueue(s, limit), id, owner, list, clock, mode)
    else if mode.Resume? then (s, NoWork)
    else
      var t := OpenQueue(s, limit);
      if mode.Promotion? && !InQueue(t.queue.value, owner.key) then (t, NoWork)
      else
        var u := if mode.Promotion? then RemoveFromQueue(t, owner.key) else t;
        Enter(Register(u, o, mode.Promotion?, newId), newId, owner, list, clock, mode)
  }

  function FinishOne<Id>(s: Repo<Id>, id: Id, c: Candidate): (Repo<Id>, seq<FinishError>)
    requires s.queue.Some? && id in s.records
  {
    if c.key !in s.claims || s.claims[c.key] != id then (s, [])
    else
      match c.outcome
      case Succeeded =>
        var t := ForgetCandidate(s, c.key);
        (t.(records := t.records[id := t.records[id].(done := true)]), [])
      case Gone => (RemoveFromQueue(ForgetCandidate(s, c.key), c.key), [])
      case Retry =>
        var r := s.records[id];
        if c.attempted then
          (s.(records := s.records[id := r.(candidates := ReplaceCandidate(r.candidates, c))]), [])
        else if c.key in s.queue.value.running then
          (s.(queue := Some(Requeue(s.queue.value, c.key)),
              records := s.records[id := r.(candidates := ReplaceCandidate(r.candidates, c.(reserved := false)))]), [])
        else (s, [CannotRestore(c.key)])
  }

  function FinishAll<Id>(s: Repo<Id>, id: Id, cs: seq<Candidate>): (r: (Repo<Id>, seq<FinishError>))
    requires s.queue.Some? && id in s.records
    ensures r.0.queue.Some? && id in r.0.records
    decreases |cs|
  {
    if cs == [] then (s, [])
    else
      var (t, errs) := FinishOne(s, id, cs[0]);
      var (u, more) := FinishAll(t, id, cs[1..]);
      (u, errs + more)
  }

  /** After the batch: a released batch owner turns into a promotion record, a
      completed batch is dropped. */
  function Settle<Id>(s: Repo<Id>, id: Id): Repo<Id>
    requires id in s.records
  {
    var r := s.records[id];
    if r.promotion || r.candidates != [] then s
    else if r.releasedOwner then s.(records := s.records[id := r.(promotion := true, done := false)])
    else if r.done then s.(admissions := s.admissions - {r.owner})
    else s
  }

  predicate IsLive<Id(==)>(s: Repo<Id>, id: Id) {
    id in s.records && s.records[id].owner in s.admissions && s.admissions[s.records[id].owner] == id
  }

  function FinishAdmission<Id(==)>(s: Repo<Id>, id: Id, cs: seq<Candidate>): (Repo<Id>, seq<FinishError>)
    requires id in s.records
  {
    if !IsLive(s, id) then (s, [])
    else if s.queue.None? then
      (s.(records := s.records[id := s.records[id].(busy := false)]), [MissingQueue])
    else
      var (t, errs) := FinishAll(s, id, cs);
      var u := Settle(t, id);
      var errs' := if u.records[id].candidates != [] then errs + [Unfinished] else errs;
      (u.(records := u.records[id := u.records[id].(busy := false)]), errs')
  }

  function AcquireUnowned<Id>(s: Repo<Id>): (Repo<Id>, string)
    requires s.queue.Some?
  {
    if NextPending(s.queue.value) in s.claims then (s, "")
    else
      var (q, key) := AcquireLatest(s.queue.value);
      (s.(queue := Some(q)), key)
  }

  function TakeUnowned<Id>(s: Repo<Id>, n: nat): (r: (Repo<Id>, seq<string>))
    requires s.queue.Some?
    ensures r.0.queue.Some?
    decreases n
  {
    if n == 0 then (s, [])
    else
      var (t, key) := AcquireUnowned(s);
      var (u, more) := TakeUnowned(t, n - 1);
      (u, if key != "" then [key] + more else more)
  }

  function AddToPendingQueue<Id>(s: Repo<Id>, limit: nat, list: seq<string>, clock: seq<int>): Repo<Id>
    requires |list| <= |clock|
  {
    var t := OpenQueue(s, limit);
    t.(queue := Some(AddList(t.queue.value, list, clock)))
  }

  function PendingKeys(q: Queue): seq<string> {
    seq(|q.pending|, i requires 0 <= i < |q.pending| => q.pending[i].key)
  }

  /** With no limit the keys that wait are returned, and stay where they are. */
  function AddListToRunningQueue<Id>(s: Repo<Id>, limit: nat, list: seq<string>, clock: seq<int>): (Repo<Id>, seq<string>)
    requires |list| <= |clock|
  {
    var t := AddToPendingQueue(s, limit, list, clock);
    if limit == 0 then (t, PendingKeys(t.queue.value))
    else TakeUnowned(t, limit)
  }

  function RemoveAndTake<Id>(s: Repo<Id>, key: string): (Repo<Id>, string) {
    if s.queue.None? then (s, "") else AcquireUnowned(RemoveFromQueue(s, key))
  }

  function RemoveRepository<Id>(s: Repo<Id>): Repo<Id> {
    s.(queue := None, hasAdmissions := false, admissions := map[], hasClaims := false, claims := map[])
  }
}
