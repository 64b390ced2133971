/** One pass of admissions for one owner, as a function: what each round starts, records and
    keeps, until one starts, nothing is left, or something fails. AdmissionLoop.dfy has the same
    in the code's form. */
module AdmissionPasses {
  import opened Wrappers
  import opened QueueOrder
  import opened Semaphores
  import opened Admissions
  import opened AdmissionInvariant
  import opened AdmissionSteps
  import opened AdmissionRuns
  import opened AdmissionSystem
  import opened AdmissionProperties
  import opened HandOff
  import opened Progress
  import opened AdmissionAnswers
  import QueueHistories
  import S = Starts

  datatype LoopError =
    | AcquireFailed(cause: AcquireError)
    | ReturnedTwice(key: string)
    | StartFailed(key: string)
    | FinishFailed(error: FinishError)

  // ---------- what one round does to the queue ----------

  ghost function QueueKeys<Id>(s: Repo<Id>): set<string> {
    if s.queue.None? then {} else s.queue.value.running.Keys + Keys(s.queue.value.pending)
  }

  ghost function ListKeys(list: seq<string>): set<string> {
    set k | k in list
  }

  ghost predicate AllGone(cs: seq<Candidate>) {
    forall c :: c in cs ==> c.outcome.Gone?
  }

  lemma AcquireAddsOnlyList<Id>(y: System<Id>, e: Event<Id>)
    requires Sound(y) && e.Acquire? && Enabled(y, e)
    ensures QueueKeys(Next(y, e).repo) <= QueueKeys(y.repo) + ListKeys(e.list)
  {
    forall k | k in QueueKeys(Next(y, e).repo) ensures k in QueueKeys(y.repo) || k in e.list {
      if !Queued(y.repo, k) && k !in e.list {
        QueuedOnlyByLists(y, e, k);
      }
    }
  }

  /** A leased key is in the queue, and leaves it when the run is reported gone. */
  lemma GoneLeaves<Id>(y: System<Id>, id: Id, k: string)
    requires Sound(y) && id in y.leases && IsLive(y.repo, id) && AllGone(y.leases[id])
    requires y.leases[id] != [] ==> y.repo.queue.Some?
    requires k in CandidateKeys(y.leases[id]) ==> Claimed(y.repo, id, k)
    ensures
      var t := FinishAdmission(y.repo, id, y.leases[id]).0;
      && (k in QueueKeys(t) ==> k in QueueKeys(y.repo) && k !in CandidateKeys(y.leases[id]))
      && (k in CandidateKeys(y.leases[id]) ==> k in QueueKeys(y.repo))
  {
    var e: Event<Id> := Finish(id);
    LiveRecord(y.repo, id);
    FinishConservesKeys(y, e, k);
    if k in CandidateKeys(y.leases[id]) {
      var c :| c in y.leases[id] && c.key == k;
      ClaimedKeyRuns(y, id, k);
      NotBoth(y.repo.queue.value, k);
    }
  }

  lemma ClaimedKeyRuns<Id>(y: System<Id>, id: Id, k: string)
    requires Sound(y) && id in y.leases && k in CandidateKeys(y.leases[id]) && Claimed(y.repo, id, k)
    ensures y.repo.queue.Some? && k in y.repo.queue.value.running
  {
    assert ClaimOk(y.repo, k);
    assert LeaseSound(y.repo, id, y.leases[id]);
    LiveRecord(y.repo, id);
    var c :| c in y.repo.records[id].candidates && c.key == k;
    assert Placed(y.repo.queue.value, c);
  }

  lemma NewLeaseIsRetry<Id>(s: Repo<Id>, id: Id)
    requires Consistent(s) && IsLive(s, id)
    ensures forall c :: c in ReservedOnly(s.records[id].candidates) ==> c.outcome.Retry?
  {
    LiveRecord(s, id);
    ReservedMembers(s.records[id].candidates);
    assert forall c :: c in s.records[id].candidates ==> Settled(s.records[id], c);
  }

  /** The manager and one worker: an admission, the worker's results, their recording. */
  ghost predicate Round<Id>(
    s: Repo<Id>, t: Repo<Id>, id: Id, lease: seq<Candidate>, after: seq<Candidate>, list: seq<string>)
  {
    && Consistent(t) && LeaseSound(t, id, lease) && IsLive(t, id)
    && QueueKeys(t) <= QueueKeys(s) + ListKeys(list)
    && (forall k :: k in CandidateKeys(lease) ==> Claimed(t, id, k))
    && (forall c :: c in lease ==> c.outcome.Retry?)
    && WorkerMay(lease, after)
  }

  lemma RoundStarts<Id>(s: Repo<Id>, e: Event<Id>)
    requires Consistent(s) && e.Acquire? && Enabled(System(s, map[]), e)
    requires AcquireAdmission(s, e.limit, e.owner, e.list, e.clock, e.mode, e.newId).1.Leased?
    ensures
      var (t, reply) := AcquireAdmission(s, e.limit, e.owner, e.list, e.clock, e.mode, e.newId);
      Round(s, t, reply.id, reply.candidates, reply.candidates, e.list)
  {
    var y: System<Id> := System(s, map[]);
    var (t, reply) := AcquireAdmission(s, e.limit, e.owner, e.list, e.clock, e.mode, e.newId);
    NextKeepsSound(y, e);
    AcquireAddsOnlyList(y, e);
    AcquireReplies(s, e.limit, e.owner, e.list, e.clock, e.mode, e.newId);
    OwnClaims(t, reply.id);
    ReservedMembers(t.records[reply.id].candidates);
    NewLeaseIsRetry(t, reply.id);
    assert LeaseSound(t, reply.id, Next(y, e).leases[reply.id]);
  }

  lemma RoundIsSound<Id>(
    s: Repo<Id>, t: Repo<Id>, id: Id, lease: seq<Candidate>, after: seq<Candidate>, list: seq<string>)
    requires Round(s, t, id, lease, after, list)
    ensures LeaseSound(t, id, after) && CandidateKeys(after) == CandidateKeys(lease)
    ensures Sound(System(t, map[id := after]))
  {
    WorkKeepsLease(t, id, lease, after);
  }

  lemma RoundTakesOut<Id>(
    s: Repo<Id>, t: Repo<Id>, id: Id, lease: seq<Candidate>, after: seq<Candidate>, list: seq<string>)
    requires Round(s, t, id, lease, after, list) && AllGone(after) && after != []
    ensures CandidateKeys(after) <= QueueKeys(t)
    ensures QueueKeys(FinishAdmission(t, id, after).0) <= QueueKeys(t) - CandidateKeys(after)
  {
    var u := FinishAdmission(t, id, after).0;
    var y: System<Id> := System(t, map[id := after]);
    RoundIsSound(s, t, id, lease, after, list);
    LiveRecord(t, id);
    forall k ensures
      && (k in QueueKeys(u) ==> k in QueueKeys(t) && k !in CandidateKeys(after))
      && (k in CandidateKeys(after) ==> k in QueueKeys(t))
    {
      GoneLeaves(y, id, k);
    }
  }

  lemma LessIsLeft(
    after: seq<Candidate>, queued: set<string>, left: set<string>, before: set<string>, kept: set<string>)
    requires after != [] && CandidateKeys(after) <= queued <= before && left <= queued - CandidateKeys(after)
    requires kept <= before - CandidateKeys(after)
    ensures CandidateKeys(after) <= before && left + kept <= before - CandidateKeys(after)
    ensures |left + kept| < |before|
  {
    assert after[0] in after && after[0].key in CandidateKeys(after);
    Smaller(left + kept, before, after[0].key);
  }

  /** A round in which every candidate was gone takes all of them out of the queue and
      out of the list, and puts nothing in. */
  lemma RoundShrinks<Id>(
    s: Repo<Id>, t: Repo<Id>, id: Id, lease: seq<Candidate>, after: seq<Candidate>, list: seq<string>,
    kept: seq<string>)
    requires Round(s, t, id, lease, after, list) && AllGone(after) && after != []
    requires forall k :: k in kept ==> k in list && k !in CandidateKeys(after)
    ensures
      var u := FinishAdmission(t, id, after).0;
      var before, left := QueueKeys(s) + ListKeys(list), QueueKeys(u) + ListKeys(kept);
      CandidateKeys(after) <= before && left <= before - CandidateKeys(after) && |left| < |before|
  {
    RoundTakesOut(s, t, id, lease, after, list);
    LessIsLeft(after, QueueKeys(t), QueueKeys(FinishAdmission(t, id, after).0),
               QueueKeys(s) + ListKeys(list), ListKeys(kept));
  }

  lemma Smaller(a: set<string>, b: set<string>, x: string)
    requires a <= b - {x} && x in b
    ensures |a| < |b|
  {
    SubsetSize(a, b - {x});
  }

  ghost function Reach<Id>(s: Repo<Id>, list: seq<string>): set<string> {
    QueueKeys(s) + ListKeys(list)
  }

  // ---------- starting the candidates of a lease ----------

  predicate NoneTwice(errs: seq<LoopError>) {
    forall e :: e in errs ==> !e.ReturnedTwice?
  }

  /** What the loop over the candidates has done: the candidates as they are then, the keys it
      has seen, its errors, the keys that were gone, and whether a run was started. */
  datatype Started = Started(
    candidates: seq<Candidate>, seen: set<string>, errs: seq<LoopError>, dropped: set<string>, started: bool)

  /** A candidate is started, unless it was handed out before in this loop. */
  function StartOf(c: Candidate, a: S.Answers, twice: bool, promotes: bool): (Candidate, seq<LoopError>) {
    if twice then (c, [ReturnedTwice(c.key)])
    else
      var (d, failed) := S.StartCandidate(a, c);
      (d, if failed && !(promotes && d.outcome.Succeeded?) then [StartFailed(c.key)] else [])
  }

  function Both(a: Started, b: Started): Started {
    Started(a.candidates + b.candidates, b.seen, a.errs + b.errs, a.dropped + b.dropped, a.started || b.started)
  }

  function OneStarted(c: Candidate, a: S.Answers, seen: set<string>, promotes: bool): Started {
    var twice := c.key in seen;
    var (d, errs) := StartOf(c, a, twice, promotes);
    Started([d], seen + {c.key}, errs, if !twice && d.outcome.Gone? then {c.key} else {}, !twice && d.outcome.Succeeded?)
  }

  /** Every candidate of the lease, in order. */
  function StartEach(cs: seq<Candidate>, answers: string -> S.Answers, seen: set<string>, promotes: bool): Started
    decreases |cs|
  {
    if cs == [] then Started([], seen, [], {}, false)
    else
      var first := OneStarted(cs[0], answers(cs[0].key), seen, promotes);
      Both(first, StartEach(cs[1..], answers, first.seen, promotes))
  }

  /** The candidate stays a retry, or its run was started but could not be reported, which
      only a promotion forgives. */
  predicate FailsToStart(a: S.Answers, c: Candidate, promotes: bool) {
    !S.SaysGone(a, c) && (S.SaysStarted(a, c) ==> !a.reported && !promotes)
  }

  ghost predicate AllNew(cs: seq<Candidate>, seen: set<string>) {
    DistinctLease(cs) && seen !! CandidateKeys(cs) && forall c :: c in cs ==> c.outcome.Retry?
  }

  ghost predicate CandidatesAsAnswered(cs: seq<Candidate>, answers: string -> S.Answers, ds: seq<Candidate>) {
    |ds| == |cs| && forall i :: 0 <= i < |cs| ==> ds[i] == S.StartCandidate(answers(cs[i].key), cs[i]).0
  }

  ghost predicate SomeStarted(cs: seq<Candidate>, answers: string -> S.Answers) {
    exists c :: c in cs && S.SaysStarted(answers(c.key), c)
  }

  ghost predicate SomeGone(cs: seq<Candidate>, answers: string -> S.Answers, k: string) {
    exists c :: c in cs && c.key == k && S.SaysGone(answers(k), c)
  }

  ghost predicate SomeFails(cs: seq<Candidate>, answers: string -> S.Answers, promotes: bool, e: LoopError) {
    exists c :: c in cs && e == StartFailed(c.key) && FailsToStart(answers(c.key), c, promotes)
  }

  /** What starting a lease of new candidates does, in terms of what the world answers. */
  ghost predicate StartsAsAnswered(cs: seq<Candidate>, answers: string -> S.Answers, promotes: bool, b: Started) {
    && CandidatesAsAnswered(cs, answers, b.candidates)
    && (b.started <==> SomeStarted(cs, answers))
    && (forall k :: k in b.dropped <==> SomeGone(cs, answers, k))
    && (forall e :: e in b.errs <==> SomeFails(cs, answers, promotes, e))
  }

  lemma NewTail(cs: seq<Candidate>, seen: set<string>)
    requires cs != [] && AllNew(cs, seen)
    ensures AllNew(cs[1..], seen + {cs[0].key}) && cs[0].key !in seen && cs[0].outcome.Retry? && cs == [cs[0]] + cs[1..]
  {
    LeaseHeadTail(cs);
  }

  lemma {:induction false} StartEachMeaning(
    cs: seq<Candidate>, answers: string -> S.Answers, seen: set<string>, promotes: bool)
    requires AllNew(cs, seen)
    ensures StartsAsAnswered(cs, answers, promotes, StartEach(cs, answers, seen, promotes))
    decreases |cs|
  {
    if cs != [] {
      NewTail(cs, seen);
      var first := OneStarted(cs[0], answers(cs[0].key), seen, promotes);
      var rest := StartEach(cs[1..], answers, first.seen, promotes);
      StartEachMeaning(cs[1..], answers, first.seen, promotes);
      S.StartAnswer(answers(cs[0].key), cs[0]);
      OneAndRestAnswered(cs, answers, promotes, first, rest);
    }
  }

  lemma {:induction false} StartEachLength(
    cs: seq<Candidate>, answers: string -> S.Answers, seen: set<string>, promotes: bool)
    ensures |StartEach(cs, answers, seen, promotes).candidates| == |cs|
    decreases |cs|
  {
    if cs != [] {
      StartEachLength(cs[1..], answers, OneStarted(cs[0], answers(cs[0].key), seen, promotes).seen, promotes);
    }
  }

  /** A key that was handed out before is reported and not started. */
  lemma {:induction false} SeenIsReported(
    cs: seq<Candidate>, answers: string -> S.Answers, seen: set<string>, promotes: bool, i: nat)
    requires i < |cs| && cs[i].key in seen + CandidateKeys(cs[..i])
    ensures var b := StartEach(cs, answers, seen, promotes);
      |b.candidates| == |cs| && b.candidates[i] == cs[i] && ReturnedTwice(cs[i].key) in b.errs
    decreases |cs|
  {
    StartEachLength(cs, answers, seen, promotes);
    if i > 0 {
      var first := OneStarted(cs[0], answers(cs[0].key), seen, promotes);
      assert cs[..i] == [cs[0]] + cs[1..][..i - 1];
      SeenIsReported(cs[1..], answers, first.seen, promotes, i - 1);
    } else {
      assert CandidateKeys(cs[..0]) == {};
    }
  }

  lemma FirstOrRest(cs: seq<Candidate>, answers: string -> S.Answers, promotes: bool, k: string, e: LoopError)
    requires cs != [] && cs == [cs[0]] + cs[1..]
    ensures SomeStarted(cs, answers) <==> S.SaysStarted(answers(cs[0].key), cs[0]) || SomeStarted(cs[1..], answers)
    ensures SomeGone(cs, answers, k) <==>
      (cs[0].key == k && S.SaysGone(answers(k), cs[0])) || SomeGone(cs[1..], answers, k)
    ensures SomeFails(cs, answers, promotes, e) <==>
      (e == StartFailed(cs[0].key) && FailsToStart(answers(cs[0].key), cs[0], promotes))
      || SomeFails(cs[1..], answers, promotes, e)
  {
  }

  lemma FirstAndRestCandidates(cs: seq<Candidate>, answers: string -> S.Answers, d: Candidate, ds: seq<Candidate>)
    requires cs != [] && CandidatesAsAnswered(cs[1..], answers, ds) && d == S.StartCandidate(answers(cs[0].key), cs[0]).0
    ensures CandidatesAsAnswered(cs, answers, [d] + ds)
  {
    forall i | 0 <= i < |cs| ensures ([d] + ds)[i] == S.StartCandidate(answers(cs[i].key), cs[i]).0 {
      if i > 0 {
        assert cs[i] == cs[1..][i - 1] && ([d] + ds)[i] == ds[i - 1];
      }
    }
  }

  lemma OneAndRestAnswered(
    cs: seq<Candidate>, answers: string -> S.Answers, promotes: bool, first: Started, rest: Started)
    requires cs != [] && cs == [cs[0]] + cs[1..] && StartsAsAnswered(cs[1..], answers, promotes, rest)
    requires first.candidates == [S.StartCandidate(answers(cs[0].key), cs[0]).0]
    requires first.started <==> S.SaysStarted(answers(cs[0].key), cs[0])
    requires first.dropped == if S.SaysGone(answers(cs[0].key), cs[0]) then {cs[0].key} else {}
    requires first.errs == if FailsToStart(answers(cs[0].key), cs[0], promotes) then [StartFailed(cs[0].key)] else []
    ensures StartsAsAnswered(cs, answers, promotes, Both(first, rest))
  {
    FirstAndRestCandidates(cs, answers, first.candidates[0], rest.candidates);
    FirstOrRest(cs, answers, promotes, "", StartFailed(""));
    forall k ensures k in first.dropped + rest.dropped <==> SomeGone(cs, answers, k) {
      FirstOrRest(cs, answers, promotes, k, StartFailed(k));
    }
    forall e ensures e in first.errs + rest.errs <==> SomeFails(cs, answers, promotes, e) {
      FirstOrRest(cs, answers, promotes, "", e);
    }
  }

  lemma {:induction false} AllSeen(cs: seq<Candidate>, answers: string -> S.Answers, seen: set<string>, promotes: bool)
    ensures StartEach(cs, answers, seen, promotes).seen == seen + CandidateKeys(cs)
    decreases |cs|
  {
    if cs == [] {
      assert CandidateKeys(cs) == {};
    } else {
      AllSeen(cs[1..], answers, seen + {cs[0].key}, promotes);
      assert cs == [cs[0]] + cs[1..];
      assert CandidateKeys(cs) == {cs[0].key} + CandidateKeys(cs[1..]);
    }
  }

  lemma AnsweredWork(cs: seq<Candidate>, answers: string -> S.Answers, promotes: bool, b: Started)
    requires StartsAsAnswered(cs, answers, promotes, b) && forall c :: c in cs ==> c.outcome.Retry?
    ensures WorkerMay(cs, b.candidates) && NoneTwice(b.errs)
  {
    forall i | 0 <= i < |cs|
      ensures b.candidates[i] == cs[i].(
        uid := b.candidates[i].uid, attempted := b.candidates[i].attempted, outcome := b.candidates[i].outcome)
      ensures cs[i].attempted ==> b.candidates[i].attempted
    {
      S.StartAnswer(answers(cs[i].key), cs[i]);
    }
  }

  /** Without an error and without a start, all were gone. */
  lemma AnsweredGone(cs: seq<Candidate>, answers: string -> S.Answers, promotes: bool, b: Started)
    requires StartsAsAnswered(cs, answers, promotes, b) && (forall c :: c in cs ==> c.outcome.Retry?)
    requires b.errs == [] && !b.started
    ensures AllGone(b.candidates) && b.dropped == CandidateKeys(cs)
  {
    forall c | c in cs ensures S.SaysGone(answers(c.key), c) {
      assert StartFailed(c.key) !in b.errs;
    }
    forall d | d in b.candidates ensures d.outcome.Gone? {
      var i :| 0 <= i < |b.candidates| && b.candidates[i] == d;
      assert cs[i] in cs;
      S.StartAnswer(answers(cs[i].key), cs[i]);
    }
  }

  // ---------- the pass ----------

  function FinishErrors(errs: seq<FinishError>): (r: seq<LoopError>)
    ensures NoneTwice(r) && (r == [] <==> errs == [])
  {
    if errs == [] then [] else [FinishFailed(errs[0])] + FinishErrors(errs[1..])
  }

  /** The list without the keys that were gone. */
  function Keeping(list: seq<string>, dropped: set<string>): (kept: seq<string>)
    ensures |kept| <= |list| && forall k :: k in kept <==> k in list && k !in dropped
  {
    if list == [] then []
    else (if list[0] in dropped then [] else [list[0]]) + Keeping(list[1..], dropped)
  }

  /** The state of a pass between two rounds, and whether it has ended. */
  datatype Going<Id> = Going(repo: Repo<Id>, list: seq<string>, seen: set<string>, done: bool, errs: seq<LoopError>)

  lemma EnterIsRecorded<Id>(s: Repo<Id>, id: Id, owner: Owner, list: seq<string>, clock: seq<int>, mode: Mode)
    requires s.queue.Some? && id in s.records && |list| <= |clock|
    ensures var (t, reply) := Enter(s, id, owner, list, clock, mode); reply.Leased? ==> reply.id == id && id in t.records
  {
  }

  lemma LeaseIsRecorded<Id>(
    s: Repo<Id>, limit: nat, owner: Owner, list: seq<string>, clock: seq<int>, mode: Mode, newId: Id)
    requires |list| <= |clock|
    ensures var (t, reply) := AcquireAdmission(s, limit, owner, list, clock, mode, newId);
      reply.Leased? ==> reply.id in t.records
  {
    var o := OwnerKey(owner);
    if o in s.admissions && s.admissions[o] in s.records {
      EnterIsRecorded(OpenQueue(s, limit), s.admissions[o], owner, list, clock, mode);
    } else {
      EnterIsRecorded(Registered(s, limit, owner, mode, newId), newId, owner, list, clock, mode);
    }
  }

  /** How a round ends that had a lease. It is the last one unless every candidate, of at least
      one, was gone. */
  function AfterStarts<Id>(
    u: Repo<Id>, failures: seq<FinishError>, cs: seq<Candidate>, b: Started, list: seq<string>): Going<Id>
  {
    var errs := b.errs + FinishErrors(failures);
    if cs == [] || errs != [] || b.started then Going(u, [], b.seen, true, errs)
    else Going(u, Keeping(list, b.dropped), b.seen, false, [])
  }

  /** One round: an admission, the starts, and the recording of their results. */
  function RoundOf<Id(==)>(
    s: Repo<Id>, limit: nat, owner: Owner, list: seq<string>, clock: seq<int>, mode: Mode,
    answers: string -> S.Answers, seen: set<string>, newId: Id)
    : Going<Id>
    requires |list| <= |clock|
  {
    var (t, reply) := AcquireAdmission(s, limit, owner, list, clock, mode, newId);
    match reply
    case Refused(cause) => Going(t, [], seen, true, [AcquireFailed(cause)])
    case NoWork => Going(t, [], seen, true, [])
    case Leased(id, cs) =>
      LeaseIsRecorded(s, limit, owner, list, clock, mode, newId);
      var b := StartEach(cs, answers, seen, mode.Promotion?);
      var (u, failures) := FinishAdmission(t, id, b.candidates);
      AfterStarts(u, failures, cs, b, list)
  }

  function ClockOf(clock: (nat, nat) -> int, round: nat, n: nat): seq<int> {
    seq(n, i requires 0 <= i < n => clock(round, i))
  }

  function AnswersOf(answers: (nat, string) -> S.Answers, round: nat): string -> S.Answers {
    key => answers(round, key)
  }

  /** What a pass is given. `answers` and `clock` are what the cluster and the clock say in each
      round. */
  datatype Task = Task(
    limit: nat, owner: Owner, list: seq<string>, mode: Mode,
    answers: (nat, string) -> S.Answers, clock: (nat, nat) -> int)

  /** Round n of a pass. */
  function RoundAt<Id(==)>(g: Going<Id>, p: Task, n: nat, newId: Id): Going<Id> {
    RoundOf(g.repo, p.limit, p.owner, g.list, ClockOf(p.clock, n, |g.list|), p.mode, AnswersOf(p.answers, n), g.seen, newId)
  }

  /** The pass after some rounds, one for each identity that a new record would have had. */
  function Pass<Id(==)>(s: Repo<Id>, p: Task, ids: seq<Id>): Option<Going<Id>>
    decreases |ids|
  {
    if ids == [] then Some(Going(s, p.list, {}, false, []))
    else
      var n := |ids| - 1;
      match Pass(s, p, ids[..n])
      case None => None
      case Some(g) => if g.done || ids[n] in g.repo.records then None else Some(RoundAt(g, p, n, ids[n]))
  }

  // ---------- what a round leaves behind ----------

  /** The owner has candidates whose start is still open, or a lease. */
  ghost predicate HasUnfinished<Id>(s: Repo<Id>, owner: Owner) {
    && OwnerKey(owner) in s.admissions && s.admissions[OwnerKey(owner)] in s.records
    && (s.records[s.admissions[OwnerKey(owner)]].candidates != [] || s.records[s.admissions[OwnerKey(owner)]].busy)
  }

  lemma LeaseIsOwners<Id>(s: Repo<Id>, e: Event<Id>)
    requires Consistent(s) && e.Acquire? && Enabled(System(s, map[]), e)
    requires AcquireAdmission(s, e.limit, e.owner, e.list, e.clock, e.mode, e.newId).1.Leased?
    ensures
      var (t, reply) := AcquireAdmission(s, e.limit, e.owner, e.list, e.clock, e.mode, e.newId);
      HasRecord(t, e.owner, reply.id)
  {
    var y: System<Id> := System(s, map[]);
    AcquireReplies(s, e.limit, e.owner, e.list, e.clock, e.mode, e.newId);
    AcquireRecords(y, e);
  }

  lemma AcquireLeavesOwner<Id>(s: Repo<Id>, e: Event<Id>)
    requires Consistent(s) && e.Acquire? && Enabled(System(s, map[]), e)
    requires OwnerLeft(s, e.owner) && e.owner.key !in e.list
    ensures
      var (t, reply) := AcquireAdmission(s, e.limit, e.owner, e.list, e.clock, e.mode, e.newId);
      && OwnerLeft(t, e.owner)
      && (e.mode.Promotion? && e.list == [] ==> PromotionLeft(t, reply, e.owner))
  {
    var y: System<Id> := System(s, map[]);
    OwnerLeftStays(y, e, e.owner);
    if e.mode.Promotion? && e.list == [] {
      PromotionLeaves(y, e);
    }
  }

  lemma AcquireDone<Id>(s: Repo<Id>, e: Event<Id>, t: Repo<Id>, reply: AcquireReply<Id>)
    requires Consistent(s) && e.Acquire? && Enabled(System(s, map[]), e)
    requires (t, reply) == AcquireAdmission(s, e.limit, e.owner, e.list, e.clock, e.mode, e.newId)
    ensures Consistent(t)
    ensures reply.Leased? ==>
      Round(s, t, reply.id, reply.candidates, reply.candidates, e.list) && HasRecord(t, e.owner, reply.id)
    ensures OwnerLeft(s, e.owner) && e.owner.key !in e.list ==>
      OwnerLeft(t, e.owner) && (e.mode.Promotion? && e.list == [] ==> PromotionLeft(t, reply, e.owner))
  {
    AcquireAdmissionKeeps(s, e.limit, e.owner, e.list, e.clock, e.mode, e.newId);
    if reply.Leased? {
      RoundStarts(s, e);
      LeaseIsOwners(s, e);
    }
    if OwnerLeft(s, e.owner) && e.owner.key !in e.list {
      AcquireLeavesOwner(s, e);
    }
  }

  lemma RoundFinishes<Id>(
    s: Repo<Id>, t: Repo<Id>, id: Id, lease: seq<Candidate>, after: seq<Candidate>, list: seq<string>)
    requires Round(s, t, id, lease, after, list)
    ensures id in t.records && Consistent(FinishAdmission(t, id, after).0)
  {
    RoundIsSound(s, t, id, lease, after, list);
    FinishAdmissionKeeps(t, id, after);
  }

  /** Recording the results does not bring the owner back, and without an error leaves
      nothing unfinished. */
  lemma RoundLeavesOwner<Id>(
    s: Repo<Id>, t: Repo<Id>, id: Id, lease: seq<Candidate>, after: seq<Candidate>, list: seq<string>, owner: Owner)
    requires Round(s, t, id, lease, after, list) && HasRecord(t, owner, id)
    ensures id in t.records
    ensures var (u, errs) := FinishAdmission(t, id, after);
      && (OwnerLeft(t, owner) ==> OwnerLeft(u, owner))
      && (!Queued(t, owner.key) ==> !Queued(u, owner.key))
      && (errs == [] ==> !HasUnfinished(u, owner))
  {
    RoundIsSound(s, t, id, lease, after, list);
    var y: System<Id> := System(t, map[id := after]);
    var e: Event<Id> := Finish(id);
    assert y.leases[id] == after;
    if OwnerLeft(t, owner) {
      OwnerLeftStays(y, e, owner);
    }
    if !Queued(t, owner.key) {
      QueuedOnlyByLists(y, e, owner.key);
    }
    if FinishAdmission(t, id, after).1 == [] {
      CleanFinish(y, e);
      FinishKeepsOwner(t, id, after, owner);
    }
  }

  lemma FinishKeepsOwner<Id>(t: Repo<Id>, id: Id, after: seq<Candidate>, owner: Owner)
    requires Consistent(t) && LeaseOk(t, id, after) && HasRecord(t, owner, id)
    ensures var u := FinishAdmission(t, id, after).0;
      OwnerKey(owner) in u.admissions ==> u.admissions[OwnerKey(owner)] == id && IsLive(u, id) && !u.records[id].busy
  {
    assert OwnerOk(t, OwnerKey(owner));
    LiveRecord(t, id);
    FinishAllForm(t, id, after);
  }

  /** What a round leaves behind. */
  lemma RoundDone<Id>(
    s: Repo<Id>, t: Repo<Id>, id: Id, lease: seq<Candidate>, after: seq<Candidate>, list: seq<string>, owner: Owner,
    u: Repo<Id>, errs: seq<FinishError>)
    requires Round(s, t, id, lease, after, list) && HasRecord(t, owner, id)
    requires id in t.records && (u, errs) == FinishAdmission(t, id, after)
    ensures Consistent(u)
    ensures OwnerLeft(t, owner) ==> OwnerLeft(u, owner)
    ensures !Queued(t, owner.key) ==> !Queued(u, owner.key)
    ensures errs == [] ==> !HasUnfinished(u, owner)
    ensures AllGone(after) && after != [] ==>
      CandidateKeys(after) <= Reach(s, list) && QueueKeys(u) <= Reach(s, list) - CandidateKeys(after)
  {
    RoundFinishes(s, t, id, lease, after, list);
    RoundLeavesOwner(s, t, id, lease, after, list, owner);
    if AllGone(after) && after != [] {
      RoundShrinks(s, t, id, lease, after, list, []);
    }
  }

  /** The candidates of a round are new to the loop. */
  lemma RoundIsNew<Id>(
    s: Repo<Id>, t: Repo<Id>, id: Id, lease: seq<Candidate>, list: seq<string>, seen: set<string>)
    requires Round(s, t, id, lease, lease, list) && seen !! Reach(s, list)
    ensures DistinctLease(lease) && seen !! CandidateKeys(lease)
  {
    var y: System<Id> := System(t, map[id := lease]);
    assert LeaseSound(t, id, lease);
    forall k | k in CandidateKeys(lease) ensures k in Reach(s, list) {
      ClaimedKeyRuns(y, id, k);
    }
  }

  lemma LoopShrinks(before: set<string>, keys: set<string>, kept: seq<string>, list: seq<string>, dropped: set<string>)
    requires ListKeys(list) <= before && dropped != {} && dropped <= before && keys <= before - dropped
    requires forall k :: k in kept <==> k in list && k !in dropped
    ensures var left := keys + ListKeys(kept); left <= before - dropped && |left| < |before|
  {
    var x :| x in dropped;
    Smaller(keys + ListKeys(kept), before, x);
  }

  /** The owner is nowhere in the queue and has nothing unfinished. */
  ghost predicate HandedOver<Id>(s: Repo<Id>, owner: Owner) {
    !Queued(s, owner.key) && !HasUnfinished(s, owner)
  }

  // ---------- what every round keeps ----------

  /** What a round is given. */
  ghost predicate MayRound<Id>(s: Repo<Id>, list: seq<string>, clock: seq<int>, seen: set<string>, newId: Id) {
    Consistent(s) && "" !in list && |list| <= |clock| && newId !in s.records && seen !! Reach(s, list)
  }

  /** The lease of a round, its starts, and its recording. */
  lemma LeasedRound<Id>(
    s: Repo<Id>, limit: nat, owner: Owner, list: seq<string>, clock: seq<int>, mode: Mode,
    answers: string -> S.Answers, seen: set<string>, newId: Id)
    requires MayRound(s, list, clock, seen, newId)
    requires AcquireAdmission(s, limit, owner, list, clock, mode, newId).1.Leased?
    ensures
      var (t, reply) := AcquireAdmission(s, limit, owner, list, clock, mode, newId);
      var b := StartEach(reply.candidates, answers, seen, mode.Promotion?);
      && reply.id in t.records && HasRecord(t, owner, reply.id)
      && StartsAsAnswered(reply.candidates, answers, mode.Promotion?, b)
      && b.seen == seen + CandidateKeys(reply.candidates) && NoneTwice(b.errs)
      && Round(s, t, reply.id, reply.candidates, b.candidates, list)
      && Round(s, t, reply.id, reply.candidates, reply.candidates, list)
  {
    var e: Event<Id> := Acquire(limit, owner, list, clock, mode, newId);
    var (t, reply) := AcquireAdmission(s, limit, owner, list, clock, mode, newId);
    var cs := reply.candidates;
    RoundStarts(s, e);
    LeaseIsOwners(s, e);
    RoundIsNew(s, t, reply.id, cs, list, seen);
    StartEachMeaning(cs, answers, seen, mode.Promotion?);
    AllSeen(cs, answers, seen, mode.Promotion?);
    AnsweredWork(cs, answers, mode.Promotion?, StartEach(cs, answers, seen, mode.Promotion?));
  }

  /** What a round keeps, whether or not it is the last one; if it is not, less is left. */
  ghost predicate RoundKept<Id>(s: Repo<Id>, list: seq<string>, g: Going<Id>) {
    && Consistent(g.repo) && NoneTwice(g.errs) && (forall k :: k in g.list ==> k in list) && |g.list| <= |list|
    && (!g.done ==> |Reach(g.repo, g.list)| < |Reach(s, list)| && g.seen !! Reach(g.repo, g.list))
  }

  lemma GoneRoundShrinks<Id>(
    s: Repo<Id>, list: seq<string>, seen: set<string>, cs: seq<Candidate>, b: Started, u: Repo<Id>)
    requires cs != [] && b.dropped == CandidateKeys(cs) && b.seen == seen + CandidateKeys(cs) && seen !! Reach(s, list)
    requires CandidateKeys(cs) <= Reach(s, list) && QueueKeys(u) <= Reach(s, list) - CandidateKeys(cs)
    ensures var kept := Keeping(list, b.dropped);
      |Reach(u, kept)| < |Reach(s, list)| && b.seen !! Reach(u, kept)
  {
    assert cs[0] in cs && cs[0].key in b.dropped;
    LoopShrinks(Reach(s, list), QueueKeys(u), Keeping(list, b.dropped), list, b.dropped);
  }

  lemma EndedRoundKeeps<Id>(
    s: Repo<Id>, list: seq<string>, seen: set<string>, cs: seq<Candidate>, b: Started, u: Repo<Id>,
    failures: seq<FinishError>)
    requires Consistent(u) && NoneTwice(b.errs) && b.seen == seen + CandidateKeys(cs) && seen !! Reach(s, list)
    requires cs != [] && b.errs == [] && !b.started ==>
      && b.dropped == CandidateKeys(cs) && CandidateKeys(cs) <= Reach(s, list)
      && QueueKeys(u) <= Reach(s, list) - CandidateKeys(cs)
    ensures RoundKept(s, list, AfterStarts(u, failures, cs, b, list))
  {
    if cs != [] && b.errs == [] && !b.started {
      GoneRoundShrinks(s, list, seen, cs, b, u);
    }
  }

  lemma GoneRoundTakes<Id>(
    s: Repo<Id>, t: Repo<Id>, id: Id, cs: seq<Candidate>, list: seq<string>, owner: Owner,
    answers: string -> S.Answers, promotes: bool, b: Started)
    requires Round(s, t, id, cs, b.candidates, list) && HasRecord(t, owner, id)
    requires StartsAsAnswered(cs, answers, promotes, b)
    requires id in t.records
    ensures Consistent(FinishAdmission(t, id, b.candidates).0)
    ensures cs != [] && b.errs == [] && !b.started ==>
      && b.dropped == CandidateKeys(cs) && CandidateKeys(cs) <= Reach(s, list)
      && QueueKeys(FinishAdmission(t, id, b.candidates).0) <= Reach(s, list) - CandidateKeys(cs)
  {
    var (u, failures) := FinishAdmission(t, id, b.candidates);
    RoundDone(s, t, id, cs, b.candidates, list, owner, u, failures);
    if cs != [] && b.errs == [] && !b.started {
      AnsweredGone(cs, answers, promotes, b);
      RoundIsSound(s, t, id, cs, b.candidates, list);
    }
  }

  lemma RoundOfLease<Id>(
    s: Repo<Id>, limit: nat, owner: Owner, list: seq<string>, clock: seq<int>, mode: Mode,
    answers: string -> S.Answers, seen: set<string>, newId: Id, t: Repo<Id>, id: Id, cs: seq<Candidate>, b: Started)
    requires |list| <= |clock| && AcquireAdmission(s, limit, owner, list, clock, mode, newId) == (t, Leased(id, cs))
    requires b == StartEach(cs, answers, seen, mode.Promotion?)
    ensures id in t.records
    ensures var (u, failures) := FinishAdmission(t, id, b.candidates);
      RoundOf(s, limit, owner, list, clock, mode, answers, seen, newId) == AfterStarts(u, failures, cs, b, list)
  {
    LeaseIsRecorded(s, limit, owner, list, clock, mode, newId);
  }

  lemma RecordedRoundKeeps<Id>(
    s: Repo<Id>, t: Repo<Id>, id: Id, cs: seq<Candidate>, list: seq<string>, owner: Owner,
    answers: string -> S.Answers, seen: set<string>, promotes: bool, b: Started)
    requires Round(s, t, id, cs, b.candidates, list) && HasRecord(t, owner, id)
    requires StartsAsAnswered(cs, answers, promotes, b)
    requires id in t.records && NoneTwice(b.errs) && b.seen == seen + CandidateKeys(cs) && seen !! Reach(s, list)
    ensures var (u, failures) := FinishAdmission(t, id, b.candidates);
      RoundKept(s, list, AfterStarts(u, failures, cs, b, list))
  {
    var (u, failures) := FinishAdmission(t, id, b.candidates);
    GoneRoundTakes(s, t, id, cs, list, owner, answers, promotes, b);
    EndedRoundKeeps(s, list, seen, cs, b, u, failures);
  }

  lemma RoundWithoutLease<Id>(
    s: Repo<Id>, limit: nat, owner: Owner, list: seq<string>, clock: seq<int>, mode: Mode,
    answers: string -> S.Answers, seen: set<string>, newId: Id,
    t: Repo<Id>, reply: AcquireReply<Id>)
    requires |list| <= |clock| && !reply.Leased?
    requires AcquireAdmission(s, limit, owner, list, clock, mode, newId) == (t, reply)
    ensures RoundOf(s, limit, owner, list, clock, mode, answers, seen, newId)
      == Going(t, [], seen, true, if reply.Refused? then [AcquireFailed(reply.error)] else [])
  {
  }

  /** What a round does after its admission, in terms of the answer to that. */
  ghost predicate IsRoundAfter<Id>(
    s: Repo<Id>, t: Repo<Id>, reply: AcquireReply<Id>, owner: Owner, list: seq<string>,
    answers: string -> S.Answers, seen: set<string>, promotes: bool, g: Going<Id>)
  {
    match reply
    case Refused(cause) => g == Going(t, [], seen, true, [AcquireFailed(cause)])
    case NoWork => g == Going(t, [], seen, true, [])
    case Leased(id, cs) =>
      var b := StartEach(cs, answers, seen, promotes);
      && id in t.records && HasRecord(t, owner, id) && Round(s, t, id, cs, b.candidates, list)
      && StartsAsAnswered(cs, answers, promotes, b) && b.seen == seen + CandidateKeys(cs) && NoneTwice(b.errs)
      && var (u, failures) := FinishAdmission(t, id, b.candidates);
         g == AfterStarts(u, failures, cs, b, list)
  }

  lemma RoundIsAfter<Id>(
    s: Repo<Id>, limit: nat, owner: Owner, list: seq<string>, clock: seq<int>, mode: Mode,
    answers: string -> S.Answers, seen: set<string>, newId: Id)
    requires MayRound(s, list, clock, seen, newId)
    ensures
      var (t, reply) := AcquireAdmission(s, limit, owner, list, clock, mode, newId);
      var g := RoundOf(s, limit, owner, list, clock, mode, answers, seen, newId);
      Consistent(t) && IsRoundAfter(s, t, reply, owner, list, answers, seen, mode.Promotion?, g)
  {
    AcquireAdmissionKeeps(s, limit, owner, list, clock, mode, newId);
    var (t, reply) := AcquireAdmission(s, limit, owner, list, clock, mode, newId);
    if reply.Leased? {
      var b := StartEach(reply.candidates, answers, seen, mode.Promotion?);
      LeasedRound(s, limit, owner, list, clock, mode, answers, seen, newId);
      RoundOfLease(s, limit, owner, list, clock, mode, answers, seen, newId, t, reply.id, reply.candidates, b);
    } else {
      RoundWithoutLease(s, limit, owner, list, clock, mode, answers, seen, newId, t, reply);
    }
  }

  lemma KeptAfter<Id>(
    s: Repo<Id>, t: Repo<Id>, reply: AcquireReply<Id>, owner: Owner, list: seq<string>,
    answers: string -> S.Answers, seen: set<string>, promotes: bool, g: Going<Id>)
    requires IsRoundAfter(s, t, reply, owner, list, answers, seen, promotes, g)
    requires Consistent(t) && seen !! Reach(s, list)
    ensures RoundKept(s, list, g)
  {
    if reply.Leased? {
      var b := StartEach(reply.candidates, answers, seen, promotes);
      RecordedRoundKeeps(s, t, reply.id, reply.candidates, list, owner, answers, seen, promotes, b);
    }
  }

  lemma RoundKeeps<Id>(
    s: Repo<Id>, limit: nat, owner: Owner, list: seq<string>, clock: seq<int>, mode: Mode,
    answers: string -> S.Answers, seen: set<string>, newId: Id)
    requires MayRound(s, list, clock, seen, newId)
    ensures RoundKept(s, list, RoundOf(s, limit, owner, list, clock, mode, answers, seen, newId))
  {
    RoundIsAfter(s, limit, owner, list, clock, mode, answers, seen, newId);
    var (t, reply) := AcquireAdmission(s, limit, owner, list, clock, mode, newId);
    var g := RoundOf(s, limit, owner, list, clock, mode, answers, seen, newId);
    KeptAfter(s, t, reply, owner, list, answers, seen, mode.Promotion?, g);
  }

  /** And an owner that leaves stays out, and is handed over when its promotion ends well. */
  ghost predicate OwnerKept<Id>(owner: Owner, list: seq<string>, mode: Mode, g: Going<Id>) {
    OwnerLeft(g.repo, owner) && (mode.Promotion? && list == [] && g.done && g.errs == [] ==> HandedOver(g.repo, owner))
  }

  lemma EndedRoundKeepsOwner<Id>(
    owner: Owner, list: seq<string>, mode: Mode, cs: seq<Candidate>, b: Started, u: Repo<Id>, failures: seq<FinishError>)
    requires OwnerLeft(u, owner)
    requires mode.Promotion? && list == [] && failures == [] ==> HandedOver(u, owner)
    ensures OwnerKept(owner, list, mode, AfterStarts(u, failures, cs, b, list))
  {
  }

  lemma LeasedRoundKeepsOwner<Id>(
    s: Repo<Id>, limit: nat, owner: Owner, list: seq<string>, clock: seq<int>, mode: Mode,
    answers: string -> S.Answers, seen: set<string>, newId: Id)
    requires MayRound(s, list, clock, seen, newId) && OwnerLeft(s, owner) && owner.key !in list
    requires AcquireAdmission(s, limit, owner, list, clock, mode, newId).1.Leased?
    ensures OwnerKept(owner, list, mode, RoundOf(s, limit, owner, list, clock, mode, answers, seen, newId))
  {
    var (t, reply) := AcquireAdmission(s, limit, owner, list, clock, mode, newId);
    AcquireDone(s, Acquire(limit, owner, list, clock, mode, newId), t, reply);
    LeasedRound(s, limit, owner, list, clock, mode, answers, seen, newId);
    var b := StartEach(reply.candidates, answers, seen, mode.Promotion?);
    var (u, failures) := FinishAdmission(t, reply.id, b.candidates);
    RoundDone(s, t, reply.id, reply.candidates, b.candidates, list, owner, u, failures);
    EndedRoundKeepsOwner(owner, list, mode, reply.candidates, b, u, failures);
  }

  lemma RoundKeepsOwner<Id>(
    s: Repo<Id>, limit: nat, owner: Owner, list: seq<string>, clock: seq<int>, mode: Mode,
    answers: string -> S.Answers, seen: set<string>, newId: Id)
    requires MayRound(s, list, clock, seen, newId) && OwnerLeft(s, owner) && owner.key !in list
    ensures OwnerKept(owner, list, mode, RoundOf(s, limit, owner, list, clock, mode, answers, seen, newId))
  {
    var (t, reply) := AcquireAdmission(s, limit, owner, list, clock, mode, newId);
    if reply.Leased? {
      LeasedRoundKeepsOwner(s, limit, owner, list, clock, mode, answers, seen, newId);
    } else {
      AcquireDone(s, Acquire(limit, owner, list, clock, mode, newId), t, reply);
    }
  }

  // ---------- a key that leaves the queue ----------

  lemma {:induction false} TakingKeepsQueued(q: Queue, m: nat, k: string)
    requires WellFormed(q) && InQueue(q, k)
    ensures InQueue(TakeSome(q, m), k)
    decreases m
  {
    if m > 0 {
      AcquireKeepsWellFormed(q);
      TakingOneKeepsQueued(q, k);
      TakingKeepsQueued(AcquireLatest(q).0, m - 1, k);
    }
  }

  lemma TakingOneKeepsQueued(q: Queue, k: string)
    requires WellFormed(q) && InQueue(q, k)
    ensures InQueue(AcquireLatest(q).0, k)
  {
    AcquireKeepsWellFormed(q);
  }

  lemma GrantKeepsQueued<Id>(s: Repo<Id>, id: Id, list: seq<string>, clock: seq<int>, k: string)
    requires Consistent(s) && s.queue.Some? && id in s.records && "" !in list && |list| <= |clock| && Queued(s, k)
    ensures Queued(Grant(s, id, list, clock).0, k)
  {
    var p := AddList(s.queue.value, list, clock);
    AddListEffect(s.queue.value, list, clock);
    QueueHistories.GrantTakes(s, id, list, clock);
    var m: nat :| Grant(s, id, list, clock).0.queue.value == TakeSome(p, m);
    TakingKeepsQueued(p, m, k);
  }

  lemma RemovalKeepsOthers(q: Queue, key: string, k: string)
    requires WellFormed(q) && !InQueue(q, "")
    ensures k != key && InQueue(q, k) ==> InQueue(Drop(Release(q, key), key), k)
  {
    RemovalEffect(q, key);
    assert k != key ==> SamePlace(q, Drop(Release(q, key), key), k);
  }

  lemma EnterKeepsQueued<Id>(
    s: Repo<Id>, id: Id, owner: Owner, list: seq<string>, clock: seq<int>, mode: Mode, k: string)
    requires Consistent(s) && s.queue.Some? && IsLive(s, id) && "" !in list && |list| <= |clock| && Queued(s, k)
    requires k != owner.key || !ReleasesOwner(owner, mode)
    ensures Queued(Enter(s, id, owner, list, clock, mode).0, k)
  {
    LiveRecord(s, id);
    if s.records[id].promotion == mode.Promotion? {
      if mode.Resume? && owner.finishing && InQueue(s.queue.value, owner.key) {
        ReleaseOwnerKeeps(s, id, owner.key);
        ReleasedRecord(s, id, owner.key);
        RemovalKeepsOthers(s.queue.value, owner.key, k);
        GrantKeepsQueued(ReleaseOwner(s, id, owner.key), id, list, clock, k);
      } else {
        GrantKeepsQueued(s, id, list, clock, k);
      }
    }
  }

  /** An admission only takes the owner's own key out of the queue, and only when it releases
      its owner. */
  lemma AcquireKeepsQueued<Id>(
    s: Repo<Id>, limit: nat, owner: Owner, list: seq<string>, clock: seq<int>, mode: Mode, newId: Id, k: string)
    requires Consistent(s) && newId !in s.records && "" !in list && |list| <= |clock| && Queued(s, k)
    requires k != owner.key || !ReleasesOwner(owner, mode)
    ensures Queued(AcquireAdmission(s, limit, owner, list, clock, mode, newId).0, k)
  {
    AcquireForm(s, limit, owner, list, clock, mode, newId);
    OpenQueueKeeps(s, limit);
    OpenedPlace(s, limit, k);
    if OwnerKey(owner) in s.admissions {
      assert OwnerOk(s, OwnerKey(owner));
      EnterKeepsQueued(OpenQueue(s, limit), s.admissions[OwnerKey(owner)], owner, list, clock, mode, k);
    } else {
      RegisteredKeeps(s, limit, owner, mode, newId);
      RegisteredState(s, limit, owner, mode, newId);
      RemovalKeepsOthers(OpenQueue(s, limit).queue.value, owner.key, k);
      EnterKeepsQueued(Registered(s, limit, owner, mode, newId), newId, owner, list, clock, mode, k);
    }
  }

  /** What a result of the batch does to the queue: only what was gone leaves it, and what was
      started goes on running. */
  lemma RecordingKeepsQueued<Id>(
    s: Repo<Id>, t: Repo<Id>, id: Id, cs: seq<Candidate>, ds: seq<Candidate>, list: seq<string>, k: string)
    requires Round(s, t, id, cs, ds, list) && id in t.records
    ensures var u := FinishAdmission(t, id, ds).0;
      && (Queued(t, k) && !Queued(u, k) ==> exists d :: d in ds && d.key == k && d.outcome.Gone?)
      && ((exists d :: d in ds && d.key == k && d.outcome.Succeeded?) ==> k in RunningIn(u))
  {
    var y: System<Id> := System(t, map[id := ds]);
    RoundIsSound(s, t, id, cs, ds, list);
    FinishConservesKeys(y, Finish(id), k);
    if d :| d in ds && d.key == k && d.outcome.Succeeded? {
      assert k in CandidateKeys(ds);
      ClaimedKeyRuns(y, id, k);
      OneResultPerKey(ds, k, d);
    }
  }

  /** A lease has one result for each key. */
  lemma OneResultPerKey(ds: seq<Candidate>, k: string, d: Candidate)
    requires DistinctLease(ds) && d in ds && d.key == k
    ensures forall e :: e in ds && e.key == k ==> e == d
  {
    forall e | e in ds && e.key == k ensures e == d {
      var i :| 0 <= i < |ds| && ds[i] == d;
      var j :| 0 <= j < |ds| && ds[j] == e;
      if i < j {
        LeaseKeysDistinct(ds, i, j);
      } else if j < i {
        LeaseKeysDistinct(ds, j, i);
      }
    }
  }

  // ---------- what a round does ----------

  /** The lease that a round got, if any. */
  function LeaseOf<Id>(reply: AcquireReply<Id>): seq<Candidate> {
    if reply.Leased? then reply.candidates else []
  }

  /** The round leased a key whose run the world says it started, and it holds its slot. */
  ghost predicate StartsOne(cs: seq<Candidate>, answers: string -> S.Answers, running: set<string>) {
    exists c :: c in cs && S.SaysStarted(answers(c.key), c) && c.key in running
  }

  lemma TakenOutAfter<Id>(
    s: Repo<Id>, t: Repo<Id>, reply: AcquireReply<Id>, owner: Owner, list: seq<string>,
    answers: string -> S.Answers, seen: set<string>, promotes: bool, g: Going<Id>, k: string)
    requires IsRoundAfter(s, t, reply, owner, list, answers, seen, promotes, g)
    requires Queued(t, k) && !Queued(g.repo, k)
    ensures SomeGone(LeaseOf(reply), answers, k)
  {
    if reply.Leased? {
      var b := StartEach(reply.candidates, answers, seen, promotes);
      RecordingKeepsQueued(s, t, reply.id, reply.candidates, b.candidates, list, k);
      var d :| d in b.candidates && d.key == k && d.outcome.Gone?;
      AnsweredByWorld(reply.candidates, answers, promotes, b, d);
    }
  }

  /** A result of the round is what the world says of its candidate. */
  lemma AnsweredByWorld(cs: seq<Candidate>, answers: string -> S.Answers, promotes: bool, b: Started, d: Candidate)
    requires StartsAsAnswered(cs, answers, promotes, b) && (forall c :: c in cs ==> c.outcome.Retry?) && d in b.candidates
    ensures d.outcome.Gone? ==> SomeGone(cs, answers, d.key)
  {
    var i :| 0 <= i < |b.candidates| && b.candidates[i] == d;
    assert cs[i] in cs;
    S.StartAnswer(answers(cs[i].key), cs[i]);
  }

  /** A key that a round takes out of the queue is that of an owner it releases, or one that it
      leased and whose run is gone. */
  lemma RoundTakesOutOnly<Id>(
    s: Repo<Id>, limit: nat, owner: Owner, list: seq<string>, clock: seq<int>, mode: Mode,
    answers: string -> S.Answers, seen: set<string>, newId: Id, k: string)
    requires MayRound(s, list, clock, seen, newId)
    requires Queued(s, k) && !Queued(RoundOf(s, limit, owner, list, clock, mode, answers, seen, newId).repo, k)
    ensures
      || (k == owner.key && ReleasesOwner(owner, mode))
      || SomeGone(LeaseOf(AcquireAdmission(s, limit, owner, list, clock, mode, newId).1), answers, k)
  {
    if k != owner.key || !ReleasesOwner(owner, mode) {
      AcquireKeepsQueued(s, limit, owner, list, clock, mode, newId, k);
      RoundIsAfter(s, limit, owner, list, clock, mode, answers, seen, newId);
      var (t, reply) := AcquireAdmission(s, limit, owner, list, clock, mode, newId);
      var g := RoundOf(s, limit, owner, list, clock, mode, answers, seen, newId);
      TakenOutAfter(s, t, reply, owner, list, answers, seen, mode.Promotion?, g, k);
    }
  }

  lemma StartedGoesOn<Id>(
    s: Repo<Id>, t: Repo<Id>, id: Id, cs: seq<Candidate>, list: seq<string>,
    answers: string -> S.Answers, promotes: bool, b: Started)
    requires Round(s, t, id, cs, b.candidates, list) && id in t.records
    requires StartsAsAnswered(cs, answers, promotes, b) && b.started
    ensures StartsOne(cs, answers, RunningIn(FinishAdmission(t, id, b.candidates).0))
  {
    var c :| c in cs && S.SaysStarted(answers(c.key), c);
    var i :| 0 <= i < |cs| && cs[i] == c;
    S.StartAnswer(answers(c.key), c);
    assert b.candidates[i] in b.candidates && b.candidates[i].key == c.key && b.candidates[i].outcome.Succeeded?;
    RecordingKeepsQueued(s, t, id, cs, b.candidates, list, c.key);
  }

  ghost predicate EndsWell<Id>(reply: AcquireReply<Id>, answers: string -> S.Answers, g: Going<Id>) {
    g.done && g.errs == [] ==>
      || StartsOne(LeaseOf(reply), answers, RunningIn(g.repo))
      || (LeaseOf(reply) == [] && !reply.Refused?)
  }

  lemma EndsWellAfter<Id>(
    s: Repo<Id>, t: Repo<Id>, reply: AcquireReply<Id>, owner: Owner, list: seq<string>,
    answers: string -> S.Answers, seen: set<string>, promotes: bool, g: Going<Id>)
    requires IsRoundAfter(s, t, reply, owner, list, answers, seen, promotes, g)
    ensures EndsWell(reply, answers, g)
  {
    if reply.Leased? {
      var b := StartEach(reply.candidates, answers, seen, promotes);
      if b.started {
        StartedGoesOn(s, t, reply.id, reply.candidates, list, answers, promotes, b);
      }
    }
  }

  /** A round that ends the pass without an error started a run, which holds its slot, or its
      admission had nothing to give. */
  lemma RoundEndsWell<Id>(
    s: Repo<Id>, limit: nat, owner: Owner, list: seq<string>, clock: seq<int>, mode: Mode,
    answers: string -> S.Answers, seen: set<string>, newId: Id)
    requires MayRound(s, list, clock, seen, newId)
    ensures
      EndsWell(
        AcquireAdmission(s, limit, owner, list, clock, mode, newId).1, answers,
        RoundOf(s, limit, owner, list, clock, mode, answers, seen, newId))
  {
    RoundIsAfter(s, limit, owner, list, clock, mode, answers, seen, newId);
    var (t, reply) := AcquireAdmission(s, limit, owner, list, clock, mode, newId);
    var g := RoundOf(s, limit, owner, list, clock, mode, answers, seen, newId);
    EndsWellAfter(s, t, reply, owner, list, answers, seen, mode.Promotion?, g);
  }

  /** A round goes on only when all that it leased is gone, and with the rest of its list. */
  ghost predicate GoesOnWith(list: seq<string>, cs: seq<Candidate>, answers: string -> S.Answers, kept: seq<string>) {
    && cs != [] && (forall c :: c in cs ==> S.SaysGone(answers(c.key), c))
    && (forall k :: k in kept <==> k in list && !SomeGone(cs, answers, k))
  }

  lemma WithoutErrorAllGone(cs: seq<Candidate>, answers: string -> S.Answers, promotes: bool, b: Started)
    requires StartsAsAnswered(cs, answers, promotes, b) && b.errs == [] && !b.started
    ensures forall c :: c in cs ==> S.SaysGone(answers(c.key), c)
  {
    forall c | c in cs ensures S.SaysGone(answers(c.key), c) {
      assert !S.SaysStarted(answers(c.key), c);
      assert StartFailed(c.key) !in b.errs;
    }
  }

  lemma ListsAfter<Id>(
    s: Repo<Id>, t: Repo<Id>, reply: AcquireReply<Id>, owner: Owner, list: seq<string>,
    answers: string -> S.Answers, seen: set<string>, promotes: bool, g: Going<Id>)
    requires IsRoundAfter(s, t, reply, owner, list, answers, seen, promotes, g) && !g.done
    ensures GoesOnWith(list, LeaseOf(reply), answers, g.list)
  {
    if reply.Leased? {
      WithoutErrorAllGone(reply.candidates, answers, promotes, StartEach(reply.candidates, answers, seen, promotes));
    }
  }

  lemma RoundLists<Id>(
    s: Repo<Id>, limit: nat, owner: Owner, list: seq<string>, clock: seq<int>, mode: Mode,
    answers: string -> S.Answers, seen: set<string>, newId: Id)
    requires MayRound(s, list, clock, seen, newId)
    requires !RoundOf(s, limit, owner, list, clock, mode, answers, seen, newId).done
    ensures
      GoesOnWith(
        list, LeaseOf(AcquireAdmission(s, limit, owner, list, clock, mode, newId).1), answers,
        RoundOf(s, limit, owner, list, clock, mode, answers, seen, newId).list)
  {
    RoundIsAfter(s, limit, owner, list, clock, mode, answers, seen, newId);
    var (t, reply) := AcquireAdmission(s, limit, owner, list, clock, mode, newId);
    var g := RoundOf(s, limit, owner, list, clock, mode, answers, seen, newId);
    ListsAfter(s, t, reply, owner, list, answers, seen, mode.Promotion?, g);
  }

  /** And an error always has its reason: the admission was refused, a leased run could not be
      started, or something is unfinished. */
  ghost predicate HasReason<Id>(
    e: LoopError, reply: AcquireReply<Id>, answers: string -> S.Answers, promotes: bool)
  {
    match e
    case AcquireFailed(cause) => reply == Refused(cause)
    case ReturnedTwice(_) => false
    case StartFailed(key) => SomeFails(LeaseOf(reply), answers, promotes, e)
    case FinishFailed(error) => reply.Leased? && error == Unfinished
  }

  lemma FinishReasons(failures: seq<FinishError>)
    requires failures == [] || failures == [Unfinished]
    ensures forall e :: e in FinishErrors(failures) ==> failures == [Unfinished] && e == FinishFailed(Unfinished)
  {
    assert FinishErrors([]) == [];
    assert failures != [] ==> failures[1..] == [] && FinishErrors(failures) == [FinishFailed(Unfinished)] + [];
  }

  lemma LeasedRoundErrors<Id>(
    t: Repo<Id>, id: Id, cs: seq<Candidate>, answers: string -> S.Answers, promotes: bool, b: Started,
    u: Repo<Id>, failures: seq<FinishError>, list: seq<string>, e: LoopError)
    requires StartsAsAnswered(cs, answers, promotes, b) && (failures == [] || failures == [Unfinished])
    requires e in AfterStarts(u, failures, cs, b, list).errs
    ensures HasReason(e, Leased(id, cs), answers, promotes)
  {
    FinishReasons(failures);
    assert e in b.errs ==> SomeFails(cs, answers, promotes, e);
  }

  lemma ReasonAfter<Id>(
    s: Repo<Id>, t: Repo<Id>, reply: AcquireReply<Id>, owner: Owner, list: seq<string>,
    answers: string -> S.Answers, seen: set<string>, promotes: bool, g: Going<Id>,
    e: LoopError)
    requires IsRoundAfter(s, t, reply, owner, list, answers, seen, promotes, g) && e in g.errs
    ensures HasReason(e, reply, answers, promotes)
  {
    if reply.Leased? {
      var b := StartEach(reply.candidates, answers, seen, promotes);
      RoundIsSound(s, t, reply.id, reply.candidates, b.candidates, list);
      FinishAdmissionKeeps(t, reply.id, b.candidates);
      var (u, failures) := FinishAdmission(t, reply.id, b.candidates);
      LeasedRoundErrors(t, reply.id, reply.candidates, answers, promotes, b, u, failures, list, e);
    }
  }

  lemma RoundErrors<Id>(
    s: Repo<Id>, limit: nat, owner: Owner, list: seq<string>, clock: seq<int>, mode: Mode,
    answers: string -> S.Answers, seen: set<string>, newId: Id, e: LoopError)
    requires MayRound(s, list, clock, seen, newId)
    requires e in RoundOf(s, limit, owner, list, clock, mode, answers, seen, newId).errs
    ensures HasReason(e, AcquireAdmission(s, limit, owner, list, clock, mode, newId).1, answers, mode.Promotion?)
  {
    RoundIsAfter(s, limit, owner, list, clock, mode, answers, seen, newId);
    var (t, reply) := AcquireAdmission(s, limit, owner, list, clock, mode, newId);
    var g := RoundOf(s, limit, owner, list, clock, mode, answers, seen, newId);
    ReasonAfter(s, t, reply, owner, list, answers, seen, mode.Promotion?, g, e);
  }

  // ---------- what a pass does ----------

  /** The answer to the admission of round n. */
  function ReplyAt<Id(==)>(s: Repo<Id>, p: Task, ids: seq<Id>, n: nat): AcquireReply<Id>
    requires n < |ids| && Pass(s, p, ids[..n]).Some?
  {
    var g := Pass(s, p, ids[..n]).value;
    AcquireAdmission(g.repo, p.limit, p.owner, g.list, ClockOf(p.clock, n, |g.list|), p.mode, ids[n]).1
  }

  /** One round more. */
  lemma PassStep<Id>(s: Repo<Id>, p: Task, ids: seq<Id>)
    requires ids != [] && Pass(s, p, ids).Some?
    ensures var n := |ids| - 1;
      && Pass(s, p, ids[..n]).Some?
      && var g := Pass(s, p, ids[..n]).value;
         && !g.done && ids[n] !in g.repo.records
         && Pass(s, p, ids).value
            == RoundAt(g, p, n, ids[n])
  {
  }

  ghost predicate MayPass<Id>(s: Repo<Id>, p: Task) {
    Consistent(s) && "" !in p.list
  }

  ghost predicate PassKept<Id>(p: Task, g: Going<Id>) {
    && Consistent(g.repo) && NoneTwice(g.errs) && (forall k :: k in g.list ==> k in p.list) && |g.list| <= |p.list|
    && (!g.done ==> g.seen !! Reach(g.repo, g.list))
  }

  /** Every pass keeps the manager consistent, and is never handed a key twice. */
  lemma {:induction false} PassKeeps<Id>(s: Repo<Id>, p: Task, ids: seq<Id>)
    requires MayPass(s, p) && Pass(s, p, ids).Some?
    ensures PassKept(p, Pass(s, p, ids).value)
    decreases |ids|
  {
    if ids != [] {
      var n := |ids| - 1;
      PassStep(s, p, ids);
      PassKeeps(s, p, ids[..n]);
      var g := Pass(s, p, ids[..n]).value;
      RoundKeeps(
        g.repo, p.limit, p.owner, g.list, ClockOf(p.clock, n, |g.list|), p.mode, AnswersOf(p.answers, n), g.seen, ids[n]);
    }
  }

  /** An owner that leaves stays out of the queue, and a promotion that ends without an error
      hands it over. */
  lemma {:induction false} PassKeepsOwner<Id>(s: Repo<Id>, p: Task, ids: seq<Id>)
    requires MayPass(s, p) && Pass(s, p, ids).Some? && OwnerLeft(s, p.owner) && p.owner.key !in p.list
    ensures var g := Pass(s, p, ids).value;
      && OwnerLeft(g.repo, p.owner)
      && (p.mode.Promotion? && p.list == [] && g.done && g.errs == [] ==> HandedOver(g.repo, p.owner))
    decreases |ids|
  {
    if ids != [] {
      var n := |ids| - 1;
      PassStep(s, p, ids);
      PassKeeps(s, p, ids[..n]);
      PassKeepsOwner(s, p, ids[..n]);
      var g := Pass(s, p, ids[..n]).value;
      RoundKeepsOwner(
        g.repo, p.limit, p.owner, g.list, ClockOf(p.clock, n, |g.list|), p.mode, AnswersOf(p.answers, n), g.seen, ids[n]);
    }
  }

  /** In some round the pass leased the key, and the world said that its run is gone. */
  ghost predicate GaveUp<Id>(s: Repo<Id>, p: Task, ids: seq<Id>, k: string)
    decreases |ids|
  {
    ids != [] &&
    var n := |ids| - 1;
    || GaveUp(s, p, ids[..n], k)
    || (Pass(s, p, ids[..n]).Some? && SomeGone(LeaseOf(ReplyAt(s, p, ids, n)), AnswersOf(p.answers, n), k))
  }

  /** A pass takes a key out of the queue only if it releases its owner, whose key it is, or if
      it leased the key and its run is gone. */
  lemma {:induction false} PassTakesOutOnly<Id>(s: Repo<Id>, p: Task, ids: seq<Id>, k: string)
    requires MayPass(s, p) && Pass(s, p, ids).Some?
    requires Queued(s, k) && !Queued(Pass(s, p, ids).value.repo, k)
    ensures (k == p.owner.key && ReleasesOwner(p.owner, p.mode)) || GaveUp(s, p, ids, k)
    decreases |ids|
  {
    if ids != [] {
      var n := |ids| - 1;
      PassStep(s, p, ids);
      PassKeeps(s, p, ids[..n]);
      var g := Pass(s, p, ids[..n]).value;
      if Queued(g.repo, k) {
        RoundTakesOutOnly(
          g.repo, p.limit, p.owner, g.list, ClockOf(p.clock, n, |g.list|), p.mode, AnswersOf(p.answers, n), g.seen, ids[n], k);
      } else {
        PassTakesOutOnly(s, p, ids[..n], k);
      }
    }
  }

  /** A pass that goes on lists exactly the keys of its list that it has not given up. */
  lemma {:induction false} PassLists<Id>(s: Repo<Id>, p: Task, ids: seq<Id>, k: string)
    requires MayPass(s, p) && Pass(s, p, ids).Some? && !Pass(s, p, ids).value.done
    ensures k in Pass(s, p, ids).value.list <==> k in p.list && !GaveUp(s, p, ids, k)
    decreases |ids|
  {
    if ids != [] {
      var n := |ids| - 1;
      PassStep(s, p, ids);
      PassKeeps(s, p, ids[..n]);
      PassLists(s, p, ids[..n], k);
      var g := Pass(s, p, ids[..n]).value;
      RoundLists(
        g.repo, p.limit, p.owner, g.list, ClockOf(p.clock, n, |g.list|), p.mode, AnswersOf(p.answers, n), g.seen, ids[n]);
    }
  }

  /** The answer to the last admission. */
  function LastReply<Id(==)>(s: Repo<Id>, p: Task, ids: seq<Id>): AcquireReply<Id>
    requires ids != [] && Pass(s, p, ids).Some?
  {
    PassStep(s, p, ids);
    ReplyAt(s, p, ids, |ids| - 1)
  }

  /** A pass that ends without an error started a run in its last round, which holds its slot, or
      ended on an admission that leased nothing. */
  lemma PassEndsWell<Id>(s: Repo<Id>, p: Task, ids: seq<Id>)
    requires MayPass(s, p) && Pass(s, p, ids).Some? && Pass(s, p, ids).value.done && Pass(s, p, ids).value.errs == []
    ensures ids != []
    ensures var reply := LastReply(s, p, ids);
      || StartsOne(LeaseOf(reply), AnswersOf(p.answers, |ids| - 1), RunningIn(Pass(s, p, ids).value.repo))
      || (LeaseOf(reply) == [] && !reply.Refused?)
  {
    var n := |ids| - 1;
    PassStep(s, p, ids);
    PassKeeps(s, p, ids[..n]);
    var g := Pass(s, p, ids[..n]).value;
    RoundEndsWell(
      g.repo, p.limit, p.owner, g.list, ClockOf(p.clock, n, |g.list|), p.mode, AnswersOf(p.answers, n), g.seen, ids[n]);
  }

  /** Every error of a pass has its reason in the last round. */
  lemma PassErrors<Id>(s: Repo<Id>, p: Task, ids: seq<Id>, e: LoopError)
    requires MayPass(s, p) && Pass(s, p, ids).Some? && e in Pass(s, p, ids).value.errs
    ensures ids != []
    ensures HasReason(e, LastReply(s, p, ids), AnswersOf(p.answers, |ids| - 1), p.mode.Promotion?)
  {
    var n := |ids| - 1;
    PassStep(s, p, ids);
    PassKeeps(s, p, ids[..n]);
    var g := Pass(s, p, ids[..n]).value;
    RoundErrors(
      g.repo, p.limit, p.owner, g.list, ClockOf(p.clock, n, |g.list|), p.mode, AnswersOf(p.answers, n), g.seen, ids[n], e);
  }

  // ---------- resuming, then handing on ----------

  /** A finished owner first resumes its own candidates; without an error its promotion follows. */
  function NextRun<Id(==)>(s: Repo<Id>, resume: Task, promote: Task, ids: seq<Id>, more: seq<Id>)
    : Option<(Repo<Id>, seq<LoopError>)>
  {
    match Pass(s, resume, ids)
    case None => None
    case Some(g) =>
      if !g.done then None
      else if g.errs != [] then (if more == [] then Some((g.repo, g.errs)) else None)
      else
        match Pass(g.repo, promote, more)
        case None => None
        case Some(h) => if h.done then Some((h.repo, h.errs)) else None
  }
}
