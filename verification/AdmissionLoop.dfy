/** The loop that admits PipelineRuns for one owner until one starts, nothing is left,
    or something fails, in the code's form. It runs on the manager without other workers in
    between; LoopAmongOthers.dfy is about the loop among them. */
module AdmissionLoop {
  import opened Wrappers
  import opened Admissions
  import opened AdmissionInvariant
  import opened AdmissionProperties
  import opened HandOff
  import opened Managers
  import opened AdmissionPasses
  import S = Starts

  // ---------- the candidates of a lease ----------

  lemma BothIsAssociative(a: Started, b: Started, c: Started)
    ensures Both(Both(a, b), c) == Both(a, Both(b, c))
  {
    assert a.candidates + b.candidates + c.candidates == a.candidates + (b.candidates + c.candidates);
    assert a.errs + b.errs + c.errs == a.errs + (b.errs + c.errs);
    assert a.dropped + b.dropped + c.dropped == a.dropped + (b.dropped + c.dropped);
  }

  lemma BothFromNothing(b: Started, seen: set<string>)
    ensures Both(Started([], seen, [], {}, false), b) == b
  {
    assert [] + b.candidates == b.candidates && [] + b.errs == b.errs && {} + b.dropped == b.dropped;
  }

  lemma BothWithNothing(a: Started)
    ensures Both(a, Started([], a.seen, [], {}, false)) == a
  {
    assert a.candidates + [] == a.candidates && a.errs + [] == a.errs && a.dropped + {} == a.dropped;
  }

  lemma LongerPrefix(cs: seq<Candidate>, i: nat, d: Candidate)
    requires i < |cs|
    ensures cs[i := d][..i + 1] == cs[..i] + [d]
  {
  }

  lemma WholePrefix(cs: seq<Candidate>)
    ensures cs[..|cs|] == cs
  {
  }

  lemma StartEachStep(cs: seq<Candidate>, i: nat, answers: string -> S.Answers, seen: set<string>, promotes: bool)
    requires i < |cs|
    ensures var first := OneStarted(cs[i], answers(cs[i].key), seen, promotes);
      StartEach(cs[i..], answers, seen, promotes) == Both(first, StartEach(cs[i + 1..], answers, first.seen, promotes))
  {
    assert cs[i..][0] == cs[i] && cs[i..][1..] == cs[i + 1..];
  }

  lemma StartedStep(done: Started, c: Candidate, a: S.Answers, promotes: bool)
    ensures var twice, (d, more) := c.key in done.seen, StartOf(c, a, c.key in done.seen, promotes);
      Both(done, OneStarted(c, a, done.seen, promotes)) == Started(
        done.candidates + [d], done.seen + {c.key}, done.errs + more,
        if !twice && d.outcome.Gone? then done.dropped + {c.key} else done.dropped,
        done.started || (!twice && d.outcome.Succeeded?))
  {
    assert done.dropped + {} == done.dropped;
  }

  /** The candidate is started, unless it was handed out before in this loop. */
  method StartOne(c: Candidate, answers: S.Answers, twice: bool, promotes: bool)
    returns (d: Candidate, errs: seq<LoopError>)
    ensures (d, errs) == StartOf(c, answers, twice, promotes)
  {
    if twice {
      return c, [ReturnedTwice(c.key)];
    }
    var failed;
    d, failed := S.StartCandidate(answers, c).0, S.StartCandidate(answers, c).1;
    errs := [];
    if failed && !(promotes && d.outcome.Succeeded?) {
      errs := [StartFailed(c.key)];
    }
  }

  /** Every candidate of the lease is started once. */
  method StartAll(work: Admission, answers: string -> S.Answers, seen0: set<string>, promotes: bool)
    returns (seen: set<string>, errs: seq<LoopError>, dropped: set<string>, started: bool)
    modifies work
    ensures Started(work.candidates, seen, errs, dropped, started)
      == StartEach(old(work.candidates), answers, seen0, promotes)
  {
    seen, errs, dropped, started := seen0, [], {}, false;
    ghost var before := work.candidates;
    ghost var all := StartEach(before, answers, seen0, promotes);
    ghost var done := Started([], seen0, [], {}, false);
    var i := 0;
    assert before[0..] == before;
    BothFromNothing(all, seen0);
    while i < |work.candidates|
      invariant 0 <= i <= |work.candidates| == |before|
      invariant forall j :: i <= j < |before| ==> work.candidates[j] == before[j]
      invariant done == Started(work.candidates[..i], seen, errs, dropped, started)
      invariant Both(done, StartEach(before[i..], answers, seen, promotes)) == all
    {
      var c := work.candidates[i];
      var twice := c.key in seen;
      StartEachStep(before, i, answers, seen, promotes);
      ghost var first := OneStarted(c, answers(c.key), seen, promotes);
      BothIsAssociative(done, first, StartEach(before[i + 1..], answers, first.seen, promotes));
      StartedStep(done, c, answers(c.key), promotes);
      var d, more := StartOne(c, answers(c.key), twice, promotes);
      LongerPrefix(work.candidates, i, d);
      work.candidates := work.candidates[i := d];
      errs := errs + more;
      seen := seen + {c.key};
      if !twice {
        if d.outcome.Gone? {
          dropped := dropped + {c.key};
        } else if d.outcome.Succeeded? {
          started := true;
        }
      }
      done := Both(done, first);
      i := i + 1;
    }
    assert before[i..] == [];
    WholePrefix(work.candidates);
    BothWithNothing(done);
  }

  lemma KeepingStep(kept: seq<string>, list: seq<string>, i: nat, dropped: set<string>)
    requires i < |list|
    ensures kept + Keeping(list[i..], dropped)
      == (if list[i] in dropped then kept else kept + [list[i]]) + Keeping(list[i + 1..], dropped)
  {
    assert list[i..][0] == list[i] && list[i..][1..] == list[i + 1..];
    assert kept + ([list[i]] + Keeping(list[i + 1..], dropped)) == kept + [list[i]] + Keeping(list[i + 1..], dropped);
    assert [] + Keeping(list[i + 1..], dropped) == Keeping(list[i + 1..], dropped);
  }

  /** The list without the keys that were gone. */
  method KeepOthers(list: seq<string>, dropped: set<string>) returns (kept: seq<string>)
    ensures kept == Keeping(list, dropped)
  {
    kept := [];
    var i := 0;
    assert list[0..] == list;
    while i < |list|
      invariant 0 <= i <= |list| && kept + Keeping(list[i..], dropped) == Keeping(list, dropped)
    {
      KeepingStep(kept, list, i, dropped);
      if list[i] !in dropped {
        kept := kept + [list[i]];
      }
      i := i + 1;
    }
    assert list[i..] == [] && kept + [] == kept;
  }

  // ---------- one round ----------

  /** The candidates are started and their results recorded. */
  method WorkRound(
    m: Manager, work: Admission, list: seq<string>, promotes: bool, answers: string -> S.Answers, seen0: set<string>)
    returns (done: bool, errs: seq<LoopError>, kept: seq<string>, seen: set<string>)
    requires m.Valid() && work.state in m.Records
    modifies m, m.Records.Keys, work
    ensures m.Valid() && m.Records.Keys == old(m.Records.Keys)
    ensures
      var cs := old(work.candidates);
      var b := StartEach(cs, answers, seen0, promotes);
      var (u, failures) := FinishAdmission(old(m.State()), work.state, b.candidates);
      && m.State() == u
      && Going(m.State(), kept, seen, done, errs) == AfterStarts(u, failures, cs, b, list)
  {
    var empty := work.candidates == [];
    var dropped, started;
    seen, errs, dropped, started := StartAll(work, answers, seen0, promotes);
    var failures := m.FinishAdmissionFor(work);
    errs := errs + FinishErrors(failures);
    if empty || errs != [] || started {
      return true, errs, [], seen;
    }
    kept := KeepOthers(list, dropped);
    done := false;
  }

  /** The admission of a round. `newId` is the record that a new owner would get. */
  method AcquireRound(m: Manager, limit: nat, owner: Owner, list: seq<string>, clock: seq<int>, mode: Mode)
    returns (work: Admission?, error: Option<AcquireError>, ghost newId: AdmissionState)
    requires m.Valid() && |list| <= |clock|
    modifies m, m.Records.Keys
    ensures m.Valid() && fresh(m.Records.Keys - old(m.Records.Keys)) && newId !in old(m.Records)
    ensures work != null ==> fresh(work) && work.state in m.Records
    ensures AcquireAdmission(old(m.State()), limit, owner, list, clock, mode, newId) == (m.State(),
      if work != null then Leased(work.state, work.candidates) else if error.Some? then Refused(error.value) else NoWork)
  {
    ghost var s := m.State();
    work, error, newId := m.AcquireAdmissionFor(limit, owner, list, clock, mode);
    LeaseIsRecorded(s, limit, owner, list, clock, mode, newId);
    AnswerMeans(work, error, AcquireAdmission(s, limit, owner, list, clock, mode, newId).1);
  }

  lemma AnswerMeans(work: Admission?, error: Option<AcquireError>, reply: AcquireReply<AdmissionState>)
    requires Answers(work, error, reply)
    ensures reply ==
      if work != null then Leased(work.state, work.candidates) else if error.Some? then Refused(error.value) else NoWork
  {
  }

  /** One round of the pass. */
  method OneRound(
    m: Manager, limit: nat, owner: Owner, list: seq<string>, clock: seq<int>, mode: Mode,
    answers: string -> S.Answers, seen0: set<string>)
    returns (done: bool, errs: seq<LoopError>, kept: seq<string>, seen: set<string>, ghost newId: AdmissionState)
    requires m.Valid() && |list| <= |clock|
    modifies m, m.Records.Keys
    ensures m.Valid() && fresh(m.Records.Keys - old(m.Records.Keys)) && newId !in old(m.Records)
    ensures Going(m.State(), kept, seen, done, errs)
      == RoundOf(old(m.State()), limit, owner, list, clock, mode, answers, seen0, newId)
  {
    ghost var s := m.State();
    var work, error;
    work, error, newId := AcquireRound(m, limit, owner, list, clock, mode);
    ghost var t := m.State();
    if work == null {
      done, errs, kept, seen := true, if error.Some? then [AcquireFailed(error.value)] else [], [], seen0;
      RoundWithoutLease(
        s, limit, owner, list, clock, mode, answers, seen0, newId, t, if error.Some? then Refused(error.value) else NoWork);
      return;
    }
    ghost var b := StartEach(work.candidates, answers, seen0, mode.Promotion?);
    RoundOfLease(s, limit, owner, list, clock, mode, answers, seen0, newId, t, work.state, work.candidates, b);
    done, errs, kept, seen := WorkRound(m, work, list, mode.Promotion?, answers, seen0);
  }

  // ---------- the loop ----------

  /** One more round of the pass. */
  method NextRound(m: Manager, p: Task, round: nat, list0: seq<string>, seen0: set<string>,
                   ghost s: Repo<AdmissionState>, ghost made: seq<AdmissionState>)
    returns (done: bool, errs: seq<LoopError>, list: seq<string>, seen: set<string>, ghost newId: AdmissionState)
    requires m.Valid() && round == |made| && "" !in p.list
    requires Pass(s, p, made) == Some(Going(m.State(), list0, seen0, false, []))
    requires PassKept(p, Going(m.State(), list0, seen0, false, []))
    modifies m, m.Records.Keys
    ensures m.Valid() && fresh(m.Records.Keys - old(m.Records.Keys))
    ensures Pass(s, p, made + [newId]) == Some(Going(m.State(), list, seen, done, errs))
    ensures PassKept(p, Going(m.State(), list, seen, done, errs)) && (!done ==> errs == [])
    ensures !done ==> |Reach(m.State(), list)| < old(|Reach(m.State(), list0)|)
  {
    ghost var g := Going(m.State(), list0, seen0, false, []);
    done, errs, list, seen, newId := OneRound(
      m, p.limit, p.owner, list0, ClockOf(p.clock, round, |list0|), p.mode, AnswersOf(p.answers, round), seen0);
    PassGoesOn(s, p, made, g, newId);
  }

  /** The loop computes the pass, and ends: each round that goes on takes keys out of the queue
      and out of the list for good. So everything that is proved about passes holds of it: no key
      is handed to it twice, only keys that are gone leave the queue, and it ends without an error
      only if it started a run or had nothing to start. */
  method ProcessQueueAdmission(m: Manager, p: Task)
    returns (errs: seq<LoopError>, ghost made: seq<AdmissionState>)
    requires m.Valid() && Consistent(m.State()) && "" !in p.list
    modifies m, m.Records.Keys
    ensures m.Valid() && fresh(m.Records.Keys - old(m.Records.Keys)) && Consistent(m.State())
    ensures PassEnds(old(m.State()), p, made, m.State(), errs)
    ensures NoneTwice(errs)
    ensures TakesOutOnly(old(m.State()), m.State(), p, made)
    ensures old(OwnerLeft(m.State(), p.owner)) && p.owner.key !in p.list ==>
      && OwnerLeft(m.State(), p.owner)
      && (p.mode.Promotion? && p.list == [] && errs == [] ==> HandedOver(m.State(), p.owner))
  {
    var list := p.list;
    var seen: set<string> := {};
    var round := 0;
    var done := false;
    ghost var s := m.State();
    errs, made := [], [];
    while !done
      invariant m.Valid() && fresh(m.Records.Keys - old(m.Records.Keys)) && round == |made| && (!done ==> errs == [])
      invariant Pass(s, p, made) == Some(Going(m.State(), list, seen, done, errs))
      invariant PassKept(p, Going(m.State(), list, seen, done, errs))
      decreases !done, |Reach(m.State(), list)|
    {
      ghost var newId;
      done, errs, list, seen, newId := NextRound(m, p, round, list, seen, s, made);
      made := made + [newId];
      round := round + 1;
    }
    PassFacts(s, p, made);
  }

  lemma NoErrorGoesOn<Id>(
    s: Repo<Id>, limit: nat, owner: Owner, list: seq<string>, clock: seq<int>, mode: Mode,
    answers: string -> S.Answers, seen: set<string>, newId: Id)
    requires |list| <= |clock|
    ensures var g := RoundOf(s, limit, owner, list, clock, mode, answers, seen, newId); !g.done ==> g.errs == []
  {
    var (t, reply) := AcquireAdmission(s, limit, owner, list, clock, mode, newId);
    if reply.Leased? {
      var b := StartEach(reply.candidates, answers, seen, mode.Promotion?);
      RoundOfLease(s, limit, owner, list, clock, mode, answers, seen, newId, t, reply.id, reply.candidates, b);
    }
  }

  lemma PassExtended<Id>(s: Repo<Id>, p: Task, ids: seq<Id>, g: Going<Id>, newId: Id)
    requires Pass(s, p, ids) == Some(g) && !g.done && newId !in g.repo.records
    ensures Pass(s, p, ids + [newId]) == Some(RoundAt(g, p, |ids|, newId))
  {
    assert (ids + [newId])[..|ids|] == ids && (ids + [newId])[|ids|] == newId;
  }

  lemma RoundGoesOn<Id>(p: Task, g: Going<Id>, n: nat, newId: Id)
    requires "" !in p.list && !g.done && PassKept(p, g) && newId !in g.repo.records
    ensures var h := RoundAt(g, p, n, newId);
      && PassKept(p, h) && (!h.done ==> h.errs == [])
      && (!h.done ==> |Reach(h.repo, h.list)| < |Reach(g.repo, g.list)|)
  {
    NoErrorGoesOn(
      g.repo, p.limit, p.owner, g.list, ClockOf(p.clock, n, |g.list|), p.mode, AnswersOf(p.answers, n), g.seen, newId);
    RoundKeeps(
      g.repo, p.limit, p.owner, g.list, ClockOf(p.clock, n, |g.list|), p.mode, AnswersOf(p.answers, n), g.seen, newId);
  }

  /** One more round of a pass, and that it has less within reach. */
  lemma PassGoesOn<Id>(s: Repo<Id>, p: Task, ids: seq<Id>, g: Going<Id>, newId: Id)
    requires "" !in p.list && Pass(s, p, ids) == Some(g) && !g.done && PassKept(p, g) && newId !in g.repo.records
    ensures var h := RoundAt(g, p, |ids|, newId);
      && Pass(s, p, ids + [newId]) == Some(h) && PassKept(p, h) && (!h.done ==> h.errs == [])
      && (!h.done ==> |Reach(h.repo, h.list)| < |Reach(g.repo, g.list)|)
  {
    PassExtended(s, p, ids, g, newId);
    RoundGoesOn(p, g, |ids|, newId);
  }

  /** The pass ends with these rounds, in this state and with these errors. */
  ghost predicate PassEnds<Id>(s: Repo<Id>, p: Task, ids: seq<Id>, t: Repo<Id>, errs: seq<LoopError>) {
    var g := Pass(s, p, ids);
    g.Some? && g.value.done && g.value.repo == t && g.value.errs == errs
  }

  /** A key leaves the queue only if the owner, whose key it is, is released, or if the pass
      leased it and its run is gone. */
  ghost predicate TakesOutOnly<Id>(s: Repo<Id>, t: Repo<Id>, p: Task, ids: seq<Id>) {
    forall k :: Queued(s, k) && !Queued(t, k) ==>
      (k == p.owner.key && ReleasesOwner(p.owner, p.mode)) || GaveUp(s, p, ids, k)
  }

  /** What the contract of the loop says of a pass. */
  lemma PassFacts<Id>(s: Repo<Id>, p: Task, ids: seq<Id>)
    requires MayPass(s, p) && Pass(s, p, ids).Some? && Pass(s, p, ids).value.done
    ensures var g := Pass(s, p, ids).value;
      && Consistent(g.repo) && NoneTwice(g.errs)
      && TakesOutOnly(s, g.repo, p, ids)
      && (OwnerLeft(s, p.owner) && p.owner.key !in p.list ==>
            && OwnerLeft(g.repo, p.owner)
            && (p.mode.Promotion? && p.list == [] && g.errs == [] ==> HandedOver(g.repo, p.owner)))
  {
    var g := Pass(s, p, ids).value;
    PassKeeps(s, p, ids);
    forall k | Queued(s, k) && !Queued(g.repo, k)
      ensures (k == p.owner.key && ReleasesOwner(p.owner, p.mode)) || GaveUp(s, p, ids, k)
    {
      PassTakesOutOnly(s, p, ids, k);
    }
    if OwnerLeft(s, p.owner) && p.owner.key !in p.list {
      PassKeepsOwner(s, p, ids);
    }
  }

  /** A finished owner first gets its unfinished candidates going again, then hands its
      slot on. Without an error, which is the only way to the terminal write, its key is
      nowhere in the queue and it holds no unfinished candidate. */
  method StartNextPipelineRunInQueue(
    m: Manager, limit: nat, owner: Owner, answers: (nat, string) -> S.Answers, clock: (nat, nat) -> int,
    laterAnswers: (nat, string) -> S.Answers)
    returns (errs: seq<LoopError>, ghost made: seq<AdmissionState>, ghost later: seq<AdmissionState>)
    requires m.Valid() && Consistent(m.State()) && OwnerLeft(m.State(), owner)
    modifies m, m.Records.Keys
    ensures m.Valid() && Consistent(m.State()) && OwnerLeft(m.State(), owner)
    ensures
      NextRun(
        old(m.State()), Task(limit, owner, [], Resume, answers, clock),
        Task(limit, owner, [], Promotion, laterAnswers, clock), made, later)
      == Some((m.State(), errs))
    ensures errs == [] ==> HandedOver(m.State(), owner)
  {
    later := [];
    errs, made := ProcessQueueAdmission(m, Task(limit, owner, [], Resume, answers, clock));
    if errs == [] {
      errs, later := ProcessQueueAdmission(m, Task(limit, owner, [], Promotion, laterAnswers, clock));
    }
  }
}
