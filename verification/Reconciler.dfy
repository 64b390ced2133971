/** The two ways a PipelineRun leaves the queue's care: it is done, and its terminal state
    is written after its slot was handed on; or it is deleted. */
module Reconcilers {
  import opened Wrappers
  import opened Admissions
  import opened AdmissionInvariant
  import opened AdmissionSteps
  import opened HandOff
  import opened AdmissionAnswers
  import opened Managers
  import opened AdmissionPasses
  import opened AdmissionLoop
  import C = Clusters

  /** What the cluster and the clock say during one pass of the two admission loops. */
  datatype Oracle = Oracle(
    resumed: (nat, string) -> S.Answers, promoted: (nat, string) -> S.Answers, clock: (nat, nat) -> int)

  datatype Failure = QueueFailed(errs: seq<LoopError>) | WriteFailed | RepositoryUnreadable

  /** The owner's own candidates are resumed, and then its slot is handed on. */
  function HandOn<Id(==)>(s: Repo<Id>, limit: nat, owner: Owner, oracle: Oracle, resumed: seq<Id>, promoted: seq<Id>)
    : Option<(Repo<Id>, seq<LoopError>)>
  {
    NextRun(
      s, Task(limit, owner, [], Resume, oracle.resumed, oracle.clock),
      Task(limit, owner, [], Promotion, oracle.promoted, oracle.clock), resumed, promoted)
  }

  /** Nothing of the owner is left: not its key, and not its record. */
  ghost predicate HasGone<Id>(s: Repo<Id>, owner: Owner) {
    !Queued(s, owner.key) && OwnerKey(owner) !in s.admissions
  }

  /** Forgetting its admission leaves nothing of an owner that was handed over. */
  lemma HandedOverGoes<Id>(s: Repo<Id>, owner: Owner)
    requires Consistent(s) && HandedOver(s, owner)
    ensures Consistent(ForgetAdmission(s, owner)) && HasGone(ForgetAdmission(s, owner), owner)
  {
    ForgetAdmissionKeeps(s, owner);
    if OwnerKey(owner) in s.admissions {
      assert OwnerOk(s, OwnerKey(owner));
      ForgettingDropsIdle(s, owner);
      OwnClaims(s, s.admissions[OwnerKey(owner)]);
    }
  }

  /** The terminal state is written over whatever the run is by then. */
  function TerminalWrite(c: C.Cluster, key: string, final: C.PacState): C.Cluster
    requires key in c.runs
  {
    C.Step(c, C.Write(key, c.runs[key].(state := final)))
  }

  /** After it the run cannot be started: a start patch that is still in flight never
      commits, and none is built any more from what it left. */
  lemma TerminalIsFinal(c: C.Cluster, key: string, final: C.PacState, later: seq<C.Change>, p: C.Patch)
    requires C.Fenced(c) && key in c.runs && (final.Completed? || final.Failed?)
    requires p in c.sent && p.key == key
    ensures C.NoLongerStartable(TerminalWrite(c, key, final).runs[key])
    ensures !C.Commits(C.Steps(TerminalWrite(c, key, final), later), p)
  {
    var e := C.Write(key, c.runs[key].(state := final));
    C.StepKeepsFenced(c, e);
    C.StaleForever(C.Step(c, e), later, p);
  }

  /** The end of a finished run: the terminal state is written only after the owner has
      handed on its slot and its unfinished candidates; if the write fails, the next pass
      starts from a manager that remembers the hand-off. `c` is the cluster at the time of
      the write, and `writes` says whether the API server takes it. */
  method FinishOwner(
    m: Manager, limit: nat, owner: Owner, final: C.PacState, oracle: Oracle, c: C.Cluster, writes: bool)
    returns (written: C.Cluster, failure: Option<Failure>,
             ghost resumed: seq<AdmissionState>, ghost promoted: seq<AdmissionState>)
    requires m.Valid() && Consistent(m.State()) && OwnerLeft(m.State(), owner)
    modifies m, m.Records.Keys
    ensures m.Valid() && Consistent(m.State())
    ensures HandOn(old(m.State()), limit, owner, oracle, resumed, promoted).Some?
    ensures
      var (t, errs) := HandOn(old(m.State()), limit, owner, oracle, resumed, promoted).value;
      var taken := writes && owner.key in c.runs;
      && failure == (if errs != [] then Some(QueueFailed(errs)) else if !taken then Some(WriteFailed) else None)
      && written == (if errs == [] && taken then TerminalWrite(c, owner.key, final) else c)
      && m.State() == (if errs == [] && taken then ForgetAdmission(t, owner) else t)
    ensures failure.None? ==> HasGone(m.State(), owner)
    ensures failure == Some(WriteFailed) ==> HandedOver(m.State(), owner)
  {
    var errs;
    errs, resumed, promoted :=
      StartNextPipelineRunInQueue(m, limit, owner, oracle.resumed, oracle.clock, oracle.promoted);
    if errs != [] {
      written, failure := c, Some(QueueFailed(errs));
      return;
    }
    if !writes || owner.key !in c.runs {
      written, failure := c, Some(WriteFailed);
      return;
    }
    written, failure := TerminalWrite(c, owner.key, final), None;
    HandedOverGoes(m.State(), owner);
    m.ForgetAdmissionOf(owner);
  }

  /** What the lister says about the run's repository. */
  datatype Lookup = Found(limit: nat) | NotFound | Unreadable

  /** A deleted run. One that was queued or started hands on its slot; without its
      repository the whole queue goes, and if it names no repository nothing happens. One
      that already reported its end, or was never admitted, only has its admission
      forgotten. */
  method FinalizeKind(
    m: Manager, state: Option<C.PacState>, hasRepository: bool, repository: Lookup, owner: Owner, oracle: Oracle)
    returns (failure: Option<Failure>, ghost resumed: seq<AdmissionState>, ghost promoted: seq<AdmissionState>)
    requires m.Valid() && Consistent(m.State()) && OwnerLeft(m.State(), owner)
    modifies m, m.Records.Keys
    ensures m.Valid() && Consistent(m.State())
    ensures (state == Some(C.Queued) || state == Some(C.Started)) && hasRepository ==>
      && (repository.NotFound? ==> failure.None? && m.State() == RemoveRepository(old(m.State())))
      && (repository.Unreadable? ==> failure == Some(RepositoryUnreadable) && m.State() == old(m.State()))
      && (repository.Found? ==>
            && HandOn(old(m.State()), repository.limit, owner, oracle, resumed, promoted).Some?
            && var (t, errs) := HandOn(old(m.State()), repository.limit, owner, oracle, resumed, promoted).value;
               if errs != [] then failure == Some(QueueFailed(errs)) && m.State() == t
               else failure.None? && m.State() == ForgetAdmission(t, owner) && HasGone(m.State(), owner))
    ensures (state == Some(C.Queued) || state == Some(C.Started)) && !hasRepository ==>
      failure.None? && m.State() == old(m.State())
    ensures state != Some(C.Queued) && state != Some(C.Started) ==>
      failure.None? && m.State() == ForgetAdmission(old(m.State()), owner)
  {
    failure, resumed, promoted := None, [], [];
    if state.None? || state.value.Completed? || state.value.Failed? {
      ForgetAdmissionKeeps(m.State(), owner);
      m.ForgetAdmissionOf(owner);
    } else if hasRepository {
      match repository
      case NotFound => m.RemoveRepositoryState();
      case Unreadable => failure := Some(RepositoryUnreadable);
      case Found(limit) =>
        var errs;
        errs, resumed, promoted :=
          StartNextPipelineRunInQueue(m, limit, owner, oracle.resumed, oracle.clock, oracle.promoted);
        if errs != [] {
          failure := Some(QueueFailed(errs));
        } else {
          HandedOverGoes(m.State(), owner);
          m.ForgetAdmissionOf(owner);
        }
    }
  }
}
