/** A restart of the controller: the queue is rebuilt from the cluster, and the protocol goes
    on from there. */
module Restarts {
  import opened Wrappers
  import opened Admissions
  import opened AdmissionSystem
  import opened AdmissionProperties
  import opened HandOff
  import Strings
  import opened ExecutionOrder
  import opened Recovery
  import opened StartUp
  import opened StartProtocol
  import C = Clusters

  const CANCELLED := "Cancelled"

  function StatusText(status: C.SpecStatus): string {
    match status
    case Pending => PENDING
    case Cleared => ""
    case Stopping => CANCELLED
  }

  function StateText(state: C.PacState): string {
    match state
    case Queued => QUEUED
    case Started => STARTED
    case Completed => "completed"
    case Failed => "failed"
  }

  function ReadFromCluster(c: C.Cluster, key: string): Got {
    if key in c.runs then Found(StatusText(c.runs[key].status), Some(StateText(c.runs[key].state))) else NotFound
  }

  ghost predicate ReadsCluster(c: C.Cluster, runs: seq<ListedRun>) {
    forall run, r :: run in runs ==> run.read(r) == ReadFromCluster(c, PrKey(r))
  }

  /** The runs whose state annotation says "started", finished ones included. */
  ghost function StartedKeys(c: C.Cluster): set<string> {
    set k | k in c.runs && c.runs[k].state.Started?
  }

  /** The list holds exactly the started runs, and each is named by its own order. */
  ghost predicate ListsStarted(c: C.Cluster, runs: seq<ListedRun>) {
    && ListedKeys(runs) == StartedKeys(c)
    && forall run :: run in runs ==>
         && run.order.Some?
         && exists entry :: entry in Strings.Split(run.order.value, ',') && SplitPrKey(entry) == Some(run.name)
  }

  /** Nothing is under way: no start patch can commit, and a run that is active is annotated
      as started. */
  ghost predicate Quiet(c: C.Cluster) {
    && (forall p :: p in c.sent ==> !C.Commits(c, p))
    && (forall k :: k in Active(c) ==> c.runs[k].state.Started?)
  }

  lemma ReadAsStarted(c: C.Cluster, r: RunName)
    ensures IsWanted(ReadFromCluster(c, PrKey(r)), "", STARTED) <==> PrKey(r) in StartedKeys(c)
  {
  }

  lemma ListsAreExact(c: C.Cluster, runs: seq<ListedRun>)
    requires ReadsCluster(c, runs) && ListsStarted(c, runs)
    ensures ListsExactly(runs, "", STARTED)
  {
    forall run | run in runs ensures Names(run, "", STARTED, PrKey(run.name)) {
      var entries := Strings.Split(run.order.value, ',');
      var entry :| entry in entries && SplitPrKey(entry) == Some(run.name);
      ReadAsStarted(c, run.name);
      assert PrKey(run.name) in ListedKeys(runs);
      assert Keeps(entry, run.read, "", STARTED, PrKey(run.name));
    }
    forall run, k | run in runs && Names(run, "", STARTED, k) ensures k in ListedKeys(runs) {
      var entries := Strings.Split(run.order.value, ',');
      var entry :| entry in entries && Keeps(entry, run.read, "", STARTED, k);
      ReadAsStarted(c, SplitPrKey(entry).value);
    }
  }

  /** A key that is found in some state is that of a run in the cluster. */
  lemma NamedIsInCluster(c: C.Cluster, runs: seq<ListedRun>, status: string, state: string, k: string)
    requires ReadsCluster(c, runs) && SomeNames(runs, status, state, k)
    ensures k in c.runs
  {
    var run :| run in runs && Names(run, status, state, k);
    var entry :| entry in Strings.Split(run.order.value, ',') && Keeps(entry, run.read, status, state, k);
    assert run.read(SplitPrKey(entry).value) == ReadFromCluster(c, k);
  }

  /** The world after the restart. Whatever the manager and its workers held is gone. */
  ghost function Restarted<Id>(
    c: C.Cluster, uids: map<string, string>, s: Repo<Id>, n: nat, started: seq<ListedRun>, queued: seq<ListedRun>)
    : World<Id>
  {
    var (first, second, _) := Plan(Ok(started), Ok(queued));
    World(c, System(Rebuild(s, n, first, second), map[]), uids)
  }

  lemma RestartedManager<Id>(
    c: C.Cluster, uids: map<string, string>, s: Repo<Id>, n: nat, started: seq<ListedRun>, queued: seq<ListedRun>)
    requires ClusterOk(c, uids) && n > 0 && Plan(Ok(started), Ok(queued)).2.None?
    requires ReadsCluster(c, started) && ReadsCluster(c, queued)
    ensures ManagerOk(Restarted(c, uids, s, n, started, queued), n)
  {
    var (first, second, _) := Plan(Ok(started), Ok(queued));
    var t := Rebuild(s, n, first, second);
    RebuildKeys(s, n, first, second);
    RebuildForgets(s, n, first, second);
    RebuildBounded(s, n, first, second);
    forall k | Queued(t, k) ensures k in uids {
      RestoredExactly(s, n, started, queued, k);
      if SomeNames(started, "", STARTED, k) {
        NamedIsInCluster(c, started, "", STARTED, k);
      } else {
        NamedIsInCluster(c, queued, PENDING, QUEUED, k);
      }
    }
  }

  /** Which runs are hot when nothing is under way. */
  lemma QuietIsActive(c: C.Cluster, k: string)
    requires Quiet(c)
    ensures Hot(c, k) <==> k in Active(c)
  {
  }

  /** A rebuild re-establishes the invariant of the start protocol if and only if it sets
      every active run running. */
  lemma SafeIffActiveRun<Id>(
    c: C.Cluster, uids: map<string, string>, s: Repo<Id>, n: nat, started: seq<ListedRun>, queued: seq<ListedRun>)
    requires ClusterOk(c, uids) && n > 0 && Plan(Ok(started), Ok(queued)).2.None? && Quiet(c)
    requires ReadsCluster(c, started) && ReadsCluster(c, queued)
    ensures var w := Restarted(c, uids, s, n, started, queued);
      Safe(w, n) <==> Active(c) <= RunningIn(w.manager.repo)
  {
    RestartedManager(c, uids, s, n, started, queued);
    forall k ensures Hot(c, k) <==> k in Active(c) {
      QuietIsActive(c, k);
    }
  }

  /** A restart is safe. When nothing is under way and the runs that are annotated as started
      fit the limit, the rebuilt queue holds exactly their slots, and the start protocol's
      invariant holds again. */
  lemma RestartIsSafe<Id>(
    c: C.Cluster, uids: map<string, string>, s: Repo<Id>, n: nat, started: seq<ListedRun>, queued: seq<ListedRun>)
    requires ClusterOk(c, uids) && n > 0 && Plan(Ok(started), Ok(queued)).2.None? && Quiet(c)
    requires ReadsCluster(c, started) && ReadsCluster(c, queued) && ListsStarted(c, started)
    requires |StartedKeys(c)| <= n
    ensures var w := Restarted(c, uids, s, n, started, queued);
      Safe(w, n) && RunningIn(w.manager.repo) == StartedKeys(c)
  {
    ListsAreExact(c, started);
    StartedAreRunning(s, n, started, queued);
    SafeIffActiveRun(c, uids, s, n, started, queued);
  }

  /** If no started run has finished, the restart is safe if and only if the active runs fit
      the limit. A finished run that is still annotated as started may take the place of an
      active one. */
  lemma SafeIffActiveFit<Id>(
    c: C.Cluster, uids: map<string, string>, s: Repo<Id>, n: nat, started: seq<ListedRun>, queued: seq<ListedRun>)
    requires ClusterOk(c, uids) && n > 0 && Plan(Ok(started), Ok(queued)).2.None? && Quiet(c)
    requires ReadsCluster(c, started) && ReadsCluster(c, queued) && ListsStarted(c, started)
    requires StartedKeys(c) == Active(c)
    ensures Safe(Restarted(c, uids, s, n, started, queued), n) <==> |Active(c)| <= n
  {
    if |Active(c)| <= n {
      RestartIsSafe(c, uids, s, n, started, queued);
    } else if Safe(Restarted(c, uids, s, n, started, queued), n) {
      SafeWithinLimit(Restarted(c, uids, s, n, started, queued), n);
    }
  }

  /** It is not enough that the active runs fit the limit. When the runs that were created
      first fill it, each of them named by its own order and found as started, finished or
      not, an active run that was created later is left without a slot. */
  lemma FinishedRunsMayFill<Id>(
    c: C.Cluster, uids: map<string, string>, s: Repo<Id>, n: nat, a: seq<ListedRun>, b: seq<ListedRun>,
    queued: seq<ListedRun>, k: string)
    requires n > 0 && Plan(Ok(a + b), Ok(queued)).2.None?
    requires ListsExactly(a, "", STARTED) && |ListedKeys(a)| == n && k in Active(c) && k !in ListedKeys(a)
    ensures !Safe(Restarted(c, uids, s, n, a + b, queued), n)
  {
    FirstCreatedRun(s, n, a, b, queued);
    assert Hot(c, k);
  }

  /** And the limit holds in the cluster from there on, whatever happens. */
  lemma LimitAfterRestart<Id>(
    c: C.Cluster, uids: map<string, string>, s: Repo<Id>, n: nat, started: seq<ListedRun>, queued: seq<ListedRun>,
    moves: seq<Move<Id>>)
    requires ClusterOk(c, uids) && n > 0 && Plan(Ok(started), Ok(queued)).2.None? && Quiet(c)
    requires ReadsCluster(c, started) && ReadsCluster(c, queued) && ListsStarted(c, started)
    requires |StartedKeys(c)| <= n && History(Restarted(c, uids, s, n, started, queued), moves, n)
    ensures var w := Final(Restarted(c, uids, s, n, started, queued), moves, n);
      |Active(w.cluster)| <= n && Active(w.cluster) <= RunningIn(w.manager.repo)
  {
    RestartIsSafe(c, uids, s, n, started, queued);
    HistoryIsSafe(Restarted(c, uids, s, n, started, queued), moves, n);
    SafeWithinLimit(Final(Restarted(c, uids, s, n, started, queued), moves, n), n);
  }
}
