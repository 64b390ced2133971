/** The whole start protocol: PipelineRuns in the cluster, start patches that may be
    lost, late or repeated, the queue manager, and workers that hold leases. The limit may
    change at every step, within n; names are not reused, and only a start patch clears
    "pending". */
module StartProtocol {
  import opened Wrappers
  import opened QueueOrder
  import opened Admissions
  import opened AdmissionInvariant
  import opened AdmissionSteps
  import opened AdmissionRuns
  import opened AdmissionSystem
  import opened AdmissionProperties
  import opened AdmissionEffects
  import opened HandOff
  import opened Starts
  import C = Clusters

  /** `uids` remembers every PipelineRun that was ever created. */
  datatype World<Id> = World(cluster: C.Cluster, manager: System<Id>, uids: map<string, string>)

  datatype Move<Id> =
    | Create(key: string, run: C.PipelineRun)
    | Update(key: string, run: C.PipelineRun)
    | Vanish(key: string)
    | Report(key: string)
    | Deliver(patch: C.Patch)
    | Manage(event: Event<Id>)
    | Try(id: Id, i: nat)
    | Answer(id: Id, i: nat, applied: bool)

  function Lookup(c: C.Cluster, key: string): Option<C.PipelineRun> {
    if key in c.runs then Some(c.runs[key]) else None
  }

  // ---------- the transition system ----------

  /** The PipelineRun finishes or is gone; no name is used again, so this is for good. */
  ghost predicate Dead(c: C.Cluster, uids: map<string, string>, k: string) {
    k in uids && (k in c.runs ==> C.Finishing(c.runs[k]))
  }

  /** What others may do to a run: finishing is final, pending is not cleared, and a
      terminal state is only written for a run that finishes. */
  ghost predicate MayBecome(r: C.PipelineRun, r': C.PipelineRun) {
    && r'.uid == r.uid
    && (C.Finishing(r) ==> C.Finishing(r'))
    && (r'.status.Cleared? ==> r.status.Cleared?)
    && (r'.state.Completed? || r'.state.Failed? ==> C.Finishing(r'))
  }

  /** The owner whose key a call takes out of the queue has finished or is gone. */
  ghost predicate OwnersGone<Id>(w: World<Id>, e: Event<Id>) {
    match e
    case Acquire(_, owner, _, _, mode, _) => ReleasesOwner(owner, mode) ==> Dead(w.cluster, w.uids, owner.key)
    case Remove(key) => Dead(w.cluster, w.uids, key)
    case RemoveTaking(key) => Dead(w.cluster, w.uids, key)
    case RemoveAll => false
    case Work(_, _) => false
    case _ => true
  }

  ghost predicate Allowed<Id>(w: World<Id>, m: Move<Id>, n: nat) {
    match m
    case Create(key, run) =>
      key !in w.uids && run.status.Pending? && !C.NoLongerStartable(run)
    case Update(key, run) => key in w.cluster.runs && MayBecome(w.cluster.runs[key], run)
    case Vanish(key) => true
    case Report(key) => key in w.cluster.runs && w.cluster.runs[key].status.Cleared?
    case Deliver(p) => true
    case Manage(e) =>
      Enabled(w.manager, e) && LimitWithin(e, n) && OwnersGone(w, e) && forall k :: k in Listed(e) ==> k in w.uids
    case Try(id, i) => id in w.manager.leases && i < |w.manager.leases[id]|
    case Answer(id, i, _) => id in w.manager.leases && i < |w.manager.leases[id]| && w.manager.leases[id][i].attempted
  }

  function Working<Id(==)>(y: System<Id>, id: Id, i: nat, c: Candidate): System<Id>
    requires id in y.leases && i < |y.leases[id]|
  {
    y.(leases := y.leases[id := y.leases[id][i := c]])
  }

  ghost function Moved<Id>(w: World<Id>, m: Move<Id>, n: nat): World<Id>
    requires Allowed(w, m, n)
  {
    match m
    case Create(key, run) => w.(cluster := C.Step(w.cluster, C.Write(key, run)), uids := w.uids[key := run.uid])
    case Update(key, run) => w.(cluster := C.Step(w.cluster, C.Write(key, run)))
    case Vanish(key) => w.(cluster := C.Step(w.cluster, C.Delete(key)))
    case Report(key) => w.(cluster := C.Step(w.cluster, C.Send(key)))
    case Deliver(p) => w.(cluster := C.Step(w.cluster, C.Deliver(p)))
    case Manage(e) => w.(manager := Next(w.manager, e))
    case Try(id, i) =>
      var c := w.manager.leases[id][i];
      var (d, sends) := TryStart(Lookup(w.cluster, c.key), c);
      World(if sends then C.Step(w.cluster, C.Send(c.key)) else w.cluster, Working(w.manager, id, i, d), w.uids)
    case Answer(id, i, applied) =>
      var c := w.manager.leases[id][i];
      w.(manager := Working(w.manager, id, i, AnswerStart(applied, Lookup(w.cluster, c.key), c)))
  }

  // ---------- the invariant ----------

  /** The run counts against the limit, or a patch in flight can still make it. */
  ghost predicate Hot(c: C.Cluster, k: string) {
    k in c.runs && !C.Finishing(c.runs[k]) && (c.runs[k].status.Cleared? || C.Patch(k, c.runs[k]) in c.sent)
  }

  ghost predicate ClusterOk(c: C.Cluster, uids: map<string, string>) {
    && C.Fenced(c)
    && forall k :: k in c.runs ==>
         && k in uids && uids[k] == c.runs[k].uid
         && (c.runs[k].state.Completed? || c.runs[k].state.Failed? ==> C.Finishing(c.runs[k]))
  }

  /** Every run that is started, or may still be, has its slot. */
  ghost predicate HotRunning<Id>(c: C.Cluster, s: Repo<Id>) {
    forall k :: Hot(c, k) ==> k in RunningIn(s)
  }

  ghost predicate QueueKnown<Id>(s: Repo<Id>, uids: map<string, string>) {
    forall k :: Queued(s, k) ==> k in uids
  }

  /** A leased candidate is claimed unless its run is finished; before the first
      attempt nothing can start it; it is only given up when its run is finished. */
  ghost predicate LeaseFact(c: C.Cluster, uids: map<string, string>, claimed: bool, x: Candidate) {
    && x.key in uids
    && (claimed || Dead(c, uids, x.key))
    && (!x.attempted ==> !Hot(c, x.key))
    && (x.outcome.Gone? ==> Dead(c, uids, x.key))
    && (x.attempted ==> x.uid == uids[x.key])
  }

  ghost predicate LeaseFacts<Id>(w: World<Id>, id: Id)
    requires id in w.manager.leases
  {
    forall x :: x in w.manager.leases[id] ==> LeaseFact(w.cluster, w.uids, Claimed(w.manager.repo, id, x.key), x)
  }

  ghost predicate CandidateKnown(uids: map<string, string>, x: Candidate) {
    x.outcome.Retry? && x.key in uids && (x.attempted ==> x.uid == uids[x.key])
  }

  ghost predicate RecordsKnown<Id>(s: Repo<Id>, uids: map<string, string>) {
    forall id :: id in s.records && IsLive(s, id) ==> forall x :: x in s.records[id].candidates ==> CandidateKnown(uids, x)
  }

  ghost predicate LeasesOk<Id>(w: World<Id>) {
    forall id :: id in w.manager.leases ==> LeaseFacts(w, id)
  }

  ghost predicate ManagerOk<Id>(w: World<Id>, n: nat) {
    && Sound(w.manager) && RepoBounded(w.manager.repo, n)
    && QueueKnown(w.manager.repo, w.uids) && RecordsKnown(w.manager.repo, w.uids)
  }

  ghost predicate Safe<Id>(w: World<Id>, n: nat) {
    ClusterOk(w.cluster, w.uids) && HotRunning(w.cluster, w.manager.repo) && ManagerOk(w, n) && LeasesOk(w)
  }

  // ---------- moves in the cluster ----------

  /** Nothing gets hot and nothing dead comes back. */
  ghost predicate Calm(c: C.Cluster, uids: map<string, string>, c': C.Cluster, uids': map<string, string>) {
    && ClusterOk(c', uids')
    && (forall k :: k in uids ==> k in uids' && uids'[k] == uids[k])
    && (forall k :: Hot(c', k) ==> Hot(c, k))
    && (forall k :: Dead(c, uids, k) ==> Dead(c', uids', k))
  }

  lemma CalmLease<Id>(w: World<Id>, c': C.Cluster, uids': map<string, string>, id: Id)
    requires id in w.manager.leases && LeaseFacts(w, id) && Calm(w.cluster, w.uids, c', uids')
    ensures LeaseFacts(World(c', w.manager, uids'), id)
  {
  }

  lemma CalmKeepsSafe<Id>(w: World<Id>, c': C.Cluster, uids': map<string, string>, n: nat)
    requires Safe(w, n) && Calm(w.cluster, w.uids, c', uids')
    ensures Safe(World(c', w.manager, uids'), n)
  {
    forall id | id in w.manager.leases ensures LeaseFacts(World(c', w.manager, uids'), id) {
      CalmLease(w, c', uids', id);
    }
  }

  lemma CreateIsCalm(c: C.Cluster, uids: map<string, string>, key: string, run: C.PipelineRun)
    requires ClusterOk(c, uids) && key !in uids && run.status.Pending? && !C.NoLongerStartable(run)
    ensures Calm(c, uids, C.Step(c, C.Write(key, run)), uids[key := run.uid])
  {
    C.StepKeepsFenced(c, C.Write(key, run));
  }

  lemma UpdateIsCalm(c: C.Cluster, uids: map<string, string>, key: string, run: C.PipelineRun)
    requires ClusterOk(c, uids) && key in c.runs && MayBecome(c.runs[key], run)
    ensures Calm(c, uids, C.Step(c, C.Write(key, run)), uids)
  {
    C.StepKeepsFenced(c, C.Write(key, run));
  }

  lemma VanishIsCalm(c: C.Cluster, uids: map<string, string>, key: string)
    requires ClusterOk(c, uids)
    ensures Calm(c, uids, C.Step(c, C.Delete(key)), uids)
  {
    C.StepKeepsFenced(c, C.Delete(key));
  }

  lemma ReportIsCalm(c: C.Cluster, uids: map<string, string>, key: string)
    requires ClusterOk(c, uids) && key in c.runs && c.runs[key].status.Cleared?
    ensures Calm(c, uids, C.Step(c, C.Send(key)), uids)
  {
    C.StepKeepsFenced(c, C.Send(key));
  }

  lemma DeliverIsCalm(c: C.Cluster, uids: map<string, string>, p: C.Patch)
    requires ClusterOk(c, uids)
    ensures Calm(c, uids, C.Step(c, C.Deliver(p)), uids)
  {
    C.StepKeepsFenced(c, C.Deliver(p));
  }

  lemma ClusterMoveIsCalm<Id>(w: World<Id>, m: Move<Id>, n: nat)
    requires ClusterOk(w.cluster, w.uids) && Allowed(w, m, n)
    requires m.Create? || m.Update? || m.Vanish? || m.Report? || m.Deliver?
    ensures Moved(w, m, n).manager == w.manager
    ensures Calm(w.cluster, w.uids, Moved(w, m, n).cluster, Moved(w, m, n).uids)
  {
    match m
    case Create(key, run) => CreateIsCalm(w.cluster, w.uids, key, run);
    case Update(key, run) => UpdateIsCalm(w.cluster, w.uids, key, run);
    case Vanish(key) => VanishIsCalm(w.cluster, w.uids, key);
    case Report(key) => ReportIsCalm(w.cluster, w.uids, key);
    case Deliver(p) => DeliverIsCalm(w.cluster, w.uids, p);
  }

  // ---------- moves of workers ----------

  lemma ClaimedLeaseRuns<Id>(y: System<Id>, id: Id, x: Candidate)
    requires Sound(y) && id in y.leases && x in y.leases[id] && Claimed(y.repo, id, x.key)
    ensures x.key in RunningIn(y.repo)
  {
    assert ClaimOk(y.repo, x.key);
    assert LeaseSound(y.repo, id, y.leases[id]);
    LiveRecord(y.repo, id);
    var c :| c in y.repo.records[id].candidates && c.key == x.key;
    assert c.key in CandidateKeys(y.leases[id]);
    assert Placed(y.repo.queue.value, c);
  }

  lemma WorkingKeepsSound<Id>(y: System<Id>, id: Id, i: nat, c: Candidate)
    requires Sound(y) && id in y.leases && i < |y.leases[id]|
    requires var b := y.leases[id][i];
      c == b.(uid := c.uid, attempted := c.attempted, outcome := c.outcome) && (b.attempted ==> c.attempted)
    ensures Sound(Working(y, id, i, c))
  {
    var e := Work(id, y.leases[id][i := c]);
    WorkKeepsSound(y, e);
  }

  /** The candidate of a live run belongs to one lease, and to one place in it. */
  lemma OneLease<Id>(w: World<Id>, id: Id, i: nat, other: Id, j: nat, n: nat)
    requires Safe(w, n) && id in w.manager.leases && other in w.manager.leases
    requires i < |w.manager.leases[id]| && j < |w.manager.leases[other]|
    requires w.manager.leases[id][i].key == w.manager.leases[other][j].key
    requires !Dead(w.cluster, w.uids, w.manager.leases[id][i].key)
    ensures id == other && i == j
  {
    assert w.manager.leases[id][i] in w.manager.leases[id] && w.manager.leases[other][j] in w.manager.leases[other];
    assert LeaseFacts(w, id) && LeaseFacts(w, other);
    assert LeaseSound(w.manager.repo, id, w.manager.leases[id]);
    if i < j {
      LeaseKeysDistinct(w.manager.leases[id], i, j);
    } else if j < i {
      LeaseKeysDistinct(w.manager.leases[id], j, i);
    }
  }

  /** What trying a candidate does to the cluster. */
  function Tried(c: C.Cluster, x: Candidate): C.Cluster {
    if TryStart(Lookup(c, x.key), x).1 then C.Step(c, C.Send(x.key)) else c
  }

  /** A patch is only sent for a run that is alive, and only makes that run hot. */
  lemma TryEffect(c: C.Cluster, uids: map<string, string>, x: Candidate)
    requires ClusterOk(c, uids)
    ensures
      var c', sends := Tried(c, x), TryStart(Lookup(c, x.key), x).1;
      && ClusterOk(c', uids) && c'.runs == c.runs
      && (forall k :: Hot(c', k) ==> Hot(c, k) || (sends && k == x.key))
      && (sends ==> !Dead(c, uids, x.key))
  {
    C.StepKeepsFenced(c, C.Send(x.key));
  }

  lemma TriedFact(c: C.Cluster, uids: map<string, string>, claimed: bool, x: Candidate)
    requires ClusterOk(c, uids) && LeaseFact(c, uids, claimed, x)
    ensures LeaseFact(Tried(c, x), uids, claimed, TryStart(Lookup(c, x.key), x).0)
  {
    TryEffect(c, uids, x);
  }

  /** The try of x does not concern another candidate, unless it is of the same live run. */
  lemma UntriedFact(c: C.Cluster, uids: map<string, string>, claimed: bool, x: Candidate, z: Candidate)
    requires ClusterOk(c, uids) && LeaseFact(c, uids, claimed, z)
    requires z.key == x.key ==> Dead(c, uids, x.key)
    ensures LeaseFact(Tried(c, x), uids, claimed, z)
  {
    TryEffect(c, uids, x);
  }

  lemma AnsweredFact(
    c: C.Cluster, uids: map<string, string>, claimed: bool, x: Candidate, applied: bool)
    requires ClusterOk(c, uids) && LeaseFact(c, uids, claimed, x) && x.attempted
    ensures LeaseFact(c, uids, claimed, AnswerStart(applied, Lookup(c, x.key), x))
  {
  }

  /** The fact about one place of one lease. */
  ghost predicate PlaceFact<Id>(w: World<Id>, c': C.Cluster, id: Id, j: nat)
    requires id in w.manager.leases && j < |w.manager.leases[id]|
  {
    var x := w.manager.leases[id][j];
    LeaseFact(c', w.uids, Claimed(w.manager.repo, id, x.key), x)
  }

  lemma LeaseFactAt<Id>(w: World<Id>, id: Id, j: nat)
    requires LeasesOk(w) && id in w.manager.leases && j < |w.manager.leases[id]|
    ensures PlaceFact(w, w.cluster, id, j)
  {
    assert LeaseFacts(w, id) && w.manager.leases[id][j] in w.manager.leases[id];
  }

  /** A worker changes one candidate of one lease, and perhaps the cluster. */
  lemma WorkingKeepsLeases<Id>(w: World<Id>, c': C.Cluster, id: Id, i: nat, d: Candidate)
    requires id in w.manager.leases && i < |w.manager.leases[id]| && d.key == w.manager.leases[id][i].key
    requires LeaseFact(c', w.uids, Claimed(w.manager.repo, id, d.key), d)
    requires forall other, j :: other in w.manager.leases && 0 <= j < |w.manager.leases[other]| && (other != id || j != i) ==>
      PlaceFact(w, c', other, j)
    ensures LeasesOk(World(c', Working(w.manager, id, i, d), w.uids))
  {
    var w' := World(c', Working(w.manager, id, i, d), w.uids);
    forall other, x | other in w'.manager.leases && x in w'.manager.leases[other]
      ensures LeaseFact(c', w.uids, Claimed(w.manager.repo, other, x.key), x)
    {
      var j :| 0 <= j < |w'.manager.leases[other]| && w'.manager.leases[other][j] == x;
      if other != id || j != i {
        assert PlaceFact(w, c', other, j);
      }
    }
  }

  /** The change of a worker keeps what the manager's part says. */
  lemma WorkingKeepsManager<Id>(w: World<Id>, c': C.Cluster, id: Id, i: nat, d: Candidate, n: nat)
    requires ManagerOk(w, n) && id in w.manager.leases && i < |w.manager.leases[id]|
    requires var b := w.manager.leases[id][i];
      d == b.(uid := d.uid, attempted := d.attempted, outcome := d.outcome) && (b.attempted ==> d.attempted)
    ensures ManagerOk(World(c', Working(w.manager, id, i, d), w.uids), n)
  {
    WorkingKeepsSound(w.manager, id, i, d);
  }

  lemma TryHasSlot<Id>(w: World<Id>, id: Id, i: nat, n: nat)
    requires Safe(w, n) && id in w.manager.leases && i < |w.manager.leases[id]|
    ensures HotRunning(Tried(w.cluster, w.manager.leases[id][i]), w.manager.repo)
  {
    var x := w.manager.leases[id][i];
    TryEffect(w.cluster, w.uids, x);
    LeaseFactAt(w, id, i);
    if Claimed(w.manager.repo, id, x.key) {
      ClaimedLeaseRuns(w.manager, id, x);
    }
  }

  lemma TryKeepsPlace<Id>(w: World<Id>, id: Id, i: nat, other: Id, j: nat, n: nat)
    requires Safe(w, n) && id in w.manager.leases && i < |w.manager.leases[id]|
    requires other in w.manager.leases && j < |w.manager.leases[other]| && (other != id || j != i)
    ensures PlaceFact(w, Tried(w.cluster, w.manager.leases[id][i]), other, j)
  {
    var x, z := w.manager.leases[id][i], w.manager.leases[other][j];
    LeaseFactAt(w, other, j);
    if z.key == x.key && !Dead(w.cluster, w.uids, x.key) {
      OneLease(w, id, i, other, j, n);
    }
    UntriedFact(w.cluster, w.uids, Claimed(w.manager.repo, other, z.key), x, z);
  }

  lemma TryKeepsLeases<Id>(w: World<Id>, id: Id, i: nat, n: nat)
    requires Safe(w, n) && id in w.manager.leases && i < |w.manager.leases[id]|
    ensures var x := w.manager.leases[id][i];
      LeasesOk(World(Tried(w.cluster, x), Working(w.manager, id, i, TryStart(Lookup(w.cluster, x.key), x).0), w.uids))
  {
    var x := w.manager.leases[id][i];
    LeaseFactAt(w, id, i);
    TriedFact(w.cluster, w.uids, Claimed(w.manager.repo, id, x.key), x);
    forall other, j | other in w.manager.leases && 0 <= j < |w.manager.leases[other]| && (other != id || j != i)
      ensures PlaceFact(w, Tried(w.cluster, x), other, j)
    {
      TryKeepsPlace(w, id, i, other, j, n);
    }
    WorkingKeepsLeases(w, Tried(w.cluster, x), id, i, TryStart(Lookup(w.cluster, x.key), x).0);
  }

  lemma TryKeepsSafe<Id>(w: World<Id>, m: Move<Id>, n: nat)
    requires Safe(w, n) && Allowed(w, m, n) && m.Try?
    ensures Safe(Moved(w, m, n), n)
  {
    var x := w.manager.leases[m.id][m.i];
    TryEffect(w.cluster, w.uids, x);
    TryHasSlot(w, m.id, m.i, n);
    WorkingKeepsManager(w, Tried(w.cluster, x), m.id, m.i, TryStart(Lookup(w.cluster, x.key), x).0, n);
    TryKeepsLeases(w, m.id, m.i, n);
  }

  lemma AnswerKeepsLeases<Id>(w: World<Id>, id: Id, i: nat, applied: bool)
    requires ClusterOk(w.cluster, w.uids) && LeasesOk(w) && id in w.manager.leases && i < |w.manager.leases[id]|
    requires w.manager.leases[id][i].attempted
    ensures var x := w.manager.leases[id][i];
      LeasesOk(World(w.cluster, Working(w.manager, id, i, AnswerStart(applied, Lookup(w.cluster, x.key), x)), w.uids))
  {
    var x := w.manager.leases[id][i];
    LeaseFactAt(w, id, i);
    AnsweredFact(w.cluster, w.uids, Claimed(w.manager.repo, id, x.key), x, applied);
    forall other, j | other in w.manager.leases && 0 <= j < |w.manager.leases[other]| && (other != id || j != i)
      ensures PlaceFact(w, w.cluster, other, j)
    {
      LeaseFactAt(w, other, j);
    }
    WorkingKeepsLeases(w, w.cluster, id, i, AnswerStart(applied, Lookup(w.cluster, x.key), x));
  }

  lemma AnswerKeepsSafe<Id>(w: World<Id>, m: Move<Id>, n: nat)
    requires Safe(w, n) && Allowed(w, m, n) && m.Answer?
    ensures Safe(Moved(w, m, n), n)
  {
    var x := w.manager.leases[m.id][m.i];
    WorkingKeepsManager(w, w.cluster, m.id, m.i, AnswerStart(m.applied, Lookup(w.cluster, x.key), x), n);
    AnswerKeepsLeases(w, m.id, m.i, m.applied);
  }

  // ---------- moves of the manager ----------

  /** A key only leaves the running set when nothing can start its run any more. */
  lemma OnlyColdKeysLeave<Id>(w: World<Id>, e: Event<Id>, n: nat, k: string)
    requires Safe(w, n) && Allowed(w, Manage(e), n)
    ensures k in RunningKeys(w.manager) && k !in RunningKeys(Next(w.manager, e)) ==> !Hot(w.cluster, k)
  {
    if k in RunningKeys(w.manager) && k !in RunningKeys(Next(w.manager, e)) {
      RunningLeavesOnlyBy(w.manager, e, k);
      if e.Finish? {
        assert LeaseFacts(w, e.id);
      }
    }
  }

  lemma ManageKeepsQueueKnown<Id>(w: World<Id>, e: Event<Id>, n: nat)
    requires Safe(w, n) && Allowed(w, Manage(e), n)
    ensures QueueKnown(Next(w.manager, e).repo, w.uids)
  {
    forall k | Queued(Next(w.manager, e).repo, k) ensures k in w.uids {
      if !Queued(w.manager.repo, k) && k !in Listed(e) {
        QueuedOnlyByLists(w.manager, e, k);
      }
    }
  }

  lemma LiveCandidateKnown<Id>(w: World<Id>, t: Repo<Id>, id: Id, x: Candidate)
    requires Consistent(t) && IsLive(t, id) && QueueKnown(t, w.uids) && x in t.records[id].candidates
    ensures x.key in w.uids
  {
    LiveRecord(t, id);
    assert Placed(t.queue.value, x);
    assert Queued(t, x.key);
  }

  lemma ManageKeepsRecordsKnown<Id>(w: World<Id>, e: Event<Id>, n: nat)
    requires Safe(w, n) && Allowed(w, Manage(e), n)
    ensures RecordsKnown(Next(w.manager, e).repo, w.uids)
  {
    var s, t := w.manager.repo, Next(w.manager, e).repo;
    NextKeepsSound(w.manager, e);
    NextUndisturbed(w.manager, e);
    ManageKeepsQueueKnown(w, e, n);
    forall id, x | id in t.records && IsLive(t, id) && x in t.records[id].candidates ensures CandidateKnown(w.uids, x) {
      LiveCandidateKnown(w, t, id, x);
      if Acting(w.manager, e) == Some(id) {
        ActorCandidateKnown(w, e, n, id, x);
      } else {
        OnlyTheActorIsNew(w.manager, e, id);
        assert Undisturbed(s, t, id);
      }
    }
  }

  lemma OnlyTheActorIsNew<Id>(y: System<Id>, e: Event<Id>, id: Id)
    requires Sound(y) && Enabled(y, e) && id in Next(y, e).repo.records && Acting(y, e) != Some(id)
    ensures id in y.repo.records
  {
    if e.Acquire? {
      AcquireRecords(y, e);
    } else {
      RecordsStay(y, e);
    }
  }

  lemma ActorCandidateKnown<Id>(w: World<Id>, e: Event<Id>, n: nat, id: Id, x: Candidate)
    requires Safe(w, n) && Allowed(w, Manage(e), n) && Acting(w.manager, e) == Some(id)
    requires IsLive(Next(w.manager, e).repo, id) && x in Next(w.manager, e).repo.records[id].candidates
    requires x.key in w.uids
    ensures CandidateKnown(w.uids, x)
  {
    var s := w.manager.repo;
    if e.Acquire? {
      AcquireOrigin(s, e.limit, e.owner, e.list, e.clock, e.mode, e.newId);
      if !IsNew(x) {
        assert Known(CandidatesBefore(s, id), x);
        assert OwnerOk(s, OwnerKey(e.owner));
        assert IsLive(s, id);
      }
    } else {
      assert LeaseSound(s, id, w.manager.leases[id]);
      FinishOrigin(s, id, w.manager.leases[id]);
      assert LeaseFacts(w, id);
    }
  }

  lemma ClaimTakenIsDead<Id>(w: World<Id>, e: Event<Id>, n: nat, id: Id, k: string)
    requires Allowed(w, Manage(e), n) && ClaimTaken(w.manager, e, id, k) && id in Next(w.manager, e).leases
    ensures Dead(w.cluster, w.uids, k)
  {
  }

  /** A lease that was there before the manager's step. */
  lemma OldLeaseFacts<Id>(w: World<Id>, e: Event<Id>, n: nat, id: Id)
    requires Safe(w, n) && Allowed(w, Manage(e), n)
    requires id in w.manager.leases && id in Next(w.manager, e).leases
    requires Next(w.manager, e).leases[id] == w.manager.leases[id]
    ensures LeaseFacts(Moved(w, Manage(e), n), id)
  {
    assert LeaseFacts(w, id);
    forall x | x in w.manager.leases[id]
      ensures Claimed(Next(w.manager, e).repo, id, x.key) || Dead(w.cluster, w.uids, x.key)
    {
      if Claimed(w.manager.repo, id, x.key) {
        ClaimLeavesOnlyBy(w.manager, e, id, x.key);
        if ClaimTaken(w.manager, e, id, x.key) {
          ClaimTakenIsDead(w, e, n, id, x.key);
        }
      }
    }
  }

  /** A lease that an admission just gave. */
  lemma NewLeaseFacts<Id>(w: World<Id>, e: Event<Id>, n: nat)
    requires Safe(w, n) && Allowed(w, Manage(e), n) && e.Acquire?
    requires AcquireAdmission(w.manager.repo, e.limit, e.owner, e.list, e.clock, e.mode, e.newId).1.Leased?
    ensures var id := AcquireAdmission(w.manager.repo, e.limit, e.owner, e.list, e.clock, e.mode, e.newId).1.id;
      id in Next(w.manager, e).leases && LeaseFacts(Moved(w, Manage(e), n), id)
  {
    var s := w.manager.repo;
    var (t, reply) := AcquireAdmission(s, e.limit, e.owner, e.list, e.clock, e.mode, e.newId);
    NextKeepsSound(w.manager, e);
    AcquireLease(s, e.limit, e.owner, e.list, e.clock, e.mode, e.newId);
    AcquireReplies(s, e.limit, e.owner, e.list, e.clock, e.mode, e.newId);
    AcquireSources(s, e.limit, e.owner, e.list, e.clock, e.mode, e.newId);
    ManageKeepsRecordsKnown(w, e, n);
    OwnClaims(t, reply.id);
    ReservedMembers(t.records[reply.id].candidates);
    forall x | x in reply.candidates ensures LeaseFact(w.cluster, w.uids, Claimed(t, reply.id, x.key), x) {
      assert x in t.records[reply.id].candidates && x.key in CandidateKeys(t.records[reply.id].candidates);
      assert CandidateKnown(w.uids, x);
    }
  }

  lemma ManageKeepsLeases<Id>(w: World<Id>, e: Event<Id>, n: nat)
    requires Safe(w, n) && Allowed(w, Manage(e), n)
    ensures LeasesOk(Moved(w, Manage(e), n))
  {
    var w' := Moved(w, Manage(e), n);
    forall id | id in w'.manager.leases ensures LeaseFacts(w', id) {
      if id in w.manager.leases && w'.manager.leases[id] == w.manager.leases[id] {
        OldLeaseFacts(w, e, n, id);
      } else {
        NewLeaseFacts(w, e, n);
      }
    }
  }

  lemma ManageKeepsSafe<Id>(w: World<Id>, e: Event<Id>, n: nat)
    requires Safe(w, n) && Allowed(w, Manage(e), n) && n > 0
    ensures Safe(Moved(w, Manage(e), n), n)
  {
    NextKeepsSound(w.manager, e);
    NextBounded(w.manager, e, n);
    ManageKeepsQueueKnown(w, e, n);
    ManageKeepsRecordsKnown(w, e, n);
    ManageKeepsLeases(w, e, n);
    forall k | Hot(w.cluster, k) ensures k in RunningIn(Next(w.manager, e).repo) {
      OnlyColdKeysLeave(w, e, n, k);
    }
  }

  // ---------- the limit holds in the cluster ----------

  lemma MoveKeepsSafe<Id>(w: World<Id>, m: Move<Id>, n: nat)
    requires Safe(w, n) && Allowed(w, m, n) && n > 0
    ensures Safe(Moved(w, m, n), n)
  {
    if m.Manage? {
      ManageKeepsSafe(w, m.event, n);
    } else if m.Try? {
      TryKeepsSafe(w, m, n);
    } else if m.Answer? {
      AnswerKeepsSafe(w, m, n);
    } else {
      ClusterMoveIsCalm(w, m, n);
      CalmKeepsSafe(w, Moved(w, m, n).cluster, Moved(w, m, n).uids, n);
    }
  }

  ghost predicate History<Id>(w: World<Id>, moves: seq<Move<Id>>, n: nat)
    decreases |moves|
  {
    moves == [] || (Allowed(w, moves[0], n) && History(Moved(w, moves[0], n), moves[1..], n))
  }

  ghost function Final<Id>(w: World<Id>, moves: seq<Move<Id>>, n: nat): World<Id>
    requires History(w, moves, n)
    decreases |moves|
  {
    if moves == [] then w else Final(Moved(w, moves[0], n), moves[1..], n)
  }

  ghost function Begin<Id>(): World<Id> {
    World(C.EMPTY, Start(), map[])
  }

  lemma {:induction false} HistoryIsSafe<Id>(w: World<Id>, moves: seq<Move<Id>>, n: nat)
    requires Safe(w, n) && History(w, moves, n) && n > 0
    ensures Safe(Final(w, moves, n), n)
    decreases |moves|
  {
    if moves != [] {
      MoveKeepsSafe(w, moves[0], n);
      HistoryIsSafe(Moved(w, moves[0], n), moves[1..], n);
    }
  }

  lemma BeginIsSafe<Id>(n: nat)
    ensures Safe(Begin<Id>(), n)
  {
  }

  /** The runs that count against the limit: started, and not finished or stopping. */
  ghost function Active(c: C.Cluster): set<string> {
    set k | k in c.runs && c.runs[k].status.Cleared? && !C.Finishing(c.runs[k])
  }

  lemma SafeWithinLimit<Id>(w: World<Id>, n: nat)
    requires Safe(w, n)
    ensures |Active(w.cluster)| <= n && Active(w.cluster) <= RunningIn(w.manager.repo)
  {
    assert forall k :: k in Active(w.cluster) ==> Hot(w.cluster, k);
    if w.manager.repo.queue.Some? {
      SubsetSize(Active(w.cluster), RunningIn(w.manager.repo));
      assert |w.manager.repo.queue.value.running.Keys| == |w.manager.repo.queue.value.running|;
    } else {
      assert Active(w.cluster) == {};
    }
  }

  /** While the limit stays positive and within n, however it changes: in every reachable
      state, over every interleaving of creation, cancellation, completion, deletion,
      admissions, finished admissions, start patches that are lost, late or repeated, at
      most n runs are started and not yet finishing; and each of them, and each run that a
      patch in flight could still start, has its slot. */
  lemma ClusterLimit<Id>(moves: seq<Move<Id>>, n: nat)
    requires History(Begin<Id>(), moves, n) && n > 0
    ensures var w := Final(Begin<Id>(), moves, n);
      && |Active(w.cluster)| <= n
      && (forall k :: k in Active(w.cluster) ==> k in RunningIn(w.manager.repo))
      && (forall p :: p in w.cluster.sent && C.Commits(w.cluster, p) ==> p.key in RunningIn(w.manager.repo))
  {
    BeginIsSafe<Id>(n);
    HistoryIsSafe(Begin<Id>(), moves, n);
    var w := Final(Begin<Id>(), moves, n);
    SafeWithinLimit(w, n);
    assert forall p :: p in w.cluster.sent && C.Commits(w.cluster, p) ==> Hot(w.cluster, p.key);
  }

  lemma StartableIsTried<Id>(w: World<Id>, id: Id, i: nat, n: nat)
    requires Safe(w, n) && Allowed(w, Try(id, i), n)
    requires w.manager.leases[id][i].key in w.cluster.runs
    requires !C.NoLongerStartable(w.cluster.runs[w.manager.leases[id][i].key])
    ensures Moved(w, Try(id, i), n).cluster == C.Step(w.cluster, C.Send(w.manager.leases[id][i].key))
  {
    assert w.manager.leases[id][i] in w.manager.leases[id] && LeaseFacts(w, id);
  }

  /** The move that delivers the patch built from what is now in the cluster. */
  ghost function DeliverNow<Id>(c: C.Cluster, key: string): Move<Id>
    requires key in c.runs
  {
    Move<Id>.Deliver(C.Patch(key, c.runs[key]))
  }

  lemma SentPatchActivates(c: C.Cluster, key: string)
    requires key in c.runs && !C.NoLongerStartable(c.runs[key])
    ensures var c' := C.Step(C.Step(c, C.Send(key)), C.Deliver(C.Patch(key, c.runs[key])));
      key in Active(c') && C.StartConfirmed(c'.runs[key])
  {
    C.UndisturbedStart(c, key);
  }

  /** A start that nobody disturbs takes effect, within the limit: trying a leased candidate
      whose run can be started sends its patch, and delivering the patch makes the run one
      of at most n active ones, each with its slot. */
  lemma TriedRunStarts<Id>(w: World<Id>, id: Id, i: nat, n: nat)
    requires Safe(w, n) && n > 0 && Allowed(w, Try(id, i), n)
    requires w.manager.leases[id][i].key in w.cluster.runs
    requires var r := w.cluster.runs[w.manager.leases[id][i].key];
      && !r.deleting && !r.done && !r.status.Stopping? && !r.state.Completed? && !r.state.Failed?
    ensures
      var key := w.manager.leases[id][i].key;
      var w2 := Moved(Moved(w, Try(id, i), n), DeliverNow(w.cluster, key), n);
      && key in Active(w2.cluster) && C.StartConfirmed(w2.cluster.runs[key])
      && Active(w2.cluster) <= RunningIn(w2.manager.repo) && |Active(w2.cluster)| <= n
  {
    var key := w.manager.leases[id][i].key;
    var w1 := Moved(w, Try(id, i), n);
    StartableIsTried(w, id, i, n);
    SentPatchActivates(w.cluster, key);
    MoveKeepsSafe(w, Try(id, i), n);
    MoveKeepsSafe(w1, DeliverNow(w.cluster, key), n);
    SafeWithinLimit(Moved(w1, DeliverNow(w.cluster, key), n), n);
  }
}
