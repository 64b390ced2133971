/** PipelineRuns in the cluster and the conditional patches that start them. A patch
    may be lost, delayed or delivered more than once; the resource version and the UID
    it carries are the only protection. */
module Clusters {

  /** spec.status: pending, empty, or one of the three values that ask a run to stop. */
  datatype SpecStatus = Pending | Cleared | Stopping

  /** The state annotation. */
  datatype PacState = Queued | Started | Completed | Failed

  datatype PipelineRun = PipelineRun(
    uid: string, version: nat, status: SpecStatus, state: PacState, reported: bool, done: bool, deleting: bool)

  predicate Finishing(r: PipelineRun) {
    r.deleting || r.done || r.status.Stopping?
  }

  predicate NoLongerStartable(r: PipelineRun) {
    Finishing(r) || r.state.Completed? || r.state.Failed?
  }

  predicate StartConfirmed(r: PipelineRun) {
    !r.status.Pending? && r.state.Started? && r.reported
  }

  /** The patch that starts `key`, built from the version `seen`. */
  datatype Patch = Patch(key: string, seen: PipelineRun)

  datatype Cluster = Cluster(runs: map<string, PipelineRun>, revision: nat, sent: set<Patch>)

  /** The precondition the API server checks. */
  predicate Commits(c: Cluster, p: Patch) {
    p.key in c.runs && c.runs[p.key].uid == p.seen.uid && c.runs[p.key].version == p.seen.version
  }

  /** What the merge patch makes of a run: spec.status is part of it only if the run was
      read as pending. */
  function Patched(r: PipelineRun, p: Patch, version: nat): PipelineRun {
    r.(version := version, state := Started, reported := true,
       status := if p.seen.status.Pending? then Cleared else r.status)
  }

  datatype Change =
    | Write(key: string, run: PipelineRun)
    | Delete(key: string)
    | Send(key: string)
    | Deliver(patch: Patch)

  /** Anybody may create, change or delete a PipelineRun. A start patch is only built
      from a version that is still startable, and it stays in flight for ever. */
  function Step(c: Cluster, e: Change): Cluster {
    match e
    case Write(key, run) =>
      c.(runs := c.runs[key := run.(version := c.revision)], revision := c.revision + 1)
    case Delete(key) => c.(runs := c.runs - {key})
    case Send(key) =>
      if key in c.runs && !NoLongerStartable(c.runs[key]) then c.(sent := c.sent + {Patch(key, c.runs[key])}) else c
    case Deliver(p) =>
      if p in c.sent && Commits(c, p)
      then c.(runs := c.runs[p.key := Patched(c.runs[p.key], p, c.revision)], revision := c.revision + 1)
      else c
  }

  function Steps(c: Cluster, events: seq<Change>): Cluster
    decreases |events|
  {
    if events == [] then c else Steps(Step(c, events[0]), events[1..])
  }

  const EMPTY := Cluster(map[], 0, {})

  /** A version identifies one content, and every patch was built from a startable one. */
  ghost predicate Fenced(c: Cluster) {
    && (forall k :: k in c.runs ==> c.runs[k].version < c.revision)
    && (forall p :: p in c.sent ==>
          && p.seen.version < c.revision && !NoLongerStartable(p.seen)
          && (p.key in c.runs && c.runs[p.key].version == p.seen.version ==> c.runs[p.key] == p.seen))
  }

  lemma StepKeepsFenced(c: Cluster, e: Change)
    requires Fenced(c)
    ensures Fenced(Step(c, e))
  {
  }

  lemma {:induction false} StepsKeepFenced(c: Cluster, events: seq<Change>)
    requires Fenced(c)
    ensures Fenced(Steps(c, events))
    decreases |events|
  {
    if events != [] {
      StepKeepsFenced(c, events[0]);
      StepsKeepFenced(Step(c, events[0]), events[1..]);
    }
  }

  /** Whenever it is delivered, a start patch commits if and only if the object is
      exactly the version that was found startable: neither stopping, done or deleted, nor
      reported as ended. The commit starts it, clears what was pending, and changes nothing
      else of it. */
  lemma FencedStart(events: seq<Change>, p: Patch)
    requires p in Steps(EMPTY, events).sent
    ensures var c := Steps(EMPTY, events);
      && !p.seen.deleting && !p.seen.done && !p.seen.status.Stopping?
      && !p.seen.state.Completed? && !p.seen.state.Failed?
      && (Commits(c, p) <==> p.key in c.runs && c.runs[p.key] == p.seen)
      && (Commits(c, p) ==>
            var r := Step(c, Deliver(p)).runs[p.key];
            StartConfirmed(r) && r == PipelineRun(p.seen.uid, c.revision, Cleared, Started, true, false, false))
      && (!Commits(c, p) ==> Step(c, Deliver(p)) == c)
  {
    StepsKeepFenced(EMPTY, events);
  }

  lemma StaleStep(c: Cluster, e: Change, p: Patch)
    requires Fenced(c) && p.seen.version < c.revision && !Commits(c, p)
    ensures !Commits(Step(c, e), p) && p.seen.version < Step(c, e).revision
  {
  }

  /** A patch that cannot commit now never will: cancelling, finishing, deleting or
      replacing the run shuts it out for good. */
  lemma {:induction false} StaleForever(c: Cluster, events: seq<Change>, p: Patch)
    requires Fenced(c) && p.seen.version < c.revision && !Commits(c, p)
    ensures !Commits(Steps(c, events), p)
    decreases |events|
  {
    if events != [] {
      StepKeepsFenced(c, events[0]);
      StaleStep(c, events[0], p);
      StaleForever(Step(c, events[0]), events[1..], p);
    }
  }

  /** Every change of the run shuts out the patches that were sent before it, and so no
      patch commits twice. */
  lemma ChangeShutsOut(before: seq<Change>, e: Change, later: seq<Change>, p: Patch)
    requires var c := Steps(EMPTY, before);
      && p in c.sent
      && (e == Delete(p.key) || (e.Write? && e.key == p.key) || (e == Deliver(p) && Commits(c, p)))
    ensures !Commits(Steps(Step(Steps(EMPTY, before), e), later), p)
  {
    var c := Steps(EMPTY, before);
    StepsKeepFenced(EMPTY, before);
    StepKeepsFenced(c, e);
    StaleForever(Step(c, e), later, p);
  }

  /** A start that nobody disturbs succeeds: the patch of a startable run commits, and the
      run is confirmed as started. */
  lemma UndisturbedStart(c: Cluster, key: string)
    requires key in c.runs && !NoLongerStartable(c.runs[key])
    ensures
      var p := Patch(key, c.runs[key]);
      var sent := Step(c, Send(key));
      && p in sent.sent && Commits(sent, p)
      && var r := Step(sent, Deliver(p)).runs[key]; StartConfirmed(r) && r.status.Cleared? && !Finishing(r)
  {
  }
}
