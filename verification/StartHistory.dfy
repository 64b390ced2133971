/** A start as the loop performs it is a history of the start protocol: a read with the patch
    that may follow it, whatever others do meanwhile, and the answer or the read-back. */
module StartHistories {
  import opened Wrappers
  import opened Admissions
  import opened AdmissionRuns
  import opened AdmissionSystem
  import opened AdmissionProperties
  import opened StartProtocol
  import S = Starts
  import C = Clusters

  // ---------- histories in a row ----------

  lemma {:induction false} HistoriesInARow<Id>(w: World<Id>, a: seq<Move<Id>>, b: seq<Move<Id>>, n: nat)
    requires History(w, a, n) && History(Final(w, a, n), b, n)
    ensures History(w, a + b, n) && Final(w, a + b, n) == Final(Final(w, a, n), b, n)
    decreases |a|
  {
    if a == [] {
      assert a + b == b;
    } else {
      assert (a + b)[0] == a[0] && (a + b)[1..] == a[1..] + b;
      HistoriesInARow(Moved(w, a[0], n), a[1..], b, n);
    }
  }

  lemma OneMove<Id>(w: World<Id>, m: Move<Id>, n: nat)
    requires Allowed(w, m, n)
    ensures History(w, [m], n) && Final(w, [m], n) == Moved(w, m, n)
  {
    assert [m][1..] == [];
    assert History(Moved(w, m, n), [], n) && Final(Moved(w, m, n), [], n) == Moved(w, m, n);
  }

  // ---------- what others leave alone ----------

  /** The move is not this worker's: it neither changes the candidate nor records the lease. */
  ghost predicate Others<Id>(m: Move<Id>, id: Id, i: nat) {
    match m
    case Manage(e) => e != Finish(id)
    case Try(other, j) => other != id || j != i
    case Answer(other, j, _) => other != id || j != i
    case _ => true
  }

  ghost predicate AllOthers<Id>(moves: seq<Move<Id>>, id: Id, i: nat) {
    moves == [] || (Others(moves[0], id, i) && AllOthers(moves[1..], id, i))
  }

  ghost predicate HoldsAt<Id>(w: World<Id>, id: Id, i: nat, c: Candidate) {
    id in w.manager.leases && i < |w.manager.leases[id]| && w.manager.leases[id][i] == c
  }

  lemma OthersLeaveCandidate<Id>(w: World<Id>, m: Move<Id>, n: nat, id: Id, i: nat, c: Candidate)
    requires Safe(w, n) && Allowed(w, m, n) && Others(m, id, i) && HoldsAt(w, id, i, c)
    ensures HoldsAt(Moved(w, m, n), id, i, c)
  {
    if m.Manage? && m.event.Acquire? {
      var e := m.event;
      AcquireIsNotLeased(w.manager, e, id);
    }
  }

  /** An admission never gives out a lease that is still held. */
  lemma AcquireIsNotLeased<Id>(y: System<Id>, e: Event<Id>, id: Id)
    requires Sound(y) && e.Acquire? && Enabled(y, e) && id in y.leases
    ensures id in Next(y, e).leases && Next(y, e).leases[id] == y.leases[id]
  {
    AcquireReplies(y.repo, e.limit, e.owner, e.list, e.clock, e.mode, e.newId);
    if Actor(y.repo, e.owner, e.newId) in y.leases {
      ActorNotLeased(y, e);
    }
  }

  lemma {:induction false} OthersLeaveCandidateInRuns<Id>(
    w: World<Id>, moves: seq<Move<Id>>, n: nat, id: Id, i: nat, c: Candidate)
    requires Safe(w, n) && n > 0 && History(w, moves, n) && AllOthers(moves, id, i) && HoldsAt(w, id, i, c)
    ensures HoldsAt(Final(w, moves, n), id, i, c)
    decreases |moves|
  {
    if moves != [] {
      MoveKeepsSafe(w, moves[0], n);
      OthersLeaveCandidate(w, moves[0], n, id, i, c);
      OthersLeaveCandidateInRuns(Moved(w, moves[0], n), moves[1..], n, id, i, c);
    }
  }

  // ---------- a start as a history ----------

  /** The first read is answered from the cluster as it is when the start begins; a key that
      does not parse names no run. */
  ghost predicate ReadsFirst(a: S.Answers, c: C.Cluster, key: string) {
    && (!a.cancelled && !a.parses ==> key !in c.runs)
    && (a.first.Answered? ==> a.first.found == Lookup(c, key))
  }

  /** Nothing was read. */
  predicate Untouched(a: S.Answers) {
    a.cancelled || (a.parses && a.first.ReadFailed?)
  }

  /** A patch was sent, and its answer or the read-back is known. */
  predicate IsAnswered(a: S.Answers, c: Candidate) {
    S.FoundStartable(a, c) && (a.applied || a.second.Answered?)
  }

  ghost function StartMoves<Id>(a: S.Answers, c: Candidate, id: Id, i: nat, between: seq<Move<Id>>): seq<Move<Id>> {
    if Untouched(a) then []
    else if IsAnswered(a, c) then [Try(id, i)] + between + [Answer(id, i, a.applied)]
    else [Try(id, i)]
  }

  /** What others do between the patch and its answer, and that the read-back is answered from
      the cluster as it is then. */
  ghost predicate GoesOn<Id>(w: World<Id>, n: nat, a: S.Answers, key: string, id: Id, i: nat, between: seq<Move<Id>>) {
    && Allowed(w, Try(id, i), n) && History(Moved(w, Try(id, i), n), between, n) && AllOthers(between, id, i)
    && (!a.applied && a.second.Answered? ==>
          a.second.found == Lookup(Final(Moved(w, Try(id, i), n), between, n).cluster, key))
  }

  lemma TriedCandidate<Id>(w: World<Id>, n: nat, a: S.Answers, id: Id, i: nat, c: Candidate)
    requires HoldsAt(w, id, i, c) && c.outcome.Retry? && ReadsFirst(a, w.cluster, c.key) && !Untouched(a)
    requires Allowed(w, Try(id, i), n)
    ensures var d := S.TryStart(Lookup(w.cluster, c.key), c).0;
      && HoldsAt(Moved(w, Try(id, i), n), id, i, d) && d.key == c.key
      && (!IsAnswered(a, c) ==> d == S.StartCandidate(a, c).0)
      && (IsAnswered(a, c) ==> d.attempted && forall read: Option<C.PipelineRun> ::
            (!a.applied ==> read == a.second.found) ==> S.AnswerStart(a.applied, read, d) == S.StartCandidate(a, c).0)
  {
  }

  /** Every start that the loop performs is a history of the protocol's moves, whatever others
      do meanwhile; so the limit in the cluster holds with the function that the loop runs. */
  lemma StartIsHistory<Id>(
    w: World<Id>, n: nat, a: S.Answers, id: Id, i: nat, c: Candidate, between: seq<Move<Id>>)
    requires Safe(w, n) && n > 0 && HoldsAt(w, id, i, c) && c.outcome.Retry?
    requires ReadsFirst(a, w.cluster, c.key)
    requires IsAnswered(a, c) ==> GoesOn(w, n, a, c.key, id, i, between)
    ensures History(w, StartMoves(a, c, id, i, between), n)
    ensures HoldsAt(Final(w, StartMoves(a, c, id, i, between), n), id, i, S.StartCandidate(a, c).0)
  {
    if !Untouched(a) {
      var try: Move<Id> := Try(id, i);
      var w1 := Moved(w, try, n);
      OneMove(w, try, n);
      TriedCandidate(w, n, a, id, i, c);
      if IsAnswered(a, c) {
        var d := S.TryStart(Lookup(w.cluster, c.key), c).0;
        var w2 := Final(w1, between, n);
        var answer: Move<Id> := Answer(id, i, a.applied);
        MoveKeepsSafe(w, try, n);
        OthersLeaveCandidateInRuns(w1, between, n, id, i, d);
        OneMove(w2, answer, n);
        HistoriesInARow(w, [try], between, n);
        HistoriesInARow(w, [try] + between, [answer], n);
      }
    }
  }

  /** So a start keeps the invariant of the protocol, and at most n runs are active after it. */
  lemma StartKeepsLimit<Id>(
    w: World<Id>, n: nat, a: S.Answers, id: Id, i: nat, c: Candidate, between: seq<Move<Id>>)
    requires Safe(w, n) && n > 0 && HoldsAt(w, id, i, c) && c.outcome.Retry?
    requires ReadsFirst(a, w.cluster, c.key)
    requires IsAnswered(a, c) ==> GoesOn(w, n, a, c.key, id, i, between)
    ensures History(w, StartMoves(a, c, id, i, between), n)
    ensures var z := Final(w, StartMoves(a, c, id, i, between), n);
      && Safe(z, n) && |Active(z.cluster)| <= n && Active(z.cluster) <= RunningIn(z.manager.repo)
      && HoldsAt(z, id, i, S.StartCandidate(a, c).0)
  {
    StartIsHistory(w, n, a, id, i, c, between);
    HistoryIsSafe(w, StartMoves(a, c, id, i, between), n);
    SafeWithinLimit(Final(w, StartMoves(a, c, id, i, between), n), n);
  }
}
