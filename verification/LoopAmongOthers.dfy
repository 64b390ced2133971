/** The admission loop among other workers. Between a round's AcquireAdmission and its
    FinishAdmission, and between two rounds, any other admissions, results, additions and
    removals may happen. A round that goes on has lost all its candidates: each was gone. */
module LoopAmongOthers {
  import opened QueueOrder
  import opened Admissions
  import opened AdmissionInvariant
  import opened AdmissionSteps
  import opened AdmissionRuns
  import opened AdmissionSystem
  import opened AdmissionProperties
  import opened AdmissionEffects
  import opened HandOff
  import opened AdmissionPasses

  // ---------- a lost claim ----------

  lemma EnterLosesClaim<Id>(
    s: Repo<Id>, id: Id, owner: Owner, list: seq<string>, clock: seq<int>, mode: Mode, other: Id, k: string)
    requires Consistent(s) && s.queue.Some? && IsLive(s, id) && !s.records[id].busy
    requires "" !in list && |list| <= |clock| && k !in list && Claimed(s, other, k)
    ensures var t := Enter(s, id, owner, list, clock, mode).0; Claimed(t, other, k) || !Queued(t, k)
  {
    LiveRecord(s, id);
    EnterOrigin(s, id, owner, list, clock, mode);
    if s.records[id].promotion == mode.Promotion? && mode.Resume? && owner.finishing && k == owner.key {
      EnterStaysIn(s, id, owner, list, clock, mode, k);
    }
  }

  lemma AcquireLosesClaim<Id>(y: System<Id>, e: Event<Id>, other: Id, k: string)
    requires Sound(y) && e.Acquire? && Enabled(y, e) && k !in e.list && Claimed(y.repo, other, k)
    ensures Claimed(Next(y, e).repo, other, k) || !Queued(Next(y, e).repo, k)
  {
    var s := y.repo;
    var o := OwnerKey(e.owner);
    AcquireForm(s, e.limit, e.owner, e.list, e.clock, e.mode, e.newId);
    OpenQueueKeeps(s, e.limit);
    if o in s.admissions {
      assert OwnerOk(s, o);
      if !s.records[s.admissions[o]].busy {
        EnterLosesClaim(OpenQueue(s, e.limit), s.admissions[o], e.owner, e.list, e.clock, e.mode, other, k);
      }
    } else {
      NewOwnerLosesClaim(s, e, other, k);
    }
  }

  lemma NewOwnerLosesClaim<Id>(s: Repo<Id>, e: Event<Id>, other: Id, k: string)
    requires Consistent(s) && e.Acquire? && Enabled(System(s, map[]), e) && k !in e.list && Claimed(s, other, k)
    requires OwnerKey(e.owner) !in s.admissions
    ensures var v := Registered(s, e.limit, e.owner, e.mode, e.newId);
      && v.queue.Some? && e.newId in v.records
      && var t := Enter(v, e.newId, e.owner, e.list, e.clock, e.mode).0; Claimed(t, other, k) || !Queued(t, k)
  {
    RegisteredKeeps(s, e.limit, e.owner, e.mode, e.newId);
    var v := Registered(s, e.limit, e.owner, e.mode, e.newId);
    RegisteredClaims(s, e.limit, e.owner, e.mode, e.newId);
    if Claimed(v, other, k) {
      EnterLosesClaim(v, e.newId, e.owner, e.list, e.clock, e.mode, other, k);
    } else {
      PromotedIsOut(s, e.limit, e.owner, e.newId);
      EnterStaysIn(v, e.newId, e.owner, e.list, e.clock, e.mode, k);
    }
  }

  lemma RemovalLosesClaim<Id>(s: Repo<Id>, key: string)
    requires Consistent(s)
    ensures !Queued(RemoveFromQueue(s, key), key) && !Queued(RemoveAndTake(s, key).0, key)
  {
    if s.queue.Some? {
      RemovalEffect(s.queue.value, key);
      RemoveFromQueueKeeps(s, key);
      var t := RemoveFromQueue(s, key);
      TakeUnownedStaysIn(t, 1, key);
      assert TakeUnowned(t, 1).0 == AcquireUnowned(t).0;
    }
  }

  /** A key whose claim is lost has left the queue, and stays out while nobody lists it. */
  ghost predicate HeldOrOut<Id>(s: Repo<Id>, id: Id, k: string) {
    Claimed(s, id, k) || !Queued(s, k)
  }

  lemma HeldOrOutStays<Id>(y: System<Id>, e: Event<Id>, id: Id, k: string)
    requires Sound(y) && Enabled(y, e) && e != Finish(id) && k !in Listed(e) && HeldOrOut(y.repo, id, k)
    ensures HeldOrOut(Next(y, e).repo, id, k)
  {
    if !Queued(y.repo, k) {
      QueuedOnlyByLists(y, e, k);
    } else if e.Acquire? {
      AcquireLosesClaim(y, e, id, k);
    } else if !e.RemoveAll? {
      ClaimLeavesOnlyBy(y, e, id, k);
      if e == Remove(k) || e == RemoveTaking(k) {
        RemovalLosesClaim(y.repo, k);
      }
    }
  }

  lemma HoldingLease<Id>(y: System<Id>, e: Event<Id>, id: Id)
    requires Sound(y) && Enabled(y, e) && e != Finish(id) && id in y.leases
    ensures id in Next(y, e).leases && CandidateKeys(Next(y, e).leases[id]) == CandidateKeys(y.leases[id])
  {
    if e.Acquire? {
      AcquireReplies(y.repo, e.limit, e.owner, e.list, e.clock, e.mode, e.newId);
      if Actor(y.repo, e.owner, e.newId) in y.leases {
        ActorNotLeased(y, e);
      }
    } else if e.Work? && e.id == id {
      assert LeaseSound(y.repo, id, y.leases[id]);
      WorkKeepsLease(y.repo, id, y.leases[id], e.candidates);
    }
  }

  // ---------- what happens in between ----------

  /** The keys that the events list. */
  ghost function ListedIn<Id>(events: seq<Event<Id>>): set<string> {
    if events == [] then {} else ListKeys(Listed(events[0])) + ListedIn(events[1..])
  }

  ghost predicate NeverFinishes<Id>(events: seq<Event<Id>>, id: Id) {
    events == [] || (events[0] != Finish(id) && NeverFinishes(events[1..], id))
  }

  lemma {:induction false} HeldOrOutInRuns<Id>(y: System<Id>, events: seq<Event<Id>>, id: Id, k: string)
    requires Sound(y) && Behaves(y, events) && NeverFinishes(events, id) && k !in ListedIn(events)
    requires HeldOrOut(y.repo, id, k)
    ensures HeldOrOut(After(y, events).repo, id, k)
    decreases |events|
  {
    if events != [] {
      NextKeepsSound(y, events[0]);
      HeldOrOutStays(y, events[0], id, k);
      HeldOrOutInRuns(Next(y, events[0]), events[1..], id, k);
    }
  }

  lemma {:induction false} LeaseInRuns<Id>(y: System<Id>, events: seq<Event<Id>>, id: Id)
    requires Sound(y) && Behaves(y, events) && NeverFinishes(events, id) && id in y.leases
    ensures id in After(y, events).leases
    ensures CandidateKeys(After(y, events).leases[id]) == CandidateKeys(y.leases[id])
    decreases |events|
  {
    if events != [] {
      NextKeepsSound(y, events[0]);
      HoldingLease(y, events[0], id);
      LeaseInRuns(Next(y, events[0]), events[1..], id);
    }
  }

  lemma {:induction false} OutInRuns<Id>(y: System<Id>, events: seq<Event<Id>>, k: string)
    requires Sound(y) && Behaves(y, events) && !Queued(y.repo, k) && k !in ListedIn(events)
    ensures !Queued(After(y, events).repo, k)
    decreases |events|
  {
    if events != [] {
      NextKeepsSound(y, events[0]);
      QueuedOnlyByLists(y, events[0], k);
      OutInRuns(Next(y, events[0]), events[1..], k);
    }
  }

  // ---------- one round ----------

  ghost function ReplyTo<Id>(y: System<Id>, e: Event<Id>): AcquireReply<Id>
    requires e.Acquire? && Enabled(y, e)
  {
    AcquireAdmission(y.repo, e.limit, e.owner, e.list, e.clock, e.mode, e.newId).1
  }

  /** A round that goes on: its lease, what happens until the results are recorded, the
      own worker's changes among them, and what happens until the next round. */
  datatype Turn<Id> = Turn(acquire: Event<Id>, between: seq<Event<Id>>, pause: seq<Event<Id>>)

  /** The lease is not empty, and in the end each of its candidates was gone. */
  ghost predicate Admits<Id>(y: System<Id>, r: Turn<Id>) {
    && r.acquire.Acquire? && Enabled(y, r.acquire) && Given(y, r.acquire) != {}
    && Behaves(Next(y, r.acquire), r.between)
    && var id, z := ReplyTo(y, r.acquire).id, After(Next(y, r.acquire), r.between);
       NeverFinishes(r.between, id) && Enabled(z, Finish(id)) && AllGone(z.leases[id])
  }

  /** The state in which the results are about to be recorded. */
  ghost function Worked<Id>(y: System<Id>, r: Turn<Id>): System<Id>
    requires Admits(y, r)
  {
    After(Next(y, r.acquire), r.between)
  }

  ghost function Recorded<Id>(y: System<Id>, r: Turn<Id>): System<Id>
    requires Admits(y, r)
  {
    Next(Worked(y, r), Finish(ReplyTo(y, r.acquire).id))
  }

  lemma LeaseIsHeld<Id>(y: System<Id>, acquire: Event<Id>, k: string)
    requires Sound(y) && acquire.Acquire? && Enabled(y, acquire) && k in Given(y, acquire)
    ensures var z := Next(y, acquire);
      && Claimed(z.repo, ReplyTo(y, acquire).id, k) && Queued(z.repo, k)
      && ReplyTo(y, acquire).id in z.leases && CandidateKeys(z.leases[ReplyTo(y, acquire).id]) == Given(y, acquire)
  {
    var id, z := ReplyTo(y, acquire).id, Next(y, acquire);
    NextKeepsSound(y, acquire);
    AcquireReplies(
      y.repo, acquire.limit, acquire.owner, acquire.list, acquire.clock, acquire.mode, acquire.newId);
    OwnClaims(z.repo, id);
    ReservedMembers(z.repo.records[id].candidates);
    ClaimedKeyRuns(z, id, k);
  }

  /** A lease only holds keys that were in the queue or in its own list. */
  lemma LeasedIsReachable<Id>(y: System<Id>, acquire: Event<Id>, k: string)
    requires Sound(y) && acquire.Acquire? && Enabled(y, acquire) && k in Given(y, acquire)
    ensures Queued(y.repo, k) || k in acquire.list
  {
    LeaseIsHeld(y, acquire, k);
    if !Queued(y.repo, k) && k !in acquire.list {
      QueuedOnlyByLists(y, acquire, k);
    }
  }

  /** When every candidate was gone, a key that the lease still claims leaves the queue. */
  lemma FinishTakesOut<Id>(z: System<Id>, id: Id, k: string)
    requires Sound(z) && Enabled(z, Finish(id)) && AllGone(z.leases[id]) && k in CandidateKeys(z.leases[id])
    requires HeldOrOut(z.repo, id, k)
    ensures !Queued(Next(z, Finish(id)).repo, k)
  {
    var e: Event<Id> := Finish(id);
    if !Queued(z.repo, k) {
      QueuedOnlyByLists(z, e, k);
    } else {
      assert ClaimOk(z.repo, k);
      GoneLeaves(z, id, k);
    }
  }

  lemma RoundIsSafe<Id>(y: System<Id>, r: Turn<Id>)
    requires Sound(y) && Admits(y, r)
    ensures Sound(Worked(y, r)) && Sound(Recorded(y, r))
  {
    NextKeepsSound(y, r.acquire);
    RunKeepsSound(Next(y, r.acquire), r.between);
    NextKeepsSound(Worked(y, r), Finish(ReplyTo(y, r.acquire).id));
  }

  /** What the round handed out is out of the queue, unless somebody listed it meanwhile. */
  lemma HandedIsOut<Id>(y: System<Id>, r: Turn<Id>, k: string)
    requires Sound(y) && Admits(y, r) && k in Given(y, r.acquire) && k !in ListedIn(r.between)
    ensures !Queued(Recorded(y, r).repo, k)
  {
    var id, y1 := ReplyTo(y, r.acquire).id, Next(y, r.acquire);
    NextKeepsSound(y, r.acquire);
    RoundIsSafe(y, r);
    LeaseIsHeld(y, r.acquire, k);
    HeldOrOutInRuns(y1, r.between, id, k);
    LeaseInRuns(y1, r.between, id);
    FinishTakesOut(Worked(y, r), id, k);
  }

  /** What was neither queued nor listed is not queued after the round. */
  lemma NothingComesIn<Id>(y: System<Id>, r: Turn<Id>, k: string)
    requires Sound(y) && Admits(y, r)
    requires !Queued(y.repo, k) && k !in r.acquire.list && k !in ListedIn(r.between)
    ensures !Queued(Recorded(y, r).repo, k)
  {
    NextKeepsSound(y, r.acquire);
    QueuedOnlyByLists(y, r.acquire, k);
    OutInRuns(Next(y, r.acquire), r.between, k);
    RoundIsSafe(y, r);
    QueuedOnlyByLists(Worked(y, r), Finish(ReplyTo(y, r.acquire).id), k);
  }

  lemma QueuedKeys<Id>(s: Repo<Id>, k: string)
    ensures k in QueueKeys(s) <==> Queued(s, k)
  {
  }

  /** A round in which every candidate was gone, among other workers: it takes all its
      candidates out of the queue, and only what others list meanwhile can come in. */
  lemma RoundAmongOthers<Id>(y: System<Id>, r: Turn<Id>)
    requires Sound(y) && Admits(y, r)
    ensures Given(y, r.acquire) <= Reach(y.repo, r.acquire.list)
    ensures QueueKeys(Recorded(y, r).repo) <=
      (Reach(y.repo, r.acquire.list) - Given(y, r.acquire)) + ListedIn(r.between)
    ensures ListedIn(r.between) == {} ==> |QueueKeys(Recorded(y, r).repo)| < |Reach(y.repo, r.acquire.list)|
  {
    var before, after := Reach(y.repo, r.acquire.list), QueueKeys(Recorded(y, r).repo);
    forall k | k in Given(y, r.acquire) ensures k in before {
      LeasedIsReachable(y, r.acquire, k);
      QueuedKeys(y.repo, k);
    }
    forall k | k in after && k !in ListedIn(r.between) ensures k in before && k !in Given(y, r.acquire) {
      QueuedKeys(Recorded(y, r).repo, k);
      QueuedKeys(y.repo, k);
      if k in Given(y, r.acquire) {
        HandedIsOut(y, r, k);
      } else if k !in before {
        NothingComesIn(y, r, k);
      }
    }
    if ListedIn(r.between) == {} {
      var k :| k in Given(y, r.acquire);
      Smaller(after, before, k);
    }
  }

  // ---------- the whole loop ----------

  /** The rounds of one loop, each with a list of keys that may still be listed. A key
      that a round handed out is dropped from the list of the next. */
  ghost predicate Loops<Id>(y: System<Id>, rounds: seq<Turn<Id>>, list: set<string>)
    decreases |rounds|
  {
    rounds == [] ||
    (var r := rounds[0];
      && Admits(y, r) && (forall k :: k in r.acquire.list ==> k in list) && Behaves(Recorded(y, r), r.pause)
      && Loops(After(Recorded(y, r), r.pause), rounds[1..], list - Given(y, r.acquire)))
  }

  ghost function Ended<Id>(y: System<Id>, rounds: seq<Turn<Id>>, list: set<string>): System<Id>
    requires Loops(y, rounds, list)
    decreases |rounds|
  {
    if rounds == [] then y
    else
      var r := rounds[0];
      Ended(After(Recorded(y, r), r.pause), rounds[1..], list - Given(y, r.acquire))
  }

  ghost function HandedOut<Id>(y: System<Id>, rounds: seq<Turn<Id>>, list: set<string>): set<string>
    requires Loops(y, rounds, list)
    decreases |rounds|
  {
    if rounds == [] then {}
    else
      var r := rounds[0];
      Given(y, r.acquire)
      + HandedOut(After(Recorded(y, r), r.pause), rounds[1..], list - Given(y, r.acquire))
  }

  /** The keys that others list during a round, and how many in a whole loop. */
  ghost function Brought<Id>(r: Turn<Id>): set<string> {
    ListedIn(r.between) + ListedIn(r.pause)
  }

  ghost function Additions<Id>(rounds: seq<Turn<Id>>): nat {
    if rounds == [] then 0 else |Brought(rounds[0])| + Additions(rounds[1..])
  }

  /** All that the loop can still be handed. */
  ghost function Within<Id>(s: Repo<Id>, list: set<string>): set<string> {
    QueueKeys(s) + list
  }

  lemma RoundAndPause<Id>(y: System<Id>, r: Turn<Id>, list: set<string>)
    requires Sound(y) && Admits(y, r) && (forall k :: k in r.acquire.list ==> k in list)
    requires Behaves(Recorded(y, r), r.pause)
    ensures Sound(After(Recorded(y, r), r.pause)) && Given(y, r.acquire) <= Within(y.repo, list)
    ensures Within(After(Recorded(y, r), r.pause).repo, list - Given(y, r.acquire)) <=
      (Within(y.repo, list) - Given(y, r.acquire)) + Brought(r)
  {
    RoundIsSafe(y, r);
    RoundAmongOthers(y, r);
    var z := Recorded(y, r);
    RunKeepsSound(z, r.pause);
    forall k | k in QueueKeys(After(z, r.pause).repo) ensures k in QueueKeys(z.repo) + ListedIn(r.pause) {
      QueuedKeys(After(z, r.pause).repo, k);
      QueuedKeys(z.repo, k);
      if !Queued(z.repo, k) && k !in ListedIn(r.pause) {
        OutInRuns(z, r.pause, k);
      }
    }
  }

  lemma UnionSize(a: set<string>, b: set<string>, c: set<string>)
    requires a <= b + c
    ensures |a| <= |b| + |c|
  {
    SubsetSize(a, b + c);
    assert |b + c| <= |b| + |c|;
  }

  lemma PartSize(part: set<string>, whole: set<string>)
    requires part <= whole && part != {}
    ensures |whole - part| < |whole|
  {
    var x :| x in part;
    Smaller(whole - part, whole, x);
  }

  /** The loop ends, whatever other workers do: it has no more rounds than there were
      keys to be handed out when it began and others have added since. */
  lemma {:induction false} LoopEnds<Id>(y: System<Id>, rounds: seq<Turn<Id>>, list: set<string>)
    requires Sound(y) && Loops(y, rounds, list)
    ensures |rounds| <= |Within(y.repo, list)| + Additions(rounds)
    decreases |rounds|
  {
    if rounds != [] {
      var r := rounds[0];
      var z, left := After(Recorded(y, r), r.pause), list - Given(y, r.acquire);
      RoundAndPause(y, r, list);
      LoopEnds(z, rounds[1..], left);
      UnionSize(Within(z.repo, left), Within(y.repo, list) - Given(y, r.acquire), Brought(r));
      PartSize(Given(y, r.acquire), Within(y.repo, list));
    }
  }

  /** Nobody lists a key again from the moment the loop has been handed it. */
  ghost predicate NotBroughtBack<Id>(y: System<Id>, rounds: seq<Turn<Id>>, list: set<string>, seen: set<string>)
    requires Loops(y, rounds, list)
    decreases |rounds|
  {
    rounds == [] ||
    (var r := rounds[0];
      && Brought(r) !! seen + Given(y, r.acquire)
      && NotBroughtBack(
           After(Recorded(y, r), r.pause), rounds[1..], list - Given(y, r.acquire), seen + Given(y, r.acquire)))
  }

  /** No round is handed a key that was seen in an earlier round. */
  ghost predicate NoneSeenTwice<Id>(y: System<Id>, rounds: seq<Turn<Id>>, list: set<string>, seen: set<string>)
    requires Loops(y, rounds, list)
    decreases |rounds|
  {
    rounds == [] ||
    (var r := rounds[0];
      && Given(y, r.acquire) !! seen
      && NoneSeenTwice(
           After(Recorded(y, r), r.pause), rounds[1..], list - Given(y, r.acquire), seen + Given(y, r.acquire)))
  }

  lemma RoundIsNewToLoop<Id>(y: System<Id>, r: Turn<Id>, list: set<string>, seen: set<string>)
    requires Sound(y) && Admits(y, r) && (forall k :: k in r.acquire.list ==> k in list)
    requires Behaves(Recorded(y, r), r.pause)
    requires Within(y.repo, list) !! seen && Brought(r) !! seen + Given(y, r.acquire)
    ensures Sound(After(Recorded(y, r), r.pause)) && Given(y, r.acquire) !! seen
    ensures Within(After(Recorded(y, r), r.pause).repo, list - Given(y, r.acquire)) !! seen + Given(y, r.acquire)
  {
    RoundAndPause(y, r, list);
  }

  lemma {:induction false} SeenStayOut<Id>(y: System<Id>, rounds: seq<Turn<Id>>, list: set<string>, seen: set<string>)
    requires Sound(y) && Loops(y, rounds, list) && NotBroughtBack(y, rounds, list, seen)
    requires Within(y.repo, list) !! seen
    ensures NoneSeenTwice(y, rounds, list, seen)
    decreases |rounds|
  {
    if rounds != [] {
      var r := rounds[0];
      RoundIsNewToLoop(y, r, list, seen);
      SeenStayOut(
        After(Recorded(y, r), r.pause), rounds[1..], list - Given(y, r.acquire), seen + Given(y, r.acquire));
    }
  }

  lemma Regroup(list: set<string>, seen: set<string>, a: set<string>, b: set<string>)
    ensures list - a - b == list - (a + b) && seen + a + b == seen + (a + b)
  {
  }

  lemma {:induction false} SeenAreOut<Id>(y: System<Id>, rounds: seq<Turn<Id>>, list: set<string>, seen: set<string>)
    requires Sound(y) && Loops(y, rounds, list) && NotBroughtBack(y, rounds, list, seen)
    requires Within(y.repo, list) !! seen
    ensures Sound(Ended(y, rounds, list))
    ensures Within(Ended(y, rounds, list).repo, list - HandedOut(y, rounds, list)) !! seen + HandedOut(y, rounds, list)
    decreases |rounds|
  {
    if rounds == [] {
      Regroup(list, seen, {}, {});
    } else {
      var r := rounds[0];
      var z, given := After(Recorded(y, r), r.pause), Given(y, r.acquire);
      RoundIsNewToLoop(y, r, list, seen);
      SeenAreOut(z, rounds[1..], list - given, seen + given);
      Regroup(list, seen, given, HandedOut(z, rounds[1..], list - given));
    }
  }

  /** The loop is never handed a key twice, whatever other workers do, unless one of them
      lists the key again after the loop was handed it: neither in the rounds that go on
      nor in the last one. */
  lemma NeverHandedTwice<Id>(y: System<Id>, rounds: seq<Turn<Id>>, list: set<string>, last: Event<Id>)
    requires Sound(y) && Loops(y, rounds, list) && NotBroughtBack(y, rounds, list, {})
    requires last.Acquire? && Enabled(Ended(y, rounds, list), last)
    requires forall k :: k in last.list ==> k in list - HandedOut(y, rounds, list)
    ensures NoneSeenTwice(y, rounds, list, {})
    ensures Given(Ended(y, rounds, list), last) !! HandedOut(y, rounds, list)
  {
    SeenStayOut(y, rounds, list, {});
    SeenAreOut(y, rounds, list, {});
    var z := Ended(y, rounds, list);
    forall k | k in Given(z, last) ensures k !in HandedOut(y, rounds, list) {
      LeasedIsReachable(z, last, k);
      QueuedKeys(z.repo, k);
      assert k in Within(z.repo, list - HandedOut(y, rounds, list));
    }
  }

  // ---------- the owner's slot ----------

  /** The owner has this record or none. */
  ghost predicate NoOtherRecord<Id>(s: Repo<Id>, owner: Owner, id: Id) {
    OwnerKey(owner) in s.admissions ==> HasRecord(s, owner, id)
  }

  /** The step does not list the owner, and does not begin a new batch for it. */
  ghost predicate Spares<Id>(e: Event<Id>, owner: Owner) {
    && owner.key !in Listed(e)
    && (e.Acquire? && OwnerKey(e.owner) == OwnerKey(owner) ==> e.owner.key == owner.key && !e.mode.Initial?)
  }

  ghost predicate AllSpare<Id>(events: seq<Event<Id>>, owner: Owner) {
    forall i :: 0 <= i < |events| ==> Spares(events[i], owner)
  }

  lemma AbsentOwnerStaysAbsent<Id>(y: System<Id>, e: Event<Id>)
    requires Sound(y) && e.Acquire? && Enabled(y, e) && !e.mode.Initial?
    requires OwnerKey(e.owner) !in y.repo.admissions && !Queued(y.repo, e.owner.key)
    ensures OwnerKey(e.owner) !in Next(y, e).repo.admissions
  {
    OpenedPlace(y.repo, e.limit, e.owner.key);
  }

  lemma NoOtherRecordStays<Id>(y: System<Id>, e: Event<Id>, owner: Owner, id: Id)
    requires Sound(y) && Enabled(y, e) && Spares(e, owner)
    requires !Queued(y.repo, owner.key) && NoOtherRecord(y.repo, owner, id)
    ensures !Queued(Next(y, e).repo, owner.key) && NoOtherRecord(Next(y, e).repo, owner, id)
  {
    QueuedOnlyByLists(y, e, owner.key);
    if OwnerKey(owner) in Next(y, e).repo.admissions {
      RecordStaysOrGoes(y, e, OwnerKey(owner));
      if OwnerKey(owner) !in y.repo.admissions {
        AbsentOwnerStaysAbsent(y, e);
      }
    }
  }

  lemma {:induction false} NoOtherRecordInRuns<Id>(y: System<Id>, events: seq<Event<Id>>, owner: Owner, id: Id)
    requires Sound(y) && Behaves(y, events) && AllSpare(events, owner)
    requires !Queued(y.repo, owner.key) && NoOtherRecord(y.repo, owner, id)
    ensures var z := After(y, events); !Queued(z.repo, owner.key) && NoOtherRecord(z.repo, owner, id)
    decreases |events|
  {
    if events != [] {
      NextKeepsSound(y, events[0]);
      assert Spares(events[0], owner);
      assert forall i :: 0 <= i < |events| - 1 ==> events[1..][i] == events[i + 1];
      NoOtherRecordStays(y, events[0], owner, id);
      NoOtherRecordInRuns(Next(y, events[0]), events[1..], owner, id);
    }
  }

  /** A promotion that is granted a lease leaves the owner out of the queue, with the
      leased record. */
  lemma PromotionHasRecord<Id>(y: System<Id>, promote: Event<Id>)
    requires Sound(y) && promote.Acquire? && promote.mode.Promotion? && promote.list == [] && Enabled(y, promote)
    requires OwnerLeft(y.repo, promote.owner) && ReplyTo(y, promote).Leased?
    ensures var id, y1 := ReplyTo(y, promote).id, Next(y, promote);
      id in y1.leases && !Queued(y1.repo, promote.owner.key) && NoOtherRecord(y1.repo, promote.owner, id)
  {
    PromotionLeaves(y, promote);
    AcquireReplies(
      y.repo, promote.limit, promote.owner, promote.list, promote.clock, promote.mode, promote.newId);
    AcquireRecords(y, promote);
  }

  /** Recording without an error leaves nothing unfinished with the owner. */
  lemma CleanFinishLeavesOwner<Id>(z: System<Id>, owner: Owner, id: Id)
    requires Sound(z) && Enabled(z, Finish(id)) && !Queued(z.repo, owner.key) && NoOtherRecord(z.repo, owner, id)
    requires FinishAdmission(z.repo, id, z.leases[id]).1 == []
    ensures HandedOver(Next(z, Finish(id)).repo, owner)
  {
    var e: Event<Id> := Finish(id);
    var o := OwnerKey(owner);
    CleanFinish(z, e);
    QueuedOnlyByLists(z, e, owner.key);
    NextKeepsSound(z, e);
    if o in Next(z, e).repo.admissions {
      RecordStaysOrGoes(z, e, o);
      assert OwnerOk(Next(z, e).repo, o);
    }
  }

  /** The slot of a finished owner is handed on among other workers too, the removal of the
      repository included. Whatever came before, its own resuming and its earlier rounds
      among it: if the last round of its promotion has nothing to hand on, or ends without
      an error, the owner is handed over, as long as nobody queued the owner again or
      began a new batch for it. */
  lemma HandedOverAmongOthers<Id>(
    y: System<Id>, earlier: seq<Event<Id>>, promote: Event<Id>, between: seq<Event<Id>>)
    requires promote.Acquire? && promote.mode.Promotion? && promote.list == []
    requires Sound(y) && OwnerLeft(y.repo, promote.owner)
    requires Behaves(y, earlier) && AllRespect(y, earlier, promote.owner) && Enabled(After(y, earlier), promote)
    requires var y0 := After(y, earlier);
      && Behaves(Next(y0, promote), between) && AllSpare(between, promote.owner)
      && (ReplyTo(y0, promote).Leased? ==> NeverFinishes(between, ReplyTo(y0, promote).id))
    ensures
      var y0 := After(y, earlier);
      var reply, z := ReplyTo(y0, promote), After(Next(y0, promote), between);
      && (reply.NoWork? ==> HandedOver(Next(y0, promote).repo, promote.owner))
      && (reply.Leased? ==>
            && Enabled(z, Finish(reply.id))
            && (FinishAdmission(z.repo, reply.id, z.leases[reply.id]).1 == [] ==>
                  HandedOver(Next(z, Finish(reply.id)).repo, promote.owner)))
  {
    var y0 := After(y, earlier);
    RunKeepsSound(y, earlier);
    OwnerLeftInRuns(y, earlier, promote.owner);
    var reply, z := ReplyTo(y0, promote), After(Next(y0, promote), between);
    NextKeepsSound(y0, promote);
    RunKeepsSound(Next(y0, promote), between);
    PromotionLeaves(y0, promote);
    if reply.Leased? {
      PromotionHasRecord(y0, promote);
      LeaseInRuns(Next(y0, promote), between, reply.id);
      NoOtherRecordInRuns(Next(y0, promote), between, promote.owner, reply.id);
      assert LeaseSound(z.repo, reply.id, z.leases[reply.id]);
      if FinishAdmission(z.repo, reply.id, z.leases[reply.id]).1 == [] {
        CleanFinishLeavesOwner(z, promote.owner, reply.id);
      }
    }
  }
}
