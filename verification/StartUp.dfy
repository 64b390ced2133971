/** The start-up of the controller: the runs that the cluster lists as started or queued
    carry execution orders, whose entries are looked up one by one, and whatever is still
    in the wanted state goes back into the queue. */
module StartUp {
  import opened Wrappers
  import opened Strings
  import opened Admissions
  import opened AdmissionProperties
  import opened HandOff
  import opened ExecutionOrder
  import opened Recovery
  import opened Managers

  const STARTED := "started"
  const QUEUED := "queued"
  const PENDING := "PipelineRunPending"

  /** What the API server answers for one PipelineRun. */
  datatype Got = NotFound | Unreadable | Found(status: string, state: Option<string>)

  /** A listed run: its execution order, and what the cluster and the clock say while that
      order is handled. */
  datatype ListedRun = ListedRun(name: RunName, order: Option<string>, read: RunName -> Got, clock: nat -> int)

  /** The state is the wanted one, and so is spec.status if one is wanted. */
  predicate IsWanted(g: Got, status: string, state: string) {
    g.Found? && g.state == Some(state) && (status == "" || g.status == status)
  }

  // ---------- filtering one execution order ----------

  /** Entries that do not parse, or name no run, are skipped. */
  function Filter(entries: seq<string>, read: RunName -> Got, status: string, state: string): Result<seq<string>> {
    if entries == [] then Ok([])
    else
      match SplitPrKey(entries[0])
      case None => Filter(entries[1..], read, status, state)
      case Some(r) =>
        if read(r).Unreadable? then Err(entries[0])
        else
          Prepend(if IsWanted(read(r), status, state) then [PrKey(r)] else [], Filter(entries[1..], read, status, state))
  }

  method FilterPipelineRunByState(entries: seq<string>, read: RunName -> Got, status: string, state: string)
    returns (r: Result<seq<string>>)
    ensures r == Filter(entries, read, status, state)
  {
    var kept: seq<string> := [];
    var i := 0;
    assert entries[0..] == entries;
    PrependTwice([], [], Filter(entries, read, status, state));
    while i < |entries|
      invariant 0 <= i <= |entries|
      invariant Filter(entries, read, status, state) == Prepend(kept, Filter(entries[i..], read, status, state))
    {
      assert entries[i..][1..] == entries[i + 1..];
      var name := SplitPrKey(entries[i]);
      if name.Some? {
        var got := read(name.value);
        if got.Unreadable? {
          return Err(entries[i]);
        }
        ghost var rest := Filter(entries[i + 1..], read, status, state);
        if IsWanted(got, status, state) {
          PrependTwice(kept, [PrKey(name.value)], rest);
          kept := kept + [PrKey(name.value)];
        } else {
          PrependTwice(kept, [], rest);
        }
      }
      i := i + 1;
    }
    assert entries[i..] == [] && kept + [] == kept;
    return Ok(kept);
  }

  /** The entry names the run `k`, and the run is in the wanted state. */
  ghost predicate Keeps(entry: string, read: RunName -> Got, status: string, state: string, k: string) {
    && SplitPrKey(entry).Some? && PrKey(SplitPrKey(entry).value) == k
    && var got := read(SplitPrKey(entry).value);
       got.Found? && got.state == Some(state) && (status != "" ==> got.status == status)
  }

  ghost predicate SomeKeeps(entries: seq<string>, read: RunName -> Got, status: string, state: string, k: string) {
    exists entry :: entry in entries && Keeps(entry, read, status, state, k)
  }

  lemma FirstOrLaterKeeps(entries: seq<string>, read: RunName -> Got, status: string, state: string, k: string)
    requires entries != []
    ensures SomeKeeps(entries, read, status, state, k) <==>
      Keeps(entries[0], read, status, state, k) || SomeKeeps(entries[1..], read, status, state, k)
  {
    assert entries == [entries[0]] + entries[1..];
  }

  lemma {:induction false} FilterKeeps(entries: seq<string>, read: RunName -> Got, status: string, state: string, k: string)
    requires Filter(entries, read, status, state).Ok?
    ensures k in Filter(entries, read, status, state).value <==> SomeKeeps(entries, read, status, state, k)
  {
    if entries != [] {
      FilterKeeps(entries[1..], read, status, state, k);
      FirstOrLaterKeeps(entries, read, status, state, k);
    }
  }

  /** The entry names a run that the API server fails to answer for. */
  ghost predicate Fails(entry: string, read: RunName -> Got) {
    SplitPrKey(entry).Some? && read(SplitPrKey(entry).value).Unreadable?
  }

  ghost predicate FirstFails(entries: seq<string>, read: RunName -> Got, e: string) {
    exists i :: 0 <= i < |entries| && entries[i] == e && Fails(e, read)
      && forall j :: 0 <= j < i ==> !Fails(entries[j], read)
  }

  lemma FirstOrLaterFails(entries: seq<string>, read: RunName -> Got, e: string)
    requires entries != []
    ensures FirstFails(entries, read, e) <==>
      if Fails(entries[0], read) then e == entries[0] else FirstFails(entries[1..], read, e)
  {
    if !Fails(entries[0], read) && FirstFails(entries[1..], read, e) {
      var i :| 0 <= i < |entries| - 1 && entries[1..][i] == e && Fails(e, read)
        && forall j :: 0 <= j < i ==> !Fails(entries[1..][j], read);
      assert forall j :: 0 <= j < i + 1 ==> !Fails(entries[j], read) by {
        assert forall j :: 0 < j < i + 1 ==> entries[j] == entries[1..][j - 1];
      }
      assert entries[i + 1] == e;
    }
    if !Fails(entries[0], read) && FirstFails(entries, read, e) {
      var i :| 0 <= i < |entries| && entries[i] == e && Fails(e, read)
        && forall j :: 0 <= j < i ==> !Fails(entries[j], read);
      assert entries[1..][i - 1] == e;
    }
  }

  /** Only an entry that cannot be read ends the filter, and the first one does. */
  lemma {:induction false} FilterFails(entries: seq<string>, read: RunName -> Got, status: string, state: string, e: string)
    ensures Filter(entries, read, status, state) == Err(e) <==> FirstFails(entries, read, e)
  {
    if entries != [] {
      FilterFails(entries[1..], read, status, state, e);
      FirstOrLaterFails(entries, read, e);
    }
  }

  // ---------- all listed runs ----------

  /** The additions up to the first run that cannot be read, and that failure. */
  function Listings(runs: seq<ListedRun>, status: string, state: string): (seq<Listing>, Option<string>) {
    if runs == [] then ([], None)
    else if runs[0].order.None? then Listings(runs[1..], status, state)
    else
      match Filter(Split(runs[0].order.value, ','), runs[0].read, status, state)
      case Err(entry) => ([], Some(entry))
      case Ok(keys) =>
        var (rest, failed) := Listings(runs[1..], status, state);
        ([Listing(keys, seq(|keys|, i requires 0 <= i < |keys| => runs[0].clock(i)))] + rest, failed)
  }

  lemma {:induction false} FilteredIsNamed(entries: seq<string>, read: RunName -> Got, status: string, state: string)
    requires Filter(entries, read, status, state).Ok?
    ensures "" !in Filter(entries, read, status, state).value
  {
    if "" in Filter(entries, read, status, state).value {
      FilterKeeps(entries, read, status, state, "");
    }
  }

  lemma {:induction false} ListingsAreOk(runs: seq<ListedRun>, status: string, state: string)
    ensures ListingsOk(Listings(runs, status, state).0)
  {
    if runs != [] {
      ListingsAreOk(runs[1..], status, state);
      if runs[0].order.Some? {
        var kept := Filter(Split(runs[0].order.value, ','), runs[0].read, status, state);
        if kept.Ok? {
          FilteredIsNamed(Split(runs[0].order.value, ','), runs[0].read, status, state);
        }
      }
    }
  }

  /** The run's execution order names `k`, which is in the wanted state. */
  ghost predicate Names(run: ListedRun, status: string, state: string, k: string) {
    run.order.Some? && SomeKeeps(Split(run.order.value, ','), run.read, status, state, k)
  }

  ghost predicate SomeNames(runs: seq<ListedRun>, status: string, state: string, k: string) {
    exists run :: run in runs && Names(run, status, state, k)
  }

  lemma FirstOrLaterNames(runs: seq<ListedRun>, status: string, state: string, k: string)
    requires runs != []
    ensures SomeNames(runs, status, state, k) <==>
      Names(runs[0], status, state, k) || SomeNames(runs[1..], status, state, k)
  {
    assert runs == [runs[0]] + runs[1..];
  }

  lemma {:induction false} MembersAreNamed(runs: seq<ListedRun>, status: string, state: string, k: string)
    requires Listings(runs, status, state).1.None?
    ensures k in Members(Listings(runs, status, state).0) <==> SomeNames(runs, status, state, k)
  {
    if runs != [] {
      MembersAreNamed(runs[1..], status, state, k);
      FirstOrLaterNames(runs, status, state, k);
      if runs[0].order.Some? {
        FilterKeeps(Split(runs[0].order.value, ','), runs[0].read, status, state, k);
        NextListing(runs, status, state);
      }
    }
  }

  // ---------- up to the first failure ----------

  ghost predicate CanRead(run: ListedRun) {
    run.order.Some? ==> forall entry :: entry in Split(run.order.value, ',') ==> !Fails(entry, run.read)
  }

  ghost predicate CanReadAll(runs: seq<ListedRun>) {
    forall run :: run in runs ==> CanRead(run)
  }

  /** The runs before the first whose order has an entry that cannot be read. */
  ghost function UpToFailure(runs: seq<ListedRun>): seq<ListedRun> {
    if runs == [] || !CanRead(runs[0]) then [] else [runs[0]] + UpToFailure(runs[1..])
  }

  lemma OrderFails(run: ListedRun, status: string, state: string)
    requires run.order.Some?
    ensures CanRead(run) <==> Filter(Split(run.order.value, ','), run.read, status, state).Ok?
  {
    var entries := Split(run.order.value, ',');
    var r := Filter(entries, run.read, status, state);
    if r.Err? {
      FilterFails(entries, run.read, status, state, r.error);
    } else if !CanRead(run) {
      SomeIsFirst(entries, run.read);
      var e :| FirstFails(entries, run.read, e);
      FilterFails(entries, run.read, status, state, e);
      assert false;
    }
  }

  lemma {:induction false} SomeIsFirst(entries: seq<string>, read: RunName -> Got)
    requires exists entry :: entry in entries && Fails(entry, read)
    ensures exists e :: FirstFails(entries, read, e)
  {
    if Fails(entries[0], read) {
      assert FirstFails(entries, read, entries[0]);
    } else {
      SomeIsFirst(entries[1..], read);
      var e :| FirstFails(entries[1..], read, e);
      FirstOrLaterFails(entries, read, e);
    }
  }

  /** Only those are added, and a failure is reported if and only if there are more. */
  lemma {:induction false} ListingsUpToFailure(runs: seq<ListedRun>, status: string, state: string)
    ensures Listings(runs, status, state).0 == Listings(UpToFailure(runs), status, state).0
    ensures Listings(UpToFailure(runs), status, state).1.None?
    ensures Listings(runs, status, state).1.None? <==> CanReadAll(runs)
  {
    if runs != [] {
      if runs[0].order.Some? {
        OrderFails(runs[0], status, state);
      }
      if CanRead(runs[0]) {
        ListingsUpToFailure(runs[1..], status, state);
        assert UpToFailure(runs)[0] == runs[0] && UpToFailure(runs)[1..] == UpToFailure(runs[1..]);
        assert runs == [runs[0]] + runs[1..];
      }
    }
  }

  // ---------- the rebuild ----------

  lemma NextListing(runs: seq<ListedRun>, status: string, state: string)
    requires runs != [] && runs[0].order.Some?
    requires Filter(Split(runs[0].order.value, ','), runs[0].read, status, state).Ok?
    ensures
      var keys := Filter(Split(runs[0].order.value, ','), runs[0].read, status, state).value;
      var all := Listings(runs, status, state).0;
      && all != [] && all[1..] == Listings(runs[1..], status, state).0
      && all[0] == Listing(keys, seq(|keys|, i requires 0 <= i < |keys| => runs[0].clock(i)))
  {
  }

  /** One listed run; the others are still to be added. */
  method AddStartedRun(m: Manager, n: nat, runs: seq<ListedRun>) returns (failed: Option<string>)
    requires m.Valid() && runs != []
    modifies m
    ensures m.Valid() && ListingsOk(Listings(runs, "", STARTED).0) && ListingsOk(Listings(runs[1..], "", STARTED).0)
    ensures failed.None? ==>
      && AddStarted(old(m.State()), n, Listings(runs, "", STARTED).0)
         == AddStarted(m.State(), n, Listings(runs[1..], "", STARTED).0)
      && Listings(runs, "", STARTED).1 == Listings(runs[1..], "", STARTED).1
    ensures failed.Some? ==> m.State() == old(m.State()) && Listings(runs, "", STARTED) == ([], failed)
  {
    ListingsAreOk(runs, "", STARTED);
    ListingsAreOk(runs[1..], "", STARTED);
    if runs[0].order.None? {
      return None;
    }
    var kept := FilterPipelineRunByState(Split(runs[0].order.value, ','), runs[0].read, "", STARTED);
    if kept.Err? {
      return Some(kept.error);
    }
    NextListing(runs, "", STARTED);
    var clock := seq(|kept.value|, i requires 0 <= i < |kept.value| => runs[0].clock(i));
    var _ := m.AddListToRunning(n, kept.value, clock);
    return None;
  }

  method AddStartedRuns(m: Manager, n: nat, runs: seq<ListedRun>) returns (failed: Option<string>)
    requires m.Valid()
    modifies m
    ensures m.Valid() && ListingsOk(Listings(runs, "", STARTED).0)
    ensures m.State() == AddStarted(old(m.State()), n, Listings(runs, "", STARTED).0)
    ensures failed == Listings(runs, "", STARTED).1
  {
    ListingsAreOk(runs, "", STARTED);
    ghost var all := AddStarted(m.State(), n, Listings(runs, "", STARTED).0);
    var i := 0;
    assert runs[0..] == runs;
    while i < |runs|
      invariant 0 <= i <= |runs| && m.Valid() && ListingsOk(Listings(runs[i..], "", STARTED).0)
      invariant AddStarted(m.State(), n, Listings(runs[i..], "", STARTED).0) == all
      invariant Listings(runs[i..], "", STARTED).1 == Listings(runs, "", STARTED).1
    {
      assert runs[i..][1..] == runs[i + 1..];
      var failure := AddStartedRun(m, n, runs[i..]);
      if failure.Some? {
        return failure;
      }
      i := i + 1;
    }
    return None;
  }

  /** One listed run; the others are still to be added. */
  method AddQueuedRun(m: Manager, n: nat, runs: seq<ListedRun>) returns (failed: Option<string>)
    requires m.Valid() && runs != []
    modifies m
    ensures m.Valid() && ListingsOk(Listings(runs, PENDING, QUEUED).0) && ListingsOk(Listings(runs[1..], PENDING, QUEUED).0)
    ensures failed.None? ==>
      && AddQueued(old(m.State()), n, Listings(runs, PENDING, QUEUED).0)
         == AddQueued(m.State(), n, Listings(runs[1..], PENDING, QUEUED).0)
      && Listings(runs, PENDING, QUEUED).1 == Listings(runs[1..], PENDING, QUEUED).1
    ensures failed.Some? ==> m.State() == old(m.State()) && Listings(runs, PENDING, QUEUED) == ([], failed)
  {
    ListingsAreOk(runs, PENDING, QUEUED);
    ListingsAreOk(runs[1..], PENDING, QUEUED);
    if runs[0].order.None? {
      return None;
    }
    var kept := FilterPipelineRunByState(Split(runs[0].order.value, ','), runs[0].read, PENDING, QUEUED);
    if kept.Err? {
      return Some(kept.error);
    }
    NextListing(runs, PENDING, QUEUED);
    var clock := seq(|kept.value|, i requires 0 <= i < |kept.value| => runs[0].clock(i));
    m.AddToPending(n, kept.value, clock);
    return None;
  }

  method AddQueuedRuns(m: Manager, n: nat, runs: seq<ListedRun>) returns (failed: Option<string>)
    requires m.Valid()
    modifies m
    ensures m.Valid() && ListingsOk(Listings(runs, PENDING, QUEUED).0)
    ensures m.State() == AddQueued(old(m.State()), n, Listings(runs, PENDING, QUEUED).0)
    ensures failed == Listings(runs, PENDING, QUEUED).1
  {
    ListingsAreOk(runs, PENDING, QUEUED);
    ghost var all := AddQueued(m.State(), n, Listings(runs, PENDING, QUEUED).0);
    var i := 0;
    assert runs[0..] == runs;
    while i < |runs|
      invariant 0 <= i <= |runs| && m.Valid() && ListingsOk(Listings(runs[i..], PENDING, QUEUED).0)
      invariant AddQueued(m.State(), n, Listings(runs[i..], PENDING, QUEUED).0) == all
      invariant Listings(runs[i..], PENDING, QUEUED).1 == Listings(runs, PENDING, QUEUED).1
    {
      assert runs[i..][1..] == runs[i + 1..];
      var failure := AddQueuedRun(m, n, runs[i..]);
      if failure.Some? {
        return failure;
      }
      i := i + 1;
    }
    return None;
  }

  /** What is added before the first failure: a list that cannot be had, or an entry that
      cannot be read. */
  function Plan(started: Result<seq<ListedRun>>, queued: Result<seq<ListedRun>>)
    : (r: (seq<Listing>, seq<Listing>, Option<string>))
    ensures ListingsOk(r.0) && ListingsOk(r.1)
  {
    match started
    case Err(e) => ([], [], Some(e))
    case Ok(runs) =>
      ListingsAreOk(runs, "", STARTED);
      var (first, failed) := Listings(runs, "", STARTED);
      if failed.Some? then (first, [], failed)
      else
        match queued
        case Err(e) => (first, [], Some(e))
        case Ok(others) =>
          ListingsAreOk(others, PENDING, QUEUED);
          var (second, failure) := Listings(others, PENDING, QUEUED);
          (first, second, failure)
  }

  /** The queue of one repository is rebuilt; without a limit it is only emptied. */
  method InitQueues(m: Manager, n: nat, started: Result<seq<ListedRun>>, queued: Result<seq<ListedRun>>)
    returns (failed: Option<string>)
    requires m.Valid()
    modifies m
    ensures m.Valid()
    ensures n == 0 ==> failed.None? && m.State() == RemoveRepository(old(m.State()))
    ensures n > 0 ==>
      && failed == Plan(started, queued).2
      && m.State() == Rebuild(old(m.State()), n, Plan(started, queued).0, Plan(started, queued).1)
  {
    m.RemoveRepositoryState();
    if n == 0 {
      return None;
    }
    if started.Err? {
      return Some(started.error);
    }
    failed := AddStartedRuns(m, n, started.value);
    if failed.Some? {
      return;
    }
    if queued.Err? {
      return Some(queued.error);
    }
    failed := AddQueuedRuns(m, n, queued.value);
  }

  /** A rebuild puts a key into the queue if and only if the execution order of a started run
      names it and it is still started, or that of a queued run names it and it is still queued
      and pending; but only runs before the first one whose order cannot be read count, and
      queued ones only if all started ones can. It fails if and only if there is such a run. */
  lemma RestoredUpToFailure<Id>(s: Repo<Id>, n: nat, started: seq<ListedRun>, queued: seq<ListedRun>, k: string)
    requires n > 0
    ensures
      var (first, second, failed) := Plan(Ok(started), Ok(queued));
      && (failed.None? <==> CanReadAll(started) && CanReadAll(queued))
      && (Queued(Rebuild(s, n, first, second), k) <==>
            || SomeNames(UpToFailure(started), "", STARTED, k)
            || (CanReadAll(started) && SomeNames(UpToFailure(queued), PENDING, QUEUED, k)))
  {
    var (first, second, _) := Plan(Ok(started), Ok(queued));
    RebuildKeys(s, n, first, second);
    ListingsUpToFailure(started, "", STARTED);
    ListingsUpToFailure(queued, PENDING, QUEUED);
    MembersAreNamed(UpToFailure(started), "", STARTED, k);
    MembersAreNamed(UpToFailure(queued), PENDING, QUEUED, k);
    var t := Rebuild(s, n, first, second);
    if t.queue.Some? {
      assert k in KeysOf(t.queue.value) <==> k in Members(first) + Members(second);
    }
  }

  lemma {:induction false} NoFailure(runs: seq<ListedRun>)
    requires CanReadAll(runs)
    ensures UpToFailure(runs) == runs
  {
    if runs != [] {
      assert runs[0] in runs && runs == [runs[0]] + runs[1..];
      NoFailure(runs[1..]);
    }
  }

  /** So without a failure all listed runs count. */
  lemma RestoredExactly<Id>(s: Repo<Id>, n: nat, started: seq<ListedRun>, queued: seq<ListedRun>, k: string)
    requires n > 0 && Plan(Ok(started), Ok(queued)).2.None?
    ensures
      var (first, second, _) := Plan(Ok(started), Ok(queued));
      Queued(Rebuild(s, n, first, second), k) <==>
        SomeNames(started, "", STARTED, k) || SomeNames(queued, PENDING, QUEUED, k)
  {
    RestoredUpToFailure(s, n, started, queued, k);
    NoFailure(started);
    NoFailure(queued);
  }

  ghost function ListedKeys(runs: seq<ListedRun>): set<string> {
    set run | run in runs :: PrKey(run.name)
  }

  /** The listed runs are those that are found in the wanted state, and each is named by its
      own execution order. */
  ghost predicate ListsExactly(runs: seq<ListedRun>, status: string, state: string) {
    && (forall run :: run in runs ==> Names(run, status, state, PrKey(run.name)))
    && (forall run, k :: run in runs && Names(run, status, state, k) ==> k in ListedKeys(runs))
  }

  lemma NamedAreListed(runs: seq<ListedRun>, status: string, state: string, k: string)
    requires ListsExactly(runs, status, state)
    ensures SomeNames(runs, status, state, k) <==> k in ListedKeys(runs)
  {
    if k in ListedKeys(runs) {
      var run :| run in runs && PrKey(run.name) == k;
      assert Names(run, status, state, k);
    }
  }

  lemma MembersAreListed(runs: seq<ListedRun>, status: string, state: string)
    requires Listings(runs, status, state).1.None? && ListsExactly(runs, status, state)
    ensures Members(Listings(runs, status, state).0) == ListedKeys(runs)
  {
    forall k ensures k in Members(Listings(runs, status, state).0) <==> k in ListedKeys(runs) {
      MembersAreNamed(runs, status, state, k);
      NamedAreListed(runs, status, state, k);
    }
  }

  lemma PlannedListings(started: seq<ListedRun>, queued: seq<ListedRun>)
    requires Plan(Ok(started), Ok(queued)).2.None?
    ensures Listings(started, "", STARTED).1.None? && Listings(queued, PENDING, QUEUED).1.None?
    ensures Plan(Ok(started), Ok(queued)).0 == Listings(started, "", STARTED).0
    ensures Plan(Ok(started), Ok(queued)).1 == Listings(queued, PENDING, QUEUED).0
  {
  }

  lemma {:induction false} ListingsBoth(a: seq<ListedRun>, b: seq<ListedRun>, status: string, state: string)
    requires Listings(a + b, status, state).1.None?
    ensures Listings(a, status, state).1.None? && Listings(b, status, state).1.None?
    ensures Listings(a + b, status, state).0 == Listings(a, status, state).0 + Listings(b, status, state).0
    decreases |a|
  {
    if a == [] {
      assert a + b == b;
    } else {
      assert (a + b)[0] == a[0] && (a + b)[1..] == a[1..] + b;
      ListingsBoth(a[1..], b, status, state);
    }
  }

  /** The runs that were created first get the slots, whether or not they have finished: once
      they fill the limit, nothing that is listed later gets one. */
  lemma FirstCreatedRun<Id>(s: Repo<Id>, n: nat, a: seq<ListedRun>, b: seq<ListedRun>, queued: seq<ListedRun>)
    requires n > 0 && Plan(Ok(a + b), Ok(queued)).2.None? && ListsExactly(a, "", STARTED) && |ListedKeys(a)| == n
    ensures
      var (first, second, _) := Plan(Ok(a + b), Ok(queued));
      RunningIn(Rebuild(s, n, first, second)) == ListedKeys(a)
  {
    PlannedListings(a + b, queued);
    ListingsBoth(a, b, "", STARTED);
    ListingsAreOk(a, "", STARTED);
    ListingsAreOk(b, "", STARTED);
    MembersAreListed(a, "", STARTED);
    FirstListsFill(s, n, Listings(a, "", STARTED).0, Listings(b, "", STARTED).0, Listings(queued, PENDING, QUEUED).0);
  }

  /** When the lists agree with what is read, a rebuild without a failure sets exactly the
      started runs running if they fit the limit, and n of them if they do not. */
  lemma StartedAreRunning<Id>(s: Repo<Id>, n: nat, started: seq<ListedRun>, queued: seq<ListedRun>)
    requires n > 0 && Plan(Ok(started), Ok(queued)).2.None? && ListsExactly(started, "", STARTED)
    ensures
      var (first, second, _) := Plan(Ok(started), Ok(queued));
      RunsFirst(RunningIn(Rebuild(s, n, first, second)), ListedKeys(started), n)
  {
    PlannedListings(started, queued);
    MembersAreListed(started, "", STARTED);
    RebuildRunning(s, n, Listings(started, "", STARTED).0, Listings(queued, PENDING, QUEUED).0);
  }

  /** An execution order as it is printed names exactly its own runs. */
  lemma PrintedOrderNames(run: ListedRun, runs: seq<RunName>, status: string, state: string, k: string)
    requires run.order == Some(Join(PrKeys(runs), ',')) && forall r :: r in runs ==> Printable(r)
    ensures Names(run, status, state, k) <==> exists r :: r in runs && PrKey(r) == k && IsWanted(run.read(r), status, state)
  {
    var entries := Split(run.order.value, ',');
    OrderRoundTrip(runs);
    AcceptedMembers(entries);
  }

  lemma {:induction false} AcceptedMembers(entries: seq<string>)
    ensures forall r :: r in Accepted(entries) <==> exists entry :: entry in entries && SplitPrKey(entry) == Some(r)
  {
    if entries != [] {
      AcceptedMembers(entries[1..]);
      assert entries == [entries[0]] + entries[1..];
    }
  }
}
