/** Which hosts a controller trusts: an administrator's list, or else the hosts it
    learned from authenticated requests, kept in an annotation of its ConfigMap. */
module HostPolicy {
  import opened Wrappers
  import opened Strings

  // ---------- hosts ----------

  /** Folds ASCII letters only. Go's strings.ToLower folds Unicode, but it is applied to
      hosts that were parsed, which are ASCII by then. */
  function ToLower(s: string): string {
    if s == "" then ""
    else [if 'A' <= s[0] <= 'Z' then (s[0] as int - 'A' as int + 'a' as int) as char else s[0]] + ToLower(s[1..])
  }

  const PUBLIC_HOSTS: set<string> := {
    "github.com", "api.github.com", "gitlab.com", "bitbucket.org", "api.bitbucket.org", "gitea.com", "codeberg.org"}

  predicate IsPublic(host: string) {
    ToLower(host) in PUBLIC_HOSTS
  }

  /** The API host of a public instance is folded onto the instance. */
  function Fold(host: string): string {
    if host == "api.github.com" then "github.com"
    else if host == "api.bitbucket.org" then "bitbucket.org"
    else host
  }

  function Canonical(host: string): string {
    Fold(ToLower(host))
  }

  /** What the URL, IDNA and IP libraries decide: how a host is normalised, or that it is
      refused, and whether it is private. */
  datatype Hosts = Hosts(parse: string -> Option<string>, isPrivate: string -> bool)

  /** The libraries normalise to a stable form that fits into a comma-separated list. */
  ghost predicate Stable(h: Hosts) {
    forall raw :: h.parse(raw).Some? ==> IsHost(h, Canonical(h.parse(raw).value))
  }

  /** A canonical host, which reads back as itself. */
  ghost predicate IsHost(h: Hosts, c: string) {
    c != "" && IsTrimmed(c) && ',' !in c && h.parse(c).Some? && Canonical(h.parse(c).value) == c && Canonical(c) == c
  }

  lemma {:induction false} LowerIsStable(s: string)
    ensures ToLower(ToLower(s)) == ToLower(s)
  {
    if s != "" {
      LowerIsStable(s[1..]);
    }
  }

  lemma {:induction false} LowerTail(s: string, i: nat)
    requires i <= |s| && ToLower(s) == s
    ensures ToLower(s[i..]) == s[i..]
    decreases i
  {
    if i == 0 {
      assert s[0..] == s;
    } else {
      assert s == [s[0]] + s[1..] && ToLower(s)[1..] == ToLower(s[1..]);
      LowerTail(s[1..], i - 1);
      assert s[1..][i - 1..] == s[i..];
    }
  }

  /** Folding twice is folding once. */
  lemma CanonicalIsStable(host: string)
    ensures Canonical(Canonical(host)) == Canonical(host)
    ensures IsPublic(Canonical(host)) <==> IsPublic(host)
  {
    var low := ToLower(host);
    LowerIsStable(host);
    if low == "api.github.com" || low == "api.bitbucket.org" {
      LowerTail(low, 4);
      assert low[4..] == Fold(low);
    }
  }

  // ---------- lists of hosts ----------

  /** The entries of a list, canonical, without empty entries and repetitions. */
  function Collect(h: Hosts, entries: seq<string>, known: seq<string>): Option<seq<string>>
    decreases |entries|
  {
    if entries == [] then Some(known)
    else
      var entry := TrimSpace(entries[0]);
      if entry == "" then Collect(h, entries[1..], known)
      else
        match h.parse(entry)
        case None => None
        case Some(host) =>
          Collect(h, entries[1..], if Canonical(host) in known then known else known + [Canonical(host)])
  }

  function Allowlist(h: Hosts, raw: string): Option<seq<string>> {
    Collect(h, Split(raw, ','), [])
  }

  method ParseAllowlist(h: Hosts, raw: string) returns (hosts: Option<seq<string>>)
    ensures hosts == Allowlist(h, raw)
  {
    var entries := Split(raw, ',');
    var list: seq<string> := [];
    var i := 0;
    assert entries[0..] == entries;
    while i < |entries|
      invariant 0 <= i <= |entries|
      invariant Collect(h, entries[i..], list) == Allowlist(h, raw)
    {
      assert entries[i..][0] == entries[i] && entries[i..][1..] == entries[i + 1..];
      var entry := TrimSpace(entries[i]);
      if entry != "" {
        var host := h.parse(entry);
        if host.None? {
          return None;
        }
        if Canonical(host.value) !in list {
          list := list + [Canonical(host.value)];
        }
      }
      i := i + 1;
    }
    return Some(list);
  }

  predicate Allowed(list: seq<string>, host: string) {
    exists a :: a in list && Canonical(a) == Canonical(host)
  }

  predicate Distinct(list: seq<string>) {
    list == [] || (list[|list| - 1] !in list[..|list| - 1] && Distinct(list[..|list| - 1]))
  }

  ghost predicate AllHosts(h: Hosts, list: seq<string>) {
    forall c :: c in list ==> IsHost(h, c)
  }

  /** Whatever is read is canonical and without repetition. */
  lemma {:induction false} CollectResult(h: Hosts, entries: seq<string>, known: seq<string>)
    requires Stable(h) && AllHosts(h, known) && Distinct(known) && Collect(h, entries, known).Some?
    ensures AllHosts(h, Collect(h, entries, known).value) && Distinct(Collect(h, entries, known).value)
    decreases |entries|
  {
    if entries != [] {
      var entry := TrimSpace(entries[0]);
      if entry == "" {
        CollectResult(h, entries[1..], known);
      } else {
        var c := Canonical(h.parse(entry).value);
        assert (known + [c])[..|known|] == known;
        CollectResult(h, entries[1..], if c in known then known else known + [c]);
      }
    }
  }

  /** The entry stands for this canonical host. */
  ghost predicate Means(h: Hosts, entry: string, c: string) {
    TrimSpace(entry) != "" && h.parse(TrimSpace(entry)).Some? && Canonical(h.parse(TrimSpace(entry)).value) == c
  }

  ghost predicate SomeMeans(h: Hosts, entries: seq<string>, c: string) {
    exists entry :: entry in entries && Means(h, entry, c)
  }

  /** The entry is neither empty nor a host. */
  ghost predicate Unreadable(h: Hosts, entry: string) {
    TrimSpace(entry) != "" && h.parse(TrimSpace(entry)).None?
  }

  lemma FirstOrLaterMeans(h: Hosts, entries: seq<string>, c: string)
    requires entries != []
    ensures SomeMeans(h, entries, c) <==> Means(h, entries[0], c) || SomeMeans(h, entries[1..], c)
    ensures (exists entry :: entry in entries && Unreadable(h, entry)) <==>
      Unreadable(h, entries[0]) || exists entry :: entry in entries[1..] && Unreadable(h, entry)
  {
    assert entries == [entries[0]] + entries[1..];
  }

  /** A list is refused if and only if some entry cannot be read; otherwise exactly the hosts
      of its entries are in it. */
  lemma {:induction false} CollectExactly(h: Hosts, entries: seq<string>, known: seq<string>, c: string)
    ensures Collect(h, entries, known).None? <==> exists entry :: entry in entries && Unreadable(h, entry)
    ensures Collect(h, entries, known).Some? ==>
      (c in Collect(h, entries, known).value <==> c in known || SomeMeans(h, entries, c))
    decreases |entries|
  {
    if entries != [] {
      FirstOrLaterMeans(h, entries, c);
      var entry := TrimSpace(entries[0]);
      if entry == "" {
        CollectExactly(h, entries[1..], known, c);
      } else if h.parse(entry).Some? {
        var found := Canonical(h.parse(entry).value);
        CollectExactly(h, entries[1..], if found in known then known else known + [found], c);
      }
    }
  }

  lemma CollectOne(h: Hosts, c: string, rest: seq<string>, known: seq<string>)
    requires IsHost(h, c) && c !in known
    ensures Collect(h, [c] + rest, known) == Collect(h, rest, known + [c])
  {
    TrimSpaceResult(c);
    assert ([c] + rest)[1..] == rest;
  }

  lemma Shift(known: seq<string>, more: seq<string>)
    requires more != []
    ensures known + more == (known + [more[0]]) + more[1..] && more == [more[0]] + more[1..]
  {
  }

  lemma FirstIsNew(known: seq<string>, more: seq<string>)
    requires more != [] && Distinct(known + more)
    ensures more[0] !in known
  {
    Shift(known, more);
    DistinctPrefix(known + [more[0]], more[1..]);
    assert (known + [more[0]])[..|known|] == known;
  }

  /** Reading canonical hosts that are all new adds them in order. */
  lemma {:induction false} CollectHosts(h: Hosts, known: seq<string>, more: seq<string>)
    requires AllHosts(h, more) && Distinct(known + more)
    ensures Collect(h, more, known) == Some(known + more)
    decreases |more|
  {
    if more == [] {
      assert known + more == known;
    } else {
      Shift(known, more);
      FirstIsNew(known, more);
      CollectOne(h, more[0], more[1..], known);
      CollectHosts(h, known + [more[0]], more[1..]);
    }
  }

  lemma {:induction false} DistinctPrefix(a: seq<string>, b: seq<string>)
    requires Distinct(a + b)
    ensures Distinct(a)
    decreases |b|
  {
    if b == [] {
      assert a + b == a;
    } else {
      assert (a + b)[..|a + b| - 1] == a + b[..|b| - 1];
      DistinctPrefix(a, b[..|b| - 1]);
    }
  }

  /** A list of canonical hosts without repetition survives writing and reading. */
  lemma JoinRoundTrip(h: Hosts, list: seq<string>)
    requires AllHosts(h, list) && Distinct(list)
    ensures Allowlist(h, Join(list, ',')) == Some(list)
  {
    if list == [] {
      assert TrimSpace("") == "" && [""][1..] == [];
    } else {
      SplitJoin(list, ',');
      assert [] + list == list;
      CollectHosts(h, [], list);
    }
  }

  // ---------- the policy ----------

  /** `learned` is the annotation, empty when there is none. */
  datatype ConfigMap = ConfigMap(version: nat, allowlist: string, learned: string)

  datatype Policy = Policy(allowlist: seq<string>, autoTrusted: seq<string>)

  /** An unreadable administrator's list is an error; an unreadable annotation is
      forgotten. */
  function PolicyFrom(h: Hosts, m: ConfigMap): Option<Policy> {
    match Allowlist(h, m.allowlist)
    case None => None
    case Some(list) =>
      Some(Policy(list, match Allowlist(h, m.learned) case None => [] case Some(learned) => learned))
  }

  predicate Check(p: Policy, host: string) {
    if p.allowlist != [] then Allowed(p.allowlist, host) else IsPublic(host) || Allowed(p.autoTrusted, host)
  }

  /** The canonical host, if it may be used. */
  function Trusted(h: Hosts, m: ConfigMap, raw: string): Option<string> {
    match h.parse(raw)
    case None => None
    case Some(host) =>
      match PolicyFrom(h, m)
      case None => None
      case Some(p) => if Check(p, host) then Some(Canonical(host)) else None
  }

  datatype Decision = Refused | Accepted | Learn(annotation: string)

  /** What one attempt of TrustOnFirstUse decides on the ConfigMap it has read. */
  function Decide(h: Hosts, m: ConfigMap, host: string): Decision {
    match PolicyFrom(h, m)
    case None => Refused
    case Some(p) =>
      if p.allowlist != [] then (if Check(p, host) then Accepted else Refused)
      else if IsPublic(host) || Canonical(host) in p.autoTrusted then Accepted
      else if h.isPrivate(host) then Refused
      else Learn(Join(p.autoTrusted + [Canonical(host)], ','))
  }

  // ---------- concurrent calls ----------

  /** A call has parsed its host and read the ConfigMap, perhaps long ago. */
  datatype Call = Call(host: string, seen: ConfigMap)

  datatype State = State(now: ConfigMap, calls: map<nat, Call>, accepted: set<string>)

  datatype Event =
    | Read(call: nat, raw: string)
    | Conclude(call: nat)
    | Edit(allowlist: string)

  /** A conclusion either needs no write, or writes under the version that was read; on a
      conflict the call reads again. Others may edit the ConfigMap, but not the
      annotation. `accepted` collects hosts that were accepted while the controller
      manages the policy. */
  function Step(h: Hosts, w: State, e: Event): State {
    match e
    case Read(call, raw) =>
      if h.parse(raw).None? then w else w.(calls := w.calls[call := Call(h.parse(raw).value, w.now)])
    case Edit(allowlist) => w.(now := w.now.(allowlist := allowlist, version := w.now.version + 1))
    case Conclude(id) =>
      if id !in w.calls then w
      else
        var call := w.calls[id];
        var done := w.(calls := w.calls - {id});
        match Decide(h, call.seen, call.host)
        case Refused => done
        case Accepted => if Manages(h, call.seen) then done.(accepted := w.accepted + {call.host}) else done
        case Learn(annotation) =>
          if call.seen.version != w.now.version then w.(calls := w.calls[id := call.(seen := w.now)])
          else
            done.(now := w.now.(learned := annotation, version := w.now.version + 1),
                  accepted := w.accepted + {call.host})
  }

  /** The administrator's list is readable and empty. */
  predicate Manages(h: Hosts, m: ConfigMap) {
    Allowlist(h, m.allowlist) == Some([])
  }

  function Steps(h: Hosts, w: State, events: seq<Event>): State
    decreases |events|
  {
    if events == [] then w else Steps(h, Step(h, w, events[0]), events[1..])
  }

  function Fresh(allowlist: string): State {
    State(ConfigMap(0, allowlist, ""), map[], {})
  }

  /** The hosts in the annotation. */
  function Learned(h: Hosts, m: ConfigMap): seq<string> {
    match Allowlist(h, m.learned) case None => [] case Some(list) => list
  }

  /** The annotation is the written form of a list of canonical, distinct hosts. */
  ghost predicate Clean(h: Hosts, m: ConfigMap) {
    AllHosts(h, Learned(h, m)) && Distinct(Learned(h, m)) && m.learned == Join(Learned(h, m), ',')
  }

  /** What a call has seen is a part of what is known now, and all of it if the versions
      agree. */
  ghost predicate CallOk(h: Hosts, now: ConfigMap, call: Call) {
    && IsHost(h, Canonical(call.host)) && Clean(h, call.seen)
    && call.seen.version <= now.version && Learned(h, call.seen) <= Learned(h, now)
    && (call.seen.version == now.version ==> call.seen == now)
  }

  /** A host that was accepted is public or learned. */
  ghost predicate AcceptedOk(h: Hosts, now: ConfigMap, host: string) {
    IsPublic(host) || Canonical(host) in Learned(h, now)
  }

  ghost predicate Sound(h: Hosts, w: State) {
    && Clean(h, w.now)
    && (forall i :: i in w.calls ==> CallOk(h, w.now, w.calls[i]))
    && (forall a :: a in w.accepted ==> AcceptedOk(h, w.now, a))
  }

  /** A new version of the ConfigMap that knows no less. */
  ghost predicate Newer(h: Hosts, m: ConfigMap, m': ConfigMap) {
    m.version < m'.version && Learned(h, m) <= Learned(h, m')
  }

  lemma NewerKeepsSound(h: Hosts, w: State, m': ConfigMap)
    requires Sound(h, w) && Newer(h, w.now, m') && Clean(h, m')
    ensures Sound(h, w.(now := m'))
  {
    forall i | i in w.calls ensures CallOk(h, m', w.calls[i]) {
      assert CallOk(h, w.now, w.calls[i]);
    }
    forall a | a in w.accepted ensures AcceptedOk(h, m', a) {
      assert AcceptedOk(h, w.now, a);
    }
  }

  lemma LearnKeepsClean(h: Hosts, m: ConfigMap, host: string, version: nat)
    requires Clean(h, m) && Decide(h, m, host).Learn? && IsHost(h, Canonical(host))
    ensures var m' := m.(learned := Decide(h, m, host).annotation, version := version);
      Clean(h, m') && Learned(h, m') == Learned(h, m) + [Canonical(host)]
  {
    var list := Learned(h, m) + [Canonical(host)];
    assert list[..|list| - 1] == Learned(h, m);
    JoinRoundTrip(h, list);
  }

  /** The annotation changed by appending one host, under a new version. */
  lemma LearningKeepsSound(h: Hosts, w: State, id: nat)
    requires Sound(h, w) && id in w.calls && w.calls[id].seen == w.now
    requires Decide(h, w.now, w.calls[id].host).Learn?
    ensures Sound(h, Step(h, w, Conclude(id))) && Learned(h, w.now) <= Learned(h, Step(h, w, Conclude(id)).now)
  {
    assert CallOk(h, w.now, w.calls[id]);
    LearnKeepsClean(h, w.now, w.calls[id].host, w.now.version + 1);
    NewerKeepsSound(h, w, Step(h, w, Conclude(id)).now);
  }

  lemma AcceptedIsKnown(h: Hosts, m: ConfigMap, host: string, list: seq<string>)
    requires Decide(h, m, host).Accepted? && Manages(h, m) && Learned(h, m) <= list
    ensures IsPublic(host) || Canonical(host) in list
  {
    assert Learned(h, m) == list[..|Learned(h, m)|];
  }

  lemma AcceptingKeepsSound(h: Hosts, w: State, id: nat)
    requires Sound(h, w) && id in w.calls && Decide(h, w.calls[id].seen, w.calls[id].host).Accepted?
    ensures Sound(h, Step(h, w, Conclude(id))) && Step(h, w, Conclude(id)).now == w.now
  {
    var call := w.calls[id];
    assert CallOk(h, w.now, call);
    if Manages(h, call.seen) {
      AcceptedIsKnown(h, call.seen, call.host, Learned(h, w.now));
    }
  }

  lemma EditingKeepsSound(h: Hosts, w: State, e: Event)
    requires Sound(h, w) && e.Edit?
    ensures Sound(h, Step(h, w, e)) && Learned(h, w.now) <= Learned(h, Step(h, w, e).now)
  {
    NewerKeepsSound(h, w, Step(h, w, e).now);
  }

  lemma ReadingKeepsSound(h: Hosts, w: State, e: Event)
    requires Stable(h) && Sound(h, w) && e.Read?
    ensures Sound(h, Step(h, w, e)) && Step(h, w, e).now == w.now
  {
  }

  lemma NotWritingKeepsSound(h: Hosts, w: State, id: nat)
    requires Sound(h, w) && id in w.calls
    requires var d := Decide(h, w.calls[id].seen, w.calls[id].host);
      d.Refused? || (d.Learn? && w.calls[id].seen.version != w.now.version)
    ensures Sound(h, Step(h, w, Conclude(id))) && Step(h, w, Conclude(id)).now == w.now
  {
  }

  lemma ConcludingKeepsSound(h: Hosts, w: State, id: nat)
    requires Sound(h, w) && id in w.calls
    ensures Sound(h, Step(h, w, Conclude(id))) && Learned(h, w.now) <= Learned(h, Step(h, w, Conclude(id)).now)
  {
    var call := w.calls[id];
    assert CallOk(h, w.now, call);
    var d := Decide(h, call.seen, call.host);
    if d.Accepted? {
      AcceptingKeepsSound(h, w, id);
    } else if d.Learn? && call.seen.version == w.now.version {
      LearningKeepsSound(h, w, id);
    } else {
      NotWritingKeepsSound(h, w, id);
    }
  }

  lemma StepKeepsSound(h: Hosts, w: State, e: Event)
    requires Stable(h) && Sound(h, w)
    ensures Sound(h, Step(h, w, e)) && Learned(h, w.now) <= Learned(h, Step(h, w, e).now)
  {
    if e.Read? {
      ReadingKeepsSound(h, w, e);
    } else if e.Edit? {
      EditingKeepsSound(h, w, e);
    } else if e.call in w.calls {
      ConcludingKeepsSound(h, w, e.call);
    }
  }

  lemma {:induction false} StepsKeepSound(h: Hosts, w: State, events: seq<Event>)
    requires Stable(h) && Sound(h, w)
    ensures Sound(h, Steps(h, w, events)) && Learned(h, w.now) <= Learned(h, Steps(h, w, events).now)
    decreases |events|
  {
    if events != [] {
      StepKeepsSound(h, w, events[0]);
      StepsKeepSound(h, Step(h, w, events[0]), events[1..]);
    }
  }

  lemma FreshIsSound(h: Hosts, allowlist: string)
    ensures Sound(h, Fresh(allowlist))
  {
    JoinRoundTrip(h, []);
  }

  /** Learned hosts are never lost. Over every interleaving of calls and edits the
      learned list only grows at its end; it stays canonical and without repetition; and
      reading what was written gives it back. */
  lemma LearnedHostsOnlyGrow(h: Hosts, allowlist: string, before: seq<Event>, after: seq<Event>)
    requires Stable(h)
    ensures
      var w := Steps(h, Fresh(allowlist), before);
      var w' := Steps(h, w, after);
      && Learned(h, w.now) <= Learned(h, w'.now)
      && AllHosts(h, Learned(h, w'.now)) && Distinct(Learned(h, w'.now))
      && Allowlist(h, Join(Learned(h, w'.now), ',')) == Some(Learned(h, w'.now))
  {
    FreshIsSound(h, allowlist);
    StepsKeepSound(h, Fresh(allowlist), before);
    var w := Steps(h, Fresh(allowlist), before);
    StepsKeepSound(h, w, after);
    JoinRoundTrip(h, Learned(h, Steps(h, w, after).now));
  }

  /** A host that was ever accepted while the controller manages the policy is accepted by
      Trusted whenever the controller manages it, under its canonical name. */
  lemma AcceptedStaysTrusted(h: Hosts, allowlist: string, events: seq<Event>, raw: string)
    requires Stable(h) && h.parse(raw).Some?
    requires var w := Steps(h, Fresh(allowlist), events);
      h.parse(raw).value in w.accepted && Manages(h, w.now)
    ensures Trusted(h, Steps(h, Fresh(allowlist), events).now, raw) == Some(Canonical(h.parse(raw).value))
  {
    FreshIsSound(h, allowlist);
    StepsKeepSound(h, Fresh(allowlist), events);
    CanonicalIsStable(h.parse(raw).value);
  }

  /** While the controller manages the policy, Trusted accepts exactly the public hosts
      and those it has learned. */
  lemma TrustedIffLearned(h: Hosts, allowlist: string, events: seq<Event>, raw: string)
    requires Stable(h) && h.parse(raw).Some?
    requires Manages(h, Steps(h, Fresh(allowlist), events).now)
    ensures var m := Steps(h, Fresh(allowlist), events).now;
      Trusted(h, m, raw).Some? <==> IsPublic(h.parse(raw).value) || Canonical(h.parse(raw).value) in Learned(h, m)
  {
    FreshIsSound(h, allowlist);
    StepsKeepSound(h, Fresh(allowlist), events);
    CanonicalIsStable(h.parse(raw).value);
  }

  /** Under an administrator's list that is not empty, exactly its hosts are trusted; under one
      that cannot be read, none is. */
  lemma TrustedUnderList(h: Hosts, m: ConfigMap, raw: string, host: string)
    requires Stable(h) && h.parse(raw) == Some(host) && !Manages(h, m)
    ensures Trusted(h, m, raw) ==
      if (forall entry :: entry in Split(m.allowlist, ',') ==> !Unreadable(h, entry))
         && SomeMeans(h, Split(m.allowlist, ','), Canonical(host))
      then Some(Canonical(host)) else None
  {
    var entries := Split(m.allowlist, ',');
    CollectExactly(h, entries, [], Canonical(host));
    if Allowlist(h, m.allowlist).Some? {
      CollectResult(h, entries, []);
      var list := Allowlist(h, m.allowlist).value;
      assert forall a :: a in list ==> Canonical(a) == a;
    }
  }

  /** And a call is accepted for exactly those hosts, and never learns one. */
  lemma DecideUnderList(h: Hosts, m: ConfigMap, host: string)
    requires Stable(h) && !Manages(h, m)
    ensures Decide(h, m, host) ==
      if (forall entry :: entry in Split(m.allowlist, ',') ==> !Unreadable(h, entry))
         && SomeMeans(h, Split(m.allowlist, ','), Canonical(host))
      then Accepted else Refused
  {
    var entries := Split(m.allowlist, ',');
    CollectExactly(h, entries, [], Canonical(host));
    if Allowlist(h, m.allowlist).Some? {
      CollectResult(h, entries, []);
    }
  }

  lemma DecideOnOwn(h: Hosts, m: ConfigMap, host: string)
    ensures Manages(h, m) ==>
      Decide(h, m, host) == (
        if IsPublic(host) || Canonical(host) in Learned(h, m) then Accepted
        else if h.isPrivate(host) then Refused
        else Learn(Join(Learned(h, m) + [Canonical(host)], ',')))
    ensures !Manages(h, m) ==> !Decide(h, m, host).Learn?
  {
  }

  /** What changes the learned list: a call that was concluded on what is in force now, while
      the controller manages the policy, for a host that is neither public nor private nor
      known; and it adds that host at the end. */
  lemma LearnedOnlyBy(h: Hosts, w: State, e: Event)
    requires Stable(h) && Sound(h, w) && Step(h, w, e).now.learned != w.now.learned
    ensures e.Conclude? && e.call in w.calls && Manages(h, w.now)
    ensures var host := w.calls[e.call].host;
      && !IsPublic(host) && !h.isPrivate(host) && Canonical(host) !in Learned(h, w.now)
      && Learned(h, Step(h, w, e).now) == Learned(h, w.now) + [Canonical(host)]
  {
    var call := w.calls[e.call];
    assert CallOk(h, w.now, call);
    DecideOnOwn(h, call.seen, call.host);
    LearnKeepsClean(h, w.now, call.host, w.now.version + 1);
  }

  /** The hosts in the list were learned as hosts that are neither public nor private. */
  ghost predicate LearnedRightly(h: Hosts, m: ConfigMap) {
    forall c :: c in Learned(h, m) ==> exists host :: Canonical(host) == c && !IsPublic(host) && !h.isPrivate(host)
  }

  lemma StepLearnsRightly(h: Hosts, w: State, e: Event)
    requires Stable(h) && Sound(h, w) && LearnedRightly(h, w.now)
    ensures LearnedRightly(h, Step(h, w, e).now)
  {
    if Step(h, w, e).now.learned != w.now.learned {
      LearnedOnlyBy(h, w, e);
    }
  }

  lemma {:induction false} StepsLearnRightly(h: Hosts, w: State, events: seq<Event>)
    requires Stable(h) && Sound(h, w) && LearnedRightly(h, w.now)
    ensures LearnedRightly(h, Steps(h, w, events).now)
    decreases |events|
  {
    if events != [] {
      StepKeepsSound(h, w, events[0]);
      StepLearnsRightly(h, w, events[0]);
      StepsLearnRightly(h, Step(h, w, events[0]), events[1..]);
    }
  }

  /** A private host is never learned, over any interleaving of calls and edits. */
  lemma PrivateIsNeverLearned(h: Hosts, allowlist: string, events: seq<Event>)
    requires Stable(h)
    ensures LearnedRightly(h, Steps(h, Fresh(allowlist), events).now)
  {
    FreshIsSound(h, allowlist);
    JoinRoundTrip(h, []);
    StepsLearnRightly(h, Fresh(allowlist), events);
  }

  /** While the controller manages the policy, a host that is public or known is accepted,
      without a write. */
  lemma KnownIsAccepted(h: Hosts, w: State, id: nat)
    requires id in w.calls && Manages(h, w.calls[id].seen)
    requires IsPublic(w.calls[id].host) || Canonical(w.calls[id].host) in Learned(h, w.calls[id].seen)
    ensures var w' := Step(h, w, Conclude(id));
      w'.now == w.now && w'.accepted == w.accepted + {w.calls[id].host} && id !in w'.calls
  {
    DecideOnOwn(h, w.calls[id].seen, w.calls[id].host);
  }

  /** While the controller manages the policy, a host that is neither public nor known is
      refused if it is private. */
  lemma PrivateIsRefused(h: Hosts, w: State, id: nat)
    requires id in w.calls && w.calls[id].seen == w.now && Manages(h, w.now)
    requires !IsPublic(w.calls[id].host) && Canonical(w.calls[id].host) !in Learned(h, w.now)
    requires h.isPrivate(w.calls[id].host)
    ensures var w' := Step(h, w, Conclude(id)); w'.now == w.now && w'.accepted == w.accepted
  {
    DecideOnOwn(h, w.now, w.calls[id].host);
  }

  /** And learned if it is not. */
  lemma NewHostIsLearned(h: Hosts, w: State, id: nat)
    requires id in w.calls && w.calls[id].seen == w.now && Manages(h, w.now)
    requires !IsPublic(w.calls[id].host) && Canonical(w.calls[id].host) !in Learned(h, w.now)
    requires !h.isPrivate(w.calls[id].host) && Clean(h, w.now) && IsHost(h, Canonical(w.calls[id].host))
    ensures var host, w' := w.calls[id].host, Step(h, w, Conclude(id));
      Learned(h, w'.now) == Learned(h, w.now) + [Canonical(host)] && w'.accepted == w.accepted + {host}
  {
    DecideOnOwn(h, w.now, w.calls[id].host);
    LearnKeepsClean(h, w.now, w.calls[id].host, w.now.version + 1);
  }
}
