/** Resolving the tasks and pipelines that PipelineRuns refer to: fetching them once per
    event, choosing among tasks of the same name, and inlining them. */
module TaskResolution {
  import opened Wrappers

  // ---------- resources, as far as resolution looks at them ----------

  datatype TaskRef = TaskRef(name: string, resolver: string, apiVersion: string, kind: string)

  /** What an embedded task holds: spec, labels and annotations of a Tekton task. */
  datatype Body = Body(spec: string, labels: string, annotations: string)

  datatype PipelineTask = PipelineTask(name: string, ref: Option<TaskRef>, body: Option<Body>, rest: string)

  datatype Task = Task(name: string, body: Body)

  datatype Spec = Spec(tasks: seq<PipelineTask>, finals: seq<PipelineTask>, rest: string)

  /** `tasks` is what the annotations name, or the error of reading them. */
  datatype Pipeline = Pipeline(name: string, annotated: bool, tasks: Result<seq<string>>, spec: Spec)

  datatype PipelineRef = PipelineRef(name: string, resolver: string)

  datatype Run = Run(
    name: string, generateName: string, annotated: bool, pipeline: Result<string>, tasks: Result<seq<string>>,
    ref: Option<PipelineRef>, spec: Option<Spec>)

  datatype Opts = Opts(generateName: bool, remoteTasks: bool, skipInlining: seq<string>)

  /** The .tekton directory, and what the network answers: one answer for each name. */
  datatype Environment = Environment(
    pipelines: seq<Pipeline>, tasks: seq<Task>,
    fetchTask: string -> Result<Task>, fetchPipeline: string -> Result<Pipeline>,
    assemble: (string, seq<string>) -> Result<seq<string>>)

  // ---------- inlining ----------

  predicate IsTektonAPIVersion(v: string) {
    v == "" || "tekton.dev/" <= v
  }

  predicate Inlinable(t: PipelineTask, opts: Opts) {
    && t.ref.Some? && t.ref.value.resolver == "" && IsTektonAPIVersion(t.ref.value.apiVersion)
    && t.ref.value.kind != "ClusterTask" && t.ref.value.name !in opts.skipInlining
  }

  /** A reference gives way to what it refers to. */
  function InlineOne(t: PipelineTask, opts: Opts, table: map<string, Task>): Result<PipelineTask> {
    if !Inlinable(t, opts) then Ok(t)
    else if t.ref.value.name !in table then Err(t.ref.value.name)
    else Ok(t.(ref := None, body := Some(table[t.ref.value.name].body)))
  }

  /** The first task that is inlinable and unknown is reported. */
  function Inline(ts: seq<PipelineTask>, opts: Opts, table: map<string, Task>): Result<seq<PipelineTask>> {
    if ts == [] then Ok([])
    else
      match InlineOne(ts[0], opts, table)
      case Err(e) => Err(e)
      case Ok(t) => Prepend([t], Inline(ts[1..], opts, table))
  }

  method InlineTasks(ts: seq<PipelineTask>, opts: Opts, table: map<string, Task>)
    returns (r: Result<seq<PipelineTask>>)
    ensures r == Inline(ts, opts, table)
  {
    var done: seq<PipelineTask> := [];
    var i := 0;
    PrependTwice([], [], Inline(ts, opts, table));
    assert ts[0..] == ts;
    while i < |ts|
      invariant 0 <= i <= |ts|
      invariant Inline(ts, opts, table) == Prepend(done, Inline(ts[i..], opts, table))
    {
      var t := ts[i];
      assert ts[i..][0] == t && ts[i..][1..] == ts[i + 1..];
      if Inlinable(t, opts) {
        if t.ref.value.name !in table {
          return Err(t.ref.value.name);
        }
        t := t.(ref := None, body := Some(table[t.ref.value.name].body));
      }
      PrependTwice(done, [t], Inline(ts[i + 1..], opts, table));
      done := done + [t];
      i := i + 1;
    }
    assert ts[i..] == [] && done + [] == done;
    return Ok(done);
  }

  // ---------- the tasks of one run ----------

  /** Fetching in order; the first failure is the result. */
  function FetchAll(names: seq<string>, w: Environment): Result<seq<Task>> {
    if names == [] then Ok([])
    else
      match w.fetchTask(names[0])
      case Err(e) => Err(e)
      case Ok(task) => Prepend([task], FetchAll(names[1..], w))
  }

  /** A table keeps the first task of each name. */
  function Table(known: map<string, Task>, tasks: seq<Task>): map<string, Task>
    decreases |tasks|
  {
    if tasks == [] then known
    else Table(if tasks[0].name in known then known else known[tasks[0].name := tasks[0]], tasks[1..])
  }

  /** The names a run's tasks are fetched by: its own, then its pipeline's. */
  function TaskNames(own: seq<string>, fromPipeline: seq<string>): seq<string> {
    own + fromPipeline
  }

  function RunTable(names: seq<string>, opts: Opts, w: Environment): Result<map<string, Task>> {
    if !opts.remoteTasks then Ok(Table(map[], w.tasks))
    else
      match FetchAll(names, w)
      case Err(e) => Err(e)
      case Ok(fetched) => Ok(Table(map[], fetched + w.tasks))
  }

  function PipelineByName(name: string, pipelines: seq<Pipeline>): Result<Pipeline> {
    if pipelines == [] then Err(name)
    else if pipelines[0].name == name then Ok(pipelines[0])
    else PipelineByName(name, pipelines[1..])
  }

  predicate RefersToPipeline(run: Run) {
    run.ref.Some? && run.ref.value.resolver == ""
  }

  /** The pipeline that the run's annotations name, if they do. */
  function RemotePipeline(run: Run, opts: Opts, w: Environment): Result<Option<Pipeline>> {
    if !opts.remoteTasks then Ok(None)
    else
      match run.pipeline
      case Err(e) => Err(e)
      case Ok(name) =>
        if name == "" then Ok(None)
        else
          match w.fetchPipeline(name)
          case Err(e) => Err(e)
          case Ok(p) => Ok(Some(p))
  }

  /** Where relative task names of a remote pipeline are resolved against. */
  function PipelineURL(run: Run, opts: Opts): string {
    if opts.remoteTasks && run.pipeline.Ok? then run.pipeline.value else ""
  }

  function ChosenPipeline(run: Run, remote: Option<Pipeline>, w: Environment): Result<Pipeline>
    requires run.ref.Some?
  {
    if remote.Some? && remote.value.name == run.ref.value.name then Ok(remote.value)
    else PipelineByName(run.ref.value.name, w.pipelines)
  }

  function PipelineTasks(p: Pipeline, url: string, w: Environment): Result<seq<string>> {
    if !p.annotated then Ok([])
    else
      match p.tasks
      case Err(e) => Err(e)
      case Ok(names) => if url == "" then Ok(names) else w.assemble(url, names)
  }

  // ---------- one run, without a cache ----------

  function InlineSpec(s: Spec, opts: Opts, table: map<string, Task>): Result<Spec> {
    match Inline(s.tasks, opts, table)
    case Err(e) => Err(e)
    case Ok(tasks) =>
      match Inline(s.finals, opts, table)
      case Err(e) => Err(e)
      case Ok(finals) => Ok(s.(tasks := tasks, finals := finals))
  }

  function Named(run: Run, opts: Opts): Run {
    if opts.generateName && run.generateName == "" then run.(generateName := run.name + "-", name := "") else run
  }

  /** The spec of the pipeline is inlined into the run; then the run's own spec is
      inlined, which for a run with a pipeline is a second pass. */
  function Inlined(run: Run, pipeline: Option<Pipeline>, opts: Opts, table: map<string, Task>): Result<Run> {
    var first :=
      if pipeline.None? then Ok(run)
      else
        match InlineSpec(pipeline.value.spec, opts, table)
        case Err(e) => Err(e)
        case Ok(s) => Ok(run.(ref := None, spec := Some(s)));
    match first
    case Err(e) => Err(e)
    case Ok(r) =>
      if r.spec.None? then Ok(r)
      else
        match InlineSpec(r.spec.value, opts, table)
        case Err(e) => Err(e)
        case Ok(s) => Ok(r.(spec := Some(s)))
  }

  /** The pipeline a run is resolved with, and the names of the tasks to fetch. */
  function Plan(run: Run, opts: Opts, w: Environment): Result<(Option<Pipeline>, seq<string>)> {
    match RemotePipeline(run, opts, w)
    case Err(e) => Err(e)
    case Ok(remote) =>
      var chosen :=
        if RefersToPipeline(run)
        then match ChosenPipeline(run, remote, w) case Err(e) => Err(e) case Ok(p) => Ok(Some(p))
        else Ok(None);
      match chosen
      case Err(e) => Err(e)
      case Ok(pipeline) =>
        var named := if pipeline.None? then Ok([]) else PipelineTasks(pipeline.value, PipelineURL(run, opts), w);
        match named
        case Err(e) => Err(e)
        case Ok(fromPipeline) =>
          if !opts.remoteTasks then Ok((pipeline, []))
          else
            match run.tasks
            case Err(e) => Err(e)
            case Ok(own) => Ok((pipeline, TaskNames(own, fromPipeline)))
  }

  function ResolveRun(run: Run, opts: Opts, w: Environment): Result<Run> {
    match Plan(run, opts, w)
    case Err(e) => Err(e)
    case Ok((pipeline, names)) =>
      match RunTable(names, opts, w)
      case Err(e) => Err(e)
      case Ok(table) =>
        match Inlined(run, pipeline, opts, table)
        case Err(e) => Err(e)
        case Ok(r) => Ok(Named(r, opts))
  }

  /** Runs without annotations are left out when remote resolution is on. */
  function ResolveAll(runs: seq<Run>, opts: Opts, w: Environment): Result<seq<Run>> {
    if runs == [] then Ok([])
    else if opts.remoteTasks && !runs[0].annotated then ResolveAll(runs[1..], opts, w)
    else
      match ResolveRun(runs[0], opts, w)
      case Err(e) => Err(e)
      case Ok(r) => Prepend([r], ResolveAll(runs[1..], opts, w))
  }

  // ---------- the code's form, with its caches ----------

  /** Everything in the cache is what the network would answer again. */
  ghost predicate TasksCached(cache: map<string, Task>, w: Environment) {
    forall k :: k in cache ==> w.fetchTask(k) == Ok(cache[k])
  }

  ghost predicate PipelinesCached(cache: map<string, Pipeline>, w: Environment) {
    forall k :: k in cache ==> w.fetchPipeline(k) == Ok(cache[k])
  }

  lemma {:induction false} TableAppend(known: map<string, Task>, a: seq<Task>, b: seq<Task>)
    ensures Table(known, a + b) == Table(Table(known, a), b)
    decreases |a|
  {
    if a == [] {
      assert a + b == b;
    } else {
      assert (a + b)[1..] == a[1..] + b;
      TableAppend(if a[0].name in known then known else known[a[0].name := a[0]], a[1..], b);
    }
  }

  lemma TableLast(known: map<string, Task>, a: seq<Task>, task: Task)
    ensures Table(known, a + [task]) ==
      var t := Table(known, a); if task.name in t then t else t[task.name := task]
  {
    TableAppend(known, a, [task]);
    assert [task][1..] == [];
  }

  /** The loop over the names: each is fetched at most once per event. */
  method FetchTasks(names: seq<string>, w: Environment, cache0: map<string, Task>)
    returns (r: Result<map<string, Task>>, cache: map<string, Task>)
    requires TasksCached(cache0, w)
    ensures TasksCached(cache, w)
    ensures r == match FetchAll(names, w) case Err(e) => Err(e) case Ok(fetched) => Ok(Table(map[], fetched))
  {
    cache := cache0;
    var table: map<string, Task> := map[];
    ghost var got: seq<Task> := [];
    var i := 0;
    PrependTwice([], [], FetchAll(names, w));
    assert names[0..] == names;
    while i < |names|
      invariant 0 <= i <= |names| && TasksCached(cache, w)
      invariant FetchAll(names, w) == Prepend(got, FetchAll(names[i..], w))
      invariant table == Table(map[], got)
    {
      assert names[i..][0] == names[i] && names[i..][1..] == names[i + 1..];
      var task;
      if names[i] in cache {
        task := cache[names[i]];
      } else {
        var answer := w.fetchTask(names[i]);
        if answer.Err? {
          return Err(answer.error), cache;
        }
        task := answer.value;
        cache := cache[names[i] := task];
      }
      TableLast(map[], got, task);
      if task.name !in table {
        table := table[task.name := task];
      }
      PrependTwice(got, [task], FetchAll(names[i + 1..], w));
      got := got + [task];
      i := i + 1;
    }
    assert names[i..] == [] && got + [] == got;
    return Ok(table), cache;
  }

  method AddTasks(known: map<string, Task>, tasks: seq<Task>) returns (table: map<string, Task>)
    ensures table == Table(known, tasks)
  {
    table := known;
    var i := 0;
    while i < |tasks|
      invariant 0 <= i <= |tasks| && table == Table(known, tasks[..i])
    {
      assert tasks[..i + 1] == tasks[..i] + [tasks[i]];
      TableLast(known, tasks[..i], tasks[i]);
      if tasks[i].name !in table {
        table := table[tasks[i].name := tasks[i]];
      }
      i := i + 1;
    }
    assert tasks[..i] == tasks;
  }

  /** The pipeline from the annotations, fetched at most once per event. */
  method FetchPipeline(run: Run, opts: Opts, w: Environment, cache0: map<string, Pipeline>)
    returns (r: Result<Option<Pipeline>>, cache: map<string, Pipeline>)
    requires PipelinesCached(cache0, w)
    ensures PipelinesCached(cache, w) && r == RemotePipeline(run, opts, w)
  {
    cache := cache0;
    if !opts.remoteTasks {
      return Ok(None), cache;
    }
    if run.pipeline.Err? {
      return Err(run.pipeline.error), cache;
    }
    var name := run.pipeline.value;
    if name == "" {
      return Ok(None), cache;
    }
    if name in cache {
      return Ok(Some(cache[name])), cache;
    }
    var answer := w.fetchPipeline(name);
    if answer.Err? {
      return Err(answer.error), cache;
    }
    cache := cache[name := answer.value];
    return Ok(Some(answer.value)), cache;
  }

  method TasksOfRun(names: seq<string>, opts: Opts, w: Environment, cache0: map<string, Task>)
    returns (r: Result<map<string, Task>>, cache: map<string, Task>)
    requires TasksCached(cache0, w)
    ensures TasksCached(cache, w) && r == RunTable(names, opts, w)
  {
    cache := cache0;
    var table: map<string, Task> := map[];
    if opts.remoteTasks {
      r, cache := FetchTasks(names, w, cache0);
      if r.Err? {
        return;
      }
      table := r.value;
      TableAppend(map[], FetchAll(names, w).value, w.tasks);
    }
    table := AddTasks(table, w.tasks);
    return Ok(table), cache;
  }

  method InlineSpecOf(s: Spec, opts: Opts, table: map<string, Task>) returns (r: Result<Spec>)
    ensures r == InlineSpec(s, opts, table)
  {
    var tasks := InlineTasks(s.tasks, opts, table);
    if tasks.Err? {
      return Err(tasks.error);
    }
    var finals := InlineTasks(s.finals, opts, table);
    if finals.Err? {
      return Err(finals.error);
    }
    return Ok(s.(tasks := tasks.value, finals := finals.value));
  }

  method InlineRun(run: Run, pipeline: Option<Pipeline>, opts: Opts, table: map<string, Task>) returns (r: Result<Run>)
    ensures r == Inlined(run, pipeline, opts, table)
  {
    var done := run;
    if pipeline.Some? {
      var s := InlineSpecOf(pipeline.value.spec, opts, table);
      if s.Err? {
        return Err(s.error);
      }
      done := done.(ref := None, spec := Some(s.value));
    }
    if done.spec.Some? {
      var s := InlineSpecOf(done.spec.value, opts, table);
      if s.Err? {
        return Err(s.error);
      }
      done := done.(spec := Some(s.value));
    }
    return Ok(done);
  }

  method PlanRun(run: Run, opts: Opts, w: Environment, cache0: map<string, Pipeline>)
    returns (r: Result<(Option<Pipeline>, seq<string>)>, cache: map<string, Pipeline>)
    requires PipelinesCached(cache0, w)
    ensures PipelinesCached(cache, w) && r == Plan(run, opts, w)
  {
    var remote;
    remote, cache := FetchPipeline(run, opts, w, cache0);
    if remote.Err? {
      return Err(remote.error), cache;
    }
    var pipeline: Option<Pipeline> := None;
    var names: seq<string> := [];
    if RefersToPipeline(run) {
      var chosen := ChosenPipeline(run, remote.value, w);
      if chosen.Err? {
        return Err(chosen.error), cache;
      }
      pipeline := Some(chosen.value);
      var named := PipelineTasks(chosen.value, PipelineURL(run, opts), w);
      if named.Err? {
        return Err(named.error), cache;
      }
      names := named.value;
    }
    if !opts.remoteTasks {
      return Ok((pipeline, [])), cache;
    }
    if run.tasks.Err? {
      return Err(run.tasks.error), cache;
    }
    return Ok((pipeline, TaskNames(run.tasks.value, names))), cache;
  }

  /** One run of the loop. */
  method ResolveOne(run: Run, opts: Opts, w: Environment, pipelines0: map<string, Pipeline>, tasks0: map<string, Task>)
    returns (r: Result<Run>, pipelines: map<string, Pipeline>, tasks: map<string, Task>)
    requires PipelinesCached(pipelines0, w) && TasksCached(tasks0, w)
    ensures PipelinesCached(pipelines, w) && TasksCached(tasks, w) && r == ResolveRun(run, opts, w)
  {
    tasks := tasks0;
    var plan;
    plan, pipelines := PlanRun(run, opts, w, pipelines0);
    if plan.Err? {
      return Err(plan.error), pipelines, tasks;
    }
    var table;
    table, tasks := TasksOfRun(plan.value.1, opts, w, tasks);
    if table.Err? {
      return Err(table.error), pipelines, tasks;
    }
    var inlined := InlineRun(run, plan.value.0, opts, table.value);
    if inlined.Err? {
      return Err(inlined.error), pipelines, tasks;
    }
    return Ok(Named(inlined.value, opts)), pipelines, tasks;
  }

  /** The whole loop. Its caches do not show: the result is the one that fetches
      everything again for every run. */
  method ResolveRemoteResources(runs: seq<Run>, opts: Opts, w: Environment) returns (r: Result<seq<Run>>)
    ensures r == ResolveAll(runs, opts, w)
  {
    var pipelines: map<string, Pipeline> := map[];
    var tasks: map<string, Task> := map[];
    var done: seq<Run> := [];
    var i := 0;
    PrependTwice([], [], ResolveAll(runs, opts, w));
    assert runs[0..] == runs;
    while i < |runs|
      invariant 0 <= i <= |runs| && TasksCached(tasks, w) && PipelinesCached(pipelines, w)
      invariant ResolveAll(runs, opts, w) == Prepend(done, ResolveAll(runs[i..], opts, w))
    {
      var run := runs[i];
      assert runs[i..][0] == run && runs[i..][1..] == runs[i + 1..];
      if !opts.remoteTasks || run.annotated {
        var resolved;
        resolved, pipelines, tasks := ResolveOne(run, opts, w, pipelines, tasks);
        if resolved.Err? {
          return Err(resolved.error);
        }
        PrependTwice(done, [resolved.value], ResolveAll(runs[i + 1..], opts, w));
        done := done + [resolved.value];
      }
      i := i + 1;
    }
    assert runs[i..] == [] && done + [] == done;
    return Ok(done);
  }

  // ---------- what resolution means ----------

  /** The first task of the name. */
  function First(tasks: seq<Task>, name: string): Option<Task> {
    if tasks == [] then None else if tasks[0].name == name then Some(tasks[0]) else First(tasks[1..], name)
  }

  /** The table holds, for every name, the first task of that name. */
  lemma {:induction false} TableIsFirst(known: map<string, Task>, tasks: seq<Task>, name: string)
    ensures name in known ==> name in Table(known, tasks) && Table(known, tasks)[name] == known[name]
    ensures name !in known ==>
      && (name in Table(known, tasks) <==> First(tasks, name).Some?)
      && (name in Table(known, tasks) ==> Table(known, tasks)[name] == First(tasks, name).value)
    decreases |tasks|
  {
    if tasks != [] {
      TableIsFirst(if tasks[0].name in known then known else known[tasks[0].name := tasks[0]], tasks[1..], name);
    }
  }

  /** What inlining makes of a list: same length and order, every inlinable task now
      embeds what the table has for it, and all others are untouched. */
  ghost predicate InlinedFrom(ts: seq<PipelineTask>, us: seq<PipelineTask>, opts: Opts, table: map<string, Task>) {
    && |us| == |ts|
    && forall i :: 0 <= i < |ts| ==>
         if Inlinable(ts[i], opts) then
           ts[i].ref.value.name in table
           && us[i] == ts[i].(ref := None, body := Some(table[ts[i].ref.value.name].body))
         else us[i] == ts[i]
  }

  /** Inlining succeeds if and only if every inlinable reference is in the table. */
  lemma {:induction false} InlineResult(ts: seq<PipelineTask>, opts: Opts, table: map<string, Task>)
    ensures Inline(ts, opts, table).Ok? <==>
      forall i :: 0 <= i < |ts| && Inlinable(ts[i], opts) ==> ts[i].ref.value.name in table
    ensures Inline(ts, opts, table).Ok? ==> InlinedFrom(ts, Inline(ts, opts, table).value, opts, table)
  {
    if ts != [] {
      InlineResult(ts[1..], opts, table);
      assert forall i :: 0 <= i < |ts| - 1 ==> ts[1..][i] == ts[i + 1];
      if Inline(ts, opts, table).Ok? {
        assert forall i :: 1 <= i < |ts| ==> ts[i] == ts[1..][i - 1];
      }
      if !(forall i :: 0 <= i < |ts| && Inlinable(ts[i], opts) ==> ts[i].ref.value.name in table) {
        var i :| 0 <= i < |ts| && Inlinable(ts[i], opts) && ts[i].ref.value.name !in table;
        assert i > 0 ==> ts[1..][i - 1] == ts[i];
      }
    }
  }

  lemma InlinedIsDone(ts: seq<PipelineTask>, us: seq<PipelineTask>, opts: Opts, table: map<string, Task>)
    requires InlinedFrom(ts, us, opts, table)
    ensures forall u :: u in us ==> !Inlinable(u, opts)
  {
    forall u | u in us ensures !Inlinable(u, opts) {
      var i :| 0 <= i < |us| && us[i] == u;
    }
  }

  lemma {:induction false} NothingToInline(us: seq<PipelineTask>, opts: Opts, table: map<string, Task>)
    requires forall u :: u in us ==> !Inlinable(u, opts)
    ensures Inline(us, opts, table) == Ok(us)
  {
    if us != [] {
      assert us[0] in us && us == [us[0]] + us[1..];
      NothingToInline(us[1..], opts, table);
    }
  }

  /** A second pass changes nothing, whatever table it uses. */
  lemma InlineTwice(ts: seq<PipelineTask>, opts: Opts, table: map<string, Task>, other: map<string, Task>)
    requires Inline(ts, opts, table).Ok?
    ensures Inline(Inline(ts, opts, table).value, opts, other) == Inline(ts, opts, table)
  {
    InlineResult(ts, opts, table);
    InlinedIsDone(ts, Inline(ts, opts, table).value, opts, table);
    NothingToInline(Inline(ts, opts, table).value, opts, other);
  }

  // ---------- resolution as a relation ----------

  /** The task is the first of its name. */
  ghost predicate IsFirst(tasks: seq<Task>, name: string, task: Task) {
    exists i :: 0 <= i < |tasks| && tasks[i] == task && task.name == name
      && forall j :: 0 <= j < i ==> tasks[j].name != name
  }

  ghost predicate IsFirstPipeline(pipelines: seq<Pipeline>, name: string, p: Pipeline) {
    exists i :: 0 <= i < |pipelines| && pipelines[i] == p && p.name == name
      && forall j :: 0 <= j < i ==> pipelines[j].name != name
  }

  /** These are the tasks that the network answers for the names, in order. */
  ghost predicate FetchedFor(names: seq<string>, tasks: seq<Task>, w: Environment) {
    |tasks| == |names| && forall i :: 0 <= i < |names| ==> w.fetchTask(names[i]) == Ok(tasks[i])
  }

  /** The name of the pipeline in the run's annotations, if remote resolution looks at it. */
  function RemoteName(run: Run, opts: Opts): string {
    if opts.remoteTasks && run.pipeline.Ok? then run.pipeline.value else ""
  }

  /** The pipeline of a run that refers to one: the one that its annotations name, if that has
      the name the run refers to; or else the first of that name in the .tekton directory. */
  ghost predicate IsPipelineOf(run: Run, opts: Opts, w: Environment, p: Pipeline)
    requires run.ref.Some?
  {
    var remote := RemoteName(run, opts);
    if remote != "" && w.fetchPipeline(remote).Ok? && w.fetchPipeline(remote).value.name == run.ref.value.name
    then w.fetchPipeline(remote) == Ok(p)
    else IsFirstPipeline(w.pipelines, run.ref.value.name, p)
  }

  /** The task names in the pipeline's annotations; those of a remote pipeline are relative
      to it. */
  ghost predicate AreNamesOf(p: Pipeline, remote: string, w: Environment, names: seq<string>) {
    if !p.annotated then names == []
    else p.tasks.Ok? && if remote == "" then names == p.tasks.value else w.assemble(remote, p.tasks.value) == Ok(names)
  }

  /** Each plain reference to a Tekton task that is not to be skipped embeds the first task of
      its name; everything else stays, in its place. */
  ghost predicate Embeds(ts: seq<PipelineTask>, us: seq<PipelineTask>, skip: seq<string>, tasks: seq<Task>) {
    && |us| == |ts|
    && forall i :: 0 <= i < |ts| ==>
         if ts[i].ref.Some? && ts[i].ref.value.resolver == "" && ts[i].ref.value.kind != "ClusterTask"
            && (ts[i].ref.value.apiVersion == "" || "tekton.dev/" <= ts[i].ref.value.apiVersion)
            && ts[i].ref.value.name !in skip
         then
           exists task ::
             IsFirst(tasks, ts[i].ref.value.name, task) && us[i] == ts[i].(ref := None, body := Some(task.body))
         else us[i] == ts[i]
  }

  ghost predicate EmbedsSpec(from: Spec, to: Spec, skip: seq<string>, tasks: seq<Task>) {
    && Embeds(from.tasks, to.tasks, skip, tasks) && Embeds(from.finals, to.finals, skip, tasks)
    && to.rest == from.rest
  }

  /** Where a resolved run takes its tasks from: its pipeline, the task names of that, and the
      tasks that were fetched for the run's own names and for the pipeline's. */
  datatype Origin = Origin(pipeline: Option<Pipeline>, names: seq<string>, own: seq<Task>, theirs: seq<Task>)

  ghost predicate IsOrigin(x: Origin, run: Run, opts: Opts, w: Environment) {
    && (if run.ref.Some? && run.ref.value.resolver == "" then
          && x.pipeline.Some? && IsPipelineOf(run, opts, w, x.pipeline.value)
          && AreNamesOf(x.pipeline.value, RemoteName(run, opts), w, x.names)
        else x.pipeline.None? && x.names == [])
    && (if opts.remoteTasks then
          && run.pipeline.Ok? && (run.pipeline.value != "" ==> w.fetchPipeline(run.pipeline.value).Ok?)
          && run.tasks.Ok? && FetchedFor(run.tasks.value, x.own, w) && FetchedFor(x.names, x.theirs, w)
        else x.own == [] && x.theirs == [])
  }

  /** The run is resolved from this origin: tasks of its own annotations go before those of the
      pipeline's, and these before those of the .tekton directory. */
  ghost predicate IsResolved(x: Origin, run: Run, opts: Opts, w: Environment, r: Run) {
    var spec := if x.pipeline.Some? then Some(x.pipeline.value.spec) else run.spec;
    var renamed := opts.generateName && run.generateName == "";
    && (r.spec.Some? <==> spec.Some?)
    && (r.spec.Some? ==> EmbedsSpec(spec.value, r.spec.value, opts.skipInlining, x.own + x.theirs + w.tasks))
    && r == run.(
         spec := r.spec,
         ref := if x.pipeline.Some? then None else run.ref,
         name := if renamed then "" else run.name,
         generateName := if renamed then run.name + "-" else run.generateName)
  }

  lemma {:induction false} FirstMeaning(tasks: seq<Task>, name: string, task: Task)
    ensures First(tasks, name) == Some(task) <==> IsFirst(tasks, name, task)
  {
    if tasks != [] {
      FirstMeaning(tasks[1..], name, task);
      if IsFirst(tasks, name, task) && tasks[0].name != name {
        var i :| 0 <= i < |tasks| && tasks[i] == task && task.name == name
          && forall j :: 0 <= j < i ==> tasks[j].name != name;
        assert tasks[1..][i - 1] == task && forall j :: 0 <= j < i - 1 ==> tasks[1..][j] == tasks[j + 1];
      }
      if IsFirst(tasks[1..], name, task) && tasks[0].name != name {
        var i :| 0 <= i < |tasks[1..]| && tasks[1..][i] == task && task.name == name
          && forall j :: 0 <= j < i ==> tasks[1..][j].name != name;
        assert tasks[i + 1] == task && forall j :: 1 <= j < i + 1 ==> tasks[j] == tasks[1..][j - 1];
      }
    }
  }

  lemma {:induction false} PipelineByNameMeaning(name: string, pipelines: seq<Pipeline>, p: Pipeline)
    ensures PipelineByName(name, pipelines) == Ok(p) <==> IsFirstPipeline(pipelines, name, p)
  {
    if pipelines != [] {
      var rest := pipelines[1..];
      PipelineByNameMeaning(name, rest, p);
      if IsFirstPipeline(pipelines, name, p) && pipelines[0].name != name {
        var i :| 0 <= i < |pipelines| && pipelines[i] == p && p.name == name
          && forall j :: 0 <= j < i ==> pipelines[j].name != name;
        assert rest[i - 1] == p && forall j :: 0 <= j < i - 1 ==> rest[j] == pipelines[j + 1];
      }
      if IsFirstPipeline(rest, name, p) && pipelines[0].name != name {
        var i :| 0 <= i < |rest| && rest[i] == p && p.name == name && forall j :: 0 <= j < i ==> rest[j].name != name;
        assert pipelines[i + 1] == p && forall j :: 1 <= j < i + 1 ==> pipelines[j] == rest[j - 1];
      }
    }
  }

  lemma {:induction false} FetchAllMeaning(names: seq<string>, w: Environment, tasks: seq<Task>)
    ensures FetchAll(names, w) == Ok(tasks) <==> FetchedFor(names, tasks, w)
  {
    if names != [] {
      if tasks != [] {
        FetchAllMeaning(names[1..], w, tasks[1..]);
        assert tasks == [tasks[0]] + tasks[1..];
        assert FetchedFor(names, tasks, w) <==>
          w.fetchTask(names[0]) == Ok(tasks[0]) && FetchedFor(names[1..], tasks[1..], w) by {
          if w.fetchTask(names[0]) == Ok(tasks[0]) && FetchedFor(names[1..], tasks[1..], w) {
            assert forall i :: 1 <= i < |names| ==> names[i] == names[1..][i - 1] && tasks[i] == tasks[1..][i - 1];
          }
        }
        if FetchAll(names, w) == Ok(tasks) {
          var t, rest := w.fetchTask(names[0]).value, FetchAll(names[1..], w).value;
          assert tasks == [t] + rest && tasks[1..] == rest;
        }
      }
    }
  }

  lemma {:induction false} FetchBoth(a: seq<string>, b: seq<string>, w: Environment)
    ensures FetchAll(a + b, w) ==
      match FetchAll(a, w) case Err(e) => Err(e) case Ok(tasks) => Prepend(tasks, FetchAll(b, w))
  {
    if a == [] {
      assert a + b == b;
      PrependTwice([], [], FetchAll(b, w));
    } else {
      assert (a + b)[0] == a[0] && (a + b)[1..] == a[1..] + b;
      FetchBoth(a[1..], b, w);
      if w.fetchTask(a[0]).Ok? && FetchAll(a[1..], w).Ok? {
        PrependTwice([w.fetchTask(a[0]).value], FetchAll(a[1..], w).value, FetchAll(b, w));
      }
    }
  }

  lemma InlineMeaning(ts: seq<PipelineTask>, opts: Opts, tasks: seq<Task>, us: seq<PipelineTask>)
    ensures Inline(ts, opts, Table(map[], tasks)) == Ok(us) <==> Embeds(ts, us, opts.skipInlining, tasks)
  {
    var table := Table(map[], tasks);
    InlineResult(ts, opts, table);
    forall name, task ensures IsFirst(tasks, name, task) <==> name in table && table[name] == task {
      FirstMeaning(tasks, name, task);
      TableIsFirst(map[], tasks, name);
    }
    if Embeds(ts, us, opts.skipInlining, tasks) {
      forall i | 0 <= i < |ts| && Inlinable(ts[i], opts) ensures ts[i].ref.value.name in table {
        var task :| IsFirst(tasks, ts[i].ref.value.name, task);
      }
      var vs := Inline(ts, opts, table).value;
      forall i | 0 <= i < |ts| ensures us[i] == vs[i] {
      }
      assert us == vs;
    }
  }

  lemma InlineSpecMeaning(from: Spec, opts: Opts, tasks: seq<Task>, to: Spec)
    ensures InlineSpec(from, opts, Table(map[], tasks)) == Ok(to) <==> EmbedsSpec(from, to, opts.skipInlining, tasks)
  {
    InlineMeaning(from.tasks, opts, tasks, to.tasks);
    InlineMeaning(from.finals, opts, tasks, to.finals);
  }

  lemma InlineSpecTwice(from: Spec, opts: Opts, table: map<string, Task>)
    requires InlineSpec(from, opts, table).Ok?
    ensures InlineSpec(InlineSpec(from, opts, table).value, opts, table) == InlineSpec(from, opts, table)
  {
    InlineTwice(from.tasks, opts, table, table);
    InlineTwice(from.finals, opts, table, table);
  }

  lemma InlinedMeaning(run: Run, pipeline: Option<Pipeline>, opts: Opts, tasks: seq<Task>, r: Run)
    ensures Inlined(run, pipeline, opts, Table(map[], tasks)) == Ok(r) <==>
      var spec := if pipeline.Some? then Some(pipeline.value.spec) else run.spec;
      && (r.spec.Some? <==> spec.Some?)
      && (r.spec.Some? ==> EmbedsSpec(spec.value, r.spec.value, opts.skipInlining, tasks))
      && r == run.(spec := r.spec, ref := if pipeline.Some? then None else run.ref)
  {
    var table := Table(map[], tasks);
    var spec := if pipeline.Some? then Some(pipeline.value.spec) else run.spec;
    if spec.Some? {
      if InlineSpec(spec.value, opts, table).Ok? {
        InlineSpecMeaning(spec.value, opts, tasks, InlineSpec(spec.value, opts, table).value);
        InlineSpecTwice(spec.value, opts, table);
      }
      if r.spec.Some? {
        InlineSpecMeaning(spec.value, opts, tasks, r.spec.value);
      }
    }
  }

  /** The names a run's tasks are fetched by. */
  function FetchedNames(x: Origin, run: Run, opts: Opts): seq<string> {
    if opts.remoteTasks && run.tasks.Ok? then run.tasks.value + x.names else []
  }

  lemma ChosenMeaning(run: Run, opts: Opts, w: Environment, p: Pipeline)
    requires RefersToPipeline(run) && RemotePipeline(run, opts, w).Ok?
    ensures ChosenPipeline(run, RemotePipeline(run, opts, w).value, w) == Ok(p) <==> IsPipelineOf(run, opts, w, p)
  {
    PipelineByNameMeaning(run.ref.value.name, w.pipelines, p);
  }

  lemma OriginIsPlanned(x: Origin, run: Run, opts: Opts, w: Environment)
    requires IsOrigin(x, run, opts, w)
    ensures Plan(run, opts, w) == Ok((x.pipeline, FetchedNames(x, run, opts)))
    ensures RunTable(FetchedNames(x, run, opts), opts, w) == Ok(Table(map[], x.own + x.theirs + w.tasks))
  {
    if RefersToPipeline(run) {
      ChosenMeaning(run, opts, w, x.pipeline.value);
    }
    if opts.remoteTasks {
      FetchAllMeaning(run.tasks.value, w, x.own);
      FetchAllMeaning(x.names, w, x.theirs);
      FetchBoth(run.tasks.value, x.names, w);
    } else {
      assert x.own + x.theirs + w.tasks == w.tasks;
    }
  }

  lemma PlanHasOrigin(run: Run, opts: Opts, w: Environment) returns (x: Origin)
    requires Plan(run, opts, w).Ok? && RunTable(Plan(run, opts, w).value.1, opts, w).Ok?
    ensures IsOrigin(x, run, opts, w)
  {
    var (pipeline, names) := Plan(run, opts, w).value;
    var theirs := if pipeline.None? then [] else PipelineTasks(pipeline.value, PipelineURL(run, opts), w).value;
    if RefersToPipeline(run) {
      ChosenMeaning(run, opts, w, pipeline.value);
    }
    if opts.remoteTasks {
      FetchBoth(run.tasks.value, theirs, w);
      var a, b := FetchAll(run.tasks.value, w).value, FetchAll(theirs, w).value;
      FetchAllMeaning(run.tasks.value, w, a);
      FetchAllMeaning(theirs, w, b);
      x := Origin(pipeline, theirs, a, b);
    } else {
      x := Origin(pipeline, theirs, [], []);
    }
  }

  /** What resolving a run means, success included: there is an origin, and the run is resolved
      from it. So the precedence of pipelines (the run's annotations, then .tekton) and of
      tasks (the run's annotations, the pipeline's, then .tekton) is as documented. */
  lemma ResolvedRun(run: Run, opts: Opts, w: Environment, r: Run)
    ensures ResolveRun(run, opts, w) == Ok(r) <==>
      exists x: Origin :: IsOrigin(x, run, opts, w) && IsResolved(x, run, opts, w, r)
  {
    if ResolveRun(run, opts, w) == Ok(r) {
      var x := PlanHasOrigin(run, opts, w);
      ResolvedFrom(x, run, opts, w, r);
    }
    if x: Origin :| IsOrigin(x, run, opts, w) && IsResolved(x, run, opts, w, r) {
      ResolvedFrom(x, run, opts, w, r);
    }
  }

  lemma ResolvedFrom(x: Origin, run: Run, opts: Opts, w: Environment, r: Run)
    requires IsOrigin(x, run, opts, w)
    ensures ResolveRun(run, opts, w) == Ok(r) <==> IsResolved(x, run, opts, w, r)
  {
    var tasks := x.own + x.theirs + w.tasks;
    OriginIsPlanned(x, run, opts, w);
    var inlined := Inlined(run, x.pipeline, opts, Table(map[], tasks));
    if inlined.Ok? {
      InlinedMeaning(run, x.pipeline, opts, tasks, inlined.value);
    }
    var unnamed := r.(name := run.name, generateName := run.generateName);
    InlinedMeaning(run, x.pipeline, opts, tasks, unnamed);
  }

  /** The runs that are resolved: with remote resolution, those that have annotations. */
  function Kept(runs: seq<Run>, opts: Opts): seq<Run> {
    if runs == [] then []
    else (if !opts.remoteTasks || runs[0].annotated then [runs[0]] else []) + Kept(runs[1..], opts)
  }

  ghost predicate EachResolved(runs: seq<Run>, rs: seq<Run>, opts: Opts, w: Environment) {
    |rs| == |runs| && forall i :: 0 <= i < |rs| ==> ResolveRun(runs[i], opts, w) == Ok(rs[i])
  }

  lemma FirstAndRest(run: Run, runs: seq<Run>, rs: seq<Run>, opts: Opts, w: Environment)
    ensures EachResolved([run] + runs, rs, opts, w) <==>
      rs != [] && ResolveRun(run, opts, w) == Ok(rs[0]) && EachResolved(runs, rs[1..], opts, w)
  {
    var all := [run] + runs;
    if rs != [] && |rs| == |all| {
      assert forall i :: 0 <= i < |runs| ==> all[i + 1] == runs[i] && rs[i + 1] == rs[1..][i];
      if ResolveRun(run, opts, w) == Ok(rs[0]) && EachResolved(runs, rs[1..], opts, w) {
        forall i | 0 <= i < |rs| ensures ResolveRun(all[i], opts, w) == Ok(rs[i]) {
          assert i > 0 ==> all[i] == runs[i - 1] && rs[i] == rs[1..][i - 1];
        }
      }
    }
  }

  /** All succeed or the whole event fails, and they come out in order. */
  lemma {:induction false} ResolvedInOrder(runs: seq<Run>, opts: Opts, w: Environment, rs: seq<Run>)
    ensures ResolveAll(runs, opts, w) == Ok(rs) <==> EachResolved(Kept(runs, opts), rs, opts, w)
    decreases |runs|
  {
    if runs == [] {
    } else if opts.remoteTasks && !runs[0].annotated {
      assert Kept(runs, opts) == Kept(runs[1..], opts);
      ResolvedInOrder(runs[1..], opts, w, rs);
    } else {
      FirstAndRest(runs[0], Kept(runs[1..], opts), rs, opts, w);
      if rs != [] {
        ResolvedInOrder(runs[1..], opts, w, rs[1..]);
        assert rs == [rs[0]] + rs[1..];
      }
      if ResolveAll(runs, opts, w) == Ok(rs) {
        var rest := ResolveAll(runs[1..], opts, w).value;
        assert rs == [ResolveRun(runs[0], opts, w).value] + rest && rs[1..] == rest;
      }
    }
  }
}
