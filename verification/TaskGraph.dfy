/**
 The task graph of a run: planning, reassignment, post-approval expansion and
 the selection of the newest attempt of each logical task.
 */
module TaskGraph {
  import opened Wrappers
  import opened TaskIds

  datatype Task = Task(
    id: string, stage: nat, worker: string, dependsOn: seq<string>, skills: set<string>,
    attempt: nat, status: string, origin: Option<string>)

  /** How many times each origin task was reassigned. */
  type Counts = map<string, nat>

  /** A contiguous selection of stages: before the gate, after it, or all of them. */
  datatype Range = Range(lo: nat, hi: nat) {
    predicate Has(s: nat) {
      lo <= s < hi
    }
  }

  function Pre(p: Project): Range {
    Range(0, p.gate)
  }

  function Post(p: Project): Range {
    Range(p.gate, |p.plan|)
  }

  function All(p: Project): Range {
    Range(0, |p.plan|)
  }

  function OriginOf(t: Task): string {
    if t.origin.Some? then t.origin.value else t.id
  }

  function CountOf(counts: Counts, origin: string): nat {
    if origin in counts then counts[origin] else 0
  }

  function Count(p: Project, counts: Counts, s: nat): nat
    requires s < |p.plan|
  {
    CountOf(counts, BaseId(p, s))
  }

  function NewestId(p: Project, counts: Counts, s: nat): string
    requires s < |p.plan|
  {
    AttemptId(p, s, Count(p, counts, s) + 1)
  }

  ghost function Stages(graph: seq<Task>): set<nat> {
    set t | t in graph :: t.stage
  }

  /** A dependency names the newest attempt of a planned logical task at an earlier stage. */
  ghost predicate DependencyOk(p: Project, counts: Counts, present: set<nat>, s: nat, d: string) {
    exists e: nat :: e < s && e < |p.plan| && e in present && d == NewestId(p, counts, e)
  }

  ghost predicate TaskOk(p: Project, counts: Counts, present: set<nat>, t: Task) {
    && t.stage < |p.plan|
    && t.stage in present
    && 1 <= t.attempt <= Count(p, counts, t.stage) + 1
    && t.id == AttemptId(p, t.stage, t.attempt)
    && t.origin == (if t.attempt == 1 then None else Some(BaseId(p, t.stage)))
    && forall k :: 0 <= k < |t.dependsOn| ==> DependencyOk(p, counts, present, t.stage, t.dependsOn[k])
  }

  ghost predicate HasAttempt(graph: seq<Task>, s: nat, k: nat) {
    exists i :: 0 <= i < |graph| && graph[i].stage == s && graph[i].attempt == k
  }

  ghost predicate TasksOk(p: Project, graph: seq<Task>, counts: Counts) {
    forall i :: 0 <= i < |graph| ==> TaskOk(p, counts, Stages(graph), graph[i])
  }

  ghost predicate AttemptsDistinct(graph: seq<Task>) {
    forall i, j :: 0 <= i < j < |graph| ==> graph[i].stage != graph[j].stage || graph[i].attempt != graph[j].attempt
  }

  ghost predicate AttemptsComplete(p: Project, graph: seq<Task>, counts: Counts) {
    forall s: nat, k: nat :: s < |p.plan| && s in Stages(graph) && 1 <= k <= Count(p, counts, s) + 1 ==> HasAttempt(graph, s, k)
  }

  ghost predicate AbsentUncounted(p: Project, graph: seq<Task>, counts: Counts) {
    forall s: nat :: s < |p.plan| && s !in Stages(graph) ==> Count(p, counts, s) == 0
  }

  /** The logical tasks before the gate are planned from the start. */
  ghost predicate PrePlanned(p: Project, graph: seq<Task>) {
    forall s: nat :: s < p.gate ==> s in Stages(graph)
  }

  /**
   The graph invariant.  Every logical task holds the attempts 1 to count + 1,
   each once, under the id that its stage and attempt determine, and every
   dependency names a newest attempt at a strictly earlier stage.
   */
  ghost predicate GraphOk(p: Project, graph: seq<Task>, counts: Counts) {
    && ProjectOk(p)
    && TasksOk(p, graph, counts)
    && AttemptsDistinct(graph)
    && AttemptsComplete(p, graph, counts)
    && AbsentUncounted(p, graph, counts)
    && PrePlanned(p, graph)
  }

  // ---------------------------------------------------------------- meaning of the invariant

  /** Task ids are unique. */
  lemma {:induction false} UniqueIds(p: Project, graph: seq<Task>, counts: Counts, i: nat, j: nat)
    requires GraphOk(p, graph, counts) && i < j < |graph|
    ensures graph[i].id != graph[j].id
  {
    AttemptIdInjective(p, graph[i].stage, graph[i].attempt, graph[j].stage, graph[j].attempt);
  }

  lemma {:induction false} TaskAt(p: Project, graph: seq<Task>, counts: Counts, i: nat)
    requires GraphOk(p, graph, counts) && i < |graph|
    ensures TaskOk(p, counts, Stages(graph), graph[i]) && graph[i].stage in Stages(graph)
  {
  }

  lemma {:induction false} GraphPlanOk(p: Project, graph: seq<Task>, counts: Counts)
    requires GraphOk(p, graph, counts)
    ensures ProjectOk(p)
  {
  }

  lemma {:induction false} AttemptAt(p: Project, graph: seq<Task>, counts: Counts, s: nat, k: nat) returns (i: nat)
    requires GraphOk(p, graph, counts) && s < |p.plan| && s in Stages(graph) && 1 <= k <= Count(p, counts, s) + 1
    ensures i < |graph| && graph[i].stage == s && graph[i].attempt == k
  {
    assert HasAttempt(graph, s, k);
    i :| 0 <= i < |graph| && graph[i].stage == s && graph[i].attempt == k;
  }

  lemma {:induction false} OriginIsBase(p: Project, graph: seq<Task>, counts: Counts, i: nat)
    requires GraphOk(p, graph, counts) && i < |graph|
    ensures graph[i].stage < |p.plan| && OriginOf(graph[i]) == BaseId(p, graph[i].stage)
  {
  }

  lemma {:induction false} OriginDeterminesStage(p: Project, graph: seq<Task>, counts: Counts, i: nat, j: nat)
    requires GraphOk(p, graph, counts) && i < |graph| && j < |graph|
    ensures OriginOf(graph[i]) == OriginOf(graph[j]) <==> graph[i].stage == graph[j].stage
  {
    OriginIsBase(p, graph, counts, i);
    OriginIsBase(p, graph, counts, j);
    if OriginOf(graph[i]) == OriginOf(graph[j]) {
      BaseIdInjective(p, graph[i].stage, graph[j].stage);
    }
  }

  /** Every dependency resolves inside the graph, to the newest attempt of a strictly earlier stage. */
  lemma {:induction false} DependenciesResolve(p: Project, graph: seq<Task>, counts: Counts, i: nat, k: nat) returns (j: nat)
    requires GraphOk(p, graph, counts) && i < |graph| && k < |graph[i].dependsOn|
    ensures j < |graph| && graph[j].id == graph[i].dependsOn[k]
    ensures graph[j].stage < graph[i].stage
    ensures forall m :: 0 <= m < |graph| && OriginOf(graph[m]) == OriginOf(graph[j]) ==> graph[m].attempt <= graph[j].attempt
  {
    hide GraphOk, Stages, TaskOk, DependencyOk, OriginOf;
    var s := DependencyAt(p, graph, counts, i, k);
    j := AttemptAt(p, graph, counts, s, Count(p, counts, s) + 1);
    IdAt(p, graph, counts, j);
    forall m | 0 <= m < |graph| && OriginOf(graph[m]) == OriginOf(graph[j]) {
      LastAttempt(p, graph, counts, j, m);
    }
  }

  lemma {:induction false} DependencyAt(p: Project, graph: seq<Task>, counts: Counts, i: nat, k: nat) returns (s: nat)
    requires GraphOk(p, graph, counts) && i < |graph| && k < |graph[i].dependsOn|
    ensures s < graph[i].stage && s < |p.plan| && s in Stages(graph) && graph[i].dependsOn[k] == NewestId(p, counts, s)
  {
    TaskAt(p, graph, counts, i);
    assert DependencyOk(p, counts, Stages(graph), graph[i].stage, graph[i].dependsOn[k]);
    s :| s < graph[i].stage && s < |p.plan| && s in Stages(graph) && graph[i].dependsOn[k] == NewestId(p, counts, s);
  }

  lemma {:induction false} IdAt(p: Project, graph: seq<Task>, counts: Counts, i: nat)
    requires GraphOk(p, graph, counts) && i < |graph|
    ensures graph[i].stage < |p.plan| && graph[i].attempt >= 1 && graph[i].id == AttemptId(p, graph[i].stage, graph[i].attempt)
  {
    TaskAt(p, graph, counts, i);
  }

  lemma {:induction false} LastAttempt(p: Project, graph: seq<Task>, counts: Counts, j: nat, m: nat)
    requires GraphOk(p, graph, counts) && j < |graph| && m < |graph| && OriginOf(graph[m]) == OriginOf(graph[j])
    requires graph[j].stage < |p.plan| && graph[j].attempt == Count(p, counts, graph[j].stage) + 1
    ensures graph[m].attempt <= graph[j].attempt
  {
    OriginDeterminesStage(p, graph, counts, m, j);
    TaskAt(p, graph, counts, m);
  }

  /** The positions of the first k attempts of a logical task. */
  ghost function FirstAttempts(graph: seq<Task>, s: nat, k: nat): set<nat> {
    set i: nat | i < |graph| && graph[i].stage == s && graph[i].attempt <= k
  }

  lemma {:induction false} FirstAttemptsSize(p: Project, graph: seq<Task>, counts: Counts, s: nat, k: nat)
    requires GraphOk(p, graph, counts) && s < |p.plan| && s in Stages(graph) && k <= Count(p, counts, s) + 1
    ensures |FirstAttempts(graph, s, k)| == k
  {
    hide GraphOk, Stages;
    if k == 0 {
      NoAttemptZero(p, graph, counts, s);
    } else {
      FirstAttemptsSize(p, graph, counts, s, k - 1);
      var i := AttemptAt(p, graph, counts, s, k);
      GraphAttemptsDistinct(p, graph, counts);
      NextAttempt(graph, s, k, i);
    }
  }

  lemma {:induction false} GraphAttemptsDistinct(p: Project, graph: seq<Task>, counts: Counts)
    requires GraphOk(p, graph, counts)
    ensures AttemptsDistinct(graph)
  {
  }

  lemma {:induction false} NoAttemptZero(p: Project, graph: seq<Task>, counts: Counts, s: nat)
    requires GraphOk(p, graph, counts)
    ensures FirstAttempts(graph, s, 0) == {}
  {
    forall i: nat | i < |graph| ensures graph[i].attempt >= 1 { TaskAt(p, graph, counts, i); }
  }

  lemma {:induction false} NextAttempt(graph: seq<Task>, s: nat, k: nat, i: nat)
    requires AttemptsDistinct(graph) && i < |graph| && graph[i].stage == s && graph[i].attempt == k && k >= 1
    ensures FirstAttempts(graph, s, k) == FirstAttempts(graph, s, k - 1) + {i} && i !in FirstAttempts(graph, s, k - 1)
  {
  }

  /** A planned logical task has exactly one attempt more than it has reassignments, the newest numbered so. */
  lemma {:induction false} AttemptsAreCounted(p: Project, graph: seq<Task>, counts: Counts, s: nat)
    requires GraphOk(p, graph, counts) && s < |p.plan| && s in Stages(graph)
    ensures |set i: nat | i < |graph| && graph[i].stage == s| == Count(p, counts, s) + 1
    ensures exists i :: 0 <= i < |graph| && graph[i].stage == s && graph[i].attempt == Count(p, counts, s) + 1
    ensures forall i :: 0 <= i < |graph| && graph[i].stage == s ==> graph[i].attempt <= Count(p, counts, s) + 1
  {
    var n := Count(p, counts, s) + 1;
    FirstAttemptsSize(p, graph, counts, s, n);
    forall i | 0 <= i < |graph| && graph[i].stage == s ensures graph[i].attempt <= n { TaskAt(p, graph, counts, i); }
    var newest := AttemptAt(p, graph, counts, s, n);
    hide GraphOk;
    assert (set i: nat | i < |graph| && graph[i].stage == s) == FirstAttempts(graph, s, n);
  }

  ghost predicate DependsOn(graph: seq<Task>, i: nat, j: nat) {
    i < |graph| && j < |graph| && graph[j].id in graph[i].dependsOn
  }

  lemma {:induction false} DependsOnEarlier(p: Project, graph: seq<Task>, counts: Counts, i: nat, j: nat)
    requires GraphOk(p, graph, counts) && DependsOn(graph, i, j)
    ensures graph[j].stage < graph[i].stage
  {
    var k :| 0 <= k < |graph[i].dependsOn| && graph[i].dependsOn[k] == graph[j].id;
    var m := DependenciesResolve(p, graph, counts, i, k);
    if m < j { UniqueIds(p, graph, counts, m, j); }
    if j < m { UniqueIds(p, graph, counts, j, m); }
  }

  /** A chain of dependencies visits strictly decreasing stages, so no task waits for itself. */
  lemma {:induction false} Acyclic(p: Project, graph: seq<Task>, counts: Counts, path: seq<nat>)
    requires GraphOk(p, graph, counts) && |path| >= 2
    requires forall n :: 0 <= n < |path| - 1 ==> DependsOn(graph, path[n], path[n + 1])
    ensures path[0] < |graph| && path[|path| - 1] < |graph|
    ensures graph[path[|path| - 1]].stage < graph[path[0]].stage
    ensures path[0] != path[|path| - 1]
  {
    var m := |path| - 2;
    assert DependsOn(graph, path[m], path[m + 1]);
    DependsOnEarlier(p, graph, counts, path[m], path[m + 1]);
    if m > 0 {
      Acyclic(p, graph, counts, path[..m + 1]);
    }
  }

  // ---------------------------------------------------------------- planning

  function FirstAttempt(p: Project, s: nat, previous: Option<string>): Task
    requires s < |p.plan|
  {
    Task(BaseId(p, s), s, p.plan[s].worker, if previous.Some? then [previous.value] else [],
         p.plan[s].skills, 1, "planned", None)
  }

  /** The tasks planned for the selected stages: each waits for the previous one. */
  function Planned(p: Project, stages: Range): (tasks: seq<Task>)
    requires stages.lo <= stages.hi <= |p.plan|
    ensures |tasks| == stages.hi - stages.lo
    ensures forall i :: 0 <= i < |tasks| ==>
      tasks[i] == FirstAttempt(p, stages.lo + i, if i == 0 then None else Some(BaseId(p, stages.lo + i - 1)))
  {
    seq(stages.hi - stages.lo, i requires 0 <= i < stages.hi - stages.lo =>
        FirstAttempt(p, stages.lo + i, if i == 0 then None else Some(BaseId(p, stages.lo + i - 1))))
  }

  /** What the task at a stage waits for when planning starts at stage lo. */
  function Before(p: Project, lo: nat, s: nat): Option<string>
    requires lo <= s <= |p.plan|
  {
    if s == lo then None else Some(BaseId(p, s - 1))
  }

  lemma PlannedNothing(p: Project, lo: nat)
    requires lo <= |p.plan|
    ensures Planned(p, Range(lo, lo)) == []
  {
  }

  lemma PlannedSnoc(p: Project, lo: nat, s: nat)
    requires lo <= s < |p.plan|
    ensures Planned(p, Range(lo, s + 1)) == Planned(p, Range(lo, s)) + [FirstAttempt(p, s, Before(p, lo, s))]
    ensures FirstAttempt(p, s, Before(p, lo, s)).id == BaseId(p, s)
  {
    hide BaseId;
  }

  method BuildTaskGraph(p: Project, stages: Range) returns (tasks: seq<Task>)
    requires stages.lo <= stages.hi <= |p.plan|
    ensures tasks == Planned(p, stages)
  {
    tasks := [];
    var previous: Option<string> := None;
    ghost var next := stages.lo;
    PlannedNothing(p, stages.lo);
    hide Planned, FirstAttempt;
    for s := 0 to |p.plan|
      invariant next == if s <= stages.lo then stages.lo else if s <= stages.hi then s else stages.hi
      invariant tasks == Planned(p, Range(stages.lo, next)) && previous == Before(p, stages.lo, next)
    {
      if stages.Has(s) {
        PlannedSnoc(p, stages.lo, s);
        next := s + 1;
        var task := FirstAttempt(p, s, previous);
        tasks := tasks + [task];
        previous := Some(task.id);
      }
    }
  }

  lemma PlannedStages(p: Project, stages: Range)
    requires stages.lo <= stages.hi <= |p.plan|
    ensures forall s: nat :: s in Stages(Planned(p, stages)) <==> stages.Has(s)
  {
    var tasks := Planned(p, stages);
    forall s: nat | stages.Has(s) ensures s in Stages(tasks) {
      assert tasks[s - stages.lo] in tasks && tasks[s - stages.lo].stage == s;
    }
  }

  lemma PlannedTaskOk(p: Project, stages: Range, counts: Counts, present: set<nat>, i: nat)
    requires stages.lo <= stages.hi <= |p.plan| && i < stages.hi - stages.lo
    requires stages.lo + i in present && (i > 0 ==> stages.lo + i - 1 in present)
    requires i > 0 ==> Count(p, counts, stages.lo + i - 1) == 0
    ensures TaskOk(p, counts, present, Planned(p, stages)[i])
  {
    if i > 0 {
      assert BaseId(p, stages.lo + i - 1) == NewestId(p, counts, stages.lo + i - 1);
    }
  }

  /** The graph planned at the start of a run satisfies the invariant. */
  lemma PlannedOk(p: Project)
    requires ProjectOk(p)
    ensures GraphOk(p, Planned(p, Pre(p)), map[])
  {
    var tasks := Planned(p, Pre(p));
    PlannedStages(p, Pre(p));
    forall i | 0 <= i < |tasks| ensures TaskOk(p, map[], Stages(tasks), tasks[i]) {
      PlannedTaskOk(p, Pre(p), map[], Stages(tasks), i);
    }
    forall s: nat, k: nat | s < |p.plan| && s in Stages(tasks) && 1 <= k <= Count(p, map[], s) + 1
      ensures HasAttempt(tasks, s, k)
    {
      assert tasks[s].stage == s && tasks[s].attempt == k;
    }
  }

  // ---------------------------------------------------------------- reassignment

  function Redirect(deps: seq<string>, replaced: string, replacement: string): (r: seq<string>)
    ensures |r| == |deps|
    ensures forall k :: 0 <= k < |deps| ==> r[k] == if deps[k] == replaced then replacement else deps[k]
  {
    seq(|deps|, k requires 0 <= k < |deps| => if deps[k] == replaced then replacement else deps[k])
  }

  /** One existing task after the reassignment of task id. */
  function Rewired(t: Task, id: string, replacementId: string, status: string): Task {
    t.(status := if t.id == id then status else t.status, dependsOn := Redirect(t.dependsOn, id, replacementId))
  }

  function Replacement(t: Task, count: nat, worker: string): Task {
    t.(id := ReplacementId(OriginOf(t), count + 1), worker := worker, attempt := count + 2,
       status := "planned", origin := Some(OriginOf(t)))
  }

  /** The graph that a reassignment of task t to the given worker commits. */
  function Reassigned(graph: seq<Task>, t: Task, count: nat, worker: string, status: string): (g: seq<Task>)
    ensures |g| == |graph| + 1 && g[|graph|] == Replacement(t, count, worker)
    ensures forall i :: 0 <= i < |graph| ==>
      g[i] == Rewired(graph[i], t.id, Replacement(t, count, worker).id, status)
  {
    var r := Replacement(t, count, worker);
    seq(|graph|, i requires 0 <= i < |graph| => Rewired(graph[i], t.id, r.id, status)) + [r]
  }

  method ReassignGraph(graph: seq<Task>, t: Task, count: nat, worker: string, status: string)
    returns (g: seq<Task>)
    ensures g == Reassigned(graph, t, count, worker, status)
  {
    var replacementId := ReplacementId(OriginOf(t), count + 1);
    g := [];
    for i := 0 to |graph|
      invariant |g| == i
      invariant forall k :: 0 <= k < i ==> g[k] == Rewired(graph[k], t.id, replacementId, status)
    {
      var updated := graph[i];
      if graph[i].id == t.id {
        updated := updated.(status := status);
      }
      if t.id in graph[i].dependsOn {
        updated := updated.(dependsOn := Redirect(graph[i].dependsOn, t.id, replacementId));
      } else {
        assert graph[i].dependsOn == Redirect(graph[i].dependsOn, t.id, replacementId);
      }
      g := g + [updated];
    }
    g := g + [Replacement(t, count, worker)];
    assert g == Reassigned(graph, t, count, worker, status);
  }

  /** Task t is the newest attempt of its logical task. */
  ghost predicate NewestTask(p: Project, counts: Counts, present: set<nat>, t: Task) {
    TaskOk(p, counts, present, t) && t.attempt == Count(p, counts, t.stage) + 1
  }

  /** The counts after one more reassignment of the logical task of t. */
  function Bumped(counts: Counts, t: Task): Counts {
    counts[OriginOf(t) := CountOf(counts, OriginOf(t)) + 1]
  }

  /** One more reassignment moves the newest id of one stage only. */
  lemma CountStep(p: Project, counts: Counts, present: set<nat>, t: Task, e: nat)
    requires ProjectOk(p) && TaskOk(p, counts, present, t) && e < |p.plan|
    ensures OriginOf(t) == BaseId(p, t.stage)
    ensures Count(p, Bumped(counts, t), e) == Count(p, counts, e) + (if e == t.stage then 1 else 0)
  {
    if BaseId(p, e) == BaseId(p, t.stage) {
      BaseIdInjective(p, e, t.stage);
    }
  }

  lemma RedirectedDependency(p: Project, counts: Counts, present: set<nat>, s: nat, t: Task, d: string)
    requires ProjectOk(p) && NewestTask(p, counts, present, t)
    requires DependencyOk(p, counts, present, s, d)
    ensures DependencyOk(p, Bumped(counts, t), present, s,
                         if d == t.id then ReplacementId(OriginOf(t), Count(p, counts, t.stage) + 1) else d)
  {
    var e: nat :| e < s && e < |p.plan| && e in present && d == NewestId(p, counts, e);
    RedirectedNewest(p, counts, present, t, e);
    hide NewestId, NewestTask, Bumped, Count, OriginOf, ProjectOk, ReplacementId;
    assert (if d == t.id then ReplacementId(OriginOf(t), Count(p, counts, t.stage) + 1) else d) == NewestId(p, Bumped(counts, t), e);
  }

  /** The newest id of a stage after the reassignment: the replacement's, if it was the task's own. */
  lemma RedirectedNewest(p: Project, counts: Counts, present: set<nat>, t: Task, e: nat)
    requires ProjectOk(p) && NewestTask(p, counts, present, t) && e < |p.plan|
    ensures NewestId(p, Bumped(counts, t), e) ==
      if NewestId(p, counts, e) == t.id then ReplacementId(OriginOf(t), Count(p, counts, t.stage) + 1) else NewestId(p, counts, e)
  {
    CountStep(p, counts, present, t, e);
    AttemptIdInjective(p, e, Count(p, counts, e) + 1, t.stage, t.attempt);
    hide Bumped, Count, ProjectOk, DependencyOk;
  }

  lemma {:induction false} ReassignedStages(graph: seq<Task>, t: Task, count: nat, worker: string, status: string)
    requires t in graph
    ensures Stages(Reassigned(graph, t, count, worker, status)) == Stages(graph)
  {
    var g := Reassigned(graph, t, count, worker, status);
    forall s: nat | s in Stages(graph) ensures s in Stages(g) {
      var i :| 0 <= i < |graph| && graph[i].stage == s;
      assert g[i].stage == s && g[i] in g;
    }
    forall s: nat | s in Stages(g) ensures s in Stages(graph) {
      var i :| 0 <= i < |g| && g[i].stage == s;
      if i < |graph| { assert graph[i] in graph; }
    }
  }

  lemma RewiredTaskOk(p: Project, counts: Counts, present: set<nat>, t: Task, x: Task, status: string)
    requires ProjectOk(p) && NewestTask(p, counts, present, t) && TaskOk(p, counts, present, x)
    ensures TaskOk(p, Bumped(counts, t), present,
                   Rewired(x, t.id, ReplacementId(OriginOf(t), Count(p, counts, t.stage) + 1), status))
  {
    CountStep(p, counts, present, t, x.stage);
    forall k | 0 <= k < |x.dependsOn| {
      RedirectedDependency(p, counts, present, x.stage, t, x.dependsOn[k]);
    }
  }

  lemma ReplacementTaskOk(p: Project, counts: Counts, present: set<nat>, t: Task, worker: string)
    requires ProjectOk(p) && NewestTask(p, counts, present, t)
    ensures TaskOk(p, Bumped(counts, t), present, Replacement(t, Count(p, counts, t.stage), worker))
  {
    CountStep(p, counts, present, t, t.stage);
    forall k | 0 <= k < |t.dependsOn|
      ensures DependencyOk(p, Bumped(counts, t), present, t.stage, t.dependsOn[k])
    {
      assert DependencyOk(p, counts, present, t.stage, t.dependsOn[k]);
      var e: nat :| e < t.stage && e < |p.plan| && e in present && t.dependsOn[k] == NewestId(p, counts, e);
      CountStep(p, counts, present, t, e);
      assert t.dependsOn[k] == NewestId(p, Bumped(counts, t), e);
    }
  }

  lemma {:induction false} LastAttemptIsNewest(p: Project, graph: seq<Task>, counts: Counts, t: Task)
    requires GraphOk(p, graph, counts) && t in graph && t.stage < |p.plan| && t.attempt == Count(p, counts, t.stage) + 1
    ensures ProjectOk(p) && NewestTask(p, counts, Stages(graph), t)
    ensures CountOf(counts, OriginOf(t)) == Count(p, counts, t.stage)
  {
    hide GraphOk, Stages;
    GraphPlanOk(p, graph, counts);
    var i :| 0 <= i < |graph| && graph[i] == t;
    TaskAt(p, graph, counts, i);
    CountStep(p, counts, Stages(graph), t, t.stage);
  }

  lemma {:induction false} ReassignedTaskAt(
    p: Project, graph: seq<Task>, counts: Counts, t: Task, count: nat, worker: string, status: string, i: nat)
    requires GraphOk(p, graph, counts) && ProjectOk(p) && NewestTask(p, counts, Stages(graph), t)
    requires count == Count(p, counts, t.stage) && i <= |graph|
    ensures TaskOk(p, Bumped(counts, t), Stages(graph), Reassigned(graph, t, count, worker, status)[i])
  {
    hide GraphOk, Stages, Bumped, Rewired, ProjectOk;
    if i < |graph| {
      TaskAt(p, graph, counts, i);
      RewiredTaskOk(p, counts, Stages(graph), t, graph[i], status);
    } else {
      ReplacementTaskOk(p, counts, Stages(graph), t, worker);
    }
  }

  lemma {:induction false} ReassignedHasAttempt(
    p: Project, graph: seq<Task>, counts: Counts, t: Task, count: nat, worker: string, status: string, s: nat, k: nat)
    requires GraphOk(p, graph, counts) && ProjectOk(p) && NewestTask(p, counts, Stages(graph), t)
    requires count == Count(p, counts, t.stage)
    requires s < |p.plan| && s in Stages(graph) && 1 <= k <= Count(p, Bumped(counts, t), s) + 1
    ensures HasAttempt(Reassigned(graph, t, count, worker, status), s, k)
  {
    CountStep(p, counts, Stages(graph), t, s);
    hide GraphOk, Stages, Bumped, TaskOk, ProjectOk;
    var g := Reassigned(graph, t, count, worker, status);
    if s == t.stage && k == count + 2 {
      assert g[|graph|].stage == s && g[|graph|].attempt == k;
    } else {
      var i := AttemptAt(p, graph, counts, s, k);
      assert g[i].stage == s && g[i].attempt == k;
    }
  }

  lemma {:induction false} ReassignedDistinct(
    p: Project, graph: seq<Task>, counts: Counts, t: Task, count: nat, worker: string, status: string)
    requires GraphOk(p, graph, counts) && t.stage < |p.plan| && count == Count(p, counts, t.stage)
    ensures AttemptsDistinct(Reassigned(graph, t, count, worker, status))
  {
    var g := Reassigned(graph, t, count, worker, status);
    assert AttemptsDistinct(graph);
    hide GraphOk, Count;
    forall i, j | 0 <= i < j < |g| ensures g[i].stage != g[j].stage || g[i].attempt != g[j].attempt {
      if j == |graph| { AttemptBound(p, graph, counts, i); }
    }
  }

  lemma {:induction false} AttemptBound(p: Project, graph: seq<Task>, counts: Counts, i: nat)
    requires GraphOk(p, graph, counts) && i < |graph|
    ensures graph[i].stage < |p.plan| && graph[i].attempt <= Count(p, counts, graph[i].stage) + 1
  {
    TaskAt(p, graph, counts, i);
  }

  lemma {:induction false} AbsentStaysUncounted(p: Project, graph: seq<Task>, counts: Counts, t: Task, s: nat)
    requires GraphOk(p, graph, counts) && ProjectOk(p) && NewestTask(p, counts, Stages(graph), t)
    requires s < |p.plan| && s !in Stages(graph)
    ensures Count(p, Bumped(counts, t), s) == 0
  {
    CountStep(p, counts, Stages(graph), t, s);
  }

  /** Reassigning the newest attempt of a logical task keeps the invariant under the new count. */
  lemma {:induction false} ReassignKeepsGraph(p: Project, graph: seq<Task>, counts: Counts, t: Task, worker: string, status: string)
    requires GraphOk(p, graph, counts) && t in graph && t.stage < |p.plan| && t.attempt == Count(p, counts, t.stage) + 1
    ensures GraphOk(p, Reassigned(graph, t, CountOf(counts, OriginOf(t)), worker, status), Bumped(counts, t))
  {
    hide Stages, TaskOk, HasAttempt, AttemptsDistinct, Bumped, Count, NewestTask, ProjectOk, OriginOf, CountOf;
    LastAttemptIsNewest(p, graph, counts, t);
    var count, next := CountOf(counts, OriginOf(t)), Bumped(counts, t);
    var g := Reassigned(graph, t, count, worker, status);
    ReassignedStages(graph, t, count, worker, status);
    ReassignedDistinct(p, graph, counts, t, count, worker, status);
    forall i | 0 <= i < |g| ensures TaskOk(p, next, Stages(g), g[i]) {
      ReassignedTaskAt(p, graph, counts, t, count, worker, status, i);
    }
    forall s: nat, k: nat | s < |p.plan| && s in Stages(g) && 1 <= k <= Count(p, next, s) + 1
      ensures HasAttempt(g, s, k)
    {
      ReassignedHasAttempt(p, graph, counts, t, count, worker, status, s, k);
    }
    forall s: nat | s < |p.plan| && s !in Stages(g) ensures Count(p, next, s) == 0 {
      AbsentStaysUncounted(p, graph, counts, t, s);
    }
  }

  // ---------------------------------------------------------------- reassignment budget

  /** The reassignments still allowed over the stages from s on. */
  ghost function BudgetFrom(p: Project, counts: Counts, limit: nat, s: nat): int
    requires s <= |p.plan|
    decreases |p.plan| - s
  {
    if s == |p.plan| then 0 else limit - Count(p, counts, s) + BudgetFrom(p, counts, limit, s + 1)
  }

  ghost predicate WithinBudget(p: Project, counts: Counts, limit: nat) {
    forall s: nat :: s < |p.plan| ==> Count(p, counts, s) <= limit
  }

  lemma {:induction false} BudgetStep(p: Project, counts: Counts, present: set<nat>, t: Task, limit: nat, s: nat)
    requires ProjectOk(p) && TaskOk(p, counts, present, t) && s <= |p.plan|
    ensures BudgetFrom(p, Bumped(counts, t), limit, s) ==
            BudgetFrom(p, counts, limit, s) - (if s <= t.stage then 1 else 0)
    decreases |p.plan| - s
  {
    if s < |p.plan| {
      CountStep(p, counts, present, t, s);
      BudgetStep(p, counts, present, t, limit, s + 1);
    }
  }

  lemma {:induction false} BudgetNonNegative(p: Project, counts: Counts, limit: nat, s: nat)
    requires WithinBudget(p, counts, limit) && s <= |p.plan|
    ensures 0 <= BudgetFrom(p, counts, limit, s) <= limit * (|p.plan| - s)
    decreases |p.plan| - s
  {
    if s < |p.plan| {
      BudgetNonNegative(p, counts, limit, s + 1);
      assert limit * (|p.plan| - s) == limit * (|p.plan| - (s + 1)) + limit;
    }
  }

  // ---------------------------------------------------------------- newest attempts

  /** Task j is not newer than task i in the order of the source: by attempt, then by position. */
  predicate NotNewer(graph: seq<Task>, j: nat, i: nat)
    requires i < |graph| && j < |graph|
  {
    graph[j].attempt < graph[i].attempt || (graph[j].attempt == graph[i].attempt && j <= i)
  }

  /** Index i is the newest attempt of its logical task among the selected stages. */
  ghost predicate IsNewest(graph: seq<Task>, stages: Range, i: nat)
    requires i < |graph|
  {
    && stages.Has(graph[i].stage)
    && forall j :: 0 <= j < |graph| && stages.Has(graph[j].stage) && OriginOf(graph[j]) == OriginOf(graph[i]) ==> NotNewer(graph, j, i)
  }

  /** The positions of the newest attempts among the first n tasks, ascending. */
  ghost function NewestAmong(graph: seq<Task>, stages: Range, n: nat): (e: seq<nat>)
    requires n <= |graph|
    ensures forall k :: 0 <= k < |e| ==> e[k] < n
  {
    if n == 0 then []
    else NewestAmong(graph, stages, n - 1) + (if IsNewest(graph, stages, n - 1) then [n - 1] else [])
  }

  lemma {:induction false} NewestAmongAt(graph: seq<Task>, stages: Range, n: nat, k: nat)
    requires n <= |graph| && k < |NewestAmong(graph, stages, n)|
    ensures IsNewest(graph, stages, NewestAmong(graph, stages, n)[k])
  {
    hide IsNewest;
    if k < |NewestAmong(graph, stages, n - 1)| {
      NewestAmongAt(graph, stages, n - 1, k);
    }
  }

  lemma {:induction false} NewestAmongAscends(graph: seq<Task>, stages: Range, n: nat, k: nat, m: nat)
    requires n <= |graph| && k < m < |NewestAmong(graph, stages, n)|
    ensures NewestAmong(graph, stages, n)[k] < NewestAmong(graph, stages, n)[m]
  {
    hide IsNewest;
    if m < |NewestAmong(graph, stages, n - 1)| {
      NewestAmongAscends(graph, stages, n - 1, k, m);
    }
  }

  lemma {:induction false} NewestAmongLists(graph: seq<Task>, stages: Range, n: nat, i: nat) returns (k: nat)
    requires i < n <= |graph| && IsNewest(graph, stages, i)
    ensures k < |NewestAmong(graph, stages, n)| && NewestAmong(graph, stages, n)[k] == i
  {
    hide IsNewest;
    if i < n - 1 {
      k := NewestAmongLists(graph, stages, n - 1, i);
    } else {
      k := |NewestAmong(graph, stages, n - 1)|;
    }
  }

  /** The tasks at the given positions. */
  ghost function Select(graph: seq<Task>, at: seq<nat>): seq<Task>
    requires forall k :: 0 <= k < |at| ==> at[k] < |graph|
  {
    seq(|at|, k requires 0 <= k < |at| => graph[at[k]])
  }

  /** The newest attempt of each logical task of the selected stages, in graph order. */
  ghost function Effective(graph: seq<Task>, stages: Range): seq<Task> {
    Select(graph, NewestAmong(graph, stages, |graph|))
  }

  /**
   The table of latest attempts over the first n tasks: it holds, for exactly the
   origins that occur in the stages, the position of the newest attempt.
   */
  ghost predicate IsLatest(graph: seq<Task>, stages: Range, n: nat, latest: map<string, nat>)
    requires n <= |graph|
  {
    && (forall o :: o in latest ==> latest[o] < n && OriginOf(graph[latest[o]]) == o && stages.Has(graph[latest[o]].stage))
    && (forall j :: 0 <= j < n && stages.Has(graph[j].stage) ==>
          OriginOf(graph[j]) in latest && NotNewer(graph, j, latest[OriginOf(graph[j])]))
  }

  /** The table after one more task. */
  function Noted(graph: seq<Task>, stages: Range, latest: map<string, nat>, i: nat): map<string, nat>
    requires i < |graph| && forall o :: o in latest ==> latest[o] < |graph|
  {
    var origin := OriginOf(graph[i]);
    if stages.Has(graph[i].stage) && (origin !in latest || NotNewer(graph, latest[origin], i)) then latest[origin := i] else latest
  }

  lemma {:induction false} NotedIsLatest(graph: seq<Task>, stages: Range, n: nat, latest: map<string, nat>)
    requires n < |graph| && IsLatest(graph, stages, n, latest)
    ensures forall o :: o in latest ==> latest[o] < |graph|
    ensures IsLatest(graph, stages, n + 1, Noted(graph, stages, latest, n))
  {
    hide OriginOf;
    var next := Noted(graph, stages, latest, n);
    forall j | 0 <= j < n + 1 && stages.Has(graph[j].stage)
      ensures OriginOf(graph[j]) in next && NotNewer(graph, j, next[OriginOf(graph[j])])
    {
      if j < n { assert OriginOf(graph[j]) in latest && NotNewer(graph, j, latest[OriginOf(graph[j])]); }
    }
  }

  /** The loop over the tasks that keeps the latest attempt of each origin. */
  method LatestAttempts(graph: seq<Task>, stages: Range) returns (latest: map<string, nat>)
    ensures IsLatest(graph, stages, |graph|, latest)
  {
    latest := map[];
    for i := 0 to |graph|
      invariant IsLatest(graph, stages, i, latest)
    {
      NotedIsLatest(graph, stages, i, latest);
      hide IsLatest, OriginOf;
      ghost var next := Noted(graph, stages, latest, i);
      if stages.Has(graph[i].stage) {
        var origin := OriginOf(graph[i]);
        if origin !in latest || NotNewer(graph, latest[origin], i) {
          latest := latest[origin := i];
        }
      }
      assert latest == next;
    }
  }

  /** A position is in the table exactly when it is a newest attempt. */
  lemma {:induction false} LatestMeansNewest(graph: seq<Task>, stages: Range, latest: map<string, nat>, i: nat)
    requires i < |graph| && IsLatest(graph, stages, |graph|, latest)
    ensures IsNewest(graph, stages, i) <==> OriginOf(graph[i]) in latest && latest[OriginOf(graph[i])] == i
  {
    hide OriginOf;
    var origin := OriginOf(graph[i]);
    if IsNewest(graph, stages, i) {
      assert origin in latest && NotNewer(graph, i, latest[origin]);
      assert NotNewer(graph, latest[origin], i);
    }
  }

  lemma {:induction false} SelectSnoc(graph: seq<Task>, at: seq<nat>, i: nat)
    requires i < |graph| && forall k :: 0 <= k < |at| ==> at[k] < |graph|
    ensures Select(graph, at + [i]) == Select(graph, at) + [graph[i]]
  {
  }

  method EffectiveTasks(graph: seq<Task>, stages: Range) returns (tasks: seq<Task>)
    ensures tasks == Effective(graph, stages)
  {
    hide IsLatest, IsNewest, OriginOf, Select;
    var latest := LatestAttempts(graph, stages);
    // The original sorts the winners by position; walking the positions in order lists them sorted.
    tasks := [];
    assert Select(graph, []) == [] by { SelectNothing(graph); }
    for i := 0 to |graph|
      invariant tasks == Select(graph, NewestAmong(graph, stages, i))
    {
      LatestMeansNewest(graph, stages, latest, i);
      SelectSnoc(graph, NewestAmong(graph, stages, i), i);
      var origin := OriginOf(graph[i]);
      if origin in latest && latest[origin] == i {
        tasks := tasks + [graph[i]];
      } else {
        assert NewestAmong(graph, stages, i + 1) == NewestAmong(graph, stages, i);
      }
    }
  }

  lemma {:induction false} SelectNothing(graph: seq<Task>)
    ensures Select(graph, []) == []
  {
  }

  lemma {:induction false} NewestIffLastAttempt(p: Project, graph: seq<Task>, counts: Counts, stages: Range, i: nat)
    requires GraphOk(p, graph, counts) && i < |graph|
    ensures IsNewest(graph, stages, i) <==>
            stages.Has(graph[i].stage) && NewestTask(p, counts, Stages(graph), graph[i])
  {
    var s := graph[i].stage;
    assert TaskOk(p, counts, Stages(graph), graph[i]);
    if stages.Has(s) && graph[i].attempt == Count(p, counts, s) + 1 {
      forall j | 0 <= j < |graph| && OriginOf(graph[j]) == OriginOf(graph[i]) ensures NotNewer(graph, j, i) {
        OriginDeterminesStage(p, graph, counts, j, i);
      }
    }
    if IsNewest(graph, stages, i) {
      var j := AttemptAt(p, graph, counts, s, Count(p, counts, s) + 1);
      OriginDeterminesStage(p, graph, counts, j, i);
    }
  }

  ghost predicate EffectiveTaskOk(p: Project, graph: seq<Task>, counts: Counts, stages: Range, t: Task) {
    && t in graph
    && stages.Has(t.stage)
    && NewestTask(p, counts, Stages(graph), t)
    && t.id == NewestId(p, counts, t.stage)
  }

  ghost predicate HasStage(tasks: seq<Task>, s: nat) {
    exists k :: 0 <= k < |tasks| && tasks[k].stage == s
  }

  lemma {:induction false} NewestAttemptIsEffective(p: Project, graph: seq<Task>, counts: Counts, stages: Range, s: nat)
    requires GraphOk(p, graph, counts) && s < |p.plan| && stages.Has(s) && s in Stages(graph)
    ensures HasStage(Effective(graph, stages), s)
  {
    var i := AttemptAt(p, graph, counts, s, Count(p, counts, s) + 1);
    NewestIffLastAttempt(p, graph, counts, stages, i);
    var k := NewestAmongLists(graph, stages, |graph|, i);
    assert Effective(graph, stages)[k].stage == s;
  }

  lemma {:induction false} NewestIsEffective(p: Project, graph: seq<Task>, counts: Counts, stages: Range, i: nat)
    requires GraphOk(p, graph, counts) && i < |graph| && IsNewest(graph, stages, i)
    ensures EffectiveTaskOk(p, graph, counts, stages, graph[i])
  {
    hide GraphOk, IsNewest;
    NewestIffLastAttempt(p, graph, counts, stages, i);
  }

  /** Two effective tasks at different positions belong to different logical tasks. */
  lemma {:induction false} EffectiveStagesDiffer(p: Project, graph: seq<Task>, counts: Counts, stages: Range, i: nat, j: nat)
    requires GraphOk(p, graph, counts) && i < j < |graph|
    requires EffectiveTaskOk(p, graph, counts, stages, graph[i]) && EffectiveTaskOk(p, graph, counts, stages, graph[j])
    ensures graph[i].stage != graph[j].stage
  {
    assert AttemptsDistinct(graph);
    hide GraphOk, Stages, TaskOk;
  }

  /**
   The effective tasks are exactly one newest attempt per logical task of the
   selected stages: the one numbered count + 1.
   */
  lemma {:induction false} EffectiveIsOnePerLogicalTask(p: Project, graph: seq<Task>, counts: Counts, stages: Range)
    requires GraphOk(p, graph, counts)
    ensures var e := Effective(graph, stages);
      && (forall k :: 0 <= k < |e| ==> EffectiveTaskOk(p, graph, counts, stages, e[k]))
      && (forall k, m :: 0 <= k < m < |e| ==> e[k].stage != e[m].stage)
      && (forall s: nat :: s < |p.plan| && stages.Has(s) && s in Stages(graph) ==> HasStage(e, s))
  {
    hide GraphOk, IsNewest, NewestAmong, EffectiveTaskOk, HasStage, Stages;
    var at := NewestAmong(graph, stages, |graph|);
    var e := Effective(graph, stages);
    forall k | 0 <= k < |e| ensures EffectiveTaskOk(p, graph, counts, stages, e[k]) {
      NewestAmongAt(graph, stages, |graph|, k);
      NewestIsEffective(p, graph, counts, stages, at[k]);
    }
    forall k, m | 0 <= k < m < |e| ensures e[k].stage != e[m].stage {
      NewestAmongAscends(graph, stages, |graph|, k, m);
      assert EffectiveTaskOk(p, graph, counts, stages, e[k]) && EffectiveTaskOk(p, graph, counts, stages, e[m]);
      EffectiveStagesDiffer(p, graph, counts, stages, at[k], at[m]);
    }
    forall s: nat | s < |p.plan| && stages.Has(s) && s in Stages(graph) ensures HasStage(e, s) {
      NewestAttemptIsEffective(p, graph, counts, stages, s);
    }
  }

  // ---------------------------------------------------------------- post-approval expansion

  /** The positions of the tasks of the selected stages among the first n, ascending. */
  function InRange(graph: seq<Task>, stages: Range, n: nat): (at: seq<nat>)
    requires n <= |graph|
    ensures forall k :: 0 <= k < |at| ==> at[k] < n
  {
    if n == 0 then []
    else InRange(graph, stages, n - 1) + (if stages.Has(graph[n - 1].stage) then [n - 1] else [])
  }

  lemma {:induction false} InRangeAt(graph: seq<Task>, stages: Range, n: nat, k: nat)
    requires n <= |graph| && k < |InRange(graph, stages, n)|
    ensures stages.Has(graph[InRange(graph, stages, n)[k]].stage)
  {
    if k < |InRange(graph, stages, n - 1)| {
      InRangeAt(graph, stages, n - 1, k);
    }
  }

  lemma {:induction false} InRangeAscends(graph: seq<Task>, stages: Range, n: nat, k: nat, m: nat)
    requires n <= |graph| && k < m < |InRange(graph, stages, n)|
    ensures InRange(graph, stages, n)[k] < InRange(graph, stages, n)[m]
  {
    if m < |InRange(graph, stages, n - 1)| {
      InRangeAscends(graph, stages, n - 1, k, m);
    }
  }

  lemma {:induction false} InRangeLists(graph: seq<Task>, stages: Range, n: nat, i: nat)
    requires i < n <= |graph| && stages.Has(graph[i].stage)
    ensures i in InRange(graph, stages, n)
  {
    if i < n - 1 {
      InRangeLists(graph, stages, n - 1, i);
    }
  }

  function Accepted(t: Task, accepted: set<string>): Task {
    if t.id in accepted then t.(status := "completed") else t
  }

  /** The pre-approval tasks, completed where their contract was accepted. */
  function PreTasks(p: Project, graph: seq<Task>, accepted: set<string>): seq<Task> {
    var at := InRange(graph, Pre(p), |graph|);
    seq(|at|, k requires 0 <= k < |at| => Accepted(graph[at[k]], accepted))
  }

  function PostTasks(p: Project, graph: seq<Task>): seq<Task> {
    var at := InRange(graph, Post(p), |graph|);
    seq(|at|, k requires 0 <= k < |at| => graph[at[k]])
  }

  /** The last task in the order by stage and attempt, the later one on a tie. */
  function LastByStage(tasks: seq<Task>): (last: Task)
    requires tasks != []
    ensures last in tasks
    ensures forall k :: 0 <= k < |tasks| ==>
      tasks[k].stage < last.stage || (tasks[k].stage == last.stage && tasks[k].attempt <= last.attempt)
  {
    var n := |tasks| - 1;
    if n == 0 then tasks[0]
    else
      var best := LastByStage(tasks[..n]);
      assert forall k :: 0 <= k < n ==> tasks[k] == tasks[..n][k];
      if tasks[n].stage > best.stage || (tasks[n].stage == best.stage && tasks[n].attempt >= best.attempt)
      then tasks[n] else best
  }

  function Anchored(post: seq<Task>, pre: seq<Task>): seq<Task> {
    if pre != [] && post != [] then [post[0].(dependsOn := [LastByStage(pre).id])] + post[1..] else post
  }

  /** The graph that the grant commits: pre-approval tasks, then the post-approval plan behind them. */
  ghost function Expanded(p: Project, graph: seq<Task>, accepted: set<string>): seq<Task>
    requires p.gate <= |p.plan|
  {
    var post := if PostTasks(p, graph) != [] then PostTasks(p, graph) else Planned(p, Post(p));
    PreTasks(p, graph, accepted) + Anchored(post, Effective(graph, Pre(p)))
  }

  method PostApprovalGraph(p: Project, graph: seq<Task>, accepted: set<string>) returns (g: seq<Task>)
    requires p.gate <= |p.plan|
    ensures g == Expanded(p, graph, accepted)
  {
    var post := PostTasks(p, graph);
    if post == [] {
      post := BuildTaskGraph(p, Post(p));
    }
    var effectivePre := EffectiveTasks(graph, Pre(p));
    if effectivePre != [] && post != [] {
      post := [post[0].(dependsOn := [LastByStage(effectivePre).id])] + post[1..];
    }
    g := PreTasks(p, graph, accepted) + post;
  }

  /** Among newest tasks before the gate, one of them at the gate's stage, the last by stage is that one. */
  lemma {:induction false} LastIsAtGate(p: Project, graph: seq<Task>, counts: Counts, tasks: seq<Task>, k: nat)
    requires ProjectOk(p) && k < |tasks| && tasks[k].stage == p.gate - 1
    requires forall m :: 0 <= m < |tasks| ==> EffectiveTaskOk(p, graph, counts, Pre(p), tasks[m])
    ensures LastByStage(tasks).id == NewestId(p, counts, p.gate - 1)
  {
    hide NewestId, NewestTask, ProjectOk, Stages;
    var last := LastByStage(tasks);
    hide LastByStage;
    var m :| 0 <= m < |tasks| && tasks[m] == last;
    assert EffectiveTaskOk(p, graph, counts, Pre(p), tasks[m]);
  }

  lemma {:induction false} AnchorIsNewestGateTask(p: Project, graph: seq<Task>, counts: Counts)
    requires GraphOk(p, graph, counts)
    ensures var pre := Effective(graph, Pre(p)); pre != [] && LastByStage(pre).id == NewestId(p, counts, p.gate - 1)
  {
    hide GraphOk, Effective, EffectiveTaskOk, LastByStage, NewestId, Stages;
    GatePlanned(p, graph, counts);
    EffectiveIsOnePerLogicalTask(p, graph, counts, Pre(p));
    var pre := Effective(graph, Pre(p));
    assert HasStage(pre, p.gate - 1);
    var k :| 0 <= k < |pre| && pre[k].stage == p.gate - 1;
    LastIsAtGate(p, graph, counts, pre, k);
  }

  lemma {:induction false} GatePlanned(p: Project, graph: seq<Task>, counts: Counts)
    requires GraphOk(p, graph, counts)
    ensures ProjectOk(p) && 0 < p.gate < |p.plan| && p.gate - 1 in Stages(graph)
  {
  }

  lemma DependencyMonotone(p: Project, counts: Counts, present: set<nat>, larger: set<nat>, s: nat, d: string)
    requires DependencyOk(p, counts, present, s, d) && present <= larger
    ensures DependencyOk(p, counts, larger, s, d)
  {
  }

  lemma TaskMonotone(p: Project, counts: Counts, present: set<nat>, larger: set<nat>, t: Task)
    requires TaskOk(p, counts, present, t) && present <= larger
    ensures TaskOk(p, counts, larger, t)
  {
    forall k | 0 <= k < |t.dependsOn| { DependencyMonotone(p, counts, present, larger, t.stage, t.dependsOn[k]); }
  }

  lemma AnchoredTaskOk(p: Project, counts: Counts, present: set<nat>, t: Task)
    requires ProjectOk(p) && TaskOk(p, counts, present, t) && t.stage >= p.gate && p.gate - 1 in present
    ensures TaskOk(p, counts, present, t.(dependsOn := [NewestId(p, counts, p.gate - 1)]))
  {
    assert DependencyOk(p, counts, present, t.stage, NewestId(p, counts, p.gate - 1));
  }

  /** Task x stands for task t in another graph: same logical task, attempt and id. */
  predicate SameAttempt(t: Task, x: Task) {
    x.stage == t.stage && x.attempt == t.attempt && x.id == t.id && x.origin == t.origin
  }

  /** The indices `at` list every index below n once. */
  ghost predicate ListsAll(at: seq<nat>, n: nat) {
    && (forall k, m :: 0 <= k < m < |at| ==> at[k] != at[m])
    && (forall i :: 0 <= i < n ==> i in at)
  }

  /** Task x is well formed and stands for the attempt at position i of the graph. */
  ghost predicate StandsFor(p: Project, counts: Counts, graph: seq<Task>, i: nat, x: Task) {
    i < |graph| && SameAttempt(graph[i], x) && TaskOk(p, counts, Stages(graph), x)
  }

  /** Task k of g stands for the attempt at position at[k] of the graph. */
  ghost predicate Rearranged(p: Project, counts: Counts, graph: seq<Task>, g: seq<Task>, at: seq<nat>) {
    |at| == |g| && forall k :: 0 <= k < |g| ==> StandsFor(p, counts, graph, at[k], g[k])
  }

  lemma {:induction false} RearrangedAt(p: Project, counts: Counts, graph: seq<Task>, g: seq<Task>, at: seq<nat>, k: nat)
    requires Rearranged(p, counts, graph, g, at) && k < |g|
    ensures |at| == |g| && StandsFor(p, counts, graph, at[k], g[k])
  {
  }

  lemma {:induction false} RearrangedLength(p: Project, counts: Counts, graph: seq<Task>, g: seq<Task>, at: seq<nat>)
    requires Rearranged(p, counts, graph, g, at)
    ensures |at| == |g|
  {
  }

  lemma {:induction false} RearrangedJoin(p: Project, counts: Counts, graph: seq<Task>,
    g: seq<Task>, at: seq<nat>, g': seq<Task>, at': seq<nat>)
    requires Rearranged(p, counts, graph, g, at) && Rearranged(p, counts, graph, g', at')
    ensures Rearranged(p, counts, graph, g + g', at + at')
  {
    hide StandsFor;
  }

  lemma {:induction false} RearrangedStages(p: Project, counts: Counts, graph: seq<Task>, g: seq<Task>, at: seq<nat>)
    requires Rearranged(p, counts, graph, g, at) && ListsAll(at, |graph|)
    ensures Stages(g) == Stages(graph)
  {
    hide TaskOk, Rearranged;
    forall s: nat | s in Stages(graph) ensures s in Stages(g) {
      var i :| 0 <= i < |graph| && graph[i].stage == s;
      assert i in at;
      var k :| 0 <= k < |at| && at[k] == i;
      RearrangedLength(p, counts, graph, g, at);
      RearrangedAt(p, counts, graph, g, at, k);
      assert g[k] in g;
    }
    forall s: nat | s in Stages(g) ensures s in Stages(graph) {
      var k :| 0 <= k < |g| && g[k].stage == s;
      RearrangedAt(p, counts, graph, g, at, k);
      assert graph[at[k]] in graph;
    }
  }

  lemma {:induction false} RearrangedDistinct(p: Project, counts: Counts, graph: seq<Task>, g: seq<Task>, at: seq<nat>)
    requires AttemptsDistinct(graph) && Rearranged(p, counts, graph, g, at) && ListsAll(at, |graph|)
    ensures AttemptsDistinct(g)
  {
    hide TaskOk, Rearranged;
    RearrangedLength(p, counts, graph, g, at);
    forall i, j | 0 <= i < j < |g| ensures g[i].stage != g[j].stage || g[i].attempt != g[j].attempt {
      RearrangedAt(p, counts, graph, g, at, i);
      RearrangedAt(p, counts, graph, g, at, j);
      assert at[i] < at[j] || at[j] < at[i];
    }
  }

  lemma {:induction false} RearrangedComplete(p: Project, counts: Counts, graph: seq<Task>, g: seq<Task>, at: seq<nat>, i: nat)
    requires Rearranged(p, counts, graph, g, at) && ListsAll(at, |graph|) && i < |graph|
    ensures HasAttempt(g, graph[i].stage, graph[i].attempt)
  {
    hide TaskOk, Rearranged;
    RearrangedLength(p, counts, graph, g, at);
    assert i in at;
    var m :| 0 <= m < |at| && at[m] == i;
    RearrangedAt(p, counts, graph, g, at, m);
  }

  /** A rearrangement of the same attempts, each still well formed, keeps the invariant. */
  lemma {:induction false} RearrangedOk(p: Project, graph: seq<Task>, g: seq<Task>, counts: Counts, at: seq<nat>)
    requires GraphOk(p, graph, counts) && ListsAll(at, |graph|) && Rearranged(p, counts, graph, g, at)
    ensures GraphOk(p, g, counts)
  {
    hide TaskOk, ListsAll, Rearranged, Stages, HasAttempt, AttemptsDistinct;
    RearrangedStages(p, counts, graph, g, at);
    RearrangedDistinct(p, counts, graph, g, at);
    forall k | 0 <= k < |g| ensures TaskOk(p, counts, Stages(g), g[k]) {
      RearrangedAt(p, counts, graph, g, at, k);
    }
    forall s: nat, k: nat | s < |p.plan| && s in Stages(g) && 1 <= k <= Count(p, counts, s) + 1
      ensures HasAttempt(g, s, k)
    {
      var i := AttemptAt(p, graph, counts, s, k);
      RearrangedComplete(p, counts, graph, g, at, i);
    }
  }

  lemma AcceptedTaskOk(p: Project, counts: Counts, present: set<nat>, t: Task, accepted: set<string>)
    requires TaskOk(p, counts, present, t)
    ensures TaskOk(p, counts, present, Accepted(t, accepted)) && SameAttempt(t, Accepted(t, accepted))
  {
  }

  lemma {:induction false} PreTasksStand(p: Project, graph: seq<Task>, counts: Counts, accepted: set<string>)
    requires GraphOk(p, graph, counts)
    ensures Rearranged(p, counts, graph, PreTasks(p, graph, accepted), InRange(graph, Pre(p), |graph|))
  {
    hide GraphOk, TaskOk, InRange, Accepted, SameAttempt, Stages;
    var at := InRange(graph, Pre(p), |graph|);
    forall k | 0 <= k < |at| ensures StandsFor(p, counts, graph, at[k], Accepted(graph[at[k]], accepted)) {
      TaskAt(p, graph, counts, at[k]);
      AcceptedTaskOk(p, counts, Stages(graph), graph[at[k]], accepted);
    }
  }

  lemma {:induction false} PostTasksStand(p: Project, graph: seq<Task>, counts: Counts)
    requires GraphOk(p, graph, counts)
    ensures Rearranged(p, counts, graph, PostTasks(p, graph), InRange(graph, Post(p), |graph|))
  {
    hide GraphOk, TaskOk, InRange, SameAttempt, Stages;
    var at := InRange(graph, Post(p), |graph|);
    forall k | 0 <= k < |at| ensures StandsFor(p, counts, graph, at[k], graph[at[k]]) {
      TaskAt(p, graph, counts, at[k]);
      SameAttemptRefl(graph[at[k]]);
    }
  }

  /** The first task behind the gate still stands for its attempt when it waits for the newest gate task. */
  lemma {:induction false} AnchoredStands(p: Project, graph: seq<Task>, counts: Counts)
    requires GraphOk(p, graph, counts) && PostTasks(p, graph) != []
    ensures InRange(graph, Post(p), |graph|) != []
    ensures StandsFor(p, counts, graph, InRange(graph, Post(p), |graph|)[0],
                      PostTasks(p, graph)[0].(dependsOn := [NewestId(p, counts, p.gate - 1)]))
  {
    hide GraphOk, TaskOk, InRange, SameAttempt, Stages, NewestId;
    GatePlanned(p, graph, counts);
    var i := InRange(graph, Post(p), |graph|)[0];
    InRangeAt(graph, Post(p), |graph|, 0);
    TaskAt(p, graph, counts, i);
    AnchoredTaskOk(p, counts, Stages(graph), graph[i]);
    SameAttemptAnchored(graph[i], [NewestId(p, counts, p.gate - 1)]);
  }

  /** Replacing the first task by another one that stands for the same attempt keeps the rearrangement. */
  lemma {:induction false} RearrangedFirst(p: Project, counts: Counts, graph: seq<Task>, g: seq<Task>, at: seq<nat>, x: Task)
    requires Rearranged(p, counts, graph, g, at) && g != [] && at != [] && StandsFor(p, counts, graph, at[0], x)
    ensures Rearranged(p, counts, graph, [x] + g[1..], at)
  {
    hide StandsFor;
    var more := [x] + g[1..];
    forall k | 0 <= k < |more| ensures StandsFor(p, counts, graph, at[k], more[k]) {
      if k > 0 { assert more[k] == g[k]; }
    }
  }

  lemma SameAttemptRefl(t: Task)
    ensures SameAttempt(t, t)
  {
  }

  lemma {:induction false} SameAttemptAnchored(t: Task, deps: seq<string>)
    ensures SameAttempt(t, t.(dependsOn := deps))
  {
  }

  lemma {:induction false} StageAt(p: Project, graph: seq<Task>, counts: Counts, i: nat)
    requires GraphOk(p, graph, counts) && i < |graph|
    ensures Pre(p).Has(graph[i].stage) || Post(p).Has(graph[i].stage)
  {
    TaskAt(p, graph, counts, i);
  }

  lemma {:induction false} RangesPartition(p: Project, graph: seq<Task>, counts: Counts)
    requires GraphOk(p, graph, counts)
    ensures ListsAll(InRange(graph, Pre(p), |graph|) + InRange(graph, Post(p), |graph|), |graph|)
  {
    hide GraphOk, InRange;
    var before, after := InRange(graph, Pre(p), |graph|), InRange(graph, Post(p), |graph|);
    var at := before + after;
    forall i | 0 <= i < |graph| ensures i in at {
      StageAt(p, graph, counts, i);
      if Pre(p).Has(graph[i].stage) {
        InRangeLists(graph, Pre(p), |graph|, i);
      } else {
        InRangeLists(graph, Post(p), |graph|, i);
      }
    }
    forall k, m | 0 <= k < m < |at| ensures at[k] != at[m] {
      if m < |before| {
        InRangeAscends(graph, Pre(p), |graph|, k, m);
      } else if k < |before| {
        InRangeAt(graph, Pre(p), |graph|, k);
        InRangeAt(graph, Post(p), |graph|, m - |before|);
      } else {
        InRangeAscends(graph, Post(p), |graph|, k - |before|, m - |before|);
      }
    }
  }

  lemma {:induction false} ExpandedParts(p: Project, graph: seq<Task>, accepted: set<string>)
    requires p.gate <= |p.plan| && PostTasks(p, graph) != [] && Effective(graph, Pre(p)) != []
    ensures Expanded(p, graph, accepted) == PreTasks(p, graph, accepted) +
      ([PostTasks(p, graph)[0].(dependsOn := [LastByStage(Effective(graph, Pre(p))).id])] + PostTasks(p, graph)[1..])
  {
    hide Effective, PreTasks, PostTasks, LastByStage;
  }

  lemma {:induction false} ExpandExisting(p: Project, graph: seq<Task>, counts: Counts, accepted: set<string>)
    requires GraphOk(p, graph, counts) && PostTasks(p, graph) != []
    ensures GraphOk(p, Expanded(p, graph, accepted), counts)
  {
    hide GraphOk, Effective, Expanded, PreTasks, PostTasks, LastByStage, ListsAll, Rearranged, StandsFor, InRange, NewestId, Stages;
    GatePlanned(p, graph, counts);
    AnchorIsNewestGateTask(p, graph, counts);
    ExpandedParts(p, graph, accepted);
    var before, after := InRange(graph, Pre(p), |graph|), InRange(graph, Post(p), |graph|);
    var pre, post := PreTasks(p, graph, accepted), PostTasks(p, graph);
    var first := post[0].(dependsOn := [NewestId(p, counts, p.gate - 1)]);
    PreTasksStand(p, graph, counts, accepted);
    PostTasksStand(p, graph, counts);
    AnchoredStands(p, graph, counts);
    RearrangedFirst(p, counts, graph, post, after, first);
    RearrangedJoin(p, counts, graph, pre, before, [first] + post[1..], after);
    RangesPartition(p, graph, counts);
    RearrangedOk(p, graph, Expanded(p, graph, accepted), counts, before + after);
  }

  /** The block planned behind the gate, anchored at the newest gate task. */
  ghost function PlannedBehind(p: Project, counts: Counts): (tasks: seq<Task>)
    requires ProjectOk(p)
    ensures |tasks| == |p.plan| - p.gate
  {
    var post := Planned(p, Post(p));
    [post[0].(dependsOn := [NewestId(p, counts, p.gate - 1)])] + post[1..]
  }

  lemma {:induction false} AbsentBehind(p: Project, graph: seq<Task>, counts: Counts, s: nat)
    requires GraphOk(p, graph, counts) && s < |p.plan| && s !in Stages(graph)
    ensures Count(p, counts, s) == 0
  {
  }

  lemma {:induction false} AppendTaskOk(p: Project, graph: seq<Task>, counts: Counts, present: set<nat>, i: nat)
    requires GraphOk(p, graph, counts) && forall s: nat :: s >= p.gate ==> s !in Stages(graph)
    requires Stages(graph) <= present && forall s: nat :: p.gate <= s < |p.plan| ==> s in present
    requires i < |graph| + |p.plan| - p.gate
    ensures TaskOk(p, counts, present, (graph + PlannedBehind(p, counts))[i])
  {
    hide GraphOk, TaskOk, Count, Stages, NewestId, ProjectOk;
    GatePlanned(p, graph, counts);
    if i < |graph| {
      TaskAt(p, graph, counts, i);
      TaskMonotone(p, counts, Stages(graph), present, graph[i]);
    } else {
      var k := i - |graph|;
      if k > 0 { AbsentBehind(p, graph, counts, p.gate + k - 1); }
      PlannedTaskOk(p, Post(p), counts, present, k);
      if k == 0 { AnchoredTaskOk(p, counts, present, Planned(p, Post(p))[0]); }
    }
  }

  lemma {:induction false} AppendAttempts(p: Project, graph: seq<Task>, counts: Counts, s: nat, k: nat)
    requires GraphOk(p, graph, counts) && forall s: nat :: s >= p.gate ==> s !in Stages(graph)
    requires s < |p.plan| && 1 <= k <= Count(p, counts, s) + 1
    ensures HasAttempt(graph + PlannedBehind(p, counts), s, k)
  {
    var g := graph + PlannedBehind(p, counts);
    if s < p.gate {
      var i := AttemptAt(p, graph, counts, s, k);
      assert g[i].stage == s && g[i].attempt == k;
    } else {
      assert Count(p, counts, s) == 0;
      assert g[|graph| + s - p.gate].stage == s && g[|graph| + s - p.gate].attempt == k;
    }
  }

  lemma {:induction false} AppendDistinct(p: Project, graph: seq<Task>, counts: Counts)
    requires GraphOk(p, graph, counts) && forall s: nat :: s >= p.gate ==> s !in Stages(graph)
    ensures AttemptsDistinct(graph + PlannedBehind(p, counts))
  {
    var behind := PlannedBehind(p, counts);
    assert AttemptsDistinct(graph);
    forall i | 0 <= i < |graph| ensures graph[i].stage < p.gate { TaskAt(p, graph, counts, i); }
    forall j | 0 <= j < |behind| ensures behind[j].stage == p.gate + j {}
    hide GraphOk, PlannedBehind, Stages;
    JoinDistinct(graph, behind, p.gate);
  }

  /** Distinct attempts before the gate and one attempt a stage behind it are distinct together. */
  lemma {:induction false} JoinDistinct(graph: seq<Task>, behind: seq<Task>, gate: nat)
    requires AttemptsDistinct(graph) && forall i :: 0 <= i < |graph| ==> graph[i].stage < gate
    requires forall j :: 0 <= j < |behind| ==> behind[j].stage == gate + j
    ensures AttemptsDistinct(graph + behind)
  {
  }

  /** Planning the stages behind the gate appends a second block to the first one. */
  lemma {:induction false} AppendPlannedOk(p: Project, graph: seq<Task>, counts: Counts)
    requires GraphOk(p, graph, counts) && forall s: nat :: s >= p.gate ==> s !in Stages(graph)
    ensures GraphOk(p, graph + PlannedBehind(p, counts), counts)
  {
    var g := graph + PlannedBehind(p, counts);
    assert ProjectOk(p);
    AppendPlannedStages(p, graph, counts);
    hide PlannedBehind;
    AppendDistinct(p, graph, counts);
    forall i | 0 <= i < |g| ensures TaskOk(p, counts, Stages(g), g[i]) {
      AppendTaskOk(p, graph, counts, Stages(g), i);
    }
    forall s: nat, k: nat | s < |p.plan| && 1 <= k <= Count(p, counts, s) + 1 {
      AppendAttempts(p, graph, counts, s, k);
    }
    assert AbsentUncounted(p, g, counts) && PrePlanned(p, g) by {
      hide AttemptsDistinct, AttemptsComplete, TasksOk;
    }
    assert TasksOk(p, g, counts);
    assert AttemptsComplete(p, g, counts);
  }

  lemma {:induction false} StagesJoin(a: seq<Task>, b: seq<Task>)
    ensures Stages(a + b) == Stages(a) + Stages(b)
  {
    assert forall t :: t in a + b <==> t in a || t in b;
  }

  lemma {:induction false} StagesOfBlock(behind: seq<Task>, gate: nat)
    requires forall j :: 0 <= j < |behind| ==> behind[j].stage == gate + j
    ensures forall s: nat :: s in Stages(behind) <==> gate <= s < gate + |behind|
  {
    forall s: nat | gate <= s < gate + |behind| ensures s in Stages(behind) {
      assert behind[s - gate] in behind;
    }
  }

  lemma {:induction false} AppendPlannedStages(p: Project, graph: seq<Task>, counts: Counts)
    requires ProjectOk(p)
    ensures forall s: nat :: s in Stages(graph + PlannedBehind(p, counts)) <==> s in Stages(graph) || p.gate <= s < |p.plan|
  {
    var behind := PlannedBehind(p, counts);
    forall j | 0 <= j < |behind| ensures behind[j].stage == p.gate + j {}
    hide PlannedBehind;
    StagesOfBlock(behind, p.gate);
    StagesJoin(graph, behind);
  }

  lemma {:induction false} PreTasksOk(p: Project, graph: seq<Task>, counts: Counts, accepted: set<string>)
    requires GraphOk(p, graph, counts) && PostTasks(p, graph) == []
    ensures GraphOk(p, PreTasks(p, graph, accepted), counts)
  {
    hide GraphOk, PreTasks, ListsAll, Rearranged, InRange;
    var at := InRange(graph, Pre(p), |graph|);
    assert at + InRange(graph, Post(p), |graph|) == at;
    RangesPartition(p, graph, counts);
    PreTasksStand(p, graph, counts, accepted);
    RearrangedOk(p, graph, PreTasks(p, graph, accepted), counts, at);
  }

  lemma {:induction false} PreTasksStages(p: Project, graph: seq<Task>, accepted: set<string>)
    ensures forall s: nat :: s >= p.gate ==> s !in Stages(PreTasks(p, graph, accepted))
  {
    var pre := PreTasks(p, graph, accepted);
    hide InRange;
    forall k | 0 <= k < |pre| ensures pre[k].stage < p.gate {
      InRangeAt(graph, Pre(p), |graph|, k);
    }
  }

  lemma {:induction false} ExpandFirst(p: Project, graph: seq<Task>, counts: Counts, accepted: set<string>)
    requires GraphOk(p, graph, counts) && PostTasks(p, graph) == []
    ensures GraphOk(p, Expanded(p, graph, accepted), counts)
  {
    assert ProjectOk(p);
    AnchorIsNewestGateTask(p, graph, counts);
    PreTasksOk(p, graph, counts, accepted);
    PreTasksStages(p, graph, accepted);
    hide GraphOk, Effective, PreTasks, LastByStage, Planned, NewestId, Stages;
    AppendPlannedOk(p, PreTasks(p, graph, accepted), counts);
    assert Expanded(p, graph, accepted) == PreTasks(p, graph, accepted) + PlannedBehind(p, counts);
  }

  /** The grant's graph keeps the invariant, on the first grant and on every repeated one. */
  lemma {:induction false} ExpandKeepsGraph(p: Project, graph: seq<Task>, counts: Counts, accepted: set<string>)
    requires GraphOk(p, graph, counts)
    ensures GraphOk(p, Expanded(p, graph, accepted), counts)
  {
    if PostTasks(p, graph) == [] {
      ExpandFirst(p, graph, counts, accepted);
    } else {
      ExpandExisting(p, graph, counts, accepted);
    }
  }
}
