/**
 Task graphs: the structural checks of an approved graph, and the depth-first search
 that rejects dependency cycles. The search is exact, and the order in which it
 finishes tasks is a topological order.
*/
module TaskGraph {
  import opened Identifiers
  import opened Results
  import opened Sequences

  datatype Task = Task(
    id: string, revision: int, dependencies: seq<string>, worktreeKey: string, worktreeDigest: string,
    profileId: string, actionDigest: string, maxAttempts: int)

  datatype Approval = Approval(authority: string, status: string, decisionId: string, graphDigest: string)

  datatype Graph = Graph(
    graphId: string, projectKey: string, projectRevision: string, maxParallelism: int, tasks: seq<Task>,
    approval: Approval)

  datatype GraphError =
    | GraphIdInvalid | ProjectKeyInvalid | ProjectRevisionInvalid | OperatorParallelismInvalid
    | GraphParallelismInvalid | ApprovalInvalid | TaskCountInvalid
    | TaskIdentityInvalid | TaskRevisionInvalid | AttemptBudgetInvalid | DependenciesInvalid
    | WorktreeKeyInvalid | WorktreeDigestInvalid | ActionDigestInvalid | ProfileUnsupported
    | DependencyReferenceInvalid | DependencyCycle

  /** A lower-case letter or digit and up to sixty-three of these, dots, underscores and dashes. */
  predicate IsKey(s: string) {
    && 1 <= |s| <= 64 && KeyStart(s[0])
    && forall c | c in s :: KeyStart(c) || c == '.' || c == '_' || c == '-'
  }

  predicate KeyStart(c: char) {
    'a' <= c <= 'z' || '0' <= c <= '9'
  }

  predicate IsDecisionId(s: string) {
    "DEC-" <= s && 1 <= |s| - 4 <= 48 && forall i | 4 <= i < |s| :: IdChar(s[i])
  }

  /** The checks of the graph as a whole, in order; the digest covers everything but the approval. */
  function HeaderRefusal(g: Graph, operatorParallel: int, digest: Graph -> string): Option<GraphError> {
    if !IsKey(g.graphId) then Some(GraphIdInvalid)
    else if !IsKey(g.projectKey) then Some(ProjectKeyInvalid)
    else if !IsDigest(g.projectRevision) then Some(ProjectRevisionInvalid)
    else if !(1 <= operatorParallel <= 8) then Some(OperatorParallelismInvalid)
    else if !(1 <= g.maxParallelism <= 8) then Some(GraphParallelismInvalid)
    else if g.approval.authority != "coordinator" || g.approval.status != "approved"
            || !IsDecisionId(g.approval.decisionId) || g.approval.graphDigest != digest(g) then Some(ApprovalInvalid)
    else if !(1 <= |g.tasks| <= 128) then Some(TaskCountInvalid)
    else None
  }

  /** The coordinator has approved exactly this graph. */
  ghost predicate Approved(g: Graph, digest: Graph -> string) {
    exists decision ::
      g.approval == Approval("coordinator", "approved", decision, digest(g)) && IsDecisionId(decision)
  }

  /** The graph as a whole passes exactly with its keys, its bounds, its approval and its size; else the first fault is named. */
  lemma HeaderRefusals(g: Graph, operatorParallel: int, digest: Graph -> string)
    ensures var refusal := HeaderRefusal(g, operatorParallel, digest);
            var named := IsKey(g.graphId) && IsKey(g.projectKey) && IsDigest(g.projectRevision);
            var bounded := 1 <= operatorParallel <= 8 && 1 <= g.maxParallelism <= 8;
            && (refusal == None <==> named && bounded && Approved(g, digest) && 1 <= |g.tasks| <= 128)
            && (refusal == Some(GraphIdInvalid) <==> !IsKey(g.graphId))
            && (refusal == Some(ProjectKeyInvalid) <==> IsKey(g.graphId) && !IsKey(g.projectKey))
            && (refusal == Some(ProjectRevisionInvalid) <==>
                  IsKey(g.graphId) && IsKey(g.projectKey) && !IsDigest(g.projectRevision))
            && (refusal == Some(OperatorParallelismInvalid) <==> named && !(1 <= operatorParallel <= 8))
            && (refusal == Some(GraphParallelismInvalid) <==>
                  named && 1 <= operatorParallel <= 8 && !(1 <= g.maxParallelism <= 8))
            && (refusal == Some(ApprovalInvalid) <==> named && bounded && !Approved(g, digest))
            && (refusal == Some(TaskCountInvalid) <==> named && bounded && Approved(g, digest) && !(1 <= |g.tasks| <= 128))
  {
    hide IsKey, IsDigest, IsDecisionId;
    var decision := g.approval.decisionId;
    assert g.approval == Approval("coordinator", "approved", decision, digest(g)) && IsDecisionId(decision) ==>
        Approved(g, digest);
  }

  function IdsOf(raw: seq<Task>): (ids: seq<string>)
    ensures |ids| == |raw|
  {
    seq(|raw|, i requires 0 <= i < |raw| => raw[i].id)
  }

  function TaskMap(raw: seq<Task>): map<string, Task> {
    if raw == [] then map[] else TaskMap(raw[..|raw| - 1])[raw[|raw| - 1].id := raw[|raw| - 1]]
  }

  lemma {:induction false} TaskMapMeaning(raw: seq<Task>)
    ensures forall id :: id in TaskMap(raw) <==> id in IdsOf(raw)
    ensures Distinct(IdsOf(raw)) ==>
              forall k | 0 <= k < |raw| :: raw[k].id in TaskMap(raw) && TaskMap(raw)[raw[k].id] == raw[k]
  {
    if raw != [] {
      var n := |raw| - 1;
      TaskMapMeaning(raw[..n]);
      assert IdsOf(raw) == IdsOf(raw[..n]) + [raw[n].id];
      if Distinct(IdsOf(raw)) {
        assert IdsOf(raw[..n]) == IdsOf(raw)[..n];
        assert Distinct(IdsOf(raw[..n]));
        forall k | 0 <= k < n ensures raw[k].id in TaskMap(raw) && TaskMap(raw)[raw[k].id] == raw[k] {
          assert raw[..n][k] == raw[k] && IdsOf(raw)[k] == raw[k].id && IdsOf(raw)[n] == raw[n].id;
        }
      }
    }
  }

  ghost predicate WellFormedTask(t: Task) {
    && IsTaskId(t.id) && t.revision >= 1 && 1 <= t.maxAttempts <= 3
    && |t.dependencies| <= 32 && Distinct(t.dependencies)
    && IsKey(t.worktreeKey) && IsDigest(t.worktreeDigest) && IsDigest(t.actionDigest)
    && (t.profileId == "fake-alpha" || t.profileId == "fake-beta")
  }

  /** Why a task is refused after the tasks with these ids, in the order of the checks. */
  ghost function TaskRefusal(t: Task, seen: seq<string>): Option<GraphError> {
    if !IsTaskId(t.id) || t.id in seen then Some(TaskIdentityInvalid)
    else if t.revision < 1 then Some(TaskRevisionInvalid)
    else if !(1 <= t.maxAttempts <= 3) then Some(AttemptBudgetInvalid)
    else if |t.dependencies| > 32 || !Distinct(t.dependencies) then Some(DependenciesInvalid)
    else if !IsKey(t.worktreeKey) then Some(WorktreeKeyInvalid)
    else if !IsDigest(t.worktreeDigest) then Some(WorktreeDigestInvalid)
    else if !IsDigest(t.actionDigest) then Some(ActionDigestInvalid)
    else if t.profileId != "fake-alpha" && t.profileId != "fake-beta" then Some(ProfileUnsupported)
    else None
  }

  /** The fault named is the first in the order of the task's fields. */
  lemma TaskRefusals(t: Task, seen: seq<string>)
    ensures var refusal := TaskRefusal(t, seen);
            var identified := IsTaskId(t.id) && t.id !in seen;
            var counted := t.revision >= 1 && 1 <= t.maxAttempts <= 3;
            var bound := identified && counted && |t.dependencies| <= 32 && Distinct(t.dependencies);
            && (refusal == None <==> identified && WellFormedTask(t))
            && (refusal == Some(TaskIdentityInvalid) <==> !identified)
            && (refusal == Some(TaskRevisionInvalid) <==> identified && t.revision < 1)
            && (refusal == Some(AttemptBudgetInvalid) <==> identified && t.revision >= 1 && !(1 <= t.maxAttempts <= 3))
            && (refusal == Some(DependenciesInvalid) <==> identified && counted && !bound)
            && (refusal == Some(WorktreeKeyInvalid) <==> bound && !IsKey(t.worktreeKey))
            && (refusal == Some(WorktreeDigestInvalid) <==> bound && IsKey(t.worktreeKey) && !IsDigest(t.worktreeDigest))
            && (refusal == Some(ActionDigestInvalid) <==>
                  bound && IsKey(t.worktreeKey) && IsDigest(t.worktreeDigest) && !IsDigest(t.actionDigest))
            && (refusal == Some(ProfileUnsupported) ==> t.profileId !in {"fake-alpha", "fake-beta"})
  {
    hide IsKey, IsDigest, IsTaskId, Distinct;
  }

  /** The refusal of the first task from the n-th on that is refused. */
  ghost function TasksRefusal(raw: seq<Task>, n: nat): Option<GraphError>
    requires n <= |raw|
    decreases |raw| - n
  {
    if n == |raw| then None
    else
      var refusal := TaskRefusal(raw[n], IdsOf(raw[..n]));
      if refusal.Some? then refusal else TasksRefusal(raw, n + 1)
  }

  /** Every dependency names another task of the graph. */
  ghost predicate Closed(tasks: map<string, Task>) {
    forall id | id in tasks :: forall dep | dep in tasks[id].dependencies :: dep in tasks && dep != id
  }

  /** The checks of the tasks that precede the cycle search. */
  ghost predicate WellShaped(raw: seq<Task>) {
    && Distinct(IdsOf(raw))
    && (forall i | 0 <= i < |raw| :: WellFormedTask(raw[i]))
    && Closed(TaskMap(raw))
  }

  /** A chain of tasks, each depending on the next. */
  ghost predicate Walk(tasks: map<string, Task>, p: seq<string>) {
    forall i :: 0 <= i < |p| - 1 ==> p[i] in tasks && p[i + 1] in tasks[p[i]].dependencies
  }

  lemma WalkFrom(tasks: map<string, Task>, p: seq<string>, i: nat)
    requires Walk(tasks, p) && i <= |p|
    ensures Walk(tasks, p[i..])
  {
    forall k | 0 <= k < |p[i..]| - 1
      ensures p[i..][k] in tasks && p[i..][k + 1] in tasks[p[i..][k]].dependencies
    {
      assert p[i..][k] == p[i + k] && p[i..][k + 1] == p[i + k + 1];
    }
  }

  lemma WalkOn(tasks: map<string, Task>, p: seq<string>, id: string)
    requires Walk(tasks, p)
    requires p != [] ==> p[|p| - 1] in tasks && id in tasks[p[|p| - 1]].dependencies
    ensures Walk(tasks, p + [id])
  {
    var q := p + [id];
    forall k | 0 <= k < |q| - 1 ensures q[k] in tasks && q[k + 1] in tasks[q[k]].dependencies {
      assert q[k] == p[k];
      if k < |p| - 1 {
        assert q[k + 1] == p[k + 1];
      }
    }
  }

  ghost predicate HasCycle(tasks: map<string, Task>) {
    exists p :: |p| >= 2 && Walk(tasks, p) && p[0] == p[|p| - 1]
  }

  /** Dependencies come before the tasks that need them. */
  ghost predicate DependenciesFirst(tasks: map<string, Task>, order: seq<string>) {
    forall i | 0 <= i < |order| ::
      order[i] in tasks && forall dep | dep in tasks[order[i]].dependencies :: dep in order[..i]
  }

  ghost predicate Topological(tasks: map<string, Task>, order: seq<string>) {
    && Distinct(order)
    && (forall id :: id in order <==> id in tasks)
    && DependenciesFirst(tasks, order)
  }

  /** Along a walk the position in a topological order strictly falls. */
  lemma {:induction false} WalksDescend(tasks: map<string, Task>, order: seq<string>, p: seq<string>, i: nat)
    requires Topological(tasks, order) && Walk(tasks, p) && |p| >= 2
    requires i < |order| && order[i] == p[0]
    ensures exists j :: 0 <= j < i && order[j] == p[|p| - 1]
  {
    assert p[1] in order[..i];
    var j :| 0 <= j < i && order[j] == p[1];
    if |p| > 2 {
      WalkFrom(tasks, p, 1);
      WalksDescend(tasks, order, p[1..], j);
    }
  }

  lemma TopologicalMeansAcyclic(tasks: map<string, Task>, order: seq<string>)
    requires Topological(tasks, order)
    ensures !HasCycle(tasks)
  {
    if p :| |p| >= 2 && Walk(tasks, p) && p[0] == p[|p| - 1] {
      assert p[0] in tasks;
      var i :| 0 <= i < |order| && order[i] == p[0];
      WalksDescend(tasks, order, p, i);
    }
  }

  lemma AppendFinished(tasks: map<string, Task>, order: seq<string>, id: string)
    requires DependenciesFirst(tasks, order) && Distinct(order) && id !in order && id in tasks
    requires forall dep | dep in tasks[id].dependencies :: dep in order
    ensures DependenciesFirst(tasks, order + [id]) && Distinct(order + [id])
  {
    var longer := order + [id];
    forall i | 0 <= i < |longer|
      ensures longer[i] in tasks && forall dep | dep in tasks[longer[i]].dependencies :: dep in longer[..i]
    {
      if i < |order| {
        assert longer[i] == order[i] && longer[..i] == order[..i];
      } else {
        assert longer[..i] == order;
      }
    }
  }

  /** The depth-first search: `visiting` is the current chain, `visited` what is finished. */
  class CycleSearch {
    const tasks: map<string, Task>
    var visiting: set<string>
    var visited: set<string>
    ghost var chain: seq<string>
    ghost var finished: seq<string>

    ghost predicate Valid()
      reads this
    {
      && Closed(tasks)
      && visiting == (set id | id in chain) && Walk(tasks, chain) && (forall id | id in chain :: id in tasks)
      && visited == (set id | id in finished) && Distinct(finished) && DependenciesFirst(tasks, finished)
      && visiting !! visited
    }

    constructor (tasks: map<string, Task>)
      requires Closed(tasks)
      ensures Valid() && this.tasks == tasks && chain == [] && finished == []
    {
      this.tasks := tasks;
      visiting, visited := {}, {};
      chain, finished := [], [];
    }

    lemma FinishedAreTasks()
      requires Valid()
      ensures forall id | id in finished :: id in tasks
    {
    }

    /** Finishes a task and everything it needs, or finds a cycle. */
    method Visit(id: string) returns (ok: bool)
      requires Valid() && id in tasks
      requires chain != [] ==> id in tasks[chain[|chain| - 1]].dependencies
      modifies this
      ensures ok ==> Valid() && chain == old(chain) && old(finished) <= finished && id in visited
      ensures !ok ==> HasCycle(tasks)
      decreases tasks.Keys - visiting
    {
      if id in visiting {
        ghost var i :| 0 <= i < |chain| && chain[i] == id;
        WalkFrom(tasks, chain, i);
        WalkOn(tasks, chain[i..], id);
        assert (chain[i..] + [id])[0] == id;
        return false;
      }
      if id in visited {
        return true;
      }
      visiting := visiting + {id};
      ghost var above := chain;
      WalkOn(tasks, chain, id);
      chain := chain + [id];
      var parents := tasks[id].dependencies;
      for n := 0 to |parents|
        invariant Valid() && chain == above + [id] && old(finished) <= finished
        invariant forall k | 0 <= k < n :: parents[k] in visited
      {
        var found := Visit(parents[n]);
        if !found {
          return false;
        }
      }
      visiting := visiting - {id};
      visited := visited + {id};
      chain := above;
      AppendFinished(tasks, finished, id);
      finished := finished + [id];
      assert id !in above;
      ok := true;
    }
  }

  /** No task is refused exactly when all are well formed and distinct. */
  lemma {:induction false} TasksRefusalMeaning(raw: seq<Task>, n: nat)
    requires n <= |raw| && Distinct(IdsOf(raw[..n]))
    ensures TasksRefusal(raw, n).None? <==> Distinct(IdsOf(raw)) && forall i | n <= i < |raw| :: WellFormedTask(raw[i])
    decreases |raw| - n
  {
    hide IdsOf, IsTaskId, IsKey, IsDigest;
    if n == |raw| {
      assert raw[..n] == raw;
    } else {
      CollectOne(raw, n);
      if TaskRefusal(raw[n], IdsOf(raw[..n])).None? {
        TasksRefusalMeaning(raw, n + 1);
      }
    }
  }

  /** The checks of each task, with the first that fails. */
  method CollectTasks(raw: seq<Task>) returns (r: Result<map<string, Task>, GraphError>)
    ensures r.Ok? <==> Distinct(IdsOf(raw)) && forall i | 0 <= i < |raw| :: WellFormedTask(raw[i])
    ensures r == match TasksRefusal(raw, 0) case Some(e) => Err(e) case None => Ok(TaskMap(raw))
  {
    hide WellFormedTask, IdsOf, TaskMap, IsTaskId, IsKey, IsDigest;
    var tasks: map<string, Task> := map[];
    StartCollecting(raw);
    TasksRefusalMeaning(raw, 0);
    for n := 0 to |raw|
      invariant tasks == TaskMap(raw[..n]) && Distinct(IdsOf(raw[..n]))
      invariant TasksRefusal(raw, 0) == TasksRefusal(raw, n)
    {
      var task := raw[n];
      CollectOne(raw, n);
      if !IsTaskId(task.id) || task.id in tasks {
        return Err(TaskIdentityInvalid);
      }
      if task.revision < 1 {
        return Err(TaskRevisionInvalid);
      }
      if task.maxAttempts < 1 || task.maxAttempts > 3 {
        return Err(AttemptBudgetInvalid);
      }
      var distinct := AllDistinct(task.dependencies);
      if |task.dependencies| > 32 || !distinct {
        return Err(DependenciesInvalid);
      }
      if !IsKey(task.worktreeKey) {
        return Err(WorktreeKeyInvalid);
      }
      if !IsDigest(task.worktreeDigest) {
        return Err(WorktreeDigestInvalid);
      }
      if !IsDigest(task.actionDigest) {
        return Err(ActionDigestInvalid);
      }
      if task.profileId != "fake-alpha" && task.profileId != "fake-beta" {
        return Err(ProfileUnsupported);
      }
      tasks := tasks[task.id := task];
    }
    assert raw[..|raw|] == raw;
    r := Ok(tasks);
  }

  lemma StartCollecting(raw: seq<Task>)
    ensures TaskMap(raw[..0]) == map[] && IdsOf(raw[..0]) == []
  {
  }

  lemma CollectOne(raw: seq<Task>, n: nat)
    requires n < |raw| && Distinct(IdsOf(raw[..n]))
    ensures TaskMap(raw[..n + 1]) == TaskMap(raw[..n])[raw[n].id := raw[n]]
    ensures raw[n].id in TaskMap(raw[..n]) <==> raw[n].id in IdsOf(raw[..n])
    ensures raw[n].id in IdsOf(raw[..n]) ==> !Distinct(IdsOf(raw))
    ensures raw[n].id !in IdsOf(raw[..n]) ==> Distinct(IdsOf(raw[..n + 1]))
  {
    assert raw[..n + 1][..n] == raw[..n];
    TaskMapMeaning(raw[..n]);
    var ids := IdsOf(raw[..n]);
    assert IdsOf(raw[..n + 1]) == ids + [raw[n].id];
    if raw[n].id in ids {
      var k :| 0 <= k < n && ids[k] == raw[n].id;
      assert IdsOf(raw)[k] == IdsOf(raw)[n];
    }
  }

  /** Why a graph is refused: its header, a task, a reference or a cycle, in this order. */
  ghost function GraphRefusal(g: Graph, operatorParallel: int, digest: Graph -> string): Option<GraphError> {
    var header := HeaderRefusal(g, operatorParallel, digest);
    if header.Some? then header
    else if TasksRefusal(g.tasks, 0).Some? then TasksRefusal(g.tasks, 0)
    else if !Closed(TaskMap(g.tasks)) then Some(DependencyReferenceInvalid)
    else if HasCycle(TaskMap(g.tasks)) then Some(DependencyCycle)
    else None
  }

  /** A task names itself or a task that is not in the graph. */
  ghost predicate NamesNoOther(raw: seq<Task>, i: nat)
    requires i < |raw|
  {
    exists dep | dep in raw[i].dependencies :: dep == raw[i].id || dep !in IdsOf(raw)
  }

  lemma ClosedExactlyWhenNamed(raw: seq<Task>)
    requires Distinct(IdsOf(raw))
    ensures Closed(TaskMap(raw)) <==> forall i | 0 <= i < |raw| :: !NamesNoOther(raw, i)
  {
    hide TaskMap, IdsOf, Distinct;
    TaskMapMeaning(raw);
    var tasks := TaskMap(raw);
    if Closed(tasks) {
      forall i | 0 <= i < |raw| ensures !NamesNoOther(raw, i) {
        assert raw[i].id in tasks && tasks[raw[i].id] == raw[i];
      }
    }
    if forall i | 0 <= i < |raw| :: !NamesNoOther(raw, i) {
      forall id, dep | id in tasks && dep in tasks[id].dependencies ensures dep in tasks && dep != id {
        var i := PlaceOf(raw, id);
        assert !NamesNoOther(raw, i);
      }
    }
  }

  /** Where in the list a task is. */
  ghost function PlaceOf(raw: seq<Task>, id: string): (i: nat)
    requires id in IdsOf(raw)
    ensures i < |raw| && raw[i].id == id
  {
    var i :| 0 <= i < |raw| && IdsOf(raw)[i] == id;
    i
  }

  /** A graph whose header and tasks pass is refused for a dependency that is none, else for a cycle, and else accepted. */
  lemma GraphRefusals(g: Graph, operatorParallel: int, digest: Graph -> string)
    ensures var refusal := GraphRefusal(g, operatorParallel, digest);
            var header := HeaderRefusal(g, operatorParallel, digest);
            && (header.Some? ==> refusal == header)
            && (header.None? && TasksRefusal(g.tasks, 0).Some? ==> refusal == TasksRefusal(g.tasks, 0))
            && (header.None? && TasksRefusal(g.tasks, 0).None? ==>
                  var named := forall i | 0 <= i < |g.tasks| :: !NamesNoOther(g.tasks, i);
                  && (!named ==> refusal == Some(DependencyReferenceInvalid))
                  && (named && HasCycle(TaskMap(g.tasks)) ==> refusal == Some(DependencyCycle))
                  && (named && !HasCycle(TaskMap(g.tasks)) ==> refusal == None))
  {
    hide HeaderRefusal, HasCycle, TaskMap, IdsOf, WellFormedTask, NamesNoOther;
    if TasksRefusal(g.tasks, 0).None? {
      StartCollecting(g.tasks);
      TasksRefusalMeaning(g.tasks, 0);
      ClosedExactlyWhenNamed(g.tasks);
    }
  }

  method ValidateGraph(g: Graph, operatorParallel: int, digest: Graph -> string)
    returns (r: Result<map<string, Task>, GraphError>, ghost order: seq<string>)
    ensures r == match GraphRefusal(g, operatorParallel, digest) case Some(e) => Err(e) case None => Ok(TaskMap(g.tasks))
    ensures var header := HeaderRefusal(g, operatorParallel, digest).None?;
            && (r.Ok? <==> header && WellShaped(g.tasks) && !HasCycle(TaskMap(g.tasks)))
            && (r == Err(DependencyCycle) <==> header && WellShaped(g.tasks) && HasCycle(TaskMap(g.tasks)))
    ensures r.Ok? ==> Topological(r.value, order)
  {
    hide HasCycle, TasksRefusal, WellFormedTask, Topological, IsKey, IsDigest, IsDecisionId;
    order := [];
    var header := HeaderRefusal(g, operatorParallel, digest);
    if header.Some? {
      return Err(header.value), order;
    }
    RefusalIsNoCycle(g.tasks, 0);
    var raw := g.tasks;
    var collected := CollectTasks(raw);
    if collected.Err? {
      return Err(collected.error), order;
    }
    var tasks := collected.value;
    TaskMapMeaning(raw);
    for n := 0 to |raw|
      invariant forall k | 0 <= k < n :: forall dep | dep in raw[k].dependencies :: dep in tasks && dep != raw[k].id
    {
      if exists dep | dep in raw[n].dependencies :: dep !in tasks || dep == raw[n].id {
        assert tasks[raw[n].id] == raw[n];
        return Err(DependencyReferenceInvalid), order;
      }
    }
    assert Closed(tasks);
    var ok;
    ok, order := AcyclicOrder(raw, tasks);
    r := if ok then Ok(tasks) else Err(DependencyCycle);
  }

  lemma {:induction false} RefusalIsNoCycle(raw: seq<Task>, n: nat)
    requires n <= |raw|
    ensures TasksRefusal(raw, n) != Some(DependencyCycle)
    decreases |raw| - n
  {
    hide IsTaskId, IsKey, IsDigest;
    if n < |raw| {
      RefusalIsNoCycle(raw, n + 1);
    }
  }

  /** Visits every task in turn. */
  method AcyclicOrder(raw: seq<Task>, tasks: map<string, Task>) returns (ok: bool, ghost order: seq<string>)
    requires Closed(tasks)
    requires forall id :: id in tasks <==> id in IdsOf(raw)
    ensures ok <==> !HasCycle(tasks)
    ensures ok ==> Topological(tasks, order)
  {
    hide HasCycle, Closed, DependenciesFirst, Walk;
    var search := new CycleSearch(tasks);
    for n := 0 to |raw|
      invariant search.Valid() && search.tasks == tasks && search.chain == []
      invariant forall k | 0 <= k < n :: raw[k].id in search.visited
    {
      assert IdsOf(raw)[n] == raw[n].id;
      ok := search.Visit(raw[n].id);
      if !ok {
        return false, [];
      }
    }
    order := search.finished;
    search.FinishedAreTasks();
    TopologicalMeansAcyclic(tasks, order);
    ok := true;
  }
}
