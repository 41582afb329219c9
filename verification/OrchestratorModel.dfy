/**
 The batch loop over an accepted task graph. Every pass selects ready tasks with
 distinct worktrees, lets them run to completion in any interleaving of journal
 transitions, and recovers or fails the ones that raised.

 What the workers do is a parameter: an environment says, pass by pass, which
 transitions are attempted in which order, how each task ends, and what its
 coordinator record looks like then. A worker returns only right after it made its task
 terminal; one that is over with its task unfinished has therefore raised.
*/
module OrchestratorModel {
  import opened Sequences
  import opened TaskGraph
  import opened RunJournal

  /** What the coordinator's record of the task shows when a worker is over. */
  datatype Record = NoRecord | Unusable | DoneWithGates | RunningLease(reconciles: bool)

  /** How a worker ended: it met another worker's live lease, or it returned or raised otherwise. */
  datatype Ending = LeaseStillLive | Over(record: Record)

  datatype Move = Attempt(id: string, status: Status, evidence: string) | Finish(id: string)

  datatype Environment = Environment(moves: nat -> seq<Move>, ending: (nat, string) -> Ending)

  // Event order

  ghost predicate CompletedIn(events: seq<Event>, id: string) {
    exists j :: 0 <= j < |events| && events[j].body.taskId == id && events[j].body.status.Completed?
  }

  ghost predicate DependenciesDone(tasks: map<string, Task>, events: seq<Event>, id: string) {
    id in tasks && forall dep | dep in tasks[id].dependencies :: CompletedIn(events, dep)
  }

  /** Every event other than a block comes after its task's dependencies completed. */
  ghost predicate Gated(tasks: map<string, Task>, events: seq<Event>) {
    forall i :: 0 <= i < |events| && !events[i].body.status.Blocked? ==>
      DependenciesDone(tasks, events[..i], events[i].body.taskId)
  }

  lemma DoneStaysDone(tasks: map<string, Task>, before: seq<Event>, after: seq<Event>, id: string)
    requires DependenciesDone(tasks, before, id) && before <= after
    ensures DependenciesDone(tasks, after, id)
  {
    forall dep | dep in tasks[id].dependencies ensures CompletedIn(after, dep) {
      var j :| 0 <= j < |before| && before[j].body.taskId == dep && before[j].body.status.Completed?;
      assert after[j] == before[j];
    }
  }

  lemma GatedOne(tasks: map<string, Task>, events: seq<Event>, e: Event)
    requires Gated(tasks, events)
    requires e.body.status.Blocked? || DependenciesDone(tasks, events, e.body.taskId)
    ensures Gated(tasks, events + [e])
  {
    var longer := events + [e];
    forall i | 0 <= i < |longer| && !longer[i].body.status.Blocked?
      ensures DependenciesDone(tasks, longer[..i], longer[i].body.taskId)
    {
      assert longer[..i] == events[..i];
      assert events[..|events|] == events;
    }
  }

  lemma {:induction false} CompletedStatusHasEvent(events: seq<Event>, id: string)
    requires StatusAfter(events, id).Completed?
    ensures CompletedIn(events, id)
  {
    var n := |events| - 1;
    if events[n].body.taskId != id {
      CompletedStatusHasEvent(events[..n], id);
      var j :| 0 <= j < n && events[..n][j].body.taskId == id && events[..n][j].body.status.Completed?;
      assert events[j] == events[..n][j];
    }
  }

  lemma {:induction false} StatusIsKnown(b: Binding, events: seq<Event>, id: string)
    requires Chained(b, events)
    ensures Known(StatusAfter(events, id))
  {
    if events != [] {
      var n := |events| - 1;
      assert Linked(b, events, n);
      ChainedPrefix(b, events, n);
      StatusIsKnown(b, events[..n], id);
    }
  }

  // Progress on an acyclic graph

  ghost predicate Unsuccessful(status: Status) {
    status.Blocked? || status.Failed?
  }

  predicate IsReady(tasks: map<string, Task>, statuses: map<string, Status>, id: string) {
    && id in tasks && id in statuses && !Terminal(statuses[id])
    && forall dep | dep in tasks[id].dependencies :: dep in statuses && statuses[dep].Completed?
  }

  /** Some task below it, directly or not, was blocked or failed. */
  ghost predicate HasFailedAncestor(tasks: map<string, Task>, statuses: map<string, Status>, id: string) {
    exists p :: LeadsToFailure(tasks, statuses, p) && p[0] == id
  }

  ghost predicate LeadsToFailure(tasks: map<string, Task>, statuses: map<string, Status>, p: seq<string>) {
    && |p| >= 2 && Walk(tasks, p)
    && var last := p[|p| - 1];
       last in statuses && Unsuccessful(statuses[last])
  }

  /** Failures stay: an ancestor's failure survives whatever happens to pending tasks. */
  lemma AncestorsKept(tasks: map<string, Task>, before: map<string, Status>, after: map<string, Status>, id: string)
    requires HasFailedAncestor(tasks, before, id)
    requires forall x | x in before && Terminal(before[x]) :: x in after && after[x] == before[x]
    ensures HasFailedAncestor(tasks, after, id)
  {
    var p :| LeadsToFailure(tasks, before, p) && p[0] == id;
    assert LeadsToFailure(tasks, after, p);
  }

  ghost predicate NoneReady(tasks: map<string, Task>, statuses: map<string, Status>) {
    forall id | id in tasks :: !IsReady(tasks, statuses, id)
  }

  lemma ClosedFromOrder(tasks: map<string, Task>, order: seq<string>)
    requires Topological(tasks, order)
    ensures Closed(tasks)
  {
    forall id, dep | id in tasks && dep in tasks[id].dependencies ensures dep in tasks && dep != id {
      var i :| 0 <= i < |order| && order[i] == id;
      assert dep in order[..i];
      var j :| 0 <= j < i && order[j] == dep;
    }
  }

  /** With nothing ready, whatever is pending waits below a failure. */
  lemma {:induction false} PendingWaitsBelowFailure(
    tasks: map<string, Task>, order: seq<string>, statuses: map<string, Status>, i: nat)
    requires Topological(tasks, order) && Closed(tasks) && statuses.Keys == tasks.Keys
    requires NoneReady(tasks, statuses)
    requires i < |order| && !Terminal(statuses[order[i]])
    ensures HasFailedAncestor(tasks, statuses, order[i])
    decreases i
  {
    hide Walk, HasFailedAncestor;
    var id := order[i];
    assert !IsReady(tasks, statuses, id);
    var dep :| dep in tasks[id].dependencies && !statuses[dep].Completed?;
    assert dep in order[..i];
    var j :| 0 <= j < i && order[j] == dep;
    if !Terminal(statuses[dep]) {
      PendingWaitsBelowFailure(tasks, order, statuses, j);
    }
    AncestorOfDependency(tasks, statuses, id, dep);
  }

  lemma AncestorOfDependency(tasks: map<string, Task>, statuses: map<string, Status>, id: string, dep: string)
    requires id in tasks && dep in tasks[id].dependencies && dep in statuses
    requires Unsuccessful(statuses[dep]) || HasFailedAncestor(tasks, statuses, dep)
    ensures HasFailedAncestor(tasks, statuses, id)
  {
    hide Walk;
    var q := [dep];
    if Unsuccessful(statuses[dep]) {
      WalkOn(tasks, [], dep);
      assert [] + [dep] == [dep];
    } else {
      q :| LeadsToFailure(tasks, statuses, q) && q[0] == dep;
    }
    WalkCons(tasks, id, q);
    var p := [id] + q;
    assert p[|p| - 1] == q[|q| - 1];
    assert LeadsToFailure(tasks, statuses, p);
  }

  lemma WalkCons(tasks: map<string, Task>, id: string, q: seq<string>)
    requires Walk(tasks, q) && q != [] && id in tasks && q[0] in tasks[id].dependencies
    ensures Walk(tasks, [id] + q)
  {
    var p := [id] + q;
    assert p[1] == q[0];
    forall k | 0 <= k < |p| - 1 ensures p[k] in tasks && p[k + 1] in tasks[p[k]].dependencies {
      if k > 0 {
        assert p[k] == q[k - 1] && p[k + 1] == q[k];
      }
    }
  }

  /** With something pending and nothing ready, some pending task directly needs a failed one. */
  lemma {:induction false} SomethingToBlock(
    tasks: map<string, Task>, order: seq<string>, statuses: map<string, Status>, i: nat)
    requires Topological(tasks, order) && Closed(tasks) && statuses.Keys == tasks.Keys
    requires NoneReady(tasks, statuses)
    requires i < |order| && !Terminal(statuses[order[i]])
    ensures exists id | id in tasks :: MustBlock(tasks, statuses, id)
    decreases i
  {
    var id := order[i];
    assert !IsReady(tasks, statuses, id);
    var dep :| dep in tasks[id].dependencies && !statuses[dep].Completed?;
    assert dep in order[..i];
    var j :| 0 <= j < i && order[j] == dep;
    if Terminal(statuses[dep]) {
      assert MustBlock(tasks, statuses, id);
    } else {
      SomethingToBlock(tasks, order, statuses, j);
    }
  }

  predicate MustBlock(tasks: map<string, Task>, statuses: map<string, Status>, id: string) {
    && id in tasks && id in statuses && !Terminal(statuses[id])
    && exists dep | dep in tasks[id].dependencies :: dep in statuses && (statuses[dep].Blocked? || statuses[dep].Failed?)
  }

  /** The later file extends the earlier one, touching only the named tasks and no terminal one. */
  ghost predicate Extends(before: File, after: File, ids: set<string>) {
    && before.events <= after.events
    && before.taskStatus.Keys == after.taskStatus.Keys
    && forall id | id in before.taskStatus ::
         id !in ids || Terminal(before.taskStatus[id]) ==> after.taskStatus[id] == before.taskStatus[id]
  }

  lemma ExtendsOn(start: File, before: File, after: File, ids: set<string>, more: set<string>)
    requires Extends(start, before, ids) && Extends(before, after, more) && more <= ids
    ensures Extends(start, after, ids) && start.events <= after.events
    ensures before.taskStatus.Keys == after.taskStatus.Keys
    ensures forall id | id in before.taskStatus && Terminal(before.taskStatus[id]) ::
              after.taskStatus[id] == before.taskStatus[id]
  {
  }

  lemma ExtendsOnly(start: File, after: File, ids: set<string>)
    requires Extends(start, after, ids)
    ensures forall id | id in after.taskStatus && !Terminal(after.taskStatus[id]) ::
              id in start.taskStatus && !Terminal(start.taskStatus[id])
  {
  }

  lemma ExtendsItself(file: File, ids: set<string>)
    ensures Extends(file, file, ids)
  {
  }

  function Pending(statuses: map<string, Status>): set<string> {
    set id | id in statuses && !Terminal(statuses[id])
  }

  ghost predicate Runnable(tasks: map<string, Task>, file: File, batch: set<string>) {
    forall id | id in batch :: id in tasks && DependenciesDone(tasks, file.events, id)
  }

  /** Every task of the batch that is no longer running is terminal. */
  ghost predicate Settled(file: File, batch: set<string>, running: set<string>) {
    forall id | id in batch && id !in running :: id in file.taskStatus && Terminal(file.taskStatus[id])
  }

  lemma NoneEnded(file: File, batch: set<string>)
    ensures Settled(file, batch, batch)
  {
  }

  lemma SettledOne(file: File, batch: set<string>, running: set<string>, id: string)
    requires Settled(file, batch, running) && id in file.taskStatus && Terminal(file.taskStatus[id])
    ensures Settled(file, batch, running - {id})
  {
  }

  lemma SettledAll(file: File, batch: set<string>, running: set<string>)
    requires Settled(file, batch, running) && batch !! running
    ensures Settled(file, batch, {})
  {
  }

  /** What a step for one task of the batch preserves. */
  lemma BatchGoesOn(tasks: map<string, Task>, start: File, before: File, after: File, batch: set<string>, id: string)
    requires Runnable(tasks, before, batch) && Extends(start, before, batch) && Extends(before, after, {id}) && id in batch
    ensures Runnable(tasks, after, batch) && Extends(start, after, batch)
    ensures forall running :: Settled(before, batch, running) ==> Settled(after, batch, running)
  {
    hide DependenciesDone;
    forall x | x in batch ensures DependenciesDone(tasks, after.events, x) {
      DoneStaysDone(tasks, before.events, after.events, x);
    }
  }

  // What the loop does, step by step

  /** The file after a transition request; a refused one changes nothing. */
  function Tried(b: Binding, file: File, id: string, status: Status, evidence: string): File {
    match Transitioned(b, file, id, status, evidence)
    case Ok(after) => after
    case Err(_) => file
  }

  predicate Admits(b: Binding, file: File, id: string, status: Status, evidence: string) {
    Transitioned(b, file, id, status, evidence).Ok?
  }

  function StatusIn(statuses: map<string, Status>, id: string): Status {
    if id in statuses then statuses[id] else Planned
  }

  /** The file after a worker raised, and whether the task waits for a later run. */
  function Recovery(b: Binding, maxAttempts: int, file: File, id: string, record: Record): (File, bool) {
    if Terminal(StatusIn(file.taskStatus, id)) then (file, false)
    else if record.DoneWithGates? && Admits(b, file, id, Completed, "recovered terminal") then
      (Tried(b, file, id, Completed, "recovered terminal"), false)
    else if record.RunningLease? && Attempts(file.events, id) >= maxAttempts && record.reconciles then
      (Tried(b, file, id, Failed, "attempts exhausted"), false)
    else if record.RunningLease? && Attempts(file.events, id) < maxAttempts && Admits(b, file, id, Recovering, "live lease") then
      (Tried(b, file, id, Recovering, "live lease"), true)
    else (Tried(b, file, id, Failed, "raised"), false)
  }

  function Ended(b: Binding, maxAttempts: int, file: File, id: string, ending: Ending): (File, bool) {
    match ending
    case LeaseStillLive => (file, true)
    case Over(record) => Recovery(b, maxAttempts, file, id, record)
  }

  /** The tasks that are ready, in graph order. */
  function ReadyIn(tasks: map<string, Task>, ids: seq<string>, statuses: map<string, Status>): (ready: seq<string>)
    ensures forall id :: id in ready <==> id in ids && IsReady(tasks, statuses, id)
  {
    if ids == [] then []
    else
      var earlier, last := ReadyIn(tasks, ids[..|ids| - 1], statuses), ids[|ids| - 1];
      assert ids == ids[..|ids| - 1] + [last];
      if IsReady(tasks, statuses, last) then earlier + [last] else earlier
  }

  function KeyOf(tasks: map<string, Task>, id: string): string {
    if id in tasks then tasks[id].worktreeKey else ""
  }

  /** The task's worktree is already taken. */
  predicate Clashes(tasks: map<string, Task>, selected: seq<string>, id: string) {
    exists other | other in selected :: KeyOf(tasks, other) == KeyOf(tasks, id)
  }

  /** The first ready tasks whose worktrees are not taken, up to the bound. */
  function Selection(tasks: map<string, Task>, ready: seq<string>, max: nat): seq<string> {
    if ready == [] then []
    else
      var earlier, last := Selection(tasks, ready[..|ready| - 1], max), ready[|ready| - 1];
      if |earlier| >= max || Clashes(tasks, earlier, last) then earlier else earlier + [last]
  }

  /** The bound holds, worktrees are exclusive, and something is selected if anything is ready. */
  lemma {:induction false} SelectionIsExclusive(tasks: map<string, Task>, ready: seq<string>, max: nat)
    requires max >= 1
    ensures var selected := Selection(tasks, ready, max);
            && (forall id | id in selected :: id in ready)
            && |selected| <= max && (ready != [] ==> selected != [])
            && (forall i, j | 0 <= i < j < |selected| :: KeyOf(tasks, selected[i]) != KeyOf(tasks, selected[j]))
  {
    if ready != [] {
      var earlier, last := Selection(tasks, ready[..|ready| - 1], max), ready[|ready| - 1];
      SelectionIsExclusive(tasks, ready[..|ready| - 1], max);
      assert ready == ready[..|ready| - 1] + [last];
      if |earlier| < max && !Clashes(tasks, earlier, last) {
        assert forall i | 0 <= i < |earlier| :: earlier[i] in earlier;
      }
    }
  }

  /** A ready task is passed over only because the batch is full or its worktree is taken. */
  lemma {:induction false} SelectionPassesOverOnly(tasks: map<string, Task>, ready: seq<string>, max: nat, id: string)
    requires id in ready
    ensures var selected := Selection(tasks, ready, max);
            |selected| >= max || Clashes(tasks, selected, id)
  {
    hide KeyOf;
    var n := |ready| - 1;
    var earlier, last := Selection(tasks, ready[..n], max), ready[n];
    assert ready == ready[..n] + [last];
    if id in ready[..n] {
      SelectionPassesOverOnly(tasks, ready[..n], max, id);
      if Clashes(tasks, earlier, id) {
        var other :| other in earlier && KeyOf(tasks, other) == KeyOf(tasks, id);
        assert other in Selection(tasks, ready, max);
      }
    } else if |earlier| < max && !Clashes(tasks, earlier, last) {
      assert last in Selection(tasks, ready, max);
    }
  }

  lemma {:induction false} FullSelectionStays(tasks: map<string, Task>, ready: seq<string>, max: nat, n: nat)
    requires n <= |ready| && |Selection(tasks, ready[..n], max)| >= max
    ensures Selection(tasks, ready, max) == Selection(tasks, ready[..n], max)
    decreases |ready|
  {
    if n == |ready| {
      assert ready[..n] == ready;
    } else {
      assert ready[..|ready| - 1][..n] == ready[..n];
      FullSelectionStays(tasks, ready[..|ready| - 1], max, n);
    }
  }

  function Announced(b: Binding, file: File, snapshot: map<string, Status>, selected: seq<string>): File {
    if selected == [] then file
    else
      var earlier, last := Announced(b, file, snapshot, selected[..|selected| - 1]), selected[|selected| - 1];
      if StatusIn(snapshot, last).Planned? then Tried(b, earlier, last, Ready, "graph digest") else earlier
  }

  /** A pass in progress. */
  datatype Pass = Pass(file: File, running: set<string>, deferred: bool)

  /** What the loop is bound to: the tasks in graph order, and as the stored file lists them. */
  datatype Loop = Loop(
    binding: Binding, tasks: map<string, Task>, ids: seq<string>, listed: seq<string>, maxParallel: nat, env: Environment)

  function WorkerEnds(l: Loop, pass: nat, p: Pass, id: string): Pass {
    var maxAttempts := if id in l.tasks then l.tasks[id].maxAttempts else 0;
    var (file, deferred) := Ended(l.binding, maxAttempts, p.file, id, l.env.ending(pass, id));
    Pass(file, p.running - {id}, p.deferred || deferred)
  }

  function Play(l: Loop, pass: nat, p: Pass, move: Move): Pass {
    if move.id !in p.running then p
    else if move.Attempt? then p.(file := Tried(l.binding, p.file, move.id, move.status, move.evidence))
    else WorkerEnds(l, pass, p, move.id)
  }

  function Played(l: Loop, pass: nat, p: Pass, moves: seq<Move>): Pass {
    if moves == [] then p else Play(l, pass, Played(l, pass, p, moves[..|moves| - 1]), moves[|moves| - 1])
  }

  /** Ends whatever is left running, in order. */
  function Drained(l: Loop, pass: nat, p: Pass, selected: seq<string>): Pass {
    if selected == [] then p
    else
      var earlier, last := Drained(l, pass, p, selected[..|selected| - 1]), selected[|selected| - 1];
      if last in earlier.running then WorkerEnds(l, pass, earlier, last) else earlier
  }

  function PassResult(l: Loop, pass: nat, file: File, selected: seq<string>): Pass {
    var announced := Announced(l.binding, file, file.taskStatus, selected);
    var started := Pass(announced, set id | id in selected, false);
    Drained(l, pass, Played(l, pass, started, l.env.moves(pass)), selected)
  }

  function Selected(l: Loop, file: File): seq<string> {
    Selection(l.tasks, ReadyIn(l.tasks, l.ids, file.taskStatus), l.maxParallel)
  }

  /** One layer: every pending task with a blocked or failed dependency, in the order the file lists them. */
  function LayerBlocked(
    b: Binding, tasks: map<string, Task>, file: File, snapshot: map<string, Status>, ids: seq<string>): File
  {
    if ids == [] then file
    else
      var earlier, last := LayerBlocked(b, tasks, file, snapshot, ids[..|ids| - 1]), ids[|ids| - 1];
      if MustBlock(tasks, snapshot, last) then Tried(b, earlier, last, Blocked, "dependency not completed") else earlier
  }

  ghost predicate Defers(l: Loop, files: seq<File>, k: nat)
    requires k < |files|
  {
    PassResult(l, k + 1, files[k], Selected(l, files[k])).deferred
  }

  /** The files a run goes through, one per worker pass; only the last pass may defer. */
  ghost predicate PassesFollow(l: Loop, files: seq<File>) {
    && files != []
    && forall k | 0 <= k < |files| - 1 ::
         && Selected(l, files[k]) != []
         && files[k + 1] == PassResult(l, k + 1, files[k], Selected(l, files[k])).file
         && (Defers(l, files, k) ==> k == |files| - 2)
  }

  ghost predicate LastDefers(l: Loop, files: seq<File>) {
    |files| >= 2 && Defers(l, files, |files| - 2)
  }

  /** One run of the loop: passes while something is ready, then one layer of blocks unless the last pass deferred. */
  ghost predicate RunTrace(l: Loop, files: seq<File>, start: File, deferred: bool, end: File) {
    && PassesFollow(l, files) && files[0] == start
    && deferred == LastDefers(l, files)
    && var last := files[|files| - 1];
       if deferred then end == last
       else Selected(l, last) == [] && end == LayerBlocked(l.binding, l.tasks, last, last.taskStatus, l.listed)
  }

  /** The loop leaves no choice but the environment's. */
  lemma RunIsDetermined(l: Loop, start: File, xs: seq<File>, d: bool, x: File, ys: seq<File>, e: bool, y: File)
    requires RunTrace(l, xs, start, d, x) && RunTrace(l, ys, start, e, y)
    ensures xs == ys && d == e && x == y
  {
    hide PassResult, Selected, LayerBlocked;
    PassesAgree(l, xs, ys, |xs| - 1);
    PassesAgree(l, ys, xs, |ys| - 1);
    var n := if |xs| <= |ys| then |xs| else |ys|;
    assert xs[..n] == ys[..n];
    assert n >= 2 ==> Defers(l, xs, n - 2) == Defers(l, ys, n - 2);
    assert xs[n - 1] == ys[n - 1];
    assert |xs| == |ys|;
    assert xs[..n] == xs && ys[..n] == ys;
  }

  lemma {:induction false} PassesAgree(l: Loop, xs: seq<File>, ys: seq<File>, n: nat)
    requires PassesFollow(l, xs) && PassesFollow(l, ys) && xs[0] == ys[0]
    ensures forall k | 0 <= k <= n && k < |xs| && k < |ys| :: xs[k] == ys[k]
  {
    if n > 0 {
      PassesAgree(l, xs, ys, n - 1);
      assert n < |xs| && n < |ys| ==> xs[n - 1] == ys[n - 1];
    }
  }

  lemma FirstFile(l: Loop, file: File)
    ensures PassesFollow(l, [file]) && !LastDefers(l, [file])
  {
  }

  /** One more worker pass, and whether it deferred. */
  lemma PassesGoOn(l: Loop, files: seq<File>, after: File, selected: seq<string>)
    requires PassesFollow(l, files) && !LastDefers(l, files)
    requires selected == Selected(l, files[|files| - 1]) && selected != []
    requires after == PassResult(l, |files|, files[|files| - 1], selected).file
    ensures PassesFollow(l, files + [after])
    ensures LastDefers(l, files + [after]) <==> PassResult(l, |files|, files[|files| - 1], selected).deferred
  {
    hide PassResult, Selected;
    var longer := files + [after];
    forall k | 0 <= k < |longer| - 1
      ensures Selected(l, longer[k]) != [] && longer[k + 1] == PassResult(l, k + 1, longer[k], Selected(l, longer[k])).file
      ensures Defers(l, longer, k) ==> k == |longer| - 2
    {
      assert longer[k] == files[k];
      if k < |files| - 1 {
        assert longer[k + 1] == files[k + 1];
        assert Defers(l, longer, k) == Defers(l, files, k);
      }
    }
  }

  lemma NothingReadyNothingSelected(l: Loop, file: File)
    requires ReadyIn(l.tasks, l.ids, file.taskStatus) == []
    ensures Selected(l, file) == []
  {
  }

  lemma SomethingIn(s: seq<string>)
    ensures s != [] ==> exists id :: id in s
  {
    if s != [] {
      assert s[0] in s;
    }
  }

  /** With everything terminal nothing is ready or selected, and nothing is left to block. */
  lemma NothingPending(l: Loop, file: File)
    requires Pending(file.taskStatus) == {}
    ensures Selected(l, file) == [] && NoneReady(l.tasks, file.taskStatus)
    ensures LayerBlocked(l.binding, l.tasks, file, file.taskStatus, l.listed) == file
    ensures LeavesOneLayerLess(l.tasks, file, file)
  {
    forall id ensures !IsReady(l.tasks, file.taskStatus, id) && !MustBlock(l.tasks, file.taskStatus, id) {
      assert id !in Pending(file.taskStatus);
    }
    NothingToBlock(l.binding, l.tasks, file, l.listed);
    SomethingIn(ReadyIn(l.tasks, l.ids, file.taskStatus));
    NothingReadyNothingSelected(l, file);
  }

  lemma {:induction false} NothingToBlock(b: Binding, tasks: map<string, Task>, file: File, ids: seq<string>)
    requires forall id :: !MustBlock(tasks, file.taskStatus, id)
    ensures LayerBlocked(b, tasks, file, file.taskStatus, ids) == file
  {
    if ids != [] {
      NothingToBlock(b, tasks, file, ids[..|ids| - 1]);
    }
  }

  /**
   What is pending afterwards is what did not directly need a failed or blocked task; so nothing
   is pending exactly when everything that was did.
  */
  ghost predicate LeavesOneLayerLess(tasks: map<string, Task>, before: File, after: File) {
    && (forall id :: id in Pending(after.taskStatus) <==>
          id in Pending(before.taskStatus) && !MustBlock(tasks, before.taskStatus, id))
    && (Pending(after.taskStatus) == {} <==>
          forall id | id in Pending(before.taskStatus) :: MustBlock(tasks, before.taskStatus, id))
  }

  lemma LayerLeaves(tasks: map<string, Task>, before: File, after: File)
    requires before.taskStatus.Keys == after.taskStatus.Keys == tasks.Keys
    requires forall id | id in tasks ::
               after.taskStatus[id] == if MustBlock(tasks, before.taskStatus, id) then Blocked else before.taskStatus[id]
    ensures LeavesOneLayerLess(tasks, before, after)
  {
    hide MustBlock;
    forall id ensures id in Pending(after.taskStatus) <==>
                        id in Pending(before.taskStatus) && !MustBlock(tasks, before.taskStatus, id)
    {
      if id in tasks && MustBlock(tasks, before.taskStatus, id) {
        OnlyPendingIsBlocked(tasks, before.taskStatus, id);
      }
    }
    if id :| id in Pending(before.taskStatus) && !MustBlock(tasks, before.taskStatus, id) {
      assert id in Pending(after.taskStatus);
    }
  }

  /** Blocking makes nothing ready. */
  lemma StaysUnready(tasks: map<string, Task>, before: map<string, Status>, after: map<string, Status>)
    requires NoneReady(tasks, before) && before.Keys == after.Keys
    requires forall id | id in after :: after[id] == before[id] || (after[id].Blocked? && !Terminal(before[id]))
    ensures NoneReady(tasks, after)
  {
    forall id | id in tasks ensures !IsReady(tasks, after, id) {
      assert !IsReady(tasks, before, id);
    }
  }

  // One layer at a time

  lemma OnlyPendingIsBlocked(tasks: map<string, Task>, snapshot: map<string, Status>, id: string)
    requires MustBlock(tasks, snapshot, id)
    ensures id in snapshot && !Terminal(snapshot[id])
  {
  }

  /** Blocking a layer blocks exactly the listed tasks that directly need a failed or blocked one. */
  lemma {:induction false} LayerMeaning(
    b: Binding, tasks: map<string, Task>, file: File, snapshot: map<string, Status>, ids: seq<string>)
    requires DigestFunctions(b) && Accepts(b, file) && snapshot == file.taskStatus && tasks.Keys == b.tasks
    requires Distinct(ids) && forall id | id in ids :: id in tasks
    ensures var after := LayerBlocked(b, tasks, file, snapshot, ids);
            && Accepts(b, after) && after.taskStatus.Keys == tasks.Keys
            && forall id | id in tasks ::
                 after.taskStatus[id] == if MustBlock(tasks, snapshot, id) && id in ids then Blocked else snapshot[id]
  {
    hide DigestFunctions, MustBlock, Tried;
    if ids != [] {
      var n := |ids| - 1;
      var last := ids[n];
      LayerMeaning(b, tasks, file, snapshot, ids[..n]);
      assert ids == ids[..n] + [last];
      if MustBlock(tasks, snapshot, last) {
        OnlyPendingIsBlocked(tasks, snapshot, last);
        var earlier := LayerBlocked(b, tasks, file, snapshot, ids[..n]);
        StatusIsKnown(b, file.events, last);
        TriedIsDone(b, earlier, last, Blocked, "dependency not completed");
      }
    }
  }

  /** A request the table admits is carried out. */
  lemma TriedIsDone(b: Binding, file: File, id: string, status: Status, evidence: string)
    requires DigestFunctions(b) && Accepts(b, file) && id in b.tasks
    requires Known(status) && Follows(file.taskStatus[id], status) && status != file.taskStatus[id]
    ensures var after := Tried(b, file, id, status, evidence);
            Accepts(b, after) && after.taskStatus == file.taskStatus[id := status]
  {
    TransitionKeepsAcceptance(b, file, id, status, evidence);
  }

  /** Three tasks in a row, the first of which fails in the first pass. */
  ghost predicate FailingChain(l: Loop, a: string, b: string, c: string) {
    && l.ids == [a, b, c] && a != b && b != c && a != c
    && (forall id :: id in l.listed <==> id in l.ids) && Distinct(l.listed)
    && l.tasks.Keys == l.binding.tasks == {a, b, c}
    && l.tasks[a].dependencies == [] && l.tasks[b].dependencies == [a] && l.tasks[c].dependencies == [b]
    && l.maxParallel >= 1 && DigestFunctions(l.binding)
    && l.env.moves(1) == [] && l.env.ending(1, a) == Over(NoRecord)
  }

  lemma ReadyInChain(l: Loop, a: string, b: string, c: string, file: File)
    requires FailingChain(l, a, b, c) && file.taskStatus.Keys == l.tasks.Keys
    requires !file.taskStatus[a].Completed? && !file.taskStatus[b].Completed?
    ensures Selected(l, file) == if Terminal(file.taskStatus[a]) then [] else [a]
  {
    assert [a, b, c][..2] == [a, b] && [a, b][..1] == [a] && [a][..0] == [];
    assert a in l.tasks[b].dependencies && b in l.tasks[c].dependencies;
    assert !IsReady(l.tasks, file.taskStatus, b) && !IsReady(l.tasks, file.taskStatus, c);
    assert IsReady(l.tasks, file.taskStatus, a) <==> !Terminal(file.taskStatus[a]);
    assert ReadyIn(l.tasks, [a], file.taskStatus) == if Terminal(file.taskStatus[a]) then [] else [a];
    assert ReadyIn(l.tasks, [a, b], file.taskStatus) == ReadyIn(l.tasks, [a], file.taskStatus);
    assert Selection(l.tasks, [a], l.maxParallel) == [a];
  }

  /** The first pass announces the first task, whose worker then raises. */
  lemma FirstPassFails(l: Loop, a: string, b: string, c: string)
    requires FailingChain(l, a, b, c)
    ensures var p := PassResult(l, 1, Fresh(l.binding), [a]);
            && !p.deferred && Accepts(l.binding, p.file)
            && p.file.taskStatus == map[a := Failed, b := Planned, c := Planned]
  {
    hide Accepts, DigestFunctions, Transitioned, Tried;
    var start := Fresh(l.binding);
    FreshIsAccepted(l.binding);
    TriedIsDone(l.binding, start, a, Ready, "graph digest");
    var announced := Tried(l.binding, start, a, Ready, "graph digest");
    assert [a][..0] == [];
    assert Announced(l.binding, start, start.taskStatus, []) == start;
    assert Announced(l.binding, start, start.taskStatus, [a]) == announced;
    TriedIsDone(l.binding, announced, a, Failed, "raised");
    var started := Pass(announced, set id | id in [a], false);
    assert Drained(l, 1, started, []) == started && a in started.running;
    assert PassResult(l, 1, start, [a]) == WorkerEnds(l, 1, started, a);
  }

  lemma ChainMustBlock(l: Loop, a: string, b: string, c: string, statuses: map<string, Status>)
    requires FailingChain(l, a, b, c) && statuses.Keys == l.tasks.Keys
    requires statuses[a].Failed? && statuses[c].Planned? && (statuses[b].Planned? || statuses[b].Blocked?)
    ensures !MustBlock(l.tasks, statuses, a)
    ensures MustBlock(l.tasks, statuses, b) <==> statuses[b].Planned?
    ensures MustBlock(l.tasks, statuses, c) <==> statuses[b].Blocked?
  {
    assert a in l.tasks[b].dependencies && b in l.tasks[c].dependencies;
  }

  /** The layer of a chain whose first task failed. */
  lemma ChainLayer(l: Loop, a: string, b: string, c: string, file: File)
    requires FailingChain(l, a, b, c) && Accepts(l.binding, file) && file.taskStatus.Keys == l.tasks.Keys
    requires file.taskStatus[a].Failed? && file.taskStatus[c].Planned?
    requires file.taskStatus[b].Planned? || file.taskStatus[b].Blocked?
    ensures var after := LayerBlocked(l.binding, l.tasks, file, file.taskStatus, l.listed);
            && Accepts(l.binding, after)
            && after.taskStatus == map[a := Failed, b := Blocked, c := if file.taskStatus[b].Blocked? then Blocked else Planned]
  {
    hide Accepts, DigestFunctions, LayerBlocked, Distinct, MustBlock;
    LayerMeaning(l.binding, l.tasks, file, file.taskStatus, l.listed);
    ChainMustBlock(l, a, b, c, file.taskStatus);
    var after := LayerBlocked(l.binding, l.tasks, file, file.taskStatus, l.listed);
    assert after.taskStatus.Keys == {a, b, c};
  }

  /** The run over a fresh file: one worker pass, then one layer. */
  lemma FirstRunOfChain(l: Loop, a: string, b: string, c: string) returns (files: seq<File>, end: File)
    requires FailingChain(l, a, b, c)
    ensures RunTrace(l, files, Fresh(l.binding), false, end) && Accepts(l.binding, end)
    ensures end.taskStatus == map[a := Failed, b := Blocked, c := Planned]
  {
    hide PassResult, LayerBlocked, Accepts, DigestFunctions, Selected, LastDefers, PassesFollow;
    var start := Fresh(l.binding);
    FreshIsAccepted(l.binding);
    ReadyInChain(l, a, b, c, start);
    FirstPassFails(l, a, b, c);
    var failed := PassResult(l, 1, start, [a]).file;
    FirstFile(l, start);
    PassesGoOn(l, [start], failed, [a]);
    files := [start] + [failed];
    ReadyInChain(l, a, b, c, failed);
    ChainLayer(l, a, b, c, failed);
    end := LayerBlocked(l.binding, l.tasks, failed, failed.taskStatus, l.listed);
  }

  /** The run after that: nothing is ready, and the next layer is blocked. */
  lemma NextRunOfChain(l: Loop, a: string, b: string, c: string, end: File, env: Environment) returns (after: File)
    requires FailingChain(l, a, b, c) && Accepts(l.binding, end)
    requires end.taskStatus == map[a := Failed, b := Blocked, c := Planned]
    ensures RunTrace(l.(env := env), [end], end, false, after)
    ensures after.taskStatus == map[a := Failed, b := Blocked, c := Blocked]
  {
    hide PassResult, LayerBlocked, Accepts, DigestFunctions, LastDefers, PassesFollow;
    var again := l.(env := env);
    ReadyInChain(l, a, b, c, end);
    ChainLayer(l, a, b, c, end);
    FirstFile(again, end);
    assert Selected(again, end) == Selected(l, end);
    after := LayerBlocked(l.binding, l.tasks, end, end.taskStatus, l.listed);
  }

  /**
   The run over a fresh file of a chain whose first worker raises ends with the third task
   planned: it blocks one layer only. The next run, under any environment, blocks that task.
  */
  lemma SecondLayerStaysPending(l: Loop, a: string, b: string, c: string, env: Environment)
    requires FailingChain(l, a, b, c)
    ensures exists files, end ::
              && RunTrace(l, files, Fresh(l.binding), false, end)
              && end.taskStatus == map[a := Failed, b := Blocked, c := Planned]
              && exists after ::
                   && RunTrace(l.(env := env), [end], end, false, after)
                   && after.taskStatus == map[a := Failed, b := Blocked, c := Blocked]
  {
    hide RunTrace, Accepts, FailingChain;
    var files, end := FirstRunOfChain(l, a, b, c);
    var after := NextRunOfChain(l, a, b, c, end, env);
  }
}
