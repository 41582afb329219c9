/**
 The batch loop as the object that runs it. Every pass selects ready tasks with distinct
 worktrees, lets them run to completion in any interleaving of journal transitions, and
 recovers or fails the ones that raised; each method is proved against `OrchestratorModel`.
*/
module Orchestrator {
  import opened Identifiers
  import opened Results
  import opened Sequences
  import opened Sets
  import opened TaskGraph
  import opened Texts
  import opened RunJournal
  import opened OrchestratorModel

  class Orchestrator {
    const tasks: map<string, Task>
    const ids: seq<string>
    const listed: seq<string>
    const journal: Journal
    const maxParallel: nat
    ghost const order: seq<string>

    /** The graph is in order: no cycles, and both lists hold exactly its tasks. */
    ghost predicate Prepared() {
      && Topological(tasks, order) && Closed(tasks)
      && (forall id :: id in ids <==> id in tasks)
      && (forall id :: id in listed <==> id in tasks) && Ascending(listed)
      && maxParallel >= 1
    }

    /** The journal is accepted, every task walks the lifecycle table, and dependencies gate every event. */
    ghost predicate Sound()
      reads this, journal
    {
      && Prepared()
      && journal.Valid() && journal.binding.tasks == tasks.Keys == journal.file.taskStatus.Keys
      && LifecyclePaths(journal.file.events)
      && Gated(tasks, journal.file.events)
    }

    /** Takes over a journal, fresh or left by an earlier run; the stored file lists the tasks by name. */
    constructor (tasks: map<string, Task>, ids: seq<string>, ghost order: seq<string>, journal: Journal, maxParallel: nat)
      requires Topological(tasks, order) && Distinct(ids) && (forall id :: id in ids <==> id in tasks)
      requires journal.Valid() && journal.binding.tasks == tasks.Keys
      requires LifecyclePaths(journal.file.events) && Gated(tasks, journal.file.events)
      requires maxParallel >= 1
      ensures Sound() && this.tasks == tasks && this.journal == journal && this.maxParallel == maxParallel
      ensures this.ids == ids && listed == SortedTexts(ids)
    {
      this.tasks, this.ids, this.order, this.journal, this.maxParallel := tasks, ids, order, journal, maxParallel;
      this.listed := SortedTexts(ids);
      new;
      ClosedFromOrder(tasks, order);
    }

    /** What a run under this environment is bound to. */
    ghost function Under(env: Environment): Loop
      reads this, journal
    {
      Loop(journal.binding, tasks, ids, listed, maxParallel, env)
    }

    /** One journal transition of a task whose dependencies are done, or a block. */
    method Transition(id: string, status: Status, evidence: string) returns (ok: bool)
      requires Sound() && id in tasks
      requires status.Blocked? || DependenciesDone(tasks, journal.file.events, id)
      modifies journal
      ensures Sound() && Extends(old(journal.file), journal.file, {id})
      ensures journal.file == Tried(journal.binding, old(journal.file), id, status, evidence)
      ensures ok <==> Admits(journal.binding, old(journal.file), id, status, evidence)
      ensures ok ==> journal.file.taskStatus[id] == status
      ensures !ok ==> journal.file == old(journal.file)
      ensures (status.Failed? || status.Blocked?) && !Terminal(old(journal.file).taskStatus[id]) ==> ok
    {
      hide Prepared, LifecyclePaths, DigestFunctions, Gated, DependenciesDone, StatusAfter, LastDigest, Linked;
      ghost var before := journal.file;
      ghost var after := Transitioned(journal.binding, before, id, status, evidence);
      if after.Ok? {
        TransitionKeepsPaths(journal.binding, before, id, status, evidence);
        if after.value != before {
          GatedOne(tasks, before.events, NewEvent(journal.binding, before.events, id, status, evidence));
        }
      }
      StatusIsKnown(journal.binding, before.events, id);
      var r := journal.Transition(id, status, evidence);
      ok := r.Ok?;
    }

    method SelectBatch(ready: seq<string>) returns (selected: seq<string>)
      requires forall id | id in ready :: id in tasks
      requires maxParallel >= 1
      ensures selected == Selection(tasks, ready, maxParallel)
    {
      selected := [];
      var keys: set<string> := {};
      for n := 0 to |ready|
        invariant selected == Selection(tasks, ready[..n], maxParallel) && |selected| < maxParallel
        invariant (forall id | id in selected :: id in tasks) && keys == (set id | id in selected :: tasks[id].worktreeKey)
      {
        var candidate := ready[n];
        var key := tasks[candidate].worktreeKey;
        assert ready[..n + 1][..n] == ready[..n];
        assert key in keys <==> Clashes(tasks, selected, candidate);
        if key in keys {
          continue;
        }
        selected := selected + [candidate];
        keys := keys + {key};
        if |selected| == maxParallel {
          FullSelectionStays(tasks, ready, maxParallel, n + 1);
          return;
        }
      }
      assert ready[..|ready|] == ready;
    }

    /** Keeps a live lease recoverable, accepts a recorded success, and fails everything else. */
    method RecoverOrFail(id: string, record: Record) returns (deferred: bool)
      requires Sound() && DependenciesDone(tasks, journal.file.events, id)
      modifies journal
      ensures Sound() && Extends(old(journal.file), journal.file, {id})
      ensures deferred || Terminal(journal.file.taskStatus[id])
      ensures (journal.file, deferred) == Recovery(journal.binding, tasks[id].maxAttempts, old(journal.file), id, record)
    {
      hide Prepared, Transitioned, Gated, Topological, LifecyclePaths, Accepts;
      if Terminal(journal.file.taskStatus[id]) { return false; }
      if record.DoneWithGates? {
        var ok := Transition(id, Completed, "recovered terminal");
        if ok { return false; }
      }
      if record.RunningLease? {
        var attempts := journal.CountAttempts(id);
        if attempts >= tasks[id].maxAttempts {
          if record.reconciles {
            var failed := Transition(id, Failed, "attempts exhausted");
            return false;
          }
        } else {
          var ok := Transition(id, Recovering, "live lease");
          if ok { return true; }
        }
      }
      var failed := Transition(id, Failed, "raised");
      deferred := false;
    }

    /** Deals with a worker that has ended. */
    method Settle(id: string, ending: Ending) returns (deferred: bool)
      requires Sound() && DependenciesDone(tasks, journal.file.events, id)
      modifies journal
      ensures Sound() && Extends(old(journal.file), journal.file, {id})
      ensures deferred || Terminal(journal.file.taskStatus[id])
      ensures (journal.file, deferred) == Ended(journal.binding, tasks[id].maxAttempts, old(journal.file), id, ending)
    {
      if ending.LeaseStillLive? { return true; }
      deferred := RecoverOrFail(id, ending.record);
    }

    /** Announces the planned tasks of the batch. */
    method MarkReady(selected: seq<string>, ghost batch: set<string>)
      requires Sound() && Runnable(tasks, journal.file, batch) && batch == (set id | id in selected)
      modifies journal
      ensures Sound() && Runnable(tasks, journal.file, batch) && Extends(old(journal.file), journal.file, batch)
      ensures journal.file == Announced(journal.binding, old(journal.file), old(journal.file).taskStatus, selected)
    {
      hide Prepared, Topological, LifecyclePaths, Gated, DependenciesDone, Accepts;
      hide Closed, Transitioned, DigestFunctions, Extends;
      hide Ascending, Ended, IsDigest;
      ghost var start := journal.file;
      var snapshot := journal.file.taskStatus;
      ExtendsItself(start, batch);
      for n := 0 to |selected|
        invariant Sound() && Runnable(tasks, journal.file, batch) && Extends(start, journal.file, batch)
        invariant journal.file == Announced(journal.binding, start, snapshot, selected[..n])
      {
        assert selected[n] in batch && selected[..n + 1][..n] == selected[..n];
        if snapshot[selected[n]].Planned? {
          ghost var before := journal.file;
          var _ := Transition(selected[n], Ready, "graph digest");
          BatchGoesOn(tasks, start, before, journal.file, batch, selected[n]);
        }
      }
      assert selected[..|selected|] == selected;
    }

    /** Carries out the environment's moves; those of tasks not running are ignored. */
    method Interleave(moves: seq<Move>, batch: set<string>, pass: nat, env: Environment)
      returns (deferred: bool, running: set<string>)
      requires Sound() && Runnable(tasks, journal.file, batch)
      modifies journal
      ensures Sound() && Runnable(tasks, journal.file, batch) && Extends(old(journal.file), journal.file, batch)
      ensures running <= batch && (!deferred ==> Settled(journal.file, batch, running))
      ensures Pass(journal.file, running, deferred) == Played(Under(env), pass, Pass(old(journal.file), batch, false), moves)
    {
      hide Prepared, Topological, LifecyclePaths, Gated, DependenciesDone, Accepts;
      hide Closed, Transitioned, DigestFunctions, Extends;
      hide Ascending, Ended, IsDigest, Settled;
      ghost var start := journal.file;
      running, deferred := batch, false;
      NoneEnded(start, batch);
      ExtendsItself(start, batch);
      for n := 0 to |moves|
        invariant Sound() && Runnable(tasks, journal.file, batch) && Extends(start, journal.file, batch)
        invariant running <= batch && (!deferred ==> Settled(journal.file, batch, running))
        invariant Pass(journal.file, running, deferred) == Played(Under(env), pass, Pass(start, batch, false), moves[..n])
      {
        var move := moves[n];
        assert moves[..n + 1][..n] == moves[..n];
        if move.id in running {
          ghost var before := journal.file;
          if move.Attempt? {
            var _ := Transition(move.id, move.status, move.evidence);
            BatchGoesOn(tasks, start, before, journal.file, batch, move.id);
          } else {
            var d := Settle(move.id, env.ending(pass, move.id));
            BatchGoesOn(tasks, start, before, journal.file, batch, move.id);
            if !deferred && !d {
              SettledOne(journal.file, batch, running, move.id);
            }
            deferred := deferred || d;
            running := running - {move.id};
          }
        }
      }
      assert moves[..|moves|] == moves;
    }

    /** Ends whatever the environment left running. */
    method Drain(selected: seq<string>, batch: set<string>, already: set<string>, pass: nat, env: Environment, sofar: bool)
      returns (deferred: bool)
      requires Sound() && Runnable(tasks, journal.file, batch) && batch == (set id | id in selected)
      requires !sofar ==> Settled(journal.file, batch, already)
      modifies journal
      ensures Sound() && Extends(old(journal.file), journal.file, batch)
      ensures !deferred ==> Settled(journal.file, batch, {})
      ensures var p := Drained(Under(env), pass, Pass(old(journal.file), already, sofar), selected);
              journal.file == p.file && deferred == p.deferred
    {
      hide Prepared, Topological, LifecyclePaths, Gated, DependenciesDone, Accepts;
      hide Closed, Transitioned, DigestFunctions, Extends;
      hide Ascending, Ended, IsDigest, Settled;
      ghost var start := journal.file;
      var running := already;
      deferred := sofar;
      ExtendsItself(start, batch);
      for n := 0 to |selected|
        invariant Sound() && Runnable(tasks, journal.file, batch) && Extends(start, journal.file, batch)
        invariant !deferred ==> Settled(journal.file, batch, running)
        invariant forall k | 0 <= k < n :: selected[k] !in running
        invariant Pass(journal.file, running, deferred) == Drained(Under(env), pass, Pass(start, already, sofar), selected[..n])
      {
        assert selected[n] in batch && selected[..n + 1][..n] == selected[..n];
        if selected[n] in running {
          ghost var before := journal.file;
          var d := Settle(selected[n], env.ending(pass, selected[n]));
          BatchGoesOn(tasks, start, before, journal.file, batch, selected[n]);
          if !deferred && !d {
            SettledOne(journal.file, batch, running, selected[n]);
          }
          deferred := deferred || d;
          running := running - {selected[n]};
        }
      }
      assert selected[..|selected|] == selected;
      if !deferred {
        SettledAll(journal.file, batch, running);
      }
    }

    /** Runs the selected tasks side by side, in the interleaving the environment chooses. */
    method RunPass(selected: seq<string>, pass: nat, env: Environment) returns (deferred: bool)
      requires Sound() && Runnable(tasks, journal.file, set id | id in selected)
      modifies journal
      ensures Sound() && Extends(old(journal.file), journal.file, set id | id in selected)
      ensures !deferred ==> Settled(journal.file, set id | id in selected, {})
      ensures var p := PassResult(Under(env), pass, old(journal.file), selected);
              journal.file == p.file && deferred == p.deferred
    {
      hide Prepared, Topological, LifecyclePaths, Gated, DependenciesDone, Accepts;
      hide Closed, Extends, Settled, Transitioned;
      var batch := set id | id in selected;
      ghost var start := journal.file;
      MarkReady(selected, batch);
      ghost var announced := journal.file;
      var running;
      deferred, running := Interleave(env.moves(pass), batch, pass, env);
      ExtendsOn(start, announced, journal.file, batch, batch);
      ghost var left := journal.file;
      deferred := Drain(selected, batch, running, pass, env, deferred);
      ExtendsOn(start, left, journal.file, batch, batch);
    }

    /** Blocks exactly the pending tasks with a blocked or failed dependency: one layer. */
    method BlockDependencyFailures(snapshot: map<string, Status>)
      requires Sound() && snapshot == journal.file.taskStatus
      modifies journal
      ensures Sound() && Extends(old(journal.file), journal.file, tasks.Keys)
      ensures forall id | id in tasks ::
                journal.file.taskStatus[id] == if MustBlock(tasks, snapshot, id) then Blocked else snapshot[id]
      ensures journal.file == LayerBlocked(journal.binding, tasks, old(journal.file), snapshot, listed)
    {
      hide Topological, LifecyclePaths, Gated, DependenciesDone, Accepts;
      hide DigestFunctions, MustBlock, Closed, Transitioned;
      hide Ascending, Distinct, IsDigest, Extends;
      ghost var start := journal.file;
      ExtendsItself(start, tasks.Keys);
      AscendingIsDistinct(listed);
      LayerMeaning(journal.binding, tasks, start, snapshot, listed);
      for n := 0 to |listed|
        invariant Sound() && Extends(start, journal.file, tasks.Keys)
        invariant journal.file == LayerBlocked(journal.binding, tasks, start, snapshot, listed[..n])
      {
        var id := listed[n];
        assert listed[..n + 1][..n] == listed[..n] && id in tasks;
        if MustBlock(tasks, snapshot, id) {
          ghost var before := journal.file;
          var _ := Transition(id, Blocked, "dependency not completed");
          ExtendsOn(start, before, journal.file, tasks.Keys, {id});
        }
      }
      assert listed[..|listed|] == listed;
    }

    method ReadyTasks(snapshot: map<string, Status>) returns (ready: seq<string>)
      ensures ready == ReadyIn(tasks, ids, snapshot)
    {
      ready := [];
      for n := 0 to |ids|
        invariant ready == ReadyIn(tasks, ids[..n], snapshot)
      {
        assert ids[..n + 1][..n] == ids[..n];
        if IsReady(tasks, snapshot, ids[n]) {
          ready := ready + [ids[n]];
        }
      }
      assert ids[..|ids|] == ids;
    }

    /** One worker pass over the ready tasks. Unless it defers, something is no longer pending. */
    method WorkPass(ready: seq<string>, pass: nat, env: Environment) returns (deferred: bool)
      requires Sound() && ready == ReadyIn(tasks, ids, journal.file.taskStatus) && ready != []
      modifies journal
      ensures Sound() && Extends(old(journal.file), journal.file, tasks.Keys)
      ensures Selected(Under(env), old(journal.file)) != []
      ensures var p := PassResult(Under(env), pass, old(journal.file), Selected(Under(env), old(journal.file)));
              journal.file == p.file && deferred == p.deferred
      ensures !deferred ==> Pending(journal.file.taskStatus) < Pending(old(journal.file).taskStatus)
    {
      hide Topological, LifecyclePaths, Gated, DependenciesDone, Accepts, Closed, DigestFunctions, Runnable;
      hide PassResult, Selection, Transitioned;
      ghost var before := journal.file;
      var selected := SelectBatch(ready);
      SelectionIsExclusive(tasks, ready, maxParallel);
      SelectedAreGated(selected, before.taskStatus);
      deferred := RunPass(selected, pass, env);
      assert selected[0] in selected;
      assert !deferred ==> selected[0] in Pending(before.taskStatus) && selected[0] !in Pending(journal.file.taskStatus);
    }

    /**
     The end of a run that has nothing ready: one layer is blocked. What stays pending is what does not
     directly need a failed or blocked task; it waits below one, and nothing has become ready.
    */
    method BlockOneLayer()
      requires Sound() && ReadyIn(tasks, ids, journal.file.taskStatus) == [] && Pending(journal.file.taskStatus) != {}
      modifies journal
      ensures Sound() && Extends(old(journal.file), journal.file, tasks.Keys)
      ensures journal.file == LayerBlocked(journal.binding, tasks, old(journal.file), old(journal.file).taskStatus, listed)
      ensures LeavesOneLayerLess(tasks, old(journal.file), journal.file)
      ensures forall id | id in Pending(journal.file.taskStatus) :: HasFailedAncestor(tasks, journal.file.taskStatus, id)
      ensures Pending(journal.file.taskStatus) < Pending(old(journal.file).taskStatus)
      ensures NoneReady(tasks, journal.file.taskStatus)
    {
      hide HasFailedAncestor, Topological, LifecyclePaths, Gated, DependenciesDone, Accepts, Closed, DigestFunctions;
      hide LayerBlocked, Transitioned, MustBlock, Ascending, LeavesOneLayerLess, NoneReady, ReadyIn;
      ghost var before := journal.file;
      var snapshot := journal.file.taskStatus;
      ghost var some :| some in Pending(snapshot);
      NothingIsReady(snapshot);
      BlockedRunIsStuck(snapshot);
      ghost var blocked :| blocked in tasks && MustBlock(tasks, snapshot, blocked);
      BlockDependencyFailures(snapshot);
      OnlyPendingIsBlocked(tasks, snapshot, blocked);
      assert blocked in Pending(snapshot) && blocked !in Pending(journal.file.taskStatus);
      ExtendsOnly(before, journal.file, tasks.Keys);
      LayerLeaves(tasks, before, journal.file);
      BlockedOrPending(snapshot);
      StaysUnready(tasks, snapshot, journal.file.taskStatus);
      forall id | id in Pending(journal.file.taskStatus) ensures HasFailedAncestor(tasks, journal.file.taskStatus, id) {
        AncestorsKept(tasks, snapshot, journal.file.taskStatus, id);
      }
    }

    /**
     The loop: pass after pass as the environment plays it, until nothing is pending, nothing is
     ready, or a pass defers. It makes at most one pass per task and one more, keeps the journal
     sound and never touches a terminal task. Unless a live lease defers it, it leaves nothing
     ready, and what it leaves pending waits below a failure: the tasks that did not directly need
     a failed or blocked one when nothing was ready any more.
    */
    method Run(env: Environment) returns (deferred: bool, passes: nat, ghost files: seq<File>)
      requires Sound()
      modifies journal
      ensures Sound() && Extends(old(journal.file), journal.file, tasks.Keys)
      ensures RunTrace(Under(env), files, old(journal.file), deferred, journal.file)
      ensures passes == (if deferred then |files| - 1 else |files|) && passes <= |tasks| + 1
      ensures !deferred ==>
                && NoneReady(tasks, journal.file.taskStatus)
                && LeavesOneLayerLess(tasks, files[|files| - 1], journal.file)
                && forall id | id in Pending(journal.file.taskStatus) :: HasFailedAncestor(tasks, journal.file.taskStatus, id)
      ensures !deferred && Pending(journal.file.taskStatus) != {} ==>
                Pending(journal.file.taskStatus) < Pending(old(journal.file).taskStatus)
    {
      hide HasFailedAncestor, Topological, LifecyclePaths, Gated, DependenciesDone;
      hide Accepts, Closed, DigestFunctions, Extends;
      hide PassResult, LayerBlocked, Selected, ReadyIn, Transitioned, PassesFollow;
      hide LastDefers, IsReady, Ascending, MustBlock;
      ghost var start, l := journal.file, Under(env);
      ExtendsItself(start, tasks.Keys);
      passes, files := 0, [start];
      FirstFile(l, start);
      SubsetIsNoLarger(Pending(start.taskStatus), tasks.Keys);
      while true
        invariant Sound() && Extends(start, journal.file, tasks.Keys)
        invariant passes + |Pending(journal.file.taskStatus)| <= |tasks|
        invariant files != [] && PassesFollow(l, files) && files[0] == start && files[|files| - 1] == journal.file
        invariant |files| == passes + 1 && !LastDefers(l, files)
        decreases Pending(journal.file.taskStatus)
      {
        var snapshot := journal.file.taskStatus;
        passes := passes + 1;
        ghost var before := journal.file;
        if Pending(snapshot) == {} {
          NothingPending(l, journal.file);
          return false, passes, files;
        }
        var ready := ReadyTasks(snapshot);
        if ready == [] {
          NothingReadyNothingSelected(l, journal.file);
          BlockOneLayer();
          ExtendsOn(start, before, journal.file, tasks.Keys, tasks.Keys);
          ExtendsOnly(start, before, tasks.Keys);
          return false, passes, files;
        }
        var d := WorkPass(ready, passes, env);
        ExtendsOn(start, before, journal.file, tasks.Keys, tasks.Keys);
        PassesGoOn(l, files, journal.file, Selected(l, before));
        files := files + [journal.file];
        if d {
          return true, passes, files;
        }
        SubsetIsNoLarger(Pending(journal.file.taskStatus), Pending(snapshot));
      }
    }

    /** Calling the loop again, as an operator does: as many undeferred runs as there are tasks leave nothing pending. */
    method RunAgain(envs: seq<Environment>) returns (deferrals: nat)
      requires Sound()
      modifies journal
      ensures Sound() && Extends(old(journal.file), journal.file, tasks.Keys)
      ensures deferrals <= |envs|
      ensures |envs| - deferrals >= |tasks| ==> Pending(journal.file.taskStatus) == {}
    {
      hide HasFailedAncestor, Topological, LifecyclePaths, Gated, DependenciesDone;
      hide Accepts, Closed, DigestFunctions, Extends;
      hide RunTrace, NoneReady, LeavesOneLayerLess, Ascending, Transitioned;
      ghost var start := journal.file;
      ExtendsItself(start, tasks.Keys);
      SubsetIsNoLarger(Pending(start.taskStatus), tasks.Keys);
      deferrals := 0;
      for n := 0 to |envs|
        invariant Sound() && Extends(start, journal.file, tasks.Keys) && deferrals <= n
        invariant Pending(journal.file.taskStatus) == {} || |Pending(journal.file.taskStatus)| + n - deferrals <= |tasks|
      {
        ghost var before := journal.file;
        var deferred, _, _ := Run(envs[n]);
        ExtendsOn(start, before, journal.file, tasks.Keys, tasks.Keys);
        ExtendsOnly(before, journal.file, tasks.Keys);
        SubsetIsNoLarger(Pending(journal.file.taskStatus), Pending(before.taskStatus));
        if deferred {
          deferrals := deferrals + 1;
        }
      }
    }

    /** Ready tasks have their dependencies' completion in the journal. */
    lemma SelectedAreGated(selected: seq<string>, snapshot: map<string, Status>)
      requires Sound() && snapshot == journal.file.taskStatus
      requires forall id | id in selected :: id in tasks && IsReady(tasks, snapshot, id)
      ensures Runnable(tasks, journal.file, set id | id in selected)
    {
      forall id, dep | id in selected && dep in tasks[id].dependencies ensures CompletedIn(journal.file.events, dep) {
        CompletedStatusHasEvent(journal.file.events, dep);
      }
    }

    lemma BlockedOrPending(snapshot: map<string, Status>)
      ensures forall id | MustBlock(tasks, snapshot, id) :: !Terminal(snapshot[id])
    {
    }

    lemma NothingIsReady(snapshot: map<string, Status>)
      requires Sound() && ReadyIn(tasks, ids, snapshot) == []
      ensures NoneReady(tasks, snapshot)
    {
    }

    /** Nothing ready: what blocking one layer will find, and what it will leave. */
    lemma BlockedRunIsStuck(snapshot: map<string, Status>)
      requires Sound() && snapshot == journal.file.taskStatus && NoneReady(tasks, snapshot)
      requires exists id | id in tasks :: !Terminal(snapshot[id])
      ensures forall id | id in Pending(snapshot) :: HasFailedAncestor(tasks, snapshot, id)
      ensures exists id | id in tasks :: MustBlock(tasks, snapshot, id)
    {
      forall id | id in tasks && !Terminal(snapshot[id])
        ensures HasFailedAncestor(tasks, snapshot, id)
        ensures exists x | x in tasks :: MustBlock(tasks, snapshot, x)
      {
        var i :| 0 <= i < |order| && order[i] == id;
        PendingWaitsBelowFailure(tasks, order, snapshot, i);
        SomethingToBlock(tasks, order, snapshot, i);
      }
    }
  }

  datatype PrepareError =
    | GraphRefused(error: GraphError) | WorkerIdentityInvalid | LeaseDurationInvalid | GateOutcomesInvalid
    | WorktreeMapMismatch

  predicate GateOutcome(s: string) {
    s == "approved" || s == "rejected" || s == "escalated" || s == "cancelled"
  }

/** Three outcomes, each of a known kind. */
  predicate GatesValid(outcomes: seq<string>) {
    |outcomes| == 3 && forall outcome | outcome in outcomes :: GateOutcome(outcome)
  }

  /** What the operator sets: the owner's identity, the lease's length and the outcomes of the three gates. */
  datatype Settings = Settings(owner: string, leaseSeconds: int, gateOutcomes: seq<string>)

  /** The worktrees the tasks name. */
  function WorktreesOf(raw: seq<Task>): set<string> {
    set i | 0 <= i < |raw| :: raw[i].worktreeKey
  }

  /** An orchestrator over a fresh journal exists exactly for accepted graphs and valid settings. */
  method Prepare(g: Graph, operatorParallel: int, settings: Settings, worktrees: set<string>,
                 graphDigest: Graph -> string, digest: Body -> string, evidenceDigest: string -> string)
    returns (r: Result<Orchestrator, PrepareError>)
    requires forall e :: IsDigest(evidenceDigest(e))
    ensures match r
            case Err(GraphRefused(e)) => GraphRefusal(g, operatorParallel, graphDigest) == Some(e)
            case Err(error) =>
              && GraphRefusal(g, operatorParallel, graphDigest).None?
              && (error.WorkerIdentityInvalid? <==> !IsId("WRK-", settings.owner))
              && (error.LeaseDurationInvalid? ==> !(10 <= settings.leaseSeconds <= 300))
              && (error.GateOutcomesInvalid? ==> 10 <= settings.leaseSeconds <= 300 && !GatesValid(settings.gateOutcomes))
              && (error.WorktreeMapMismatch? ==>
                    && 10 <= settings.leaseSeconds <= 300 && GatesValid(settings.gateOutcomes)
                    && worktrees != WorktreesOf(g.tasks))
            case Ok(o) =>
              && GraphRefusal(g, operatorParallel, graphDigest).None? && IsId("WRK-", settings.owner)
              && 10 <= settings.leaseSeconds <= 300 && GatesValid(settings.gateOutcomes)
              && worktrees == WorktreesOf(g.tasks)
    ensures r.Ok? ==>
              var o := r.value;
              && fresh(o) && fresh(o.journal) && o.Sound() && o.tasks == TaskMap(g.tasks) && o.ids == IdsOf(g.tasks)
              && o.journal.file == Fresh(o.journal.binding) && o.journal.binding.graphDigest == graphDigest(g)
              && o.maxParallel == if operatorParallel < g.maxParallelism then operatorParallel else g.maxParallelism
  {
    hide GraphRefusal, Topological, IsId, WellFormedTask, HasCycle;
    ghost var order;
    var graph;
    graph, order := ValidateGraph(g, operatorParallel, graphDigest);
    if graph.Err? {
      return Err(GraphRefused(graph.error));
    }
    if !IsId("WRK-", settings.owner) {
      return Err(WorkerIdentityInvalid);
    }
    if !(10 <= settings.leaseSeconds <= 300) {
      return Err(LeaseDurationInvalid);
    }
    if !GatesValid(settings.gateOutcomes) {
      return Err(GateOutcomesInvalid);
    }
    var tasks := graph.value;
    var maxParallel := if operatorParallel < g.maxParallelism then operatorParallel else g.maxParallelism;
    var journal := new Journal(Binding(tasks.Keys, graphDigest(g), maxParallel, digest, evidenceDigest));
    if worktrees != WorktreesOf(g.tasks) {
      return Err(WorktreeMapMismatch);
    }
    TaskMapMeaning(g.tasks);
    var o := new Orchestrator(tasks, IdsOf(g.tasks), order, journal, maxParallel);
    r := Ok(o);
  }
}
