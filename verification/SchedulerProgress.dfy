/**
 Termination and progress of the scheduler: accepted dispatches and completions are bounded
 by the retry budget, and with nothing running a dispatch fails only when every unfinished
 job waits below a failed one.
*/
module SchedulerProgress {
  import opened Results
  import opened Sequences
  import opened SchedulerModel
  import opened SchedulerSafety

  // The order of submission

  function Submissions(events: seq<Event>): seq<string> {
    if events == [] then []
    else
      var earlier, last := Submissions(events[..|events| - 1]), events[|events| - 1];
      if last.Submitted? then earlier + [last.jobId] else earlier
  }

  /** The order lists every job once, after all its dependencies. */
  ghost predicate Ordered(jobs: map<string, Job>, order: seq<string>) {
    && Distinct(order)
    && (forall id | id in order :: id in jobs) && (forall id | id in jobs :: id in order)
    && forall i | 0 <= i < |order| :: forall dep | dep in jobs[order[i]].dependencies :: dep in order[..i]
  }

  ghost predicate Placed(s: State) {
    Ordered(s.jobs, Submissions(s.events))
  }

  lemma AppendSubmission(events: seq<Event>, e: Event)
    ensures Submissions(events + [e]) == if e.Submitted? then Submissions(events) + [e.jobId] else Submissions(events)
  {
    assert (events + [e])[..|events|] == events;
  }

  lemma SameDependenciesSameOrder(before: map<string, Job>, after: map<string, Job>, order: seq<string>)
    requires Ordered(before, order) && before.Keys == after.Keys
    requires forall id | id in before :: after[id].dependencies == before[id].dependencies
    ensures Ordered(after, order)
  {
    assert forall i | 0 <= i < |order| :: after[order[i]].dependencies == before[order[i]].dependencies;
  }

  lemma AddedLast(jobs: map<string, Job>, order: seq<string>, id: string, job: Job)
    requires Ordered(jobs, order) && id !in jobs && forall dep | dep in job.dependencies :: dep in jobs
    ensures Ordered(jobs[id := job], order + [id])
  {
    var after, longer := jobs[id := job], order + [id];
    forall i | 0 <= i < |longer|
      ensures forall dep | dep in after[longer[i]].dependencies :: dep in longer[..i]
    {
      assert longer[..i] == order[..i];
      assert order[..|order|] == order;
      assert i < |order| ==> order[i] in jobs;
    }
  }

  lemma SubmitKeepsPlaced(s: State, registry: Registry, j: Submission)
    requires Placed(s)
    ensures Placed(AfterSubmit(s, registry, j).0)
  {
    hide Negotiate, Ordered, Submissions, SubmissionValid;
    var after := AfterSubmit(s, registry, j).0;
    if after != s {
      AppendSubmission(s.events, Submitted(j.jobId));
      AddedLast(s.jobs, Submissions(s.events), j.jobId, after.jobs[j.jobId]);
    }
  }

  lemma DispatchAndCompleteKeepPlaced(s: State, cmd: Command)
    requires Placed(s) && !cmd.SubmitJob?
    ensures Placed(Step(s, cmd)) && Submissions(Step(s, cmd).events) == Submissions(s.events)
  {
    hide Negotiate, LeaseId, Before, DependenciesDone, Ordered, Submissions;
    var after := Step(s, cmd);
    if after != s {
      AppendSubmission(s.events, after.events[|s.events|]);
      SameDependenciesSameOrder(s.jobs, after.jobs, Submissions(s.events));
    }
  }

  lemma StepKeepsPlaced(s: State, cmd: Command)
    requires Placed(s)
    ensures Placed(Step(s, cmd))
  {
    hide Placed, AfterSubmit, AfterDispatch, AfterComplete;
    if cmd.SubmitJob? {
      SubmitKeepsPlaced(s, cmd.registry, cmd.submission);
    } else {
      DispatchAndCompleteKeepPlaced(s, cmd);
    }
  }

  /** Submission order is a dependency order in every reachable document. */
  lemma {:induction false} EveryRunIsPlaced(cmds: seq<Command>)
    ensures Placed(Run(EMPTY, cmds))
  {
    if cmds != [] {
      hide Step, Placed;
      EveryRunIsPlaced(cmds[..|cmds| - 1]);
      StepKeepsPlaced(Run(EMPTY, cmds[..|cmds| - 1]), cmds[|cmds| - 1]);
    }
  }

  // Termination

  predicate Terminal(job: Job) {
    job.state.Done? || job.state.Failed?
  }

  /** How many more dispatches and completions the job can see. */
  function Weight(job: Job): nat {
    if Terminal(job) || job.attempts > job.retryLimit + 1 then 0
    else 2 * (job.retryLimit + 1 - job.attempts) + (if job.state.Running? then 1 else 0)
  }

  function Potential(jobs: map<string, Job>, order: seq<string>): nat
    requires forall id | id in order :: id in jobs
  {
    if order == [] then 0 else Weight(jobs[order[0]]) + Potential(jobs, order[1..])
  }

  function Budget(jobs: map<string, Job>, order: seq<string>): nat
    requires forall id | id in order :: id in jobs
  {
    if order == [] then 0 else 2 * (jobs[order[0]].retryLimit + 1) + Budget(jobs, order[1..])
  }

  lemma {:induction false} PotentialFallsWithOne(
    before: map<string, Job>, after: map<string, Job>, order: seq<string>, one: string)
    requires (forall id | id in order :: id in before && id in after) && Distinct(order)
    requires forall id | id in order && id != one :: Weight(after[id]) == Weight(before[id])
    requires one in order ==> Weight(after[one]) < Weight(before[one])
    ensures Potential(after, order) <= Potential(before, order) - (if one in order then 1 else 0)
  {
    if order != [] {
      assert forall id | id in order[1..] :: id in order;
      assert order[0] !in order[1..];
      PotentialFallsWithOne(before, after, order[1..], one);
      assert one in order ==> one == order[0] || one in order[1..];
    }
  }

  lemma {:induction false} PotentialIsWithinBudget(jobs: map<string, Job>, order: seq<string>, s: State)
    requires forall id | id in order :: id in jobs && JobSound(s, jobs[id])
    ensures Potential(jobs, order) <= Budget(jobs, order)
  {
    if order != [] {
      PotentialIsWithinBudget(jobs, order[1..], s);
    }
  }

  /** One job's weight falls, and no other changes. */
  ghost predicate OneFalls(before: map<string, Job>, after: map<string, Job>, one: string) {
    && one in before && after.Keys == before.Keys && Weight(after[one]) < Weight(before[one])
    && forall id | id in before && id != one :: Weight(after[id]) == Weight(before[id])
  }

  lemma PromotionKeepsWeight(jobs: map<string, Job>, id: string)
    requires id in jobs
    ensures Weight(Promoted(jobs)[id]) == Weight(jobs[id])
  {
    hide DependenciesDone;
  }

  lemma DispatchFalls(s: State, registry: Registry, max: int, worker: string)
    requires Sound(s)
    ensures var (after, r) := AfterDispatch(s, registry, max, worker);
            r.Ok? ==> OneFalls(s.jobs, after.jobs, r.value)
  {
    hide Negotiate, LeaseId, Before, DependenciesDone, Promoted, Sound;
    var (after, r) := AfterDispatch(s, registry, max, worker);
    if r.Ok? {
      PromotionKeepsSound(s);
      JobOfSound(s.(jobs := Promoted(s.jobs)), r.value);
      forall id | id in s.jobs ensures Weight(Promoted(s.jobs)[id]) == Weight(s.jobs[id]) {
        PromotionKeepsWeight(s.jobs, id);
      }
    }
  }

  lemma JobOfSound(s: State, id: string)
    requires Sound(s) && id in s.jobs
    ensures JobSound(s, s.jobs[id])
  {
  }

  lemma CompleteFalls(s: State, jobId: string, worker: string, leaseId: string, status: Status)
    requires Sound(s)
    ensures var (after, error) := AfterComplete(s, jobId, worker, leaseId, status);
            error.None? ==> OneFalls(s.jobs, after.jobs, jobId)
  {
    hide LeaseId, DependenciesDone;
  }

  /** Every accepted dispatch or completion takes at least one from the potential. */
  lemma AcceptedStepFalls(s: State, cmd: Command)
    requires Sound(s) && Placed(s) && Placed(Step(s, cmd)) && !cmd.SubmitJob? && Accepted(s, cmd)
    ensures Submissions(Step(s, cmd).events) == Submissions(s.events)
    ensures Potential(Step(s, cmd).jobs, Submissions(s.events)) < Potential(s.jobs, Submissions(s.events))
  {
    hide Sound, AfterSubmit, AfterDispatch, AfterComplete, Submissions, Weight;
    DispatchAndCompleteKeepPlaced(s, cmd);
    var one;
    if cmd.DispatchJob? {
      DispatchFalls(s, cmd.registry, cmd.max, cmd.worker);
      one := AfterDispatch(s, cmd.registry, cmd.max, cmd.worker).1.value;
    } else {
      CompleteFalls(s, cmd.jobId, cmd.worker, cmd.leaseId, cmd.status);
      one := cmd.jobId;
    }
    PotentialFallsWithOne(s.jobs, Step(s, cmd).jobs, Submissions(s.events), one);
  }

  lemma RejectedStepChangesNothing(s: State, cmd: Command)
    requires !Accepted(s, cmd)
    ensures Step(s, cmd) == s
  {
    hide Negotiate, LeaseId, Before, DependenciesDone;
  }

  ghost function AcceptedSteps(s: State, cmds: seq<Command>): nat {
    if cmds == [] then 0
    else
      var earlier := cmds[..|cmds| - 1];
      AcceptedSteps(s, earlier) + (if Accepted(Run(s, earlier), cmds[|cmds| - 1]) then 1 else 0)
  }

  lemma {:induction false} PotentialBoundsSteps(s: State, cmds: seq<Command>)
    requires Sound(s) && Placed(s) && forall cmd | cmd in cmds :: !cmd.SubmitJob?
    ensures Placed(Run(s, cmds)) && Submissions(Run(s, cmds).events) == Submissions(s.events)
    ensures AcceptedSteps(s, cmds) + Potential(Run(s, cmds).jobs, Submissions(s.events))
            <= Potential(s.jobs, Submissions(s.events))
  {
    if cmds != [] {
      hide Step, Accepted, Potential, Submissions, Sound;
      var earlier, cmd := cmds[..|cmds| - 1], cmds[|cmds| - 1];
      var before := Run(s, earlier);
      PotentialBoundsSteps(s, earlier);
      RunsKeepSound(s, earlier);
      if Accepted(before, cmd) {
        StepKeepsPlaced(before, cmd);
        AcceptedStepFalls(before, cmd);
      } else {
        RejectedStepChangesNothing(before, cmd);
      }
    }
  }

  /**
   From any reachable document, however calls are mixed, at most 2 * (retry limit + 1)
   dispatches and completions per job are ever accepted unless new jobs are submitted.
  */
  lemma AcceptedStepsAreBounded(past: seq<Command>, cmds: seq<Command>)
    requires forall cmd | cmd in cmds :: !cmd.SubmitJob?
    ensures Placed(Run(EMPTY, past))
    ensures var s := Run(EMPTY, past);
            AcceptedSteps(s, cmds) <= Budget(s.jobs, Submissions(s.events))
  {
    hide Run, Submissions, Potential, Budget, JobSound;
    var s := Run(EMPTY, past);
    EveryRunIsSound(past);
    EveryRunIsPlaced(past);
    PotentialBoundsSteps(s, cmds);
    PotentialIsWithinBudget(s.jobs, Submissions(s.events), s);
  }

  // Progress

  /** The registry still offers every job the profile it was submitted against. */
  ghost predicate Fits(s: State, registry: Registry) {
    forall id | id in s.jobs ::
      Negotiate(registry, s.jobs[id].adapterId, s.jobs[id].capabilities, Some(s.jobs[id].registryRevision))
      == Ok(s.jobs[id].profileDigest)
  }

  lemma StepKeepsFits(s: State, cmd: Command, registry: Registry)
    requires Fits(s, registry) && (cmd.SubmitJob? ==> cmd.registry == registry)
    ensures Fits(Step(s, cmd), registry)
  {
    hide LeaseId, Before, DependenciesDone;
  }

  lemma {:induction false} StaticRegistryFits(cmds: seq<Command>, registry: Registry)
    requires forall cmd | cmd in cmds :: cmd.SubmitJob? ==> cmd.registry == registry
    ensures Fits(Run(EMPTY, cmds), registry)
  {
    if cmds != [] {
      hide Step, Fits;
      StaticRegistryFits(cmds[..|cmds| - 1], registry);
      StepKeepsFits(Run(EMPTY, cmds[..|cmds| - 1]), cmds[|cmds| - 1], registry);
    }
  }

  /** A walk along dependencies. */
  ghost predicate Chain(jobs: map<string, Job>, path: seq<string>) {
    && path != [] && (forall id | id in path :: id in jobs)
    && forall k | 0 <= k < |path| - 1 :: path[k + 1] in jobs[path[k]].dependencies
  }

  ghost predicate LeadsToFailure(jobs: map<string, Job>, path: seq<string>) {
    Chain(jobs, path) && |path| >= 2 && jobs[path[|path| - 1]].state.Failed?
  }

  /** Some job this one depends on, directly or not, has failed for good. */
  ghost predicate BelowFailure(jobs: map<string, Job>, id: string) {
    exists path :: LeadsToFailure(jobs, path) && path[0] == id
  }

  lemma {:induction false} DoneLeadsToNoFailure(s: State, path: seq<string>)
    requires Sound(s) && Chain(s.jobs, path) && |path| >= 2 && DependenciesDone(s.jobs, s.jobs[path[0]])
    ensures !LeadsToFailure(s.jobs, path)
  {
    var rest := path[1..];
    assert rest[0] == path[1] && path[1] in s.jobs[path[0]].dependencies;
    if |rest| >= 2 {
      assert forall k | 0 <= k < |rest| :: rest[k] == path[k + 1];
      DoneLeadsToNoFailure(s, rest);
      assert LeadsToFailure(s.jobs, path) ==> LeadsToFailure(s.jobs, rest);
    }
  }

  lemma FailureAbove(jobs: map<string, Job>, id: string, dep: string)
    requires id in jobs && dep in jobs && dep in jobs[id].dependencies && jobs[dep].state.Failed?
    ensures BelowFailure(jobs, id)
  {
    assert LeadsToFailure(jobs, [id, dep]);
  }

  lemma PrependChain(jobs: map<string, Job>, id: string, dep: string)
    requires id in jobs && dep in jobs[id].dependencies && BelowFailure(jobs, dep)
    ensures BelowFailure(jobs, id)
  {
    var path :| LeadsToFailure(jobs, path) && path[0] == dep;
    assert LeadsToFailure(jobs, [id] + path);
  }

  ghost predicate Idle(s: State) {
    InState(s.jobs, Running) == {} && InState(Promoted(s.jobs), Queued) == {}
  }

  lemma IdleJobIsBlocked(s: State, id: string)
    requires Sound(s) && Idle(s) && id in s.jobs && !Terminal(s.jobs[id])
    ensures exists dep :: dep in s.jobs[id].dependencies && dep in s.jobs && !s.jobs[dep].state.Done?
  {
    assert id !in InState(s.jobs, Running) && id !in InState(Promoted(s.jobs), Queued);
    assert !DependenciesDone(s.jobs, s.jobs[id]);
  }

  /** With nothing running and nothing ready, what is unfinished waits below a failure. */
  lemma {:induction false} UnfinishedWaitsBelowFailure(s: State, order: seq<string>, i: nat)
    requires Sound(s) && Ordered(s.jobs, order) && Idle(s) && i < |order| && !Terminal(s.jobs[order[i]])
    ensures BelowFailure(s.jobs, order[i])
  {
    hide Sound, Idle, BelowFailure;
    var id := order[i];
    IdleJobIsBlocked(s, id);
    var dep :| dep in s.jobs[id].dependencies && dep in s.jobs && !s.jobs[dep].state.Done?;
    var k :| 0 <= k < i && order[k] == dep;
    if s.jobs[dep].state.Failed? {
      FailureAbove(s.jobs, id, dep);
    } else {
      UnfinishedWaitsBelowFailure(s, order, k);
      PrependChain(s.jobs, id, dep);
    }
  }

  lemma ReadyIsNotBelowFailure(s: State, id: string)
    requires Sound(s) && id in InState(Promoted(s.jobs), Queued)
    ensures id in s.jobs && !Terminal(s.jobs[id]) && !BelowFailure(s.jobs, id)
  {
    if BelowFailure(s.jobs, id) {
      var path :| LeadsToFailure(s.jobs, path) && path[0] == id;
      DoneLeadsToNoFailure(s, path);
      assert false;
    }
  }

  ghost predicate CanAdvance(s: State, id: string) {
    id in s.jobs && !Terminal(s.jobs[id]) && !BelowFailure(s.jobs, id)
  }

  lemma ReadyExactlyWhenSomeCanAdvance(s: State)
    requires Sound(s) && Placed(s) && InState(s.jobs, Running) == {}
    ensures InState(Promoted(s.jobs), Queued) != {} <==> exists id :: CanAdvance(s, id)
  {
    hide Sound, InState, Promoted, BelowFailure, Submissions;
    if InState(Promoted(s.jobs), Queued) != {} {
      var id :| id in InState(Promoted(s.jobs), Queued);
      ReadyIsNotBelowFailure(s, id);
      assert CanAdvance(s, id);
    } else {
      forall id ensures !CanAdvance(s, id) {
        if id in s.jobs && !Terminal(s.jobs[id]) {
          var order := Submissions(s.events);
          var i :| 0 <= i < |order| && order[i] == id;
          UnfinishedWaitsBelowFailure(s, order, i);
        }
      }
    }
  }

  /**
   With a registry that never changed, nothing running and room for one job, a dispatch
   succeeds exactly when some unfinished job is not waiting below a failed one.
  */
  lemma DispatchSucceedsExactlyWhenSomeCanAdvance(cmds: seq<Command>, registry: Registry, max: int, worker: string)
    requires forall cmd | cmd in cmds :: cmd.SubmitJob? ==> cmd.registry == registry
    requires InState(Run(EMPTY, cmds).jobs, Running) == {} && max >= 1 && "WRK-" <= worker
    ensures var s := Run(EMPTY, cmds);
            AfterDispatch(s, registry, max, worker).1.Ok? <==> exists id :: CanAdvance(s, id)
  {
    hide Run, Negotiate, LeaseId, Before, DependenciesDone, CanAdvance, Sound, Placed;
    var s := Run(EMPTY, cmds);
    EveryRunIsSound(cmds);
    EveryRunIsPlaced(cmds);
    StaticRegistryFits(cmds, registry);
    ReadyExactlyWhenSomeCanAdvance(s);
  }
}
