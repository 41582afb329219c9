/**
 Runs of the whole model: any sequence of job registrations and offered actions,
 accepted or not. Links every job to its own history, and shows that the jobs do
 not interfere.
*/
module AuthorityRuns {
  import opened Results
  import opened AuthorityModel
  import opened AuthoritySafety
  import opened AuthorityHistory

  datatype Input = Register(jobId: string) | Offer(action: Action)

  /** A refused input leaves the model as it was. */
  function Next(m: Model, input: Input): Model {
    var r := match input case Register(id) => Joined(m, id) case Offer(a) => Applied(m, a);
    if r.Ok? then r.value else m
  }

  function Run(inputs: seq<Input>): Model {
    if inputs == [] then Model(map[], {}) else Next(Run(inputs[..|inputs| - 1]), inputs[|inputs| - 1])
  }

  /** The steps of one job that the run accepted. */
  function History(inputs: seq<Input>, id: string): seq<Act> {
    if inputs == [] then [] else
    var before, last := inputs[..|inputs| - 1], inputs[|inputs| - 1];
    if last.Offer? && last.action.jobId == id && Applied(Run(before), last.action).Ok?
    then History(before, id) + [Act(last.action.operation, last.action.payload)]
    else History(before, id)
  }

  /** An accepted action is a step of its own job and of no other. */
  lemma AppliedStepsOneJob(m: Model, a: Action)
    requires Applied(m, a).Ok?
    ensures a.jobId in m.jobs && a.actionId !in m.eventIds
    ensures a.taskRevision == m.jobs[a.jobId].revision && a.leaseId == m.jobs[a.jobId].leaseId
    ensures var step := JobStep(m.jobs[a.jobId], a.operation, a.payload);
            step.Ok? && Applied(m, a).value == Model(m.jobs[a.jobId := step.value], m.eventIds + {a.actionId})
  {
  }

  /** The job of that name, if registered, is where its history leads. */
  ghost predicate Follows(jobs: map<string, JobState>, id: string, h: seq<Act>) {
    if id in jobs then After(id, h) == Ok(jobs[id]) else h == []
  }

  lemma AcceptedFollows(m: Model, a: Action, id: string, h: seq<Act>)
    requires Applied(m, a).Ok? && Follows(m.jobs, id, h)
    ensures Follows(Applied(m, a).value.jobs, id, if a.jobId == id then h + [Act(a.operation, a.payload)] else h)
  {
    AppliedStepsOneJob(m, a);
    if a.jobId == id {
      Extend(id, h, Act(a.operation, a.payload));
    }
  }

  lemma {:induction false} JobFollowsHistory(inputs: seq<Input>, id: string)
    ensures Follows(Run(inputs).jobs, id, History(inputs, id))
  {
    if inputs != [] {
      var before, last := inputs[..|inputs| - 1], inputs[|inputs| - 1];
      JobFollowsHistory(before, id);
      if last.Offer? {
        if Applied(Run(before), last.action).Ok? {
          AcceptedFollows(Run(before), last.action, id, History(before, id));
        }
      }
    }
  }

  /**
   In every reachable state of every run: completion checks hold, and a completed
   job has been through every mandatory gate.
  */
  lemma EveryRunIsGated(inputs: seq<Input>, id: string)
    requires id in Run(inputs).jobs
    ensures var job := Run(inputs).jobs[id];
            && !Violates(job, NoDecision) && !Violates(job, NoCommit)
            && (job.phase.Completed? ==> HistoryGate(History(inputs, id)))
  {
    JobFollowsHistory(inputs, id);
    CompletionChecksAlwaysHold(id, History(inputs, id));
    if Run(inputs).jobs[id].phase.Completed? {
      CompletionImpliesGates(id, History(inputs, id));
    }
  }

  /** No check fails for this job at any point of the run. */
  ghost predicate CleanThroughout(inputs: seq<Input>, id: string) {
    && (id in Run(inputs).jobs ==> Clean(Run(inputs).jobs[id]))
    && (inputs != [] ==> CleanThroughout(inputs[..|inputs| - 1], id))
  }

  lemma {:induction false} CleanThroughoutIsAlwaysClean(inputs: seq<Input>, id: string)
    requires Legal(id, History(inputs, id))
    ensures CleanThroughout(inputs, id) <==> AlwaysClean(id, History(inputs, id))
  {
    JobFollowsHistory(inputs, id);
    assert Clean(NewJob(id));
    if inputs != [] {
      var before := inputs[..|inputs| - 1];
      JobFollowsHistory(before, id);
      assert Legal(id, History(before, id));
      CleanThroughoutIsAlwaysClean(before, id);
      var h := History(inputs, id);
      if h != History(before, id) {
        assert h[..|h| - 1] == History(before, id);
      }
    }
  }

  /** All four checks hold for a job throughout a run exactly when it never trips. */
  lemma RunCleanExactlyWhenNeverTrips(inputs: seq<Input>, id: string)
    ensures Legal(id, History(inputs, id))
    ensures CleanThroughout(inputs, id) <==> NeverTrips(id, History(inputs, id))
    ensures Careful(id, History(inputs, id)) ==> CleanThroughout(inputs, id)
  {
    JobFollowsHistory(inputs, id);
    CleanThroughoutIsAlwaysClean(inputs, id);
    CleanExactlyWhenNeverTrips(id, History(inputs, id));
    if Careful(id, History(inputs, id)) {
      CarefulRunsAreClean(id, History(inputs, id));
    }
  }

  /** Accepted actions name the current incarnation: one plus the recoveries so far. */
  lemma AcceptedRevisionIsCurrent(inputs: seq<Input>, a: Action)
    requires Applied(Run(inputs), a).Ok?
    ensures a.taskRevision == 1 + Recoveries(History(inputs, a.jobId))
    ensures a.leaseId == Run(inputs).jobs[a.jobId].leaseId
  {
    AppliedStepsOneJob(Run(inputs), a);
    JobFollowsHistory(inputs, a.jobId);
    RevisionCountsRecoveries(a.jobId, History(inputs, a.jobId));
  }

  lemma IdsAreKept(m: Model, input: Input)
    ensures m.eventIds <= Next(m, input).eventIds
  {
    if input.Offer? && Applied(m, input.action).Ok? {
      AppliedStepsOneJob(m, input.action);
    }
  }

  lemma {:induction false} IdStays(before: seq<Input>, a: Action, between: seq<Input>)
    requires Applied(Run(before), a).Ok?
    ensures a.actionId in Run(before + [Offer(a)] + between).eventIds
  {
    hide Next, Applied;
    var all := before + [Offer(a)] + between;
    if between == [] {
      assert all[..|all| - 1] == before;
      AppliedStepsOneJob(Run(before), a);
      AcceptedIsNext(Run(before), a);
    } else {
      assert all[..|all| - 1] == before + [Offer(a)] + between[..|between| - 1];
      IdStays(before, a, between[..|between| - 1]);
      IdsAreKept(Run(all[..|all| - 1]), all[|all| - 1]);
    }
  }

  lemma AcceptedIsNext(m: Model, a: Action)
    requires Applied(m, a).Ok?
    ensures Next(m, Offer(a)) == Applied(m, a).value
  {
    hide Applied;
  }

  /** An accepted action is never accepted again, whatever happens in between. */
  lemma NeverReplayed(before: seq<Input>, a: Action, between: seq<Input>, again: Action)
    requires Applied(Run(before), a).Ok? && again.actionId == a.actionId
    ensures Applied(Run(before + [Offer(a)] + between), again) == Err(ReplayedAction)
  {
    hide JobApply, Run;
    IdStays(before, a, between);
  }

  // Interleavings

  function NextModel(m: Model, a: Action): Model {
    if Applied(m, a).Ok? then Applied(m, a).value else m
  }

  function RunActions(m: Model, xs: seq<Action>): Model
    decreases |xs|
  {
    if xs == [] then m else RunActions(NextModel(m, xs[0]), xs[1..])
  }

  /** The actions of a schedule that concern one job, in order. */
  function Project(xs: seq<Action>, id: string): seq<Action> {
    if xs == [] then []
    else if xs[0].jobId == id then [xs[0]] + Project(xs[1..], id)
    else Project(xs[1..], id)
  }

  /** Which of one job's actions the run accepts, in order. */
  function Verdicts(m: Model, xs: seq<Action>, id: string): seq<bool>
    decreases |xs|
  {
    if xs == [] then [] else
    var rest := Verdicts(NextModel(m, xs[0]), xs[1..], id);
    if xs[0].jobId == id then [Applied(m, xs[0]).Ok?] + rest else rest
  }

  function NextJob(job: JobState, a: Action): JobState {
    if JobApply(job, a).Ok? then JobApply(job, a).value else job
  }

  /** One job run alone. */
  function RunJob(job: JobState, xs: seq<Action>): JobState
    decreases |xs|
  {
    if xs == [] then job else RunJob(NextJob(job, xs[0]), xs[1..])
  }

  function JobVerdicts(job: JobState, xs: seq<Action>): seq<bool>
    decreases |xs|
  {
    if xs == [] then [] else [JobApply(job, xs[0]).Ok?] + JobVerdicts(NextJob(job, xs[0]), xs[1..])
  }

  ghost predicate FreshIds(m: Model, xs: seq<Action>) {
    && (forall i :: 0 <= i < |xs| ==> xs[i].actionId !in m.eventIds)
    && (forall i, j :: 0 <= i < j < |xs| ==> xs[i].actionId != xs[j].actionId)
  }

  lemma NextJobFollowsModel(m: Model, a: Action)
    requires a.actionId !in m.eventIds
    ensures a.jobId !in m.jobs ==> Applied(m, a).Err? && NextModel(m, a) == m
    ensures a.jobId in m.jobs ==>
              && (Applied(m, a).Ok? <==> JobApply(m.jobs[a.jobId], a).Ok?)
              && NextModel(m, a).jobs == m.jobs[a.jobId := NextJob(m.jobs[a.jobId], a)]
    ensures NextModel(m, a).eventIds <= m.eventIds + {a.actionId}
  {
  }

  /** A job in company fares exactly as it would alone. */
  lemma {:induction false} JobsDoNotInterfere(m: Model, xs: seq<Action>, id: string)
    requires FreshIds(m, xs)
    ensures RunActions(m, xs).jobs.Keys == m.jobs.Keys
    ensures id in m.jobs ==> RunActions(m, xs).jobs[id] == RunJob(m.jobs[id], Project(xs, id))
    ensures id in m.jobs ==> Verdicts(m, xs, id) == JobVerdicts(m.jobs[id], Project(xs, id))
    ensures id !in m.jobs ==> true !in Verdicts(m, xs, id) && |Verdicts(m, xs, id)| == |Project(xs, id)|
    decreases |xs|
  {
    if xs != [] {
      NextJobFollowsModel(m, xs[0]);
      var next := NextModel(m, xs[0]);
      assert FreshIds(next, xs[1..]);
      JobsDoNotInterfere(next, xs[1..], id);
      if xs[0].jobId == id && id in m.jobs {
        var job, p := m.jobs[id], Project(xs, id);
        assert p[0] == xs[0] && p[1..] == Project(xs[1..], id);
        assert RunJob(job, p) == RunJob(NextJob(job, xs[0]), Project(xs[1..], id));
      }
    }
  }

  /** Two schedules with the same per-job sequences accept alike and end alike. */
  lemma InterleavingsAgree(m: Model, xs: seq<Action>, ys: seq<Action>)
    requires FreshIds(m, xs) && FreshIds(m, ys)
    requires forall id :: Project(xs, id) == Project(ys, id)
    ensures RunActions(m, xs).jobs == RunActions(m, ys).jobs
    ensures forall id :: Verdicts(m, xs, id) == Verdicts(m, ys, id)
  {
    JobsDoNotInterfere(m, xs, "");
    JobsDoNotInterfere(m, ys, "");
    forall id
      ensures Verdicts(m, xs, id) == Verdicts(m, ys, id)
      ensures id in m.jobs ==> RunActions(m, xs).jobs[id] == RunActions(m, ys).jobs[id]
    {
      JobsDoNotInterfere(m, xs, id);
      JobsDoNotInterfere(m, ys, id);
      if id !in m.jobs {
        var v, w := Verdicts(m, xs, id), Verdicts(m, ys, id);
        forall i | 0 <= i < |v| ensures v[i] == w[i] {
          assert v[i] in v && w[i] in w;
        }
      }
    }
  }
}
