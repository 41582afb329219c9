/**
 What each call of the scheduler does to the document: which job a dispatch hands out and what
 becomes of it, what a submission records, and where a completion leaves its job.
*/
module SchedulerCalls {
  import opened Identifiers
  import opened Results
  import opened Sequences
  import opened Texts
  import opened SchedulerModel

  /** A job that could be handed out: queued, or waiting for nothing any more. */
  ghost predicate Ready(s: State, id: string) {
    && id in s.jobs
    && (|| s.jobs[id].state.Queued?
        || (s.jobs[id].state.Waiting?
            && forall dep | dep in s.jobs[id].dependencies :: dep in s.jobs && s.jobs[dep].state.Done?))
  }

  /**
   The job handed out is the most urgent: no ready job has a higher priority, none of the same
   priority has fewer attempts, and none with both the same has a smaller id.
  */
  lemma DispatchGivesTheMostUrgent(s: State, registry: Registry, max: int, worker: string)
    requires AfterDispatch(s, registry, max, worker).1.Ok?
    ensures var id := AfterDispatch(s, registry, max, worker).1.value;
            && Ready(s, id)
            && forall other | Ready(s, other) && other != id ::
                 var given, rest := s.jobs[id], s.jobs[other];
                 && rest.priority <= given.priority
                 && (rest.priority == given.priority ==> rest.attempts >= given.attempts)
                 && (rest.priority == given.priority && rest.attempts == given.attempts ==> TextLess(id, other))
  {
    hide Negotiate, LeaseId, TextLess;
    var promoted := Promoted(s.jobs);
    var ready := InState(promoted, Queued);
    var id := First(promoted, ready);
    forall other | Ready(s, other) && other != id
      ensures Before(id, promoted[id], other, promoted[other])
    {
      assert other in ready;
    }
  }

  lemma PromotedExactlyWhenReady(s: State, id: string)
    requires id in s.jobs
    ensures Promoted(s.jobs)[id] == if Ready(s, id) then s.jobs[id].(state := Queued) else s.jobs[id]
  {
  }

  /**
   The document after a dispatch: the fence is one up, the job runs under a lease of that fence, waiting
   jobs whose dependencies are done are queued, and nothing else has changed.
  */
  lemma DispatchLeavesTheRest(s: State, registry: Registry, max: int, worker: string)
    requires AfterDispatch(s, registry, max, worker).1.Ok?
    ensures "WRK-" <= worker && |set id | id in s.jobs && s.jobs[id].state.Running?| < max
    ensures var (after, r) := AfterDispatch(s, registry, max, worker);
            var lease := Lease("LSE-" + Padded(s.fence + 1, 8), worker, s.fence + 1);
            && after.fence == s.fence + 1 && after.events == s.events + [Dispatched(r.value, lease)]
            && after.jobs.Keys == s.jobs.Keys
            && forall id | id in s.jobs ::
                 after.jobs[id] ==
                 if id == r.value then s.jobs[id].(attempts := s.jobs[id].attempts + 1, state := Running, lease := Some(lease))
                 else if Ready(s, id) then s.jobs[id].(state := Queued) else s.jobs[id]
  {
    hide Negotiate, First, Padded;
    assert InState(s.jobs, Running) == set id | id in s.jobs && s.jobs[id].state.Running?;
    var id := AfterDispatch(s, registry, max, worker).1.value;
    assert id in InState(Promoted(s.jobs), Queued);
    forall x | x in s.jobs
      ensures Promoted(s.jobs)[x] == if Ready(s, x) then s.jobs[x].(state := Queued) else s.jobs[x]
    {
      PromotedExactlyWhenReady(s, x);
    }
    hide Ready, PromotedJob, Promoted, InState;
  }

  /** The profile a job was bound to still is what the registry offers it. */
  ghost predicate StillOffered(registry: Registry, job: Job) {
    && registry.revision == job.registryRevision && job.adapterId in registry.profiles
    && job.capabilities != {} && (forall c | c in job.capabilities :: IsName(c))
    && job.capabilities <= registry.profiles[job.adapterId].capabilities
    && registry.profiles[job.adapterId].digest == job.profileDigest
  }

  /** Of the jobs that are ready this one is the most urgent. */
  ghost predicate MostUrgent(s: State, id: string) {
    && Ready(s, id)
    && forall other | Ready(s, other) && other != id ::
         var given, rest := s.jobs[id], s.jobs[other];
         || rest.priority < given.priority
         || (rest.priority == given.priority && rest.attempts > given.attempts)
         || (rest.priority == given.priority && rest.attempts == given.attempts && TextLess(id, other))
  }

  lemma MostUrgentIsFirst(s: State, id: string)
    ensures MostUrgent(s, id) <==> IsFirst(Promoted(s.jobs), InState(Promoted(s.jobs), Queued), id)
  {
    hide TextLess;
    var promoted := Promoted(s.jobs);
    var ready := InState(promoted, Queued);
    assert forall x :: Ready(s, x) <==> x in ready;
  }

  lemma NegotiatesExactlyWhenOffered(registry: Registry, job: Job)
    ensures var r := Negotiate(registry, job.adapterId, job.capabilities, Some(job.registryRevision));
            r.Ok? && r.value == job.profileDigest <==> StillOffered(registry, job)
  {
  }

  /** A dispatch succeeds exactly for a worker, with room, when the most urgent job still has its profile. */
  lemma DispatchSucceedsExactlyWhen(s: State, registry: Registry, max: int, worker: string)
    ensures AfterDispatch(s, registry, max, worker).1.Ok? <==>
              && "WRK-" <= worker && |set id | id in s.jobs && s.jobs[id].state.Running?| < max
              && exists id :: MostUrgent(s, id) && StillOffered(registry, s.jobs[id])
    ensures var r := AfterDispatch(s, registry, max, worker).1;
            forall id | MostUrgent(s, id) && r.Ok? :: r.value == id
  {
    hide IsFirst, StillOffered, Negotiate, Given, MostUrgent;
    assert InState(s.jobs, Running) == set id | id in s.jobs && s.jobs[id].state.Running?;
    var promoted := Promoted(s.jobs);
    var ready := InState(promoted, Queued);
    forall id | MostUrgent(s, id) ensures ready != {} && id == First(promoted, ready) && id in s.jobs {
      MostUrgentIsFirst(s, id);
      FirstOfReady(promoted, ready, id);
    }
    if ready != {} {
      var first := First(promoted, ready);
      MostUrgentIsFirst(s, first);
      assert first in ready by { FirstIsReady(promoted, ready, first); }
      NegotiatesExactlyWhenOffered(registry, s.jobs[first]);
    }
  }

  lemma FirstIsReady(jobs: map<string, Job>, ready: set<string>, id: string)
    requires IsFirst(jobs, ready, id)
    ensures id in ready && ready <= jobs.Keys
  {
  }

  lemma FirstOfReady(jobs: map<string, Job>, ready: set<string>, id: string)
    requires IsFirst(jobs, ready, id)
    ensures id in ready && ready <= jobs.Keys && id == First(jobs, ready)
  {
    FirstIsUnique(jobs, ready, id, First(jobs, ready));
  }

  /** A submission is recorded exactly when it is valid, negotiable, new, and all its dependencies are known. */
  lemma SubmitRecordsTheJob(s: State, registry: Registry, j: Submission)
    ensures var (after, error) := AfterSubmit(s, registry, j);
            var capabilities := if j.capabilities == {} then {"request"} else j.capabilities;
            && (error.None? <==>
                  && "JOB-" <= j.jobId && j.project != "" && 0 <= j.priority <= 100 && j.retryLimit >= 0
                  && j.jobId !in s.jobs && Distinct(j.dependencies)
                  && (forall dep | dep in j.dependencies :: dep in s.jobs && dep != j.jobId)
                  && j.adapterId in registry.profiles && (forall c | c in capabilities :: IsName(c))
                  && capabilities <= registry.profiles[j.adapterId].capabilities)
            && (error.None? ==>
                  && after.fence == s.fence && after.events == s.events + [Submitted(j.jobId)]
                  && after.jobs == s.jobs[j.jobId :=
                       Job(j.project, j.dependencies, j.priority, j.retryLimit, 0,
                           if |j.dependencies| == 0 then Queued else Waiting, None, j.adapterId, capabilities,
                           registry.revision, registry.profiles[j.adapterId].digest)])
  {
    hide IsName;
  }

  /**
   A completion by the lease holder leaves the job done, queued again if it failed within its
   retries, or failed; no other job, and no other field, changes.
  */
  lemma CompletionEndsTheJob(s: State, jobId: string, worker: string, leaseId: string, status: Status)
    ensures var (after, error) := AfterComplete(s, jobId, worker, leaseId, status);
            && (error.None? <==>
                  && (status == Done || status == Failed) && jobId in s.jobs && s.jobs[jobId].state == Running
                  && exists fence :: s.jobs[jobId].lease == Some(Lease(leaseId, worker, fence)))
            && (error.None? ==>
                  var job := s.jobs[jobId];
                  var again := status == Failed && job.attempts <= job.retryLimit;
                  && after.fence == s.fence
                  && after.jobs == s.jobs[jobId := job.(state := if again then Queued else status, lease := None)]
                  && after.events == s.events + [if again then Retried(jobId, Queued) else Completed(jobId, status)])
  {
    if jobId in s.jobs && s.jobs[jobId].lease.Some? {
      var lease := s.jobs[jobId].lease.value;
      assert lease == Lease(lease.id, lease.worker, lease.fence);
    }
  }

  // Refusals

  /** Why the registry does not offer the profile, in the order it looks. */
  lemma NegotiationRefusals(r: Registry, adapterId: string, requested: set<string>, expected: Option<nat>)
    ensures var n := Negotiate(r, adapterId, requested, expected);
            var stale := expected.Some? && expected.value != r.revision;
            var named := requested != {} && forall c | c in requested :: IsName(c);
            && (stale ==> n == Err(StaleRegistryRevision))
            && (!stale && adapterId !in r.profiles ==> n == Err(UnknownAdapter))
            && (!stale && adapterId in r.profiles && !named ==> n == Err(CapabilityRequestInvalid))
            && (!stale && adapterId in r.profiles && named ==>
                  n == if requested <= r.profiles[adapterId].capabilities then Ok(r.profiles[adapterId].digest)
                       else Err(UnsupportedCapability))
  {
    hide IsName;
  }

  /** A refused submission names the first check it fails: its own fields, the registry, its id, its dependencies. */
  lemma SubmitRefusals(s: State, registry: Registry, j: Submission)
    ensures var error := AfterSubmit(s, registry, j).1;
            var valid := && "JOB-" <= j.jobId && j.project != "" && j.jobId !in j.dependencies && Distinct(j.dependencies)
                         && 0 <= j.priority <= 100 && j.retryLimit >= 0;
            var offered := Negotiate(registry, j.adapterId, if j.capabilities == {} then {"request"} else j.capabilities, None);
            && (!valid ==> error == Some(JobInvalid))
            && (valid && offered.Err? ==> error == Some(offered.error))
            && (valid && offered.Ok? && j.jobId in s.jobs ==> error == Some(JobDuplicate))
            && (valid && offered.Ok? && j.jobId !in s.jobs && (exists dep | dep in j.dependencies :: dep !in s.jobs) ==>
                  error == Some(DependencyMissing))
  {
    hide Negotiate;
  }

  /** A refused dispatch names the first check it fails: the worker, room, readiness, the most urgent job's profile. */
  lemma DispatchRefusals(s: State, registry: Registry, max: int, worker: string)
    ensures var r := AfterDispatch(s, registry, max, worker).1;
            var room := |set id | id in s.jobs && s.jobs[id].state.Running?| < max;
            && (!("WRK-" <= worker) ==> r == Err(WorkerInvalid))
            && ("WRK-" <= worker && !room ==> r == Err(CapacityExhausted))
            && ("WRK-" <= worker && room && (forall id :: !Ready(s, id)) ==> r == Err(NoReadyJob))
            && ("WRK-" <= worker && room ==> forall id | MostUrgent(s, id) ::
                  var job := s.jobs[id];
                  var offered := Negotiate(registry, job.adapterId, job.capabilities, Some(job.registryRevision));
                  && (offered.Err? ==> r == Err(offered.error))
                  && (offered.Ok? && offered.value != job.profileDigest ==> r == Err(StaleProfile)))
  {
    hide IsFirst, Negotiate, Given, TextLess;
    assert InState(s.jobs, Running) == set id | id in s.jobs && s.jobs[id].state.Running?;
    var promoted := Promoted(s.jobs);
    var ready := InState(promoted, Queued);
    forall id ensures Ready(s, id) <==> id in ready {
    }
    if forall id :: !Ready(s, id) {
      assert ready == {};
    }
    forall id | MostUrgent(s, id) ensures ready != {} && id == First(promoted, ready) {
      MostUrgentIsFirst(s, id);
      FirstOfReady(promoted, ready, id);
    }
  }

  /** A refused completion has no terminal status, or is not the lease holder's. */
  lemma CompletionRefusals(s: State, jobId: string, worker: string, leaseId: string, status: Status)
    ensures var error := AfterComplete(s, jobId, worker, leaseId, status).1;
            && (status != Done && status != Failed ==> error == Some(TerminalInvalid))
            && (error.Some? && (status == Done || status == Failed) ==> error == Some(LeaseFenceMismatch))
  {
  }
}
