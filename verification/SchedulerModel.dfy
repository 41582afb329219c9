/**
 The persistent local scheduler: submit, dispatch and complete over one saved document of
 jobs, a global fence and an event log. Every call loads the document, and saves it only
 when it succeeds. The adapter registry is a value that may differ from call to call.
*/
module SchedulerModel {
  import opened Identifiers
  import opened Results
  import opened Sequences
  import opened Texts

  datatype Status = Waiting | Queued | Running | Done | Failed

  datatype Lease = Lease(id: string, worker: string, fence: nat)

  datatype Job = Job(
    project: string, dependencies: seq<string>, priority: int, retryLimit: nat, attempts: nat, state: Status,
    lease: Option<Lease>, adapterId: string, capabilities: set<string>, registryRevision: nat, profileDigest: string)

  datatype Event =
    | Submitted(jobId: string)
    | Dispatched(jobId: string, lease: Lease)
    | Retried(jobId: string, status: Status)
    | Completed(jobId: string, status: Status)

  datatype State = State(fence: nat, jobs: map<string, Job>, events: seq<Event>)

  datatype Error =
    | JobInvalid | JobDuplicate | DependencyMissing | WorkerInvalid | CapacityExhausted | NoReadyJob
    | StaleProfile | TerminalInvalid | LeaseFenceMismatch
    | StaleRegistryRevision | UnknownAdapter | CapabilityRequestInvalid | UnsupportedCapability

  // The adapter registry

  datatype Profile = Profile(capabilities: set<string>, digest: string)

  datatype Registry = Registry(revision: nat, profiles: map<string, Profile>)

  /** The digest of the profile that offers what is asked for, or why none does. */
  function Negotiate(r: Registry, adapterId: string, requested: set<string>, expected: Option<nat>): Result<string, Error> {
    if expected.Some? && expected.value != r.revision then Err(StaleRegistryRevision)
    else if adapterId !in r.profiles then Err(UnknownAdapter)
    else if requested == {} || exists c | c in requested :: !IsName(c) then Err(CapabilityRequestInvalid)
    else if !(requested <= r.profiles[adapterId].capabilities) then Err(UnsupportedCapability)
    else Ok(r.profiles[adapterId].digest)
  }

  // Submit

  datatype Submission = Submission(
    jobId: string, project: string, dependencies: seq<string>, priority: int, retryLimit: int,
    adapterId: string, capabilities: set<string>)

  ghost predicate SubmissionValid(j: Submission) {
    && "JOB-" <= j.jobId && j.project != "" && j.jobId !in j.dependencies && Distinct(j.dependencies)
    && 0 <= j.priority <= 100 && j.retryLimit >= 0
  }

  function Requested(j: Submission): set<string> {
    if j.capabilities == {} then {"request"} else j.capabilities
  }

  function NewJob(j: Submission, registry: Registry, digest: string): Job
    requires j.retryLimit >= 0
  {
    Job(j.project, j.dependencies, j.priority, j.retryLimit, 0, if j.dependencies == [] then Queued else Waiting,
        None, j.adapterId, Requested(j), registry.revision, digest)
  }

  ghost function AfterSubmit(s: State, registry: Registry, j: Submission): (State, Option<Error>) {
    if !SubmissionValid(j) then (s, Some(JobInvalid))
    else
      var negotiated := Negotiate(registry, j.adapterId, Requested(j), None);
      if negotiated.Err? then (s, Some(negotiated.error))
      else if j.jobId in s.jobs then (s, Some(JobDuplicate))
      else if exists dep | dep in j.dependencies :: dep !in s.jobs then (s, Some(DependencyMissing))
      else
        (s.(jobs := s.jobs[j.jobId := NewJob(j, registry, negotiated.value)], events := s.events + [Submitted(j.jobId)]),
         None)
  }

  // Dispatch

  predicate DependenciesDone(jobs: map<string, Job>, job: Job) {
    forall dep | dep in job.dependencies :: dep in jobs && jobs[dep].state.Done?
  }

  function PromotedJob(jobs: map<string, Job>, job: Job): Job {
    if job.state.Waiting? && DependenciesDone(jobs, job) then job.(state := Queued) else job
  }

  function Promoted(jobs: map<string, Job>): (r: map<string, Job>)
    ensures r.Keys == jobs.Keys
  {
    map id | id in jobs :: PromotedJob(jobs, jobs[id])
  }

  function InState(jobs: map<string, Job>, state: Status): set<string> {
    set id | id in jobs && jobs[id].state == state
  }

  /** Highest priority first, then fewest attempts, then the smaller id. */
  predicate Before(a: string, x: Job, b: string, y: Job) {
    || x.priority > y.priority
    || (x.priority == y.priority && x.attempts < y.attempts)
    || (x.priority == y.priority && x.attempts == y.attempts && TextLess(a, b))
  }

  ghost predicate IsFirst(jobs: map<string, Job>, ready: set<string>, id: string) {
    && id in ready && ready <= jobs.Keys
    && forall other | other in ready && other != id :: Before(id, jobs[id], other, jobs[other])
  }

  /** The dispatch order has exactly one first element in every non-empty set. */
  lemma {:induction false} FirstExists(jobs: map<string, Job>, ready: set<string>)
    requires ready != {} && ready <= jobs.Keys
    ensures exists id :: IsFirst(jobs, ready, id)
    decreases |ready|
  {
    var one :| one in ready;
    var rest := ready - {one};
    if rest == {} {
      assert ready == {one};
      assert IsFirst(jobs, ready, one);
    } else {
      FirstExists(jobs, rest);
      var best :| IsFirst(jobs, rest, best);
      TextLessIsTotal(one, best);
      if Before(one, jobs[one], best, jobs[best]) {
        forall other | other in ready && other != one ensures Before(one, jobs[one], other, jobs[other]) {
          if other != best {
            BeforeIsTransitive(jobs, one, best, other);
          }
        }
        assert IsFirst(jobs, ready, one);
      } else {
        assert IsFirst(jobs, ready, best);
      }
    }
  }

  lemma BeforeIsTransitive(jobs: map<string, Job>, a: string, b: string, c: string)
    requires a in jobs && b in jobs && c in jobs
    requires Before(a, jobs[a], b, jobs[b]) && Before(b, jobs[b], c, jobs[c])
    ensures Before(a, jobs[a], c, jobs[c])
  {
    if TextLess(a, b) && TextLess(b, c) {
      TextLessIsTransitive(a, b, c);
    }
  }

  lemma FirstIsUnique(jobs: map<string, Job>, ready: set<string>, a: string, b: string)
    requires IsFirst(jobs, ready, a) && IsFirst(jobs, ready, b)
    ensures a == b
  {
    TextLessIsTotal(a, b);
  }

  ghost function First(jobs: map<string, Job>, ready: set<string>): (id: string)
    requires ready != {} && ready <= jobs.Keys
    ensures IsFirst(jobs, ready, id)
  {
    FirstExists(jobs, ready);
    var id :| IsFirst(jobs, ready, id);
    id
  }

  function LeaseId(fence: nat): string {
    "LSE-" + Padded(fence, 8)
  }

  function Leased(job: Job, worker: string, fence: nat): Job {
    job.(attempts := job.attempts + 1, state := Running, lease := Some(Lease(LeaseId(fence), worker, fence)))
  }

  /** The document after handing the job out. */
  function Given(s: State, promoted: map<string, Job>, id: string, worker: string): State
    requires id in promoted
  {
    var job := Leased(promoted[id], worker, s.fence + 1);
    State(s.fence + 1, promoted[id := job], s.events + [Dispatched(id, job.lease.value)])
  }

  ghost function AfterDispatch(s: State, registry: Registry, max: int, worker: string): (State, Result<string, Error>) {
    var promoted := Promoted(s.jobs);
    var ready := InState(promoted, Queued);
    if !("WRK-" <= worker) then (s, Err(WorkerInvalid))
    else if |InState(s.jobs, Running)| >= max then (s, Err(CapacityExhausted))
    else if ready == {} then (s, Err(NoReadyJob))
    else
      var id := First(promoted, ready);
      var job := promoted[id];
      var negotiated := Negotiate(registry, job.adapterId, job.capabilities, Some(job.registryRevision));
      if negotiated.Err? then (s, Err(negotiated.error))
      else if negotiated.value != job.profileDigest then (s, Err(StaleProfile))
      else (Given(s, promoted, id, worker), Ok(id))
  }

  // Complete

  predicate HoldsLease(s: State, jobId: string, worker: string, leaseId: string) {
    && jobId in s.jobs && s.jobs[jobId].state.Running? && s.jobs[jobId].lease.Some?
    && s.jobs[jobId].lease.value.worker == worker && s.jobs[jobId].lease.value.id == leaseId
  }

  function Ended(job: Job, status: Status): Job {
    if status.Failed? && job.attempts <= job.retryLimit then job.(state := Queued, lease := None)
    else job.(state := status, lease := None)
  }

  function EndEvent(jobId: string, job: Job, status: Status): Event {
    if status.Failed? && job.attempts <= job.retryLimit then Retried(jobId, Queued) else Completed(jobId, status)
  }

  function AfterComplete(s: State, jobId: string, worker: string, leaseId: string, status: Status): (State, Option<Error>) {
    if !(status.Done? || status.Failed?) then (s, Some(TerminalInvalid))
    else if !HoldsLease(s, jobId, worker, leaseId) then (s, Some(LeaseFenceMismatch))
    else
      var job := s.jobs[jobId];
      (s.(jobs := s.jobs[jobId := Ended(job, status)], events := s.events + [EndEvent(jobId, job, status)]), None)
  }

  /** Only which jobs are done decides whether dependencies are done. */
  lemma SameDone(before: map<string, Job>, after: map<string, Job>, job: Job)
    requires before.Keys == after.Keys
    requires forall id | id in before :: before[id].state.Done? <==> after[id].state.Done?
    ensures DependenciesDone(after, job) <==> DependenciesDone(before, job)
  {
    forall dep | dep in job.dependencies
      ensures dep in after && after[dep].state.Done? <==> dep in before && before[dep].state.Done?
    {
    }
  }

  // Runs

  datatype Command =
    | SubmitJob(submission: Submission, registry: Registry)
    | DispatchJob(worker: string, max: int, registry: Registry)
    | CompleteJob(jobId: string, worker: string, leaseId: string, status: Status)

  ghost function Step(s: State, cmd: Command): State {
    match cmd
    case SubmitJob(j, registry) => AfterSubmit(s, registry, j).0
    case DispatchJob(worker, max, registry) => AfterDispatch(s, registry, max, worker).0
    case CompleteJob(jobId, worker, leaseId, status) => AfterComplete(s, jobId, worker, leaseId, status).0
  }

  ghost predicate Accepted(s: State, cmd: Command) {
    match cmd
    case SubmitJob(j, registry) => AfterSubmit(s, registry, j).1.None?
    case DispatchJob(worker, max, registry) => AfterDispatch(s, registry, max, worker).1.Ok?
    case CompleteJob(jobId, worker, leaseId, status) => AfterComplete(s, jobId, worker, leaseId, status).1.None?
  }

  ghost function Run(s: State, cmds: seq<Command>): State {
    if cmds == [] then s else Step(Run(s, cmds[..|cmds| - 1]), cmds[|cmds| - 1])
  }

  const EMPTY := State(0, map[], [])

  /** The scheduler over its document. */
  class LocalScheduler {
    const maxConcurrency: int
    var registry: Registry
    var fence: nat
    var jobs: map<string, Job>
    var events: seq<Event>

    function Document(): State
      reads this
    {
      State(fence, jobs, events)
    }

    constructor (maxConcurrency: int, registry: Registry)
      ensures Document() == EMPTY && this.maxConcurrency == maxConcurrency && this.registry == registry
    {
      this.maxConcurrency, this.registry := maxConcurrency, registry;
      fence, jobs, events := 0, map[], [];
    }

    method Submit(j: Submission) returns (error: Option<Error>)
      modifies this`jobs, this`events
      ensures (Document(), error) == AfterSubmit(old(Document()), registry, j)
    {
      var distinct := AllDistinct(j.dependencies);
      if !("JOB-" <= j.jobId) || j.project == "" || j.jobId in j.dependencies || !distinct
         || !(0 <= j.priority <= 100) || j.retryLimit < 0 {
        return Some(JobInvalid);
      }
      var negotiated := Negotiate(registry, j.adapterId, Requested(j), None);
      if negotiated.Err? {
        return Some(negotiated.error);
      }
      if j.jobId in jobs {
        return Some(JobDuplicate);
      }
      for i := 0 to |j.dependencies|
        invariant forall k | 0 <= k < i :: j.dependencies[k] in jobs
      {
        if j.dependencies[i] !in jobs {
          return Some(DependencyMissing);
        }
      }
      jobs := jobs[j.jobId := NewJob(j, registry, negotiated.value)];
      events := events + [Submitted(j.jobId)];
      error := None;
    }

    /** The ready job that comes before every other one. */
    static method Choose(jobs: map<string, Job>, ready: set<string>) returns (best: string)
      requires ready != {} && ready <= jobs.Keys
      ensures best == First(jobs, ready)
    {
      best :| best in ready;
      var rest := ready - {best};
      while rest != {}
        invariant rest <= ready && IsFirst(jobs, ready - rest, best)
        decreases |rest|
      {
        var id :| id in rest;
        if Before(id, jobs[id], best, jobs[best]) {
          forall other | other in ready - rest && other != best ensures Before(id, jobs[id], other, jobs[other]) {
            BeforeIsTransitive(jobs, id, best, other);
          }
          best := id;
        } else {
          TextLessIsTotal(id, best);
        }
        rest := rest - {id};
      }
      assert ready - rest == ready;
      FirstIsUnique(jobs, ready, best, First(jobs, ready));
    }

    /** Promotes every waiting job whose dependencies are done, one at a time. */
    static method Promote(jobs: map<string, Job>) returns (loaded: map<string, Job>)
      ensures loaded == Promoted(jobs)
    {
      loaded := jobs;
      var pending := jobs.Keys;
      while pending != {}
        invariant pending <= jobs.Keys && loaded.Keys == jobs.Keys
        invariant forall id | id in jobs :: loaded[id] == if id in pending then jobs[id] else PromotedJob(jobs, jobs[id])
        decreases |pending|
      {
        var id :| id in pending;
        SameDone(jobs, loaded, jobs[id]);
        if loaded[id].state.Waiting? && DependenciesDone(loaded, loaded[id]) {
          loaded := loaded[id := loaded[id].(state := Queued)];
        }
        pending := pending - {id};
      }
    }

    /** Promotions are made on the loaded copy: they are saved only with a dispatch. */
    method Dispatch(worker: string) returns (r: Result<string, Error>)
      modifies this`fence, this`jobs, this`events
      ensures (Document(), r) == AfterDispatch(old(Document()), registry, maxConcurrency, worker)
    {
      if !("WRK-" <= worker) {
        return Err(WorkerInvalid);
      }
      if |InState(jobs, Running)| >= maxConcurrency {
        return Err(CapacityExhausted);
      }
      var loaded := Promote(jobs);
      var ready := InState(loaded, Queued);
      if ready == {} {
        return Err(NoReadyJob);
      }
      var id := Choose(loaded, ready);
      var job := loaded[id];
      var negotiated := Negotiate(registry, job.adapterId, job.capabilities, Some(job.registryRevision));
      if negotiated.Err? {
        return Err(negotiated.error);
      }
      if negotiated.value != job.profileDigest {
        return Err(StaleProfile);
      }
      fence := fence + 1;
      job := job.(attempts := job.attempts + 1, state := Running, lease := Some(Lease(LeaseId(fence), worker, fence)));
      jobs := loaded[id := job];
      events := events + [Dispatched(id, job.lease.value)];
      r := Ok(id);
    }

    method Complete(jobId: string, worker: string, leaseId: string, status: Status) returns (error: Option<Error>)
      modifies this`jobs, this`events
      ensures (Document(), error) == AfterComplete(old(Document()), jobId, worker, leaseId, status)
    {
      if !status.Done? && !status.Failed? {
        return Some(TerminalInvalid);
      }
      if jobId !in jobs || !jobs[jobId].state.Running? || jobs[jobId].lease.None?
         || jobs[jobId].lease.value.worker != worker || jobs[jobId].lease.value.id != leaseId {
        return Some(LeaseFenceMismatch);
      }
      var job := jobs[jobId];
      if status.Failed? && job.attempts <= job.retryLimit {
        jobs := jobs[jobId := job.(state := Queued, lease := None)];
        events := events + [Retried(jobId, Queued)];
      } else {
        jobs := jobs[jobId := job.(state := status, lease := None)];
        events := events + [Completed(jobId, status)];
      }
      error := None;
    }
  }
}
