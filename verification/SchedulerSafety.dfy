/**
 What holds in every state the scheduler can reach: capacity, dependency order, bounded
 attempts, leases that are used once, and an event log from which the document follows.
*/
module SchedulerSafety {
  import opened Results
  import opened SchedulerModel
  import opened Sets
  import Texts

  // Safety of every reachable document

  ghost predicate JobSound(s: State, job: Job) {
    && (forall dep | dep in job.dependencies :: dep in s.jobs)
    && (job.state.Running? <==> job.lease.Some?)
    && (job.lease.Some? ==> 1 <= job.lease.value.fence <= s.fence && job.lease.value.id == LeaseId(job.lease.value.fence))
    && (job.state.Waiting? ==> job.attempts == 0 && job.dependencies != [])
    && (!job.state.Waiting? ==> DependenciesDone(s.jobs, job))
    && job.attempts <= job.retryLimit + 1
    && (job.state.Queued? ==> job.attempts <= job.retryLimit)
    && (job.state.Running? || job.state.Done? ==> job.attempts >= 1)
    && (job.state.Failed? ==> job.attempts == job.retryLimit + 1)
  }

  ghost predicate Sound(s: State) {
    && (forall id | id in s.jobs :: JobSound(s, s.jobs[id]))
    && (forall a, b | a in s.jobs && b in s.jobs && a != b && s.jobs[a].lease.Some? && s.jobs[b].lease.Some?
          :: s.jobs[a].lease.value.fence != s.jobs[b].lease.value.fence)
  }

  /** What is done stays done, so a job that does not change stays sound. */
  lemma StaysSound(s: State, after: State, job: Job)
    requires JobSound(s, job) && s.fence <= after.fence && s.jobs.Keys <= after.jobs.Keys
    requires forall id | id in s.jobs && s.jobs[id].state.Done? :: after.jobs[id].state.Done?
    ensures JobSound(after, job)
  {
  }

  lemma SubmitKeepsSound(s: State, registry: Registry, j: Submission)
    requires Sound(s)
    ensures Sound(AfterSubmit(s, registry, j).0)
  {
    var after := AfterSubmit(s, registry, j).0;
    if after != s {
      forall id | id in after.jobs ensures JobSound(after, after.jobs[id]) {
        if id != j.jobId {
          StaysSound(s, after, s.jobs[id]);
        }
      }
    }
  }

  lemma PromotedIsSound(s: State, id: string)
    requires id in s.jobs && JobSound(s, s.jobs[id])
    ensures JobSound(s.(jobs := Promoted(s.jobs)), PromotedJob(s.jobs, s.jobs[id]))
  {
    hide LeaseId;
    SameDone(s.jobs, Promoted(s.jobs), s.jobs[id]);
  }

  lemma PromotionKeepsSound(s: State)
    requires Sound(s)
    ensures Sound(s.(jobs := Promoted(s.jobs)))
  {
    hide JobSound;
    var after := s.(jobs := Promoted(s.jobs));
    forall id | id in after.jobs ensures JobSound(after, after.jobs[id]) {
      PromotedIsSound(s, id);
    }
  }

  /** Giving out a ready job under a new fence. */
  lemma GivenKeepsSound(s: State, id: string, worker: string)
    requires Sound(s) && id in s.jobs && s.jobs[id].state.Queued?
    ensures Sound(Given(s, s.jobs, id, worker))
  {
    hide LeaseId;
    var after := Given(s, s.jobs, id, worker);
    forall other | other in after.jobs ensures JobSound(after, after.jobs[other]) {
      SameDone(s.jobs, after.jobs, s.jobs[other]);
    }
  }

  lemma DispatchKeepsSound(s: State, registry: Registry, max: int, worker: string)
    requires Sound(s)
    ensures Sound(AfterDispatch(s, registry, max, worker).0)
  {
    hide Sound, Promoted, Negotiate, Given;
    var (after, r) := AfterDispatch(s, registry, max, worker);
    if r.Ok? {
      PromotionKeepsSound(s);
      GivenKeepsSound(s.(jobs := Promoted(s.jobs)), r.value, worker);
      GivenFromPromoted(s, r.value, worker);
    }
  }

  lemma GivenFromPromoted(s: State, id: string, worker: string)
    requires id in Promoted(s.jobs)
    ensures Given(s.(jobs := Promoted(s.jobs)), Promoted(s.jobs), id, worker) == Given(s, Promoted(s.jobs), id, worker)
  {
  }

  lemma CompleteKeepsSound(s: State, jobId: string, worker: string, leaseId: string, status: Status)
    requires Sound(s)
    ensures Sound(AfterComplete(s, jobId, worker, leaseId, status).0)
  {
    hide LeaseId;
    var (after, error) := AfterComplete(s, jobId, worker, leaseId, status);
    if error.None? {
      StaysSound(s, after, s.jobs[jobId]);
      forall id | id in after.jobs ensures JobSound(after, after.jobs[id]) {
        if id != jobId {
          StaysSound(s, after, s.jobs[id]);
        }
      }
    }
  }

  lemma StepKeepsSound(s: State, cmd: Command)
    requires Sound(s)
    ensures Sound(Step(s, cmd))
  {
    hide Sound, AfterSubmit, AfterDispatch, AfterComplete;
    match cmd
    case SubmitJob(j, registry) => SubmitKeepsSound(s, registry, j);
    case DispatchJob(worker, max, registry) => DispatchKeepsSound(s, registry, max, worker);
    case CompleteJob(jobId, worker, leaseId, status) => CompleteKeepsSound(s, jobId, worker, leaseId, status);
  }

  lemma {:induction false} RunsKeepSound(s: State, cmds: seq<Command>)
    requires Sound(s)
    ensures Sound(Run(s, cmds))
  {
    hide Sound, Step;
    if cmds != [] {
      RunsKeepSound(s, cmds[..|cmds| - 1]);
      StepKeepsSound(Run(s, cmds[..|cmds| - 1]), cmds[|cmds| - 1]);
    }
  }

  /** Every document reachable from the empty one is sound. */
  lemma EveryRunIsSound(cmds: seq<Command>)
    ensures Sound(Run(EMPTY, cmds))
  {
    RunsKeepSound(EMPTY, cmds);
  }

  // Capacity

  predicate CapsAtMost(cmd: Command, max: int) {
    cmd.DispatchJob? ==> cmd.max <= max
  }

  lemma RunningAfterDispatch(s: State, registry: Registry, max: int, worker: string)
    ensures var (after, r) := AfterDispatch(s, registry, max, worker);
            && InState(after.jobs, Running) == (if r.Ok? then InState(s.jobs, Running) + {r.value} else InState(s.jobs, Running))
            && (r.Ok? ==> |InState(s.jobs, Running)| < max)
  {
    hide Negotiate, First, LeaseId, DependenciesDone, Before;
    var (after, r) := AfterDispatch(s, registry, max, worker);
    if r.Ok? {
      forall id ensures id in InState(after.jobs, Running) <==> id in InState(s.jobs, Running) + {r.value} {
        assert id != r.value && id in s.jobs ==> after.jobs[id] == PromotedJob(s.jobs, s.jobs[id]);
      }
    }
  }

  lemma StepKeepsCapacity(s: State, cmd: Command, max: int)
    requires |InState(s.jobs, Running)| <= max && CapsAtMost(cmd, max)
    ensures |InState(Step(s, cmd).jobs, Running)| <= max
  {
    hide AfterDispatch, Negotiate, LeaseId;
    var before, after := InState(s.jobs, Running), InState(Step(s, cmd).jobs, Running);
    match cmd
    case SubmitJob(j, registry) =>
      assert after == before;
    case DispatchJob(worker, cap, registry) =>
      RunningAfterDispatch(s, registry, cap, worker);
    case CompleteJob(jobId, worker, leaseId, status) =>
      assert after <= before;
      SubsetIsNoLarger(after, before);
  }

  /** Schedulers sharing a document never run more jobs at once than the largest of their limits. */
  lemma {:induction false} CapacityIsNeverExceeded(cmds: seq<Command>, max: nat)
    requires forall cmd | cmd in cmds :: CapsAtMost(cmd, max)
    ensures |InState(Run(EMPTY, cmds).jobs, Running)| <= max
  {
    if cmds == [] {
      assert InState(EMPTY.jobs, Running) == {};
    } else {
      hide Step;
      CapacityIsNeverExceeded(cmds[..|cmds| - 1], max);
      StepKeepsCapacity(Run(EMPTY, cmds[..|cmds| - 1]), cmds[|cmds| - 1], max);
    }
  }

  // The event log

  /** What the log says about a job. Waiting and queued look alike in the log. */
  datatype Track = Track(attempts: nat, lease: Option<Lease>, status: Status)

  function TrackOf(job: Job): Track {
    Track(job.attempts, job.lease, if job.state.Waiting? then Queued else job.state)
  }

  function Tracks(jobs: map<string, Job>): map<string, Track> {
    map id | id in jobs :: TrackOf(jobs[id])
  }

  datatype Ledger = Ledger(fence: nat, tracks: map<string, Track>)

  function Entered(l: Ledger, e: Event): Ledger {
    match e
    case Submitted(id) => l.(tracks := l.tracks[id := Track(0, None, Queued)])
    case Dispatched(id, lease) =>
      var attempts := if id in l.tracks then l.tracks[id].attempts else 0;
      Ledger(l.fence + 1, l.tracks[id := Track(attempts + 1, Some(lease), Running)])
    case Retried(id, status) => Closed(l, id, status)
    case Completed(id, status) => Closed(l, id, status)
  }

  function Closed(l: Ledger, id: string, status: Status): Ledger {
    if id in l.tracks then l.(tracks := l.tracks[id := l.tracks[id].(lease := None, status := status)]) else l
  }

  function Replayed(events: seq<Event>): Ledger {
    if events == [] then Ledger(0, map[]) else Entered(Replayed(events[..|events| - 1]), events[|events| - 1])
  }

  ghost predicate LogTells(s: State) {
    Replayed(s.events) == Ledger(s.fence, Tracks(s.jobs))
  }

  lemma PromotionKeepsTracks(jobs: map<string, Job>)
    ensures Tracks(Promoted(jobs)) == Tracks(jobs)
  {
  }

  lemma DispatchKeepsLog(s: State, registry: Registry, max: int, worker: string)
    requires LogTells(s)
    ensures LogTells(AfterDispatch(s, registry, max, worker).0)
  {
    hide LeaseId, Negotiate, Before, PromotedJob, Promoted, Replayed;
    var (after, r) := AfterDispatch(s, registry, max, worker);
    if r.Ok? {
      PromotionKeepsTracks(s.jobs);
      AppendReplays(s.events, after.events[|s.events|]);
      var promoted := Promoted(s.jobs);
      assert TrackOf(promoted[r.value]) == Tracks(promoted)[r.value] == Tracks(s.jobs)[r.value];
      assert Tracks(after.jobs) == Tracks(promoted)[r.value := TrackOf(after.jobs[r.value])];
    }
  }

  lemma AppendReplays(events: seq<Event>, e: Event)
    ensures Replayed(events + [e]) == Entered(Replayed(events), e)
  {
    assert (events + [e])[..|events|] == events;
  }

  lemma StepKeepsLog(s: State, cmd: Command)
    requires LogTells(s)
    ensures LogTells(Step(s, cmd))
  {
    hide LeaseId, Negotiate, AfterDispatch, Replayed;
    var after := Step(s, cmd);
    match cmd
    case DispatchJob(worker, max, registry) => DispatchKeepsLog(s, registry, max, worker);
    case SubmitJob(j, registry) =>
      if after.events != s.events {
        AppendReplays(s.events, Submitted(j.jobId));
        assert Tracks(after.jobs) == Tracks(s.jobs)[j.jobId := Track(0, None, Queued)];
      }
    case CompleteJob(jobId, worker, leaseId, status) =>
      if after.events != s.events {
        AppendReplays(s.events, EndEvent(jobId, s.jobs[jobId], status));
        assert Tracks(after.jobs) == Tracks(s.jobs)[jobId := TrackOf(after.jobs[jobId])];
      }
  }

  /**
   Folding the saved events rebuilds the job set, the fence, and each job's attempts, lease
   and running or terminal status, in every reachable document.
  */
  lemma {:induction false} LogRebuildsDocument(cmds: seq<Command>)
    ensures LogTells(Run(EMPTY, cmds))
  {
    if cmds != [] {
      hide Step, LogTells;
      LogRebuildsDocument(cmds[..|cmds| - 1]);
      StepKeepsLog(Run(EMPTY, cmds[..|cmds| - 1]), cmds[|cmds| - 1]);
    } else {
      assert Tracks(EMPTY.jobs) == map[];
    }
  }

  // Leases

  ghost predicate HeldBy(s: State, id: string, fence: int) {
    id in s.jobs && s.jobs[id].lease.Some? && s.jobs[id].lease.value.fence == fence
  }

  ghost predicate Held(s: State, fence: int) {
    exists id :: HeldBy(s, id, fence)
  }

  /** A step holds no lease that was not held before, unless its fence is new. */
  lemma StepLeasesAreFresh(s: State, cmd: Command, fence: int)
    requires fence <= s.fence && !Held(s, fence)
    ensures s.fence <= Step(s, cmd).fence && !Held(Step(s, cmd), fence)
  {
    hide LeaseId, Negotiate, Before;
    forall id ensures !HeldBy(Step(s, cmd), id, fence) {
      assert !HeldBy(s, id, fence);
    }
  }

  lemma {:induction false} RunLeasesAreFresh(s: State, cmds: seq<Command>, fence: int)
    requires fence <= s.fence && !Held(s, fence)
    ensures s.fence <= Run(s, cmds).fence && !Held(Run(s, cmds), fence)
  {
    if cmds != [] {
      hide Step, Held;
      RunLeasesAreFresh(s, cmds[..|cmds| - 1], fence);
      StepLeasesAreFresh(Run(s, cmds[..|cmds| - 1]), cmds[|cmds| - 1], fence);
    }
  }

  /** Nobody completes a job under the lease of this fence. */
  ghost predicate Dead(s: State, leaseId: string) {
    forall jobId, worker, status :: AfterComplete(s, jobId, worker, leaseId, status).1.Some?
  }

  lemma UnheldIsDead(s: State, fence: nat)
    requires Sound(s) && !Held(s, fence)
    ensures Dead(s, LeaseId(fence))
  {
    forall jobId, worker, status ensures AfterComplete(s, jobId, worker, LeaseId(fence), status).1.Some? {
      if HoldsLease(s, jobId, worker, LeaseId(fence)) {
        var other := s.jobs[jobId].lease.value.fence;
        LeaseIdsDiffer(other, fence);
        assert HeldBy(s, jobId, fence);
      }
    }
  }

  lemma LeaseIdsDiffer(a: nat, b: nat)
    ensures LeaseId(a) == LeaseId(b) ==> a == b
  {
    Texts.PaddedInjective(a, b, 8);
    assert LeaseId(a)[4..] == Texts.Padded(a, 8) && LeaseId(b)[4..] == Texts.Padded(b, 8);
  }

  /** A lease completes a job at most once: afterwards it completes nothing, in any later document. */
  lemma LeaseCompletesOnce(s: State, jobId: string, worker: string, leaseId: string, status: Status, later: seq<Command>)
    requires Sound(s) && AfterComplete(s, jobId, worker, leaseId, status).1.None?
    ensures Dead(Run(AfterComplete(s, jobId, worker, leaseId, status).0, later), leaseId)
  {
    hide LeaseId, Run, Dead;
    var after := AfterComplete(s, jobId, worker, leaseId, status).0;
    var fence := s.jobs[jobId].lease.value.fence;
    CompleteKeepsSound(s, jobId, worker, leaseId, status);
    assert !Held(after, fence);
    RunLeasesAreFresh(after, later, fence);
    RunsKeepSound(after, later);
    UnheldIsDead(Run(after, later), fence);
  }

  /** The lease dispatched at i is a past one, and whoever still holds it had no event since. */
  ghost predicate LastWordAt(s: State, i: nat)
    requires i < |s.events| && s.events[i].Dispatched?
  {
    var lease := s.events[i].lease;
    && lease.fence <= s.fence && lease.id == LeaseId(lease.fence)
    && forall id | HeldBy(s, id, lease.fence) ::
         id == s.events[i].jobId && forall k | i < k < |s.events| :: s.events[k].jobId != id
  }

  /** A held lease is the last thing the log says about its job, and fences tell leases apart. */
  ghost predicate LastWord(s: State) {
    forall i | 0 <= i < |s.events| && s.events[i].Dispatched? :: LastWordAt(s, i)
  }

  /** One more event about a job whose earlier lease, if any, is given up. */
  ghost predicate Enters(s: State, after: State, e: Event) {
    && after.events == s.events + [e] && s.fence <= after.fence
    && (forall id, fence | HeldBy(after, id, fence) && fence <= s.fence :: HeldBy(s, id, fence) && id != e.jobId)
    && (e.Dispatched? ==>
          && e.lease.fence == after.fence == s.fence + 1 && e.lease.id == LeaseId(e.lease.fence)
          && forall id | HeldBy(after, id, after.fence) :: id == e.jobId)
  }

  lemma EventKeepsLastWord(s: State, after: State, e: Event)
    requires LastWord(s) && Enters(s, after, e)
    ensures LastWord(after)
  {
    hide LeaseId;
    forall i | 0 <= i < |after.events| && after.events[i].Dispatched? ensures LastWordAt(after, i) {
      if i < |s.events| {
        assert after.events[i] == s.events[i] && LastWordAt(s, i);
      }
    }
  }

  lemma DispatchEnters(s: State, registry: Registry, max: int, worker: string)
    requires Sound(s)
    ensures var (after, r) := AfterDispatch(s, registry, max, worker);
            if r.Ok? then Enters(s, after, Dispatched(r.value, after.jobs[r.value].lease.value)) else after == s
  {
    hide LeaseId, Negotiate, Before, DependenciesDone;
    var (after, r) := AfterDispatch(s, registry, max, worker);
    if r.Ok? {
      forall id, fence | HeldBy(after, id, fence) && fence <= s.fence ensures HeldBy(s, id, fence) && id != r.value {
        assert id != r.value;
        assert after.jobs[id] == PromotedJob(s.jobs, s.jobs[id]);
      }
    }
  }

  lemma StepKeepsLastWord(s: State, cmd: Command)
    requires LastWord(s) && Sound(s)
    ensures LastWord(Step(s, cmd))
  {
    hide LeaseId, Negotiate, AfterDispatch, LastWord;
    var after := Step(s, cmd);
    match cmd {
      case DispatchJob(worker, max, registry) =>
        DispatchEnters(s, registry, max, worker);
        assert after != s ==> Enters(s, after, after.events[|s.events|]);
      case SubmitJob(_, _) =>
        assert after != s ==> Enters(s, after, after.events[|s.events|]);
      case CompleteJob(jobId, _, _, _) =>
        assert after != s ==> Enters(s, after, after.events[|s.events|]);
    }
    if after != s {
      EventKeepsLastWord(s, after, after.events[|s.events|]);
    }
  }

  lemma {:induction false} EveryRunHasLastWord(cmds: seq<Command>)
    ensures LastWord(Run(EMPTY, cmds))
  {
    if cmds != [] {
      hide Step, LastWord;
      EveryRunHasLastWord(cmds[..|cmds| - 1]);
      EveryRunIsSound(cmds[..|cmds| - 1]);
      StepKeepsLastWord(Run(EMPTY, cmds[..|cmds| - 1]), cmds[|cmds| - 1]);
    }
  }

  /** Once the log says anything more about the job, the lease can never complete a job again. */
  lemma SupersededLeaseNeverCompletes(cmds: seq<Command>, i: nat, k: nat, later: seq<Command>)
    requires var events := Run(EMPTY, cmds).events;
             i < k < |events| && events[i].Dispatched? && events[k].jobId == events[i].jobId
    ensures Dead(Run(Run(EMPTY, cmds), later), Run(EMPTY, cmds).events[i].lease.id)
  {
    hide Run, Dead, LeaseId;
    var s := Run(EMPTY, cmds);
    var fence := s.events[i].lease.fence;
    EveryRunIsSound(cmds);
    EveryRunHasLastWord(cmds);
    assert LastWordAt(s, i);
    assert !Held(s, fence);
    RunLeasesAreFresh(s, later, fence);
    RunsKeepSound(s, later);
    UnheldIsDead(Run(s, later), fence);
  }
}
