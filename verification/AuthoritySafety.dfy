/**
 Safety of single jobs over runs of any length: which of the four checks hold
 always, which hold only on runs that avoid two steps, and what a job that
 completed must have gone through.
*/
module AuthoritySafety {
  import opened Identifiers
  import opened Results
  import opened AuthorityModel

  datatype Act = Act(op: Operation, payload: Payload)

  /** The job after a history of accepted steps; an error as soon as one is refused. */
  function After(jobId: string, h: seq<Act>): Result<JobState, Rejection> {
    if h == [] then Ok(NewJob(jobId)) else
    match After(jobId, h[..|h| - 1])
    case Err(e) => Err(e)
    case Ok(job) => JobStep(job, h[|h| - 1].op, h[|h| - 1].payload)
  }

  ghost predicate Legal(jobId: string, h: seq<Act>) {
    After(jobId, h).Ok?
  }

  lemma Extend(jobId: string, h: seq<Act>, act: Act)
    ensures After(jobId, h + [act]) ==
            if Legal(jobId, h) then JobStep(After(jobId, h).value, act.op, act.payload)
            else Err(After(jobId, h).error)
  {
    assert (h + [act])[..|h + [act]| - 1] == h;
  }

  /** What every reachable job satisfies, with no proviso. */
  ghost predicate Sound(job: JobState) {
    && job.revision >= 1
    && !Violates(job, NoDecision)
    && !Violates(job, NoCommit)
    && (job.phase.RepairPending? ==> job.userDecisionRequired && job.materialAlternative)
    && (job.phase.OraclePending? || job.phase.UiPending? ==> job.materialAlternative)
  }

  /** The parts of an accepted step, one by one. */
  lemma StepShape(job: JobState, op: Operation, p: Payload)
    requires JobStep(job, op, p).Ok?
    ensures PayloadFits(op, p) && Objection(job, op, p).None?
    ensures Allowed(job.phase, op).Some? || (op.Block? && Active(job.phase))
    ensures JobStep(job, op, p).value == Recorded(job, op, p).(phase := NextPhase(job.phase, op, p))
  {
    hide Malformed, PayloadFits, Objection, Allowed, Recorded, NextPhase;
  }

  lemma StepSound(job: JobState, op: Operation, p: Payload)
    requires Sound(job) && JobStep(job, op, p).Ok?
    ensures Sound(JobStep(job, op, p).value)
  {
    StepShape(job, op, p);
    hide JobStep;
    match op
    case Admit | Lease | Dispatch | Start | Evidence | Continue | Alternative | Checkpoint | Crash =>
    case Recover | Failure | Retry | Block | Commit =>
    case QualityAccept | QualityReject | QualityUnknown | GuidanceDecide | RequestCompletion | RepairEscalate | UiDecide =>
    case UnknownOperation =>
  }

  /**
   The gate checks of completion and the commit check hold in every reachable state,
   whatever was recovered or escalated on the way.
  */
  lemma {:induction false} CompletionChecksAlwaysHold(jobId: string, h: seq<Act>)
    requires Legal(jobId, h)
    ensures Sound(After(jobId, h).value)
  {
    if h != [] {
      CompletionChecksAlwaysHold(jobId, h[..|h| - 1]);
      StepSound(After(jobId, h[..|h| - 1]).value, h[|h| - 1].op, h[|h| - 1].payload);
    }
  }

  /**
   The two steps that break a check: dispatching on the empty lease a recovery may
   have installed, and an approved user decision while quality is not accepted.
  */
  ghost predicate Trips(job: JobState, act: Act) {
    || (act.op.Dispatch? && job.leaseId == "")
    || (act.op.UiDecide? && act.payload.UiPayload? && act.payload.outcome == Approved && job.quality != Accepted)
  }

  lemma StepLease(job: JobState, act: Act)
    requires Sound(job) && !Violates(job, NoLease) && JobStep(job, act.op, act.payload).Ok?
    ensures Violates(JobStep(job, act.op, act.payload).value, NoLease) <==> act.op.Dispatch? && job.leaseId == ""
  {
    StepShape(job, act.op, act.payload);
    hide JobStep, UserDecisionKind, GatesOpen;
    match act.op
    case Admit | Lease | Dispatch | Start | Evidence | Continue | Alternative | Checkpoint | Crash =>
    case Recover | Failure | Retry | Block | Commit =>
    case QualityAccept | QualityReject | QualityUnknown | GuidanceDecide | RequestCompletion | RepairEscalate | UiDecide =>
    case UnknownOperation =>
  }

  lemma StepAcceptance(job: JobState, act: Act)
    requires Sound(job) && !Violates(job, NoAcceptance) && JobStep(job, act.op, act.payload).Ok?
    ensures Violates(JobStep(job, act.op, act.payload).value, NoAcceptance) <==> !act.op.Dispatch? && Trips(job, act)
  {
    StepShape(job, act.op, act.payload);
    hide JobStep, UserDecisionKind;
    match act.op
    case Admit | Lease | Dispatch | Start | Evidence | Continue | Alternative | Checkpoint | Crash =>
    case Recover | Failure | Retry | Block | Commit =>
    case QualityAccept | QualityReject | QualityUnknown | GuidanceDecide | RequestCompletion | RepairEscalate | UiDecide =>
    case UnknownOperation =>
  }

  lemma CleanIsFourChecks(job: JobState)
    ensures Clean(job) <==>
              !Violates(job, NoLease) && !Violates(job, NoAcceptance) && !Violates(job, NoDecision) && !Violates(job, NoCommit)
  {
    forall check: Check
      ensures Violates(job, check) ==>
                Violates(job, NoLease) || Violates(job, NoAcceptance) || Violates(job, NoDecision) || Violates(job, NoCommit)
    {
      match check
      case NoLease | NoAcceptance | NoDecision | NoCommit =>
    }
  }

  lemma StepClean(job: JobState, act: Act)
    requires Sound(job) && Clean(job) && JobStep(job, act.op, act.payload).Ok?
    ensures Clean(JobStep(job, act.op, act.payload).value) <==> !Trips(job, act)
  {
    hide JobStep, Violates, Clean;
    var next := JobStep(job, act.op, act.payload).value;
    CleanIsFourChecks(job);
    CleanIsFourChecks(next);
    StepSound(job, act.op, act.payload);
    StepLease(job, act);
    StepAcceptance(job, act);
  }

  /** No check fails at any point of the history. */
  ghost predicate AlwaysClean(jobId: string, h: seq<Act>)
    requires Legal(jobId, h)
  {
    Clean(After(jobId, h).value) && (h != [] ==> AlwaysClean(jobId, h[..|h| - 1]))
  }

  ghost predicate NeverTrips(jobId: string, h: seq<Act>)
    requires Legal(jobId, h)
  {
    h != [] ==>
      && NeverTrips(jobId, h[..|h| - 1])
      && !Trips(After(jobId, h[..|h| - 1]).value, h[|h| - 1])
  }

  /** A run passes all four checks at every point exactly when it takes neither of the two steps. */
  lemma {:induction false} CleanExactlyWhenNeverTrips(jobId: string, h: seq<Act>)
    requires Legal(jobId, h)
    ensures AlwaysClean(jobId, h) <==> NeverTrips(jobId, h)
  {
    if h != [] {
      var g := h[..|h| - 1];
      CleanExactlyWhenNeverTrips(jobId, g);
      CompletionChecksAlwaysHold(jobId, g);
      if AlwaysClean(jobId, g) {
        StepClean(After(jobId, g).value, h[|h| - 1]);
      }
    }
  }

  /** Recoveries install a real lease, and repair leaves execution only once quality is accepted. */
  ghost predicate Careful(jobId: string, h: seq<Act>)
    requires Legal(jobId, h)
  {
    h != [] ==>
      && Careful(jobId, h[..|h| - 1])
      && CarefulStep(After(jobId, h[..|h| - 1]).value, h[|h| - 1])
  }

  ghost predicate CarefulStep(job: JobState, act: Act) {
    && (act.op.Recover? && act.payload.RecoverPayload? ==> act.payload.newLeaseId != "")
    && (act.op.RepairEscalate? && job.phase.Executing? ==> job.quality == Accepted)
  }

  ghost predicate Guarded(job: JobState) {
    && Sound(job) && Clean(job)
    && (job.phase.Leased? ==> job.leaseId != "")
    && (job.phase.RepairPending? || job.phase.UiPending? ==> job.quality == Accepted)
  }

  lemma StepGuarded(job: JobState, act: Act)
    requires Guarded(job) && CarefulStep(job, act) && JobStep(job, act.op, act.payload).Ok?
    ensures !Trips(job, act) && Guarded(JobStep(job, act.op, act.payload).value)
  {
    StepSound(job, act.op, act.payload);
    StepClean(job, act);
    CleanIsFourChecks(job);
    StepShape(job, act.op, act.payload);
    hide JobStep, Clean, UserDecisionKind;
    match act.op
    case Admit | Lease | Dispatch | Start | Evidence | Continue | Alternative | Checkpoint | Crash =>
    case Recover | Failure | Retry | Block | Commit =>
    case QualityAccept | QualityReject | QualityUnknown | GuidanceDecide | RequestCompletion | RepairEscalate | UiDecide =>
    case UnknownOperation =>
  }

  lemma {:induction false} CarefulRunsAreClean(jobId: string, h: seq<Act>)
    requires Legal(jobId, h) && Careful(jobId, h)
    ensures Guarded(After(jobId, h).value) && AlwaysClean(jobId, h)
  {
    if h != [] {
      var g := h[..|h| - 1];
      CarefulRunsAreClean(jobId, g);
      StepGuarded(After(jobId, g).value, h[|h| - 1]);
    }
  }

  lemma Took(jobId: string, h: seq<Act>, job: JobState, act: Act, next: JobState)
    requires After(jobId, h) == Ok(job) && JobStep(job, act.op, act.payload) == Ok(next)
    ensures After(jobId, h + [act]) == Ok(next)
  {
    hide JobStep;
    Extend(jobId, h, act);
  }

  /** Admission, lease, dispatch and start. */
  function Started(): seq<Act> {
    var d := ZeroDigest();
    [ Act(Admit, AdmitPayload(true, 1, d)), Act(Lease, LeasePayload("LSE-A", d)),
      Act(Dispatch, DispatchPayload(d, d)), Act(Start, StartPayload(d)) ]
  }

  lemma StartedJob(jobId: string)
    ensures After(jobId, Started()) == Ok(NewJob(jobId).(phase := Executing, leaseId := "LSE-A"))
  {
    var h := Started();
    assert h == [] + [h[0]] + [h[1]] + [h[2]] + [h[3]];
    Extend(jobId, [], h[0]);
    Extend(jobId, [] + [h[0]], h[1]);
    Extend(jobId, [] + [h[0]] + [h[1]], h[2]);
    Extend(jobId, [] + [h[0]] + [h[1]] + [h[2]], h[3]);
  }

  /** Repair escalated straight from execution and routed to the user... */
  function RoutedRepair(): seq<Act> {
    var d := ZeroDigest();
    Started()
    + [Act(RepairEscalate, RepairPayload(d, "bounded_repair_exhausted", 1))]
    + [Act(GuidanceDecide, GuidancePayload(d, RequiresUi, Awg))]
  }

  lemma RoutedRepairJob(jobId: string)
    ensures Legal(jobId, RoutedRepair())
    ensures var job := After(jobId, RoutedRepair()).value;
            job.phase == UiPending && job.quality == NotDecided
  {
    var d := ZeroDigest();
    var escalate := Act(RepairEscalate, RepairPayload(d, "bounded_repair_exhausted", 1));
    var route := Act(GuidanceDecide, GuidancePayload(d, RequiresUi, Awg));
    var job := NewJob(jobId).(phase := Executing, leaseId := "LSE-A");
    var pending := job.(phase := RepairPending, materialAlternative := true, guidance := Pending,
                        userDecisionRequired := true, repairRequired := true);
    assert JobStep(job, escalate.op, escalate.payload) == Ok(pending);
    var routed := pending.(phase := UiPending, guidance := RequiresUi, ui := Pending);
    assert JobStep(pending, route.op, route.payload) == Ok(routed);
    StartedJob(jobId);
    Extend(jobId, Started(), escalate);
    Extend(jobId, Started() + [escalate], route);
  }

  /** ...and approved by the user. */
  function UnreviewedRepair(): seq<Act> {
    RoutedRepair() + [Act(UiDecide, UiPayload(Some(ZeroDigest()), Approved, Approved, Ui))]
  }

  /** The quality gate check is not an invariant: this run reaches the accepted phase undecided. */
  lemma UnreviewedRepairViolates(jobId: string)
    ensures Legal(jobId, UnreviewedRepair())
    ensures Violates(After(jobId, UnreviewedRepair()).value, NoAcceptance)
    ensures After(jobId, UnreviewedRepair()).value.quality == NotDecided
  {
    RoutedRepairJob(jobId);
    Extend(jobId, RoutedRepair(), Act(UiDecide, UiPayload(Some(ZeroDigest()), Approved, Approved, Ui)));
  }

  /** Recovery onto an empty lease, then a dispatch. */
  function EmptyLeaseRecovery(): seq<Act> {
    var d := ZeroDigest();
    Started()
    + [Act(Checkpoint, CheckpointPayload(d))]
    + [Act(Crash, CrashPayload(d, "host"))]
    + [Act(Recover, RecoverPayload(d, "", 2))]
    + [Act(Dispatch, DispatchPayload(d, d))]
  }

  /** Nor is the lease check: a recovery may install an empty lease. */
  lemma EmptyLeaseRecoveryViolates(jobId: string)
    ensures Legal(jobId, EmptyLeaseRecovery())
    ensures Violates(After(jobId, EmptyLeaseRecovery()).value, NoLease)
  {
    hide IsDigest, After;
    var d, h := ZeroDigest(), Started();
    StartedJob(jobId);
    var save, crash := Act(Checkpoint, CheckpointPayload(d)), Act(Crash, CrashPayload(d, "host"));
    var recover, dispatch := Act(Recover, RecoverPayload(d, "", 2)), Act(Dispatch, DispatchPayload(d, d));
    var job := NewJob(jobId).(phase := Executing, leaseId := "LSE-A");
    var saved := job.(checkpoint := Some(d));
    var recovered := saved.(phase := Leased, revision := 2, leaseId := "", attempt := 1);
    Took(jobId, h, job, save, saved);
    Took(jobId, h + [save], saved, crash, saved.(phase := Recovering));
    Took(jobId, h + [save] + [crash], saved.(phase := Recovering), recover, recovered);
    Took(jobId, h + [save] + [crash] + [recover], recovered, dispatch, recovered.(phase := Dispatched));
  }
}
