/**
 What the fields of a job say about its history: each is the last word on its subject, or a
 count.
*/
module AuthorityFields {
  import opened Results
  import opened AuthorityModel
  import opened AuthoritySafety
  import opened AuthorityHistory

  /** The last thing the history says on a subject. */
  function LastOf<T>(h: seq<Act>, pick: Act -> Option<T>): Option<T> {
    if h == [] then None
    else if pick(h[|h| - 1]).Some? then pick(h[|h| - 1])
    else LastOf(h[..|h| - 1], pick)
  }

  function LeaseGiven(act: Act): Option<string> {
    if act.op.Lease? && act.payload.LeasePayload? then Some(act.payload.newLeaseId)
    else if act.op.Recover? && act.payload.RecoverPayload? then Some(act.payload.newLeaseId)
    else None
  }

  function CheckpointTaken(act: Act): Option<string> {
    if act.op.Checkpoint? && act.payload.CheckpointPayload? then Some(act.payload.checkpointDigest) else None
  }

  function EvidenceShown(act: Act): Option<string> {
    if act.op.Evidence? && act.payload.EvidencePayload? then Some(act.payload.evidenceDigest) else None
  }

  function VerdictGiven(act: Act): Option<Word> {
    if IsVerdict(act) && act.payload.VerdictPayload? then Some(act.payload.result) else None
  }

  function UserSaid(act: Act): Option<Word> {
    if act.op.UiDecide? && act.payload.UiPayload? then Some(act.payload.outcome)
    else if act.op.GuidanceDecide? && act.payload.GuidancePayload? && act.payload.decision == RequiresUi then Some(Pending)
    else None
  }

  function GuidanceSaid(act: Act): Option<Word> {
    if IsChange(act) then Some(Pending)
    else if IsGuidance(act) then Some(act.payload.decision)
    else if UserApproves(act) then Some(Approved)
    else None
  }

  /** Whether a material change is open: opened by a change, closed by a decision or the user's approval. */
  function ChangeOpened(act: Act): Option<bool> {
    if IsChange(act) then Some(true)
    else if (IsGuidance(act) && act.payload.decision != RequiresUi) || UserApproves(act) then Some(false)
    else None
  }

  function UserDemanded(act: Act): Option<bool> {
    if IsChange(act) then Some(DemandsUser(act)) else if UserApproves(act) then Some(false) else None
  }

  function RepairDemanded(act: Act): Option<bool> {
    if act.op.RepairEscalate? then Some(true) else if UserApproves(act) then Some(false) else None
  }

  function Tries(h: seq<Act>): nat {
    if h == [] then 0
    else Tries(h[..|h| - 1]) + (if h[|h| - 1].op.Recover? || h[|h| - 1].op.Retry? then 1 else 0)
  }

  function OrElse<T>(o: Option<T>, default: T): T {
    if o.Some? then o.value else default
  }

  /** The fields a job keeps of its history. */
  ghost predicate Keeps(job: JobState, h: seq<Act>) {
    && job.leaseId == OrElse(LastOf(h, LeaseGiven), "")
    && job.checkpoint == LastOf(h, CheckpointTaken)
    && job.evidence == LastOf(h, EvidenceShown)
    && job.quality == OrElse(LastOf(h, VerdictGiven), NotDecided)
    && job.ui == OrElse(LastOf(h, UserSaid), NotRequired)
    && job.attempt == Tries(h)
  }

  /** The gate fields of a material change it keeps. */
  ghost predicate KeepsGates(job: JobState, h: seq<Act>) {
    && job.guidance == OrElse(LastOf(h, GuidanceSaid), NotRequired)
    && job.materialAlternative == OrElse(LastOf(h, ChangeOpened), false)
    && job.userDecisionRequired == OrElse(LastOf(h, UserDemanded), false)
    && job.repairRequired == OrElse(LastOf(h, RepairDemanded), false)
  }

  lemma StepKeeps(job: JobState, op: Operation, p: Payload)
    requires JobStep(job, op, p).Ok?
    ensures var next, act := JobStep(job, op, p).value, Act(op, p);
            && next.jobId == job.jobId
            && next.leaseId == OrElse(LeaseGiven(act), job.leaseId)
            && next.checkpoint == (if CheckpointTaken(act).Some? then CheckpointTaken(act) else job.checkpoint)
            && next.evidence == (if EvidenceShown(act).Some? then EvidenceShown(act) else job.evidence)
            && next.ui == OrElse(UserSaid(act), job.ui)
            && next.attempt == job.attempt + (if op.Recover? || op.Retry? then 1 else 0)
  {
    StepShape(job, op, p);
    hide JobStep, Objection, Allowed, NextPhase;
    match op
    case Admit | Lease | Dispatch | Start | Evidence | Continue | Alternative | Checkpoint | Crash =>
    case Recover | Failure | Retry | Block | Commit =>
    case QualityAccept | QualityReject | QualityUnknown | GuidanceDecide | RequestCompletion | RepairEscalate | UiDecide =>
    case UnknownOperation =>
  }

  lemma StepKeepsGuidance(job: JobState, op: Operation, p: Payload)
    requires JobStep(job, op, p).Ok?
    ensures JobStep(job, op, p).value.guidance == OrElse(GuidanceSaid(Act(op, p)), job.guidance)
  {
    StepShape(job, op, p);
    hide JobStep, Objection, Allowed, NextPhase;
    match op
    case Admit | Lease | Dispatch | Start | Evidence | Continue | Checkpoint | Crash =>
    case Recover | Failure | Retry | Block | Commit =>
    case QualityAccept | QualityReject | QualityUnknown | RequestCompletion =>
    case Alternative =>
    case RepairEscalate =>
    case GuidanceDecide =>
    case UiDecide =>
    case UnknownOperation =>
  }

  lemma StepKeepsChange(job: JobState, op: Operation, p: Payload)
    requires JobStep(job, op, p).Ok?
    ensures JobStep(job, op, p).value.materialAlternative == OrElse(ChangeOpened(Act(op, p)), job.materialAlternative)
  {
    StepShape(job, op, p);
    hide JobStep, Objection, Allowed, NextPhase;
    match op
    case Admit | Lease | Dispatch | Start | Evidence | Continue | Checkpoint | Crash =>
    case Recover | Failure | Retry | Block | Commit =>
    case QualityAccept | QualityReject | QualityUnknown | RequestCompletion =>
    case Alternative =>
    case RepairEscalate =>
    case GuidanceDecide =>
    case UiDecide =>
    case UnknownOperation =>
  }

  lemma StepKeepsDemand(job: JobState, op: Operation, p: Payload)
    requires JobStep(job, op, p).Ok?
    ensures JobStep(job, op, p).value.userDecisionRequired == OrElse(UserDemanded(Act(op, p)), job.userDecisionRequired)
  {
    StepShape(job, op, p);
    hide JobStep, Objection, Allowed, NextPhase;
    match op
    case Admit | Lease | Dispatch | Start | Evidence | Continue | Checkpoint | Crash =>
    case Recover | Failure | Retry | Block | Commit =>
    case QualityAccept | QualityReject | QualityUnknown | RequestCompletion =>
    case Alternative =>
    case RepairEscalate =>
    case GuidanceDecide =>
    case UiDecide =>
    case UnknownOperation =>
  }

  lemma StepKeepsRepair(job: JobState, op: Operation, p: Payload)
    requires JobStep(job, op, p).Ok?
    ensures JobStep(job, op, p).value.repairRequired == OrElse(RepairDemanded(Act(op, p)), job.repairRequired)
  {
    StepShape(job, op, p);
    hide JobStep, Objection, Allowed, NextPhase;
    match op
    case Admit | Lease | Dispatch | Start | Evidence | Continue | Checkpoint | Crash =>
    case Recover | Failure | Retry | Block | Commit =>
    case QualityAccept | QualityReject | QualityUnknown | RequestCompletion =>
    case Alternative =>
    case RepairEscalate =>
    case GuidanceDecide =>
    case UiDecide =>
    case UnknownOperation =>
  }

  lemma StepKeepsVerdict(job: JobState, op: Operation, p: Payload)
    requires JobStep(job, op, p).Ok?
    ensures JobStep(job, op, p).value.quality == OrElse(VerdictGiven(Act(op, p)), job.quality)
  {
    StepShape(job, op, p);
    hide JobStep, Allowed, NextPhase;
    match op
    case Admit | Lease | Dispatch | Start | Evidence | Continue | Alternative | Checkpoint | Crash =>
    case Recover | Failure | Retry | Block | Commit =>
    case QualityAccept | QualityReject | QualityUnknown | GuidanceDecide | RequestCompletion | RepairEscalate | UiDecide =>
    case UnknownOperation =>
  }

  lemma StepKeepsCommit(job: JobState, op: Operation, p: Payload)
    requires JobStep(job, op, p).Ok? && (job.terminalCommit <==> job.phase.Completed?)
    ensures JobStep(job, op, p).value.terminalCommit <==> JobStep(job, op, p).value.phase.Completed?
  {
    StepShape(job, op, p);
    hide JobStep, Objection;
    match op
    case Admit | Lease | Dispatch | Start | Evidence | Continue | Alternative | Checkpoint | Crash =>
    case Recover | Failure | Retry | Block | Commit =>
    case QualityAccept | QualityReject | QualityUnknown | GuidanceDecide | RequestCompletion | RepairEscalate | UiDecide =>
    case UnknownOperation =>
  }

  lemma {:induction false} GatesFollowHistory(jobId: string, h: seq<Act>)
    requires Legal(jobId, h)
    ensures KeepsGates(After(jobId, h).value, h)
  {
    hide JobStep, GuidanceSaid, ChangeOpened, UserDemanded, RepairDemanded;
    if h != [] {
      var n := |h| - 1;
      GatesFollowHistory(jobId, h[..n]);
      StepKeepsGuidance(After(jobId, h[..n]).value, h[n].op, h[n].payload);
      StepKeepsChange(After(jobId, h[..n]).value, h[n].op, h[n].payload);
      StepKeepsDemand(After(jobId, h[..n]).value, h[n].op, h[n].payload);
      StepKeepsRepair(After(jobId, h[..n]).value, h[n].op, h[n].payload);
    }
  }

  lemma {:induction false} RecordsFollowHistory(jobId: string, h: seq<Act>)
    requires Legal(jobId, h)
    ensures var job := After(jobId, h).value;
            job.jobId == jobId && Keeps(job, h) && (job.terminalCommit <==> job.phase.Completed?)
  {
    hide JobStep, LeaseGiven, CheckpointTaken, EvidenceShown, VerdictGiven, UserSaid;
    if h != [] {
      var n := |h| - 1;
      RecordsFollowHistory(jobId, h[..n]);
      StepKeeps(After(jobId, h[..n]).value, h[n].op, h[n].payload);
      StepKeepsVerdict(After(jobId, h[..n]).value, h[n].op, h[n].payload);
      StepKeepsCommit(After(jobId, h[..n]).value, h[n].op, h[n].payload);
    }
  }

  /**
   A job holds the lease it was last given, its last checkpoint, its last evidence, the last
   verdict, what guidance and the user last said and whether a change, a user decision or a
   repair is still open, counts its recoveries and retries, and has a terminal commit exactly
   when it is completed.
  */
  lemma FieldsFollowHistory(jobId: string, h: seq<Act>)
    requires Legal(jobId, h)
    ensures var job := After(jobId, h).value;
            job.jobId == jobId && Keeps(job, h) && KeepsGates(job, h) && (job.terminalCommit <==> job.phase.Completed?)
  {
    hide After, Keeps, KeepsGates;
    RecordsFollowHistory(jobId, h);
    GatesFollowHistory(jobId, h);
  }

  /** Accepted recoveries present the last checkpoint, and accepted quality verdicts the last evidence. */
  lemma GatesPresentTheLatest(jobId: string, h: seq<Act>)
    requires h != [] && Legal(jobId, h)
    ensures h[|h| - 1].op.Recover? ==>
              h[|h| - 1].payload.RecoverPayload?
              && LastOf(h[..|h| - 1], CheckpointTaken) == Some(h[|h| - 1].payload.checkpointDigest)
    ensures h[|h| - 1].op.QualityAccept? ==>
              h[|h| - 1].payload.VerdictPayload?
              && LastOf(h[..|h| - 1], EvidenceShown) == Some(h[|h| - 1].payload.evidenceDigest)
  {
    hide Malformed, Digests;
    FieldsFollowHistory(jobId, h[..|h| - 1]);
  }
}
