/**
 The rules of the interaction model, operation by operation: who may offer it, what it must
 present, in which phase, and where it leads. An action is accepted exactly by these rules, so
 every gate of a completed job was passed by the authority that owns it.
*/
module AuthorityRules {
  import opened Identifiers
  import opened Results
  import opened Texts
  import opened AuthorityModel
  import opened AuthoritySafety
  import opened AuthorityHistory
  import opened AuthorityRuns

  /** Admission, lease, recovery and commit are the coordinator's, each decision its authority's, the rest the runtime's. */
  predicate Owns(who: Authority, op: Operation) {
    match who
    case Awc => op == Admit || op == Lease || op == Recover || op == Commit
    case Awq => op == QualityAccept || op == QualityReject || op == QualityUnknown
    case Awg => op == GuidanceDecide
    case Ui => op == UiDecide
    case Awr =>
      || op == Dispatch || op == Start || op == Evidence || op == Continue || op == Alternative || op == Checkpoint
      || op == Crash || op == Failure || op == Retry || op == Block || op == RequestCompletion || op == RepairEscalate
    case NoAuthority | OtherAuthority(_) => false
  }

  predicate GatesPassed(job: JobState) {
    job.quality == Accepted && !job.materialAlternative && job.guidance != Pending && job.ui != Pending
  }

  /** What the operation demands of the job and of what it presents. */
  predicate Demands(job: JobState, op: Operation, p: Payload) {
    match op
    case Admit => p.AdmitPayload? && IsDigest(p.admissionDigest) && job.phase == New && p.admitted && p.revision == job.revision
    case Lease =>
      p.LeasePayload? && IsDigest(p.leaseDigest) && job.phase == Admitted && "LSE-" <= p.newLeaseId && p.newLeaseId != job.leaseId
    case Dispatch => p.DispatchPayload? && IsDigest(p.admissionDigest) && IsDigest(p.dispatchDigest) && job.phase == Leased
    case Start => p.StartPayload? && IsDigest(p.startDigest) && job.phase == Dispatched
    case Evidence => p.EvidencePayload? && IsDigest(p.evidenceDigest) && job.phase == Executing
    case QualityAccept =>
      && p.VerdictPayload? && IsDigest(p.evidenceDigest) && job.phase == QualityPending
      && p.result == Accepted && p.source == Awq && job.evidence == Some(p.evidenceDigest)
    case QualityReject | QualityUnknown =>
      && p.VerdictPayload? && IsDigest(p.evidenceDigest) && job.phase == QualityPending
      && (p.result == Rejected || p.result == Unknown) && p.source == Awq
    case Alternative =>
      && p.AlternativePayload? && IsDigest(p.alternativeDigest) && job.phase == QualityAccepted
      && p.changeKind in {Ordinary, Refinement, TestChange, SpecificationChange, RepairEscalation}
    case RepairEscalate =>
      && p.RepairPayload? && IsDigest(p.repairDigest) && (job.phase == Executing || job.phase == QualityAccepted)
      && p.reason == "bounded_repair_exhausted" && p.boundedAttempts >= 1
    case GuidanceDecide =>
      && p.GuidancePayload? && IsDigest(p.guidanceDigest) && (job.phase == OraclePending || job.phase == RepairPending)
      && p.source == Awg
      && (p.decision == RequiresUi || (!job.userDecisionRequired && (p.decision == Approved || p.decision == Rejected)))
    case UiDecide =>
      && p.UiPayload? && job.phase == UiPending && p.source == Ui
      && (|| (p.outcome == Approved && p.decision == Approved && p.uiDigest.Some? && IsDigest(p.uiDigest.value))
          || (p.outcome in {Rejected, Ambiguous, Expired} && p.decision == Unresolved && p.uiDigest == None))
    case Continue => p.GatePayload? && IsDigest(p.qualityDigest) && job.phase == QualityAccepted && GatesPassed(job)
    case RequestCompletion =>
      p.GatePayload? && IsDigest(p.qualityDigest) && (job.phase == QualityAccepted || job.phase == Executing) && GatesPassed(job)
    case Commit => p.CommitPayload? && IsDigest(p.commitDigest) && job.phase == CompletionPending && p.terminal
    case Checkpoint => p.CheckpointPayload? && IsDigest(p.checkpointDigest) && job.phase == Executing
    case Crash => p.CrashPayload? && IsDigest(p.checkpointDigest) && job.phase == Executing
    case Recover =>
      && p.RecoverPayload? && IsDigest(p.checkpointDigest) && job.phase == Recovering
      && job.checkpoint == Some(p.checkpointDigest) && p.newRevision == job.revision + 1
    case Failure => p.FailurePayload? && IsDigest(p.failureDigest) && job.phase == Executing
    case Retry => p.RetryPayload? && IsDigest(p.failureDigest) && job.phase == Blocked && job.leaseId != ""
    case Block =>
      && p.BlockPayload? && IsDigest(p.reasonDigest) && job.phase != Completed && job.phase != Blocked
      && p.disposition in {Held, Pending, Unknown}
    case UnknownOperation => false
  }

  /** Where an accepted operation leads: decided by the operation, and by its decision if it takes one. */
  function Destination(op: Operation, p: Payload): Phase {
    match op
    case Admit => Admitted
    case Lease | Recover => Leased
    case Dispatch => Dispatched
    case Start | Continue | Checkpoint | Retry => Executing
    case Evidence => QualityPending
    case QualityAccept => QualityAccepted
    case Alternative => OraclePending
    case RepairEscalate => RepairPending
    case GuidanceDecide =>
      if p.GuidancePayload? && p.decision == Approved then QualityAccepted
      else if p.GuidancePayload? && p.decision == RequiresUi then UiPending else Blocked
    case UiDecide => if p.UiPayload? && p.outcome == Approved then QualityAccepted else Blocked
    case RequestCompletion => CompletionPending
    case Commit => Completed
    case Crash => Recovering
    case QualityReject | QualityUnknown | Failure | Block | UnknownOperation => Blocked
  }

  lemma DigestsOfOne(p: Payload)
    ensures Malformed(p) <==>
              match p
              case DispatchPayload(a, d) => !IsDigest(a) || !IsDigest(d)
              case UiPayload(d, _, _, _) => d.Some? && !IsDigest(d.value)
              case OtherPayload => false
              case _ => |Digests(p)| == 1 && !IsDigest(Digests(p)[0])
  {
    hide IsDigest;
    if p.DispatchPayload? {
      assert Digests(p)[0] == p.admissionDigest && Digests(p)[1] == p.dispatchDigest;
    }
  }

  lemma EntryStepsExactlyWhen(job: JobState, op: Operation, p: Payload)
    requires op.Admit? || op.Lease? || op.Dispatch? || op.Start? || op.Evidence? || op.Commit? || op.Checkpoint?
    ensures JobStep(job, op, p).Ok? <==> Demands(job, op, p)
  {
    hide IsDigest, Malformed;
    DigestsOfOne(p);
  }

  lemma DecisionStepsExactlyWhen(job: JobState, op: Operation, p: Payload)
    requires op.QualityAccept? || op.QualityReject? || op.QualityUnknown? || op.GuidanceDecide? || op.UiDecide?
    ensures JobStep(job, op, p).Ok? <==> Demands(job, op, p)
  {
    hide IsDigest, Malformed;
    DigestsOfOne(p);
  }

  lemma OtherStepsExactlyWhen(job: JobState, op: Operation, p: Payload)
    requires op.Alternative? || op.RepairEscalate? || op.Continue? || op.RequestCompletion? || op.Crash? || op.Recover?
             || op.Failure? || op.Retry? || op.Block? || op.UnknownOperation?
    ensures JobStep(job, op, p).Ok? <==> Demands(job, op, p)
  {
    hide IsDigest, Malformed;
    DigestsOfOne(p);
  }

  /** A step is accepted exactly when its operation's demands are met. */
  lemma StepsExactlyWhen(job: JobState, op: Operation, p: Payload)
    ensures JobStep(job, op, p).Ok? <==> Demands(job, op, p)
  {
    hide JobStep, Demands;
    match op
    case Admit | Lease | Dispatch | Start | Evidence | Commit | Checkpoint => EntryStepsExactlyWhen(job, op, p);
    case QualityAccept | QualityReject | QualityUnknown | GuidanceDecide | UiDecide => DecisionStepsExactlyWhen(job, op, p);
    case _ => OtherStepsExactlyWhen(job, op, p);
  }

  /** And then leads where the operation does. */
  lemma StepLeadsTo(job: JobState, op: Operation, p: Payload)
    requires Sound(job) && JobStep(job, op, p).Ok?
    ensures JobStep(job, op, p).value.phase == Destination(op, p)
  {
    StepShape(job, op, p);
    hide JobStep;
    match op
    case Admit | Lease | Dispatch | Start | Evidence | Continue | Alternative | Checkpoint | Crash =>
    case Recover | Failure | Retry | Block | Commit =>
    case QualityAccept | QualityReject | QualityUnknown | GuidanceDecide | RequestCompletion | RepairEscalate | UiDecide =>
    case UnknownOperation =>
  }

  /**
   In any run an action is accepted exactly when its id is new, its job is registered, it carries the
   job's revision and lease, it comes from the operation's owner, no text of it is private, and the
   operation's demands are met; the job then is where the operation leads.
  */
  lemma AcceptedExactlyByTheRules(inputs: seq<Input>, a: Action)
    ensures var m := Run(inputs);
            && (Applied(m, a).Ok? <==>
                  && a.actionId !in m.eventIds && a.jobId in m.jobs
                  && a.taskRevision == m.jobs[a.jobId].revision && a.leaseId == m.jobs[a.jobId].leaseId
                  && Owns(a.authority, a.operation) && !PrivateAction(a)
                  && Demands(m.jobs[a.jobId], a.operation, a.payload))
            && (Applied(m, a).Ok? ==>
                  Applied(m, a).value.jobs[a.jobId].phase == Destination(a.operation, a.payload))
  {
    hide JobStep, Demands, PrivateAction, Run;
    var m := Run(inputs);
    OwnerIsTheAuthority(a);
    if a.jobId in m.jobs {
      var job := m.jobs[a.jobId];
      StepsExactlyWhen(job, a.operation, a.payload);
      FittingIfDemanded(job, a.operation, a.payload);
      JobFollowsHistory(inputs, a.jobId);
      CompletionChecksAlwaysHold(a.jobId, History(inputs, a.jobId));
      if Applied(m, a).Ok? {
        StepLeadsTo(job, a.operation, a.payload);
      }
    }
  }

  lemma OwnerIsTheAuthority(a: Action)
    ensures a.operation.UnknownOperation? || (Owns(a.authority, a.operation) <==> a.authority == AuthorityOf(a.operation))
    ensures a.operation.UnknownOperation? ==> !Owns(a.authority, a.operation) && AuthorityOf(a.operation) == NoAuthority
  {
  }

  lemma FittingIfDemanded(job: JobState, op: Operation, p: Payload)
    ensures Demands(job, op, p) ==> PayloadFits(op, p)
    ensures op.UnknownOperation? ==> !PayloadFits(op, p)
  {
    hide IsDigest;
  }

  /** Only an action that is not its owner's is refused as such; an unknown operation has no owner. */
  lemma MismatchExactlyWhenNotOwned(m: Model, a: Action)
    ensures Applied(m, a) == Err(AuthorityMismatch) <==>
              && a.actionId !in m.eventIds && a.jobId in m.jobs && a.taskRevision == m.jobs[a.jobId].revision
              && !Owns(a.authority, a.operation) && !(a.operation == UnknownOperation && a.authority == NoAuthority)
  {
    hide PrivateAction, PayloadFits, Malformed, Allowed, Recorded, NextPhase, GatesOpen;
    OwnerIsTheAuthority(a);
  }

  /** The reasons an operation's own checks give. */
  function ReasonsOf(op: Operation): set<Rejection> {
    match op
    case Admit => {MissingAdmission}
    case Lease => {InvalidLease}
    case Dispatch => {DispatchWithoutLease}
    case QualityAccept => {InvalidAcceptance}
    case QualityReject | QualityUnknown => {InvalidVerdict}
    case GuidanceDecide => {InvalidGuidance, MustRouteToUi}
    case UiDecide => {InvalidUiOutcome, ApprovalLacksDecision, UnresolvedCannotApprove}
    case Continue => {ContinueWithoutGates}
    case RequestCompletion => {CompletionWithoutGates}
    case Commit => {CompletionWithoutCommit}
    case Recover => {RevisionMustAdvance, CheckpointMismatch}
    case Block => {InvalidDisposition}
    case Alternative => {InvalidChangeKind}
    case RepairEscalate => {UnboundedRepair}
    case Retry => {RetryWithoutLease}
    case _ => {}
  }

  /**
   A refused step says why: fields, digests, then the operation's own check; and a step that passes these is
   refused as an invalid transition, or for its checkpoint.
  */
  lemma StepRefusals(job: JobState, op: Operation, p: Payload)
    requires JobStep(job, op, p).Err?
    ensures var error := JobStep(job, op, p).error;
            && (error == IncompleteFields <==> !PayloadFits(op, p))
            && (error == MalformedDigest <==> PayloadFits(op, p) && Malformed(p))
            && (error !in {IncompleteFields, MalformedDigest} ==> error == InvalidTransition || error in ReasonsOf(op))
            && (error == MustRouteToUi ==> job.userDecisionRequired && p.decision in {Approved, Rejected})
            && (error == InvalidGuidance ==> p.source != Awg || p.decision !in {Approved, Rejected, RequiresUi})
            && (error == InvalidUiOutcome ==> p.source != Ui || p.outcome !in {Approved, Rejected, Ambiguous, Expired})
            && (error == ApprovalLacksDecision ==> p.outcome == Approved)
            && (error == UnresolvedCannotApprove ==> p.outcome != Approved)
            && (error == CheckpointMismatch ==> job.phase == Recovering && Some(p.checkpointDigest) != job.checkpoint)
            && (error == RevisionMustAdvance ==> p.newRevision != job.revision + 1)
  {
    hide Malformed;
  }

  /** In some phase the job could take the step. */
  ghost predicate OnlyThePhaseForbids(job: JobState, op: Operation, p: Payload) {
    exists phase :: Demands(job.(phase := phase), op, p)
  }

  /** What the refused step says, if its payload is well formed. */
  ghost predicate RefusedForPhaseOrReason(job: JobState, op: Operation, p: Payload, error: Rejection)
    requires PayloadFits(op, p)
  {
    && (OnlyThePhaseForbids(job, op, p) ==>
          error == match op case Dispatch => DispatchWithoutLease case Commit => CompletionWithoutCommit
                            case _ => InvalidTransition)
    && (!OnlyThePhaseForbids(job, op, p) && !op.Recover? ==> error in ReasonsOf(op))
    && (op.Recover? && p.newRevision != job.revision + 1 ==> error == RevisionMustAdvance)
    && (op.Recover? && p.newRevision == job.revision + 1 ==>
          error == if job.phase == Recovering then CheckpointMismatch else InvalidTransition)
  }

  lemma DecisionRefusals(job: JobState, op: Operation, p: Payload)
    requires op.QualityAccept? || op.QualityReject? || op.QualityUnknown? || op.GuidanceDecide? || op.UiDecide?
    requires JobStep(job, op, p).Err? && PayloadFits(op, p) && !Malformed(p)
    ensures RefusedForPhaseOrReason(job, op, p, JobStep(job, op, p).error)
  {
    hide IsDigest, Malformed, OnlyThePhaseForbids;
    DigestsOfOne(p);
    PhaseThatAllows(job, op, p);
  }

  lemma OtherRefusals(job: JobState, op: Operation, p: Payload)
    requires !(op.QualityAccept? || op.QualityReject? || op.QualityUnknown? || op.GuidanceDecide? || op.UiDecide?)
    requires JobStep(job, op, p).Err? && PayloadFits(op, p) && !Malformed(p)
    ensures RefusedForPhaseOrReason(job, op, p, JobStep(job, op, p).error)
  {
    hide IsDigest, Malformed, OnlyThePhaseForbids;
    DigestsOfOne(p);
    PhaseThatAllows(job, op, p);
  }

  /**
   What only its phase forbids is an invalid transition, but a dispatch and a commit have their own reason;
   anything else well formed is refused for its operation's reason.
  */
  lemma PhaseRefusals(job: JobState, op: Operation, p: Payload)
    requires JobStep(job, op, p).Err? && PayloadFits(op, p) && !Malformed(p)
    ensures RefusedForPhaseOrReason(job, op, p, JobStep(job, op, p).error)
  {
    hide JobStep, RefusedForPhaseOrReason;
    match op
    case QualityAccept | QualityReject | QualityUnknown | GuidanceDecide | UiDecide => DecisionRefusals(job, op, p);
    case _ => OtherRefusals(job, op, p);
  }

  /** A phase that allows the operation, if any does. */
  function EntryPhase(op: Operation): Phase {
    match op
    case Admit => New
    case Lease => Admitted
    case Dispatch => Leased
    case Start => Dispatched
    case Evidence | Checkpoint | Crash | Failure | Block => Executing
    case QualityAccept | QualityReject | QualityUnknown => QualityPending
    case Alternative | RepairEscalate | Continue | RequestCompletion => QualityAccepted
    case GuidanceDecide => OraclePending
    case UiDecide => UiPending
    case Commit => CompletionPending
    case Recover => Recovering
    case Retry | UnknownOperation => Blocked
  }

  lemma PhaseThatAllows(job: JobState, op: Operation, p: Payload)
    ensures OnlyThePhaseForbids(job, op, p) <==> Demands(job.(phase := EntryPhase(op)), op, p)
  {
    hide IsDigest;
  }

  /** A change demands the user exactly if it refines, changes a test or the specification, or escalates a repair. */
  lemma ChangesThatDemandTheUser(job: JobState, op: Operation, p: Payload)
    requires JobStep(job, op, p).Ok? && (op == Alternative || op == RepairEscalate)
    ensures JobStep(job, op, p).value.userDecisionRequired <==> DemandsUser(Act(op, p))
    ensures DemandsUser(Act(op, p)) <==>
              op == RepairEscalate || p.changeKind in {Refinement, TestChange, SpecificationChange, RepairEscalation}
  {
    StepShape(job, op, p);
    hide JobStep;
  }

  /** A job is registered exactly under a new name of the right form, and starts with nothing but its name and revision one. */
  lemma RegisteredExactlyWhen(m: Model, jobId: string)
    ensures var r := Joined(m, jobId);
            && (r.Ok? <==> "JOB-" <= jobId && jobId !in m.jobs)
            && (r.Err? ==> r == Err(InvalidJob))
            && (r.Ok? ==>
                  && r.value.eventIds == m.eventIds && r.value.jobs.Keys == m.jobs.Keys + {jobId}
                  && (forall id | id in m.jobs :: r.value.jobs[id] == m.jobs[id])
                  && r.value.jobs[jobId]
                     == JobState(jobId, 1, New, "", None, None, NotDecided, NotRequired, NotRequired,
                                 false, false, false, false, 0))
  {
  }

  /** The checks before the step, in order. */
  lemma FenceRefusals(m: Model, a: Action)
    ensures Applied(m, a) == Err(ReplayedAction) <==> a.actionId in m.eventIds
    ensures Applied(m, a) == Err(UnknownJob) <==> a.actionId !in m.eventIds && a.jobId !in m.jobs
    ensures Applied(m, a) == Err(StaleRevision) <==>
              a.actionId !in m.eventIds && a.jobId in m.jobs && a.taskRevision != m.jobs[a.jobId].revision
    ensures a.actionId !in m.eventIds && a.jobId in m.jobs && a.taskRevision == m.jobs[a.jobId].revision
            && Owns(a.authority, a.operation) && PayloadFits(a.operation, a.payload) ==>
              var job := m.jobs[a.jobId];
              var entering := a.operation == Admit || a.operation == Lease;
              && (Applied(m, a) == Err(PreLeaseFenceMismatch) <==> a.leaseId != job.leaseId && entering)
              && (Applied(m, a) == Err(LeaseFenceMismatch) <==> a.leaseId != job.leaseId && !entering)
              && (Applied(m, a) == Err(PrivacyBearing) <==> a.leaseId == job.leaseId && PrivateAction(a))
  {
    hide PrivateAction, Malformed, Allowed, Recorded, NextPhase, GatesOpen, PayloadFits;
    OwnerIsTheAuthority(a);
  }

  /** The texts of an action that may be anything. */
  ghost predicate Carries(a: Action, t: string) {
    t == a.actionId || t == a.jobId || t == a.leaseId || PayloadCarries(a.payload, t)
  }

  ghost predicate PayloadCarries(p: Payload, t: string) {
    match p
    case AdmitPayload(_, _, d) => t == d
    case LeasePayload(id, d) => t == id || t == d
    case DispatchPayload(x, d) => t == x || t == d
    case VerdictPayload(d, result, source) => t == d || result == OtherWord(t) || source == OtherAuthority(t)
    case AlternativePayload(d, reason, kind) => t == d || t == reason || kind == OtherKind(t)
    case GuidancePayload(d, decision, source) => t == d || decision == OtherWord(t) || source == OtherAuthority(t)
    case UiPayload(d, decision, outcome, source) =>
      d == Some(t) || decision == OtherWord(t) || outcome == OtherWord(t) || source == OtherAuthority(t)
    case CrashPayload(d, reason) => t == d || t == reason
    case RecoverPayload(d, id, _) => t == d || t == id
    case BlockPayload(disposition, d) => t == d || disposition == OtherWord(t)
    case RepairPayload(d, reason, _) => t == d || t == reason
    case StartPayload(d) => t == d
    case EvidencePayload(d) => t == d
    case GatePayload(d) => t == d
    case CheckpointPayload(d) => t == d
    case FailurePayload(d, _) => t == d
    case RetryPayload(d, _) => t == d
    case CommitPayload(d, _) => t == d
    case OtherPayload => false
  }

  /** An action is private exactly when a text of it, lower-cased, contains one of ten words. */
  lemma PrivateExactlyWhenAWordOccurs(a: Action)
    ensures PrivateAction(a) <==>
              exists t, w | Carries(a, t) && w in {"credential", "password", "secret", "token", "prompt", "transcript",
                                                  "private_path", "host_identifier", "raw_output", "llm"} ::
                Occurs(w, Lower(t))
  {
    hide Occurs, Lower;
    forall t ensures Carries(a, t) <==> t in [a.actionId, a.jobId, a.leaseId] + PayloadTexts(a.payload) {
      CarriedTexts(a, t);
    }
    forall w
      ensures w in PRIVATE_WORDS <==>
                w in {"credential", "password", "secret", "token", "prompt", "transcript",
                      "private_path", "host_identifier", "raw_output", "llm"}
    {
      PrivateWords(w);
    }
  }

  lemma PrivateWords(w: string)
    ensures w in PRIVATE_WORDS <==>
              w in {"credential", "password", "secret", "token", "prompt", "transcript",
                    "private_path", "host_identifier", "raw_output", "llm"}
  {
  }

  predicate TakesADecision(p: Payload) {
    p.VerdictPayload? || p.GuidancePayload? || p.UiPayload? || p.BlockPayload?
  }

  lemma DecisionTexts(p: Payload, t: string)
    requires TakesADecision(p)
    ensures PayloadCarries(p, t) <==> t in PayloadTexts(p)
  {
  }

  lemma OtherTexts(p: Payload, t: string)
    requires !TakesADecision(p)
    ensures PayloadCarries(p, t) <==> t in PayloadTexts(p)
  {
  }

  lemma CarriedTexts(a: Action, t: string)
    ensures Carries(a, t) <==> t in [a.actionId, a.jobId, a.leaseId] + PayloadTexts(a.payload)
  {
    hide PayloadCarries, PayloadTexts;
    if TakesADecision(a.payload) {
      DecisionTexts(a.payload, t);
    } else {
      OtherTexts(a.payload, t);
    }
  }

  // Who passed the gates

  /** The actions of one job that the run accepted. */
  function Offers(inputs: seq<Input>, id: string): seq<Action> {
    if inputs == [] then [] else
    var before, last := inputs[..|inputs| - 1], inputs[|inputs| - 1];
    if last.Offer? && last.action.jobId == id && Applied(Run(before), last.action).Ok?
    then Offers(before, id) + [last.action] else Offers(before, id)
  }

  /** The actions make up the history, and each came from the owner of its operation. */
  ghost predicate OwnedOffers(offers: seq<Action>, h: seq<Act>) {
    && |offers| == |h|
    && forall i | 0 <= i < |h| ::
         h[i] == Act(offers[i].operation, offers[i].payload) && Owns(offers[i].authority, offers[i].operation)
  }

  lemma {:induction false} OffersAreOwned(inputs: seq<Input>, id: string)
    ensures OwnedOffers(Offers(inputs, id), History(inputs, id))
  {
    hide Applied, Owns, Run;
    if inputs != [] {
      var before, last := inputs[..|inputs| - 1], inputs[|inputs| - 1];
      OffersAreOwned(before, id);
      if last.Offer? {
        AcceptedExactlyByTheRules(before, last.action);
      }
    }
  }

  /** The i-th action was this operation, offered by this authority. */
  ghost predicate OfferedBy(offers: seq<Action>, i: int, op: Operation, who: Authority) {
    0 <= i < |offers| && offers[i].operation == op && offers[i].authority == who
  }

  /** The coordinator admitted and then leased the job, and committed it at the end. */
  ghost predicate EnteredAndCommitted(offers: seq<Action>) {
    && (exists i, j :: i < j && OfferedBy(offers, i, Admit, Awc) && OfferedBy(offers, j, Lease, Awc))
    && OfferedBy(offers, |offers| - 1, Commit, Awc)
  }

  /** The last word of the quality authority was an acceptance. */
  ghost predicate AcceptedByQuality(offers: seq<Action>) {
    exists i :: OfferedBy(offers, i, QualityAccept, Awq) && forall j :: i < j < |offers| ==> offers[j].authority != Awq
  }

  /** Guidance decided the change in the next step, and the user after that if the change demanded it. */
  ghost predicate SettledByOwners(offers: seq<Action>, c: int) {
    && 0 <= c < |offers| && OfferedBy(offers, c + 1, GuidanceDecide, Awg)
    && (DemandsUser(Act(offers[c].operation, offers[c].payload)) ==> OfferedBy(offers, c + 2, UiDecide, Ui))
  }

  lemma SameLength(offers: seq<Action>, h: seq<Act>)
    requires OwnedOffers(offers, h)
    ensures |offers| == |h|
  {
  }

  lemma CoordinatorOffered(offers: seq<Action>, h: seq<Act>, i: int)
    requires OwnedOffers(offers, h) && 0 <= i < |h|
    ensures h[i].op.Admit? || h[i].op.Lease? || h[i].op.Commit? ==> OfferedBy(offers, i, h[i].op, Awc)
  {
  }

  lemma EntryWasOwned(offers: seq<Action>, h: seq<Act>)
    requires OwnedOffers(offers, h) && AdmittedThenLeased(h) && h[|h| - 1].op.Commit?
    ensures EnteredAndCommitted(offers)
  {
    hide OwnedOffers, OfferedBy;
    var i, j :| 0 <= i < j < |h| && h[i].op.Admit? && h[j].op.Lease?;
    CoordinatorOffered(offers, h, i);
    CoordinatorOffered(offers, h, j);
    CoordinatorOffered(offers, h, |h| - 1);
    assert OfferedBy(offers, i, Admit, Awc) && OfferedBy(offers, j, Lease, Awc);
    assert |offers| == |h| by { SameLength(offers, h); }
  }

  lemma AcceptanceWasOwned(offers: seq<Action>, h: seq<Act>)
    requires OwnedOffers(offers, h) && LastVerdictAccepts(h)
    ensures AcceptedByQuality(offers)
  {
    var v :| 0 <= v < |h| && h[v].op.QualityAccept? && forall k :: v < k < |h| ==> !IsVerdict(h[k]);
    assert OfferedBy(offers, v, QualityAccept, Awq);
    forall k | v < k < |offers| ensures offers[k].authority != Awq {
      assert !IsVerdict(h[k]);
    }
  }

  lemma SettlementWasOwned(offers: seq<Action>, h: seq<Act>, c: int)
    requires OwnedOffers(offers, h) && Settled(h, c)
    ensures SettledByOwners(offers, c)
  {
  }

  /** A completed job's gates were each passed by the authority that owns them. */
  lemma GatesWerePassedByTheirOwners(inputs: seq<Input>, id: string)
    requires id in Run(inputs).jobs && Run(inputs).jobs[id].phase == Completed
    ensures var offers := Offers(inputs, id);
            && EnteredAndCommitted(offers) && AcceptedByQuality(offers)
            && forall c :: LastChangeAt(History(inputs, id), c) ==> SettledByOwners(offers, c)
  {
    hide Run, History, Offers, OwnedOffers, EnteredAndCommitted, AcceptedByQuality, SettledByOwners, Settled, LastChangeAt;
    hide AdmittedThenLeased, LastVerdictAccepts;
    var offers, h := Offers(inputs, id), History(inputs, id);
    OffersAreOwned(inputs, id);
    EveryRunIsGated(inputs, id);
    EntryWasOwned(offers, h);
    AcceptanceWasOwned(offers, h);
    forall c | LastChangeAt(h, c) ensures SettledByOwners(offers, c) {
      SettlementWasOwned(offers, h, c);
    }
  }
}
