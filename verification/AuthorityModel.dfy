/**
 The offline model of the mandatory authority gates: jobs move through admission,
 lease, execution, evidence, quality, guidance, user decision and commit, and every
 step is an action offered by one of five authorities.

 `JobStep` and `Applied` say what an action does; class `InteractionModel` is the
 object that carries it out, and its methods are proved against them.
*/
module AuthorityModel {
  import opened Identifiers
  import opened Results
  import opened Texts

  datatype Phase =
    | New | Admitted | Leased | Dispatched | Executing | QualityPending | QualityAccepted
    | OraclePending | RepairPending | UiPending | CompletionPending | Recovering
    | Completed | Blocked

  datatype Operation =
    | Admit | Lease | Recover | Commit | Dispatch | Start | Evidence | Continue
    | Alternative | Checkpoint | Crash | Failure | Retry | Block | QualityAccept
    | QualityReject | QualityUnknown | GuidanceDecide | RequestCompletion
    | RepairEscalate | UiDecide | UnknownOperation

  /** The five authorities; an unknown operation has none, and a payload may name another. */
  datatype Authority = Awc | Awr | Awq | Awg | Ui | NoAuthority | OtherAuthority(name: string)

  /** The vocabulary of results, decisions, outcomes, dispositions and gate statuses, and any other text. */
  datatype Word =
    | NotDecided | NotRequired | Pending | Accepted | Rejected | Unknown | RequiresUi
    | Approved | Ambiguous | Expired | Unresolved | Held | OtherWord(text: string)

  datatype ChangeKind =
    | Ordinary | Refinement | TestChange | SpecificationChange | RepairEscalation | OtherKind(kind: string)

  /** One constructor per set of payload fields; OtherPayload stands for every other set. */
  datatype Payload =
    | AdmitPayload(admitted: bool, revision: int, admissionDigest: string)
    | LeasePayload(newLeaseId: string, leaseDigest: string)
    | DispatchPayload(admissionDigest: string, dispatchDigest: string)
    | StartPayload(startDigest: string)
    | EvidencePayload(evidenceDigest: string)
    | VerdictPayload(evidenceDigest: string, result: Word, source: Authority)
    | AlternativePayload(alternativeDigest: string, reason: string, changeKind: ChangeKind)
    | GuidancePayload(guidanceDigest: string, decision: Word, source: Authority)
    | UiPayload(uiDigest: Option<string>, decision: Word, outcome: Word, source: Authority)
    | GatePayload(qualityDigest: string)
    | CheckpointPayload(checkpointDigest: string)
    | CrashPayload(checkpointDigest: string, reason: string)
    | RecoverPayload(checkpointDigest: string, newLeaseId: string, newRevision: int)
    | FailurePayload(failureDigest: string, retryable: bool)
    | RetryPayload(failureDigest: string, newAttempt: int)
    | BlockPayload(disposition: Word, reasonDigest: string)
    | RepairPayload(repairDigest: string, reason: string, boundedAttempts: int)
    | CommitPayload(commitDigest: string, terminal: bool)
    | OtherPayload

  datatype Action = Action(
    actionId: string, sequence: int, jobId: string, authority: Authority,
    operation: Operation, taskRevision: int, leaseId: string, payload: Payload)

  datatype JobState = JobState(
    jobId: string,
    revision: int,
    phase: Phase,
    leaseId: string,
    checkpoint: Option<string>,
    evidence: Option<string>,
    quality: Word,
    guidance: Word,
    ui: Word,
    materialAlternative: bool,
    userDecisionRequired: bool,
    repairRequired: bool,
    terminalCommit: bool,
    attempt: int)

  datatype Rejection =
    | ReplayedAction | UnknownJob | StaleRevision | AuthorityMismatch | IncompleteFields
    | LeaseFenceMismatch | PreLeaseFenceMismatch | PrivacyBearing | MalformedDigest
    | MissingAdmission | InvalidLease | DispatchWithoutLease | InvalidAcceptance
    | InvalidVerdict | InvalidGuidance | MustRouteToUi | InvalidUiOutcome
    | ApprovalLacksDecision | UnresolvedCannotApprove | ContinueWithoutGates
    | CompletionWithoutGates | CompletionWithoutCommit | RevisionMustAdvance
    | InvalidDisposition | InvalidChangeKind | UnboundedRepair | RetryWithoutLease
    | InvalidTransition | CheckpointMismatch | InvalidJob

  function NewJob(jobId: string): JobState {
    JobState(jobId, 1, New, "", None, None, NotDecided, NotRequired, NotRequired,
             false, false, false, false, 0)
  }

  function AuthorityOf(op: Operation): Authority {
    match op
    case Admit | Lease | Recover | Commit => Awc
    case QualityAccept | QualityReject | QualityUnknown => Awq
    case GuidanceDecide => Awg
    case UiDecide => Ui
    case UnknownOperation => NoAuthority
    case _ => Awr
  }

  /** The payload carries exactly the fields the operation prescribes. */
  predicate PayloadFits(op: Operation, payload: Payload) {
    match op
    case Admit => payload.AdmitPayload?
    case Lease => payload.LeasePayload?
    case Dispatch => payload.DispatchPayload?
    case Start => payload.StartPayload?
    case Evidence => payload.EvidencePayload?
    case QualityAccept | QualityReject | QualityUnknown => payload.VerdictPayload?
    case Alternative => payload.AlternativePayload?
    case GuidanceDecide => payload.GuidancePayload?
    case UiDecide => payload.UiPayload?
    case Continue | RequestCompletion => payload.GatePayload?
    case Checkpoint => payload.CheckpointPayload?
    case Crash => payload.CrashPayload?
    case Recover => payload.RecoverPayload?
    case Failure => payload.FailurePayload?
    case Retry => payload.RetryPayload?
    case Block => payload.BlockPayload?
    case RepairEscalate => payload.RepairPayload?
    case Commit => payload.CommitPayload?
    case UnknownOperation => false
  }

  /** The digests a payload carries; a missing user-decision digest is not one of them. */
  function Digests(payload: Payload): seq<string> {
    match payload
    case AdmitPayload(_, _, d) => [d]
    case LeasePayload(_, d) => [d]
    case DispatchPayload(a, d) => [a, d]
    case StartPayload(d) => [d]
    case EvidencePayload(d) => [d]
    case VerdictPayload(d, _, _) => [d]
    case AlternativePayload(d, _, _) => [d]
    case GuidancePayload(d, _, _) => [d]
    case UiPayload(d, _, _, _) => if d.Some? then [d.value] else []
    case GatePayload(d) => [d]
    case CheckpointPayload(d) => [d]
    case CrashPayload(d, _) => [d]
    case RecoverPayload(d, _, _) => [d]
    case FailurePayload(d, _) => [d]
    case RetryPayload(d, _) => [d]
    case BlockPayload(_, d) => [d]
    case RepairPayload(d, _, _) => [d]
    case CommitPayload(d, _) => [d]
    case OtherPayload => []
  }

  function WordTexts(word: Word): seq<string> {
    if word.OtherWord? then [word.text] else []
  }

  function SourceTexts(source: Authority): seq<string> {
    if source.OtherAuthority? then [source.name] else []
  }

  /** Every text a payload carries, but for field names and words of the vocabularies, none of which is private. */
  function PayloadTexts(payload: Payload): seq<string> {
    match payload
    case LeasePayload(id, d) => [id, d]
    case VerdictPayload(d, result, source) => [d] + WordTexts(result) + SourceTexts(source)
    case AlternativePayload(d, reason, kind) => [d, reason] + if kind.OtherKind? then [kind.kind] else []
    case GuidancePayload(d, decision, source) => [d] + WordTexts(decision) + SourceTexts(source)
    case UiPayload(_, decision, outcome, source) =>
      Digests(payload) + WordTexts(decision) + WordTexts(outcome) + SourceTexts(source)
    case CrashPayload(d, reason) => [d, reason]
    case RecoverPayload(d, id, _) => [d, id]
    case BlockPayload(disposition, d) => WordTexts(disposition) + [d]
    case RepairPayload(d, reason, _) => [d, reason]
    case _ => Digests(payload)
  }

  const PRIVATE_WORDS: seq<string> := [
    "credential", "password", "secret", "token", "prompt", "transcript",
    "private_path", "host_identifier", "raw_output", "llm"]

  /** A character that lower-cases to a plain letter: a capital, or the Kelvin sign. */
  predicate IsCapital(c: char) {
    'A' <= c <= 'Z' || c == '\U{212A}'
  }

  function LowerChar(c: char): char {
    if 'A' <= c <= 'Z' then (c as int + 32) as char else if c == '\U{212A}' then 'k' else c
  }

  /** Lower-casing, as far as the letters of the private words go. */
  function Lower(s: string): (t: string)
    ensures |t| == |s|
  {
    seq(|s|, i requires 0 <= i < |s| => LowerChar(s[i]))
  }

  predicate Private(text: string) {
    exists w | w in PRIVATE_WORDS :: Occurs(w, Lower(text))
  }

  predicate PrivateAction(a: Action) {
    exists t | t in [a.actionId, a.jobId, a.leaseId] + PayloadTexts(a.payload) :: Private(t)
  }

  predicate UserDecisionKind(kind: ChangeKind) {
    kind.Refinement? || kind.TestChange? || kind.SpecificationChange? || kind.RepairEscalation?
  }

  /** Why the payload is refused for this job, if it is. */
  function Refusal(job: JobState, op: Operation, p: Payload): Option<Rejection>
    requires PayloadFits(op, p)
  {
    if Malformed(p) then Some(MalformedDigest) else Objection(job, op, p)
  }

  predicate Malformed(p: Payload) {
    exists d | d in Digests(p) :: !IsDigest(d)
  }

  /** Why the payload is refused, digests aside. */
  function Objection(job: JobState, op: Operation, p: Payload): Option<Rejection>
    requires PayloadFits(op, p)
  {
    match op
    case Admit =>
      if !p.admitted || p.revision != job.revision then Some(MissingAdmission) else None
    case Lease =>
      if !("LSE-" <= p.newLeaseId) || p.newLeaseId == job.leaseId then Some(InvalidLease) else None
    case Dispatch =>
      if job.phase != Leased then Some(DispatchWithoutLease) else None
    case QualityAccept =>
      if p.result != Accepted || p.source != Awq || Some(p.evidenceDigest) != job.evidence
      then Some(InvalidAcceptance) else None
    case QualityReject | QualityUnknown =>
      if p.source != Awq || !(p.result.Rejected? || p.result.Unknown?) then Some(InvalidVerdict) else None
    case GuidanceDecide =>
      if p.source != Awg || !(p.decision.Approved? || p.decision.Rejected? || p.decision.RequiresUi?)
      then Some(InvalidGuidance)
      else if job.userDecisionRequired && p.decision != RequiresUi then Some(MustRouteToUi)
      else None
    case UiDecide =>
      if p.source != Ui || !(p.outcome.Approved? || p.outcome.Rejected? || p.outcome.Ambiguous? || p.outcome.Expired?)
      then Some(InvalidUiOutcome)
      else if p.outcome == Approved && (p.decision != Approved || p.uiDigest.None?) then Some(ApprovalLacksDecision)
      else if p.outcome != Approved && (p.decision != Unresolved || p.uiDigest.Some?) then Some(UnresolvedCannotApprove)
      else None
    case Continue =>
      if GatesOpen(job) then Some(ContinueWithoutGates) else None
    case RequestCompletion =>
      if GatesOpen(job) then Some(CompletionWithoutGates) else None
    case Commit =>
      if job.phase != CompletionPending || !p.terminal then Some(CompletionWithoutCommit) else None
    case Recover =>
      if p.newRevision != job.revision + 1 then Some(RevisionMustAdvance) else None
    case Block =>
      if !(p.disposition.Held? || p.disposition.Pending? || p.disposition.Unknown?) then Some(InvalidDisposition) else None
    case Alternative =>
      if p.changeKind.OtherKind? then Some(InvalidChangeKind) else None
    case RepairEscalate =>
      if p.reason != "bounded_repair_exhausted" || p.boundedAttempts < 1 then Some(UnboundedRepair) else None
    case Retry =>
      if job.leaseId == "" then Some(RetryWithoutLease) else None
    case _ => None
  }

  /** Some mandatory gate has not been passed yet. */
  predicate GatesOpen(job: JobState) {
    job.quality != Accepted || job.materialAlternative || job.guidance == Pending || job.ui == Pending
  }

  /** The lifecycle table. */
  function Allowed(phase: Phase, op: Operation): Option<Phase> {
    match op
    case Admit => if phase.New? then Some(Admitted) else None
    case Lease => if phase.Admitted? then Some(Leased) else None
    case Dispatch => if phase.Leased? then Some(Dispatched) else None
    case Start => if phase.Dispatched? then Some(Executing) else None
    case Evidence => if phase.Executing? then Some(QualityPending) else None
    case QualityAccept => if phase.QualityPending? then Some(QualityAccepted) else None
    case QualityReject | QualityUnknown => if phase.QualityPending? then Some(Blocked) else None
    case Alternative => if phase.QualityAccepted? then Some(OraclePending) else None
    case RepairEscalate => if phase.Executing? || phase.QualityAccepted? then Some(RepairPending) else None
    case GuidanceDecide =>
      if phase.OraclePending? then Some(QualityAccepted)
      else if phase.RepairPending? then Some(UiPending) else None
    case UiDecide => if phase.UiPending? then Some(QualityAccepted) else None
    case Continue => if phase.QualityAccepted? then Some(Executing) else None
    case RequestCompletion => if phase.QualityAccepted? || phase.Executing? then Some(CompletionPending) else None
    case Commit => if phase.CompletionPending? then Some(Completed) else None
    case Checkpoint => if phase.Executing? then Some(Executing) else None
    case Crash => if phase.Executing? then Some(Recovering) else None
    case Recover => if phase.Recovering? then Some(Leased) else None
    case Failure => if phase.Executing? then Some(Blocked) else None
    case Retry => if phase.Blocked? then Some(Executing) else None
    case Block => None
    case UnknownOperation => None
  }

  predicate Active(phase: Phase) {
    !phase.Completed? && !phase.Blocked?
  }

  /** The phase an allowed operation leads to. */
  function NextPhase(phase: Phase, op: Operation, p: Payload): Phase
    requires PayloadFits(op, p)
  {
    if op.UiDecide? && p.outcome != Approved then Blocked
    else if op.GuidanceDecide? && p.decision == Rejected then Blocked
    else if op.GuidanceDecide? && p.decision == RequiresUi then UiPending
    else if Allowed(phase, op).Some? then Allowed(phase, op).value else Blocked
  }

  /** The job's other fields after an allowed operation. */
  function Recorded(job: JobState, op: Operation, p: Payload): JobState
    requires PayloadFits(op, p)
  {
    match op
    case Lease => job.(leaseId := p.newLeaseId)
    case Evidence => job.(evidence := Some(p.evidenceDigest))
    case QualityAccept => job.(quality := Accepted)
    case QualityReject | QualityUnknown => job.(quality := p.result)
    case Alternative =>
      job.(materialAlternative := true, guidance := Pending,
           userDecisionRequired := UserDecisionKind(p.changeKind))
    case RepairEscalate =>
      job.(materialAlternative := true, guidance := Pending,
           userDecisionRequired := true, repairRequired := true)
    case GuidanceDecide =>
      if p.decision == RequiresUi then job.(guidance := RequiresUi, ui := Pending)
      else job.(materialAlternative := false, guidance := p.decision)
    case UiDecide =>
      if p.outcome == Approved then
        job.(ui := Approved, materialAlternative := false, guidance := Approved,
             userDecisionRequired := false, repairRequired := false)
      else job.(ui := p.outcome)
    case Checkpoint => job.(checkpoint := Some(p.checkpointDigest))
    case Recover => job.(revision := p.newRevision, leaseId := p.newLeaseId, attempt := job.attempt + 1)
    case Retry => job.(attempt := job.attempt + 1)
    case Commit => job.(terminalCommit := true)
    case _ => job
  }

  function Moved(job: JobState, op: Operation, p: Payload): Result<JobState, Rejection>
    requires PayloadFits(op, p)
  {
    if Allowed(job.phase, op).None? && !(op.Block? && Active(job.phase)) then Err(InvalidTransition)
    else if op.Recover? && Some(p.checkpointDigest) != job.checkpoint then Err(CheckpointMismatch)
    else Ok(Recorded(job, op, p).(phase := NextPhase(job.phase, op, p)))
  }

  /** What an operation does to a job, once authority and fences are in order. */
  function JobStep(job: JobState, op: Operation, p: Payload): Result<JobState, Rejection> {
    if !PayloadFits(op, p) then Err(IncompleteFields) else
    match Refusal(job, op, p)
    case Some(e) => Err(e)
    case None => Moved(job, op, p)
  }

  /** The part of an action's fate that its own job decides. */
  function JobApply(job: JobState, a: Action): Result<JobState, Rejection> {
    if a.taskRevision != job.revision then Err(StaleRevision)
    else if a.authority != AuthorityOf(a.operation) then Err(AuthorityMismatch)
    else if !PayloadFits(a.operation, a.payload) then Err(IncompleteFields)
    else if a.leaseId != job.leaseId then
      Err(if a.operation.Admit? || a.operation.Lease? then PreLeaseFenceMismatch else LeaseFenceMismatch)
    else if PrivateAction(a) then Err(PrivacyBearing)
    else JobStep(job, a.operation, a.payload)
  }

  datatype Model = Model(jobs: map<string, JobState>, eventIds: set<string>)

  function Applied(m: Model, a: Action): Result<Model, Rejection> {
    if a.actionId in m.eventIds then Err(ReplayedAction)
    else if a.jobId !in m.jobs then Err(UnknownJob)
    else match JobApply(m.jobs[a.jobId], a)
      case Err(e) => Err(e)
      case Ok(job) => Ok(Model(m.jobs[a.jobId := job], m.eventIds + {a.actionId}))
  }

  function Joined(m: Model, jobId: string): Result<Model, Rejection> {
    if !("JOB-" <= jobId) || jobId in m.jobs then Err(InvalidJob)
    else Ok(m.(jobs := m.jobs[jobId := NewJob(jobId)]))
  }

  /** The four safety checks of a job, in the order the source runs them. */
  datatype Check = NoLease | NoAcceptance | NoDecision | NoCommit

  predicate Working(phase: Phase) {
    match phase
    case New | Admitted | Leased | Recovering | Blocked => false
    case _ => true
  }

  predicate Reviewed(phase: Phase) {
    phase.QualityAccepted? || phase.OraclePending? || Completing(phase)
  }

  predicate Completing(phase: Phase) {
    phase.CompletionPending? || phase.Completed?
  }

  predicate Violates(job: JobState, check: Check) {
    match check
    case NoLease =>
      Working(job.phase)
      && (job.leaseId == "" || job.revision < 1)
    case NoAcceptance =>
      Reviewed(job.phase) && job.quality != Accepted
    case NoDecision =>
      Completing(job.phase) && (job.materialAlternative || job.ui == Pending)
    case NoCommit =>
      job.phase.Completed? && !job.terminalCommit
  }

  ghost predicate Clean(job: JobState) {
    forall check :: !Violates(job, check)
  }

  /** Several independent jobs sharing one transition model. */
  class InteractionModel {
    var jobs: map<string, JobState>
    var eventIds: set<string>

    function View(): Model
      reads this
    {
      Model(jobs, eventIds)
    }

    constructor ()
      ensures View() == Model(map[], {})
    {
      jobs, eventIds := map[], {};
    }

    /** A separate model in the same state. */
    constructor Clone(m: Model)
      ensures View() == m
    {
      jobs, eventIds := m.jobs, m.eventIds;
    }

    method AddJob(jobId: string) returns (r: Result<string, Rejection>)
      modifies this
      ensures match Joined(old(View()), jobId)
              case Ok(m) => r.Ok? && View() == m
              case Err(e) => r == Err(e) && View() == old(View())
    {
      if !("JOB-" <= jobId) || jobId in jobs {
        return Err(InvalidJob);
      }
      jobs := jobs[jobId := NewJob(jobId)];
      r := Ok(jobId);
    }

    /** Offers an action. A rejected action changes nothing. */
    method Apply(a: Action) returns (r: Result<Phase, Rejection>)
      modifies this
      ensures match Applied(old(View()), a)
              case Ok(m) => a.jobId in m.jobs && r == Ok(m.jobs[a.jobId].phase) && View() == m
              case Err(e) => r == Err(e) && View() == old(View())
    {
      if a.actionId in eventIds { return Err(ReplayedAction); }
      if a.jobId !in jobs { return Err(UnknownJob); }
      var job := jobs[a.jobId];
      if a.taskRevision != job.revision { return Err(StaleRevision); }
      if a.authority != AuthorityOf(a.operation) { return Err(AuthorityMismatch); }
      if !PayloadFits(a.operation, a.payload) { return Err(IncompleteFields); }
      if !a.operation.Admit? && !a.operation.Lease? && a.leaseId != job.leaseId { return Err(LeaseFenceMismatch); }
      if (a.operation.Admit? || a.operation.Lease?) && a.leaseId != job.leaseId { return Err(PreLeaseFenceMismatch); }
      if PrivateAction(a) { return Err(PrivacyBearing); }
      var refusal := Refusal(job, a.operation, a.payload);
      if refusal.Some? { return Err(refusal.value); }
      var moved := Transition(job, a.operation, a.payload);
      if moved.Err? { return Err(moved.error); }
      jobs := jobs[a.jobId := moved.value];
      eventIds := eventIds + {a.actionId};
      r := Ok(moved.value.phase);
    }

    /**
     Carries out a lifecycle step, assignment by assignment. After an approved repair
     the phase is set twice: the last assignment decides.
    */
    method Transition(was: JobState, op: Operation, p: Payload) returns (r: Result<JobState, Rejection>)
      requires PayloadFits(op, p)
      ensures r == Moved(was, op, p)
    {
      hide Allowed, Active, UserDecisionKind;
      var job := was;
      var phase := job.phase;
      var next := Allowed(phase, op);
      if next.None? && !(op.Block? && Active(phase)) { return Err(InvalidTransition); }
      if op.Lease? {
        job := job.(leaseId := p.newLeaseId);
      } else if op.Evidence? {
        job := job.(evidence := Some(p.evidenceDigest));
      } else if op.QualityAccept? {
        job := job.(quality := Accepted);
      } else if op.QualityReject? || op.QualityUnknown? {
        job := job.(quality := p.result);
      } else if op.Alternative? {
        job := job.(materialAlternative := true, guidance := Pending);
        job := job.(userDecisionRequired := UserDecisionKind(p.changeKind));
      } else if op.RepairEscalate? {
        job := job.(materialAlternative := true, guidance := Pending, userDecisionRequired := true, repairRequired := true);
      } else if op.GuidanceDecide? {
        if p.decision == RequiresUi {
          job := job.(guidance := RequiresUi, ui := Pending);
        } else {
          job := job.(materialAlternative := false);
          job := job.(guidance := p.decision);
        }
      } else if op.UiDecide? {
        job := job.(ui := p.outcome);
        if p.outcome == Approved {
          job := job.(materialAlternative := false, guidance := Approved, userDecisionRequired := false);
          if job.repairRequired {
            job := job.(repairRequired := false);
            job := job.(phase := Executing);
          }
        } else {
          job := job.(phase := Blocked);
        }
      } else if op.Checkpoint? {
        job := job.(checkpoint := Some(p.checkpointDigest));
      } else if op.Recover? {
        if Some(p.checkpointDigest) != job.checkpoint { return Err(CheckpointMismatch); }
        job := job.(revision := p.newRevision, leaseId := p.newLeaseId, attempt := job.attempt + 1);
      } else if op.Retry? {
        job := job.(attempt := job.attempt + 1);
      } else if op.Commit? {
        job := job.(terminalCommit := true);
      }
      if (op.UiDecide? && p.outcome != Approved) || (op.GuidanceDecide? && p.decision == Rejected) {
        job := job.(phase := Blocked);
      } else if op.GuidanceDecide? && p.decision == RequiresUi {
        job := job.(phase := UiPending);
      } else {
        job := job.(phase := if next.Some? then next.value else Blocked);
      }
      r := Ok(job);
    }

    /** Lists every violated check of every job. */
    method Invariants() returns (violations: seq<(string, Check)>)
      ensures forall id, check ::
                (id, check) in violations <==> id in jobs && Violates(jobs[id], check)
    {
      violations := [];
      var rest := jobs.Keys;
      while rest != {}
        invariant rest <= jobs.Keys
        invariant forall id, check ::
                    (id, check) in violations <==> id in jobs && id !in rest && Violates(jobs[id], check)
        decreases rest
      {
        var id :| id in rest;
        var job := jobs[id];
        if Violates(job, NoLease) { violations := violations + [(id, NoLease)]; }
        if Violates(job, NoAcceptance) { violations := violations + [(id, NoAcceptance)]; }
        if Violates(job, NoDecision) { violations := violations + [(id, NoDecision)]; }
        if Violates(job, NoCommit) { violations := violations + [(id, NoCommit)]; }
        rest := rest - {id};
      }
    }
  }
}
