/**
 The candidates the bounded checker offers: one per job and operation, filled in
 from the job's own fields. Runs of accepted candidates violate no check at any
 depth, and never wait for a user decision.
*/
module AuthorityCanonical {
  import opened Identifiers
  import opened Results
  import opened Texts
  import opened AuthorityModel
  import opened AuthoritySafety

  /** The place of an operation in the order the source tries them. */
  function Rank(op: Operation): nat {
    match op
    case Admit => 0
    case Lease => 1
    case Recover => 2
    case Commit => 3
    case Dispatch => 4
    case Start => 5
    case Evidence => 6
    case Continue => 7
    case Alternative => 8
    case Checkpoint => 9
    case Crash => 10
    case Failure => 11
    case Retry => 12
    case Block => 13
    case QualityAccept => 14
    case QualityReject => 15
    case QualityUnknown => 16
    case GuidanceDecide => 17
    case RequestCompletion => 18
    case RepairEscalate => 19
    case UiDecide => 20
    case UnknownOperation => 21
  }

  function OperationAt(k: nat): (op: Operation)
    ensures k < 21 ==> Rank(op) == k && !op.UnknownOperation?
  {
    match k
    case 0 => Admit
    case 1 => Lease
    case 2 => Recover
    case 3 => Commit
    case 4 => Dispatch
    case 5 => Start
    case 6 => Evidence
    case 7 => Continue
    case 8 => Alternative
    case 9 => Checkpoint
    case 10 => Crash
    case 11 => Failure
    case 12 => Retry
    case 13 => Block
    case 14 => QualityAccept
    case 15 => QualityReject
    case 16 => QualityUnknown
    case 17 => GuidanceDecide
    case 18 => RequestCompletion
    case 19 => RepairEscalate
    case 20 => UiDecide
    case _ => UnknownOperation
  }

  function OperationName(op: Operation): string {
    match op
    case Admit => "admit"
    case Lease => "lease"
    case Recover => "recover"
    case Commit => "commit"
    case Dispatch => "dispatch"
    case Start => "start"
    case Evidence => "evidence"
    case Continue => "continue"
    case Alternative => "alternative"
    case Checkpoint => "checkpoint"
    case Crash => "crash"
    case Failure => "failure"
    case Retry => "retry"
    case Block => "block"
    case QualityAccept => "quality_accept"
    case QualityReject => "quality_reject"
    case QualityUnknown => "quality_unknown"
    case GuidanceDecide => "guidance_decide"
    case RequestCompletion => "request_completion"
    case RepairEscalate => "repair_escalate"
    case UiDecide => "ui_decide"
    case UnknownOperation => ""
  }

  function CanonicalPayload(job: JobState, op: Operation): Payload {
    var d := ZeroDigest();
    match op
    case Admit => AdmitPayload(true, job.revision, d)
    case Lease => LeasePayload("LSE-" + job.jobId + "-B", d)
    case Dispatch => DispatchPayload(d, d)
    case Start => StartPayload(d)
    case Evidence => EvidencePayload(d)
    case QualityAccept =>
      VerdictPayload(if job.evidence.Some? && job.evidence.value != "" then job.evidence.value else d, Accepted, Awq)
    case QualityReject => VerdictPayload(d, Rejected, Awq)
    case QualityUnknown => VerdictPayload(d, Unknown, Awq)
    case Alternative => AlternativePayload(d, "bounded uncertainty", Ordinary)
    case GuidanceDecide => GuidancePayload(d, Approved, Awg)
    case UiDecide => UiPayload(Some(d), Approved, Approved, Ui)
    case Continue | RequestCompletion => GatePayload(d)
    case Checkpoint => CheckpointPayload(d)
    case Crash => CrashPayload(d, d)
    case Recover => RecoverPayload(d, "LSE-" + job.jobId + "-R", job.revision + 1)
    case Failure => FailurePayload(d, true)
    case Retry => RetryPayload(d, job.attempt + 1)
    case Block => BlockPayload(Held, d)
    case RepairEscalate => RepairPayload(d, "bounded_repair_exhausted", 1)
    case Commit => CommitPayload(d, true)
    case UnknownOperation => OtherPayload
  }

  function ActionId(explored: nat, jobId: string, op: Operation): string {
    "BMC-" + Decimal(explored) + "-" + jobId + "-" + OperationName(op)
  }

  function Candidate(job: JobState, op: Operation, actionId: string, sequence: int): Action {
    Action(actionId, sequence, job.jobId, AuthorityOf(op), op, job.revision, job.leaseId, CanonicalPayload(job, op))
  }

  /** What a candidate does, whatever identifier it is given. */
  function CandidateStep(job: JobState, op: Operation): Result<JobState, Rejection> {
    var p := CanonicalPayload(job, op);
    if exists t | t in [job.jobId, job.leaseId] + PayloadTexts(p) :: Private(t) then Err(PrivacyBearing)
    else JobStep(job, op, p)
  }

  // The identifiers of the checker trip the privacy scan only through the job's own name.

  predicate PairAt(s: string, i: nat, first: char, second: char)
    requires i + 1 < |s|
  {
    s[i] == first && s[i + 1] == second
  }

  /** From this position on: no capital, and none of eight fragments of which every private word has one. */
  predicate Plain(s: string, i: nat)
    requires i <= |s|
    decreases |s| - i
  {
    || i == |s|
    || (&& !IsCapital(s[i])
        && (i + 1 < |s| ==>
              && !PairAt(s, i, 's', 's') && !PairAt(s, i, 'o', 'k') && !PairAt(s, i, 'p', 'r') && !PairAt(s, i, 'n', 's')
              && !PairAt(s, i, 'h', 'o') && !PairAt(s, i, 'a', 'w') && !PairAt(s, i, 'l', 'l')
              && (PairAt(s, i, 'c', 'r') ==> i + 2 < |s| && s[i + 2] != 'e'))
        && Plain(s, i + 1))
  }

  lemma {:induction false} PlainFurtherOn(s: string, i: nat, j: nat)
    requires i <= j <= |s| && Plain(s, i)
    ensures Plain(s, j)
    decreases j - i
  {
    if i < j {
      PlainFurtherOn(s, i + 1, j);
    }
  }

  lemma PlainIsPublic(s: string, w: string)
    requires Plain(s, 0) && w in PRIVATE_WORDS
    ensures !Occurs(w, s)
  {
    if Occurs(w, s) {
      var i: nat :| i <= |s| && OccursAt(w, s, i);
      var fragment := FragmentOf(w);
      assert s[i..i + |w|] == w;
      assert s[i + fragment] == w[fragment] && s[i + fragment + 1] == w[fragment + 1];
      assert fragment + 2 < |w| ==> s[i + fragment + 2] == w[fragment + 2];
      PlainFurtherOn(s, 0, i + fragment);
    }
  }

  /** Where a private word has its fragment. */
  function FragmentOf(w: string): nat {
    if w == "password" || w == "secret" then 2
    else if w == "token" || w == "raw_output" then 1
    else if w == "transcript" then 3
    else 0
  }

  lemma PlainIsLower(s: string)
    requires Plain(s, 0)
    ensures Lower(s) == s
  {
    forall i | 0 <= i < |s| ensures Lower(s)[i] == s[i] {
      PlainFurtherOn(s, 0, i);
    }
  }

  lemma VerdictNamesArePlain(op: Operation)
    requires op.QualityAccept? || op.QualityReject? || op.QualityUnknown? || op.GuidanceDecide?
    ensures Plain(OperationName(op), 0)
  {
    match op {
      case QualityAccept => assert Plain("quality_accept", 7); assert Plain("quality_accept", 0);
      case QualityReject => assert Plain("quality_reject", 7); assert Plain("quality_reject", 0);
      case QualityUnknown => assert Plain("quality_unknown", 7); assert Plain("quality_unknown", 0);
      case GuidanceDecide => assert Plain("guidance_decide", 7); assert Plain("guidance_decide", 0);
    }
  }

  lemma LongNamesArePlain(op: Operation)
    requires op.UiDecide? || op.RepairEscalate? || op.RequestCompletion? || op.Alternative? || op.Checkpoint?
    ensures Plain(OperationName(op), 0)
  {
    match op {
      case UiDecide => assert Plain("ui_decide", 0);
      case RepairEscalate => assert Plain("repair_escalate", 7); assert Plain("repair_escalate", 0);
      case RequestCompletion =>
        assert Plain("request_completion", 12);
        assert Plain("request_completion", 8);
        assert Plain("request_completion", 4);
        assert Plain("request_completion", 0);
      case Alternative => assert Plain("alternative", 0);
      case Checkpoint => assert Plain("checkpoint", 0);
    }
  }

  lemma NamesArePlain(op: Operation)
    ensures Plain(OperationName(op), 0)
  {
    match op {
      case QualityAccept | QualityReject | QualityUnknown | GuidanceDecide => VerdictNamesArePlain(op);
      case UiDecide | RepairEscalate | RequestCompletion | Alternative | Checkpoint => LongNamesArePlain(op);
      case Admit => assert Plain("admit", 0);
      case Lease => assert Plain("lease", 0);
      case Recover => assert Plain("recover", 0);
      case Commit => assert Plain("commit", 0);
      case Dispatch => assert Plain("dispatch", 0);
      case Start => assert Plain("start", 0);
      case Evidence => assert Plain("evidence", 0);
      case Continue => assert Plain("continue", 0);
      case Crash => assert Plain("crash", 0);
      case Failure => assert Plain("failure", 0);
      case Retry => assert Plain("retry", 0);
      case Block => assert Plain("block", 0);
      case UnknownOperation =>
    }
  }

  lemma ActionIdLowered(explored: nat, jobId: string, op: Operation)
    ensures Lower(ActionId(explored, jobId, op))
         == "bmc" + "-" + (Decimal(explored) + "-" + (Lower(jobId) + "-" + OperationName(op)))
  {
    hide Plain, OperationName;
    NamesArePlain(op);
    PlainIsLower(OperationName(op));
    assert Lower("BMC") == "bmc" && Lower("-") == "-" && Lower(Decimal(explored)) == Decimal(explored);
  }

  lemma IdIsAsPrivateAsTheJob(explored: nat, jobId: string, op: Operation)
    ensures Private(ActionId(explored, jobId, op)) <==> Private(jobId)
  {
    ActionIdLowered(explored, jobId, op);
    NamesArePlain(op);
    forall w | w in PRIVATE_WORDS
      ensures Occurs(w, Lower(ActionId(explored, jobId, op))) <==> Occurs(w, Lower(jobId))
    {
      assert '-' !in w && w != [];
      OccursAcrossDash(w, Lower(jobId), OperationName(op));
      OccursAcrossDash(w, Decimal(explored), Lower(jobId) + "-" + OperationName(op));
      OccursAcrossDash(w, "bmc", Decimal(explored) + "-" + (Lower(jobId) + "-" + OperationName(op)));
      PlainIsPublic(OperationName(op), w);
      WordsAreNotNumerals(w, Decimal(explored));
      WordsAreNotNumerals(w, "bmc");
    }
  }

  lemma WordsAreNotNumerals(w: string, s: string)
    requires w in PRIVATE_WORDS && (Numeral(s) || s == "bmc")
    ensures !Occurs(w, s)
  {
    forall i: nat | i <= |s| ensures !OccursAt(w, s, i) {
      if i + |w| <= |s| {
        var found := s[i..i + |w|];
        assert found[0] == s[i];
      }
    }
  }

  /** Offering a candidate under a fresh identifier is taking its step. */
  lemma CandidateIsItsStep(job: JobState, op: Operation, explored: nat, sequence: int)
    ensures JobApply(job, Candidate(job, op, ActionId(explored, job.jobId, op), sequence)).Ok?
       <==> CandidateStep(job, op).Ok?
    ensures CandidateStep(job, op).Ok? ==>
              JobApply(job, Candidate(job, op, ActionId(explored, job.jobId, op), sequence)) == CandidateStep(job, op)
  {
    IdIsAsPrivateAsTheJob(explored, job.jobId, op);
    var a := Candidate(job, op, ActionId(explored, job.jobId, op), sequence);
    var texts := [job.jobId, job.leaseId] + PayloadTexts(a.payload);
    assert [a.actionId, a.jobId, a.leaseId] + PayloadTexts(a.payload) == [a.actionId] + texts;
    assert PrivateAction(a) <==> exists t | t in texts :: Private(t) by {
      assert job.jobId == texts[0];
    }
  }

  /** What canonical runs keep: no check fails, leases are real, and no user decision is pending. */
  ghost predicate Canonical(job: JobState) {
    && Sound(job) && Clean(job)
    && !job.phase.UiPending?
    && (job.phase.Leased? ==> job.leaseId != "")
  }

  lemma CandidateKeepsCanonical(job: JobState, op: Operation)
    requires Canonical(job) && CandidateStep(job, op).Ok?
    ensures Canonical(CandidateStep(job, op).value)
    ensures CandidateStep(job, op).value.jobId == job.jobId
  {
    var p := CanonicalPayload(job, op);
    StepSound(job, op, p);
    StepClean(job, Act(op, p));
    CleanIsFourChecks(job);
    StepShape(job, op, p);
    hide JobStep, Clean, Private, PayloadTexts, IsDigest;
    match op
    case Admit | Lease | Dispatch | Start | Evidence | Continue | Alternative | Checkpoint | Crash =>
    case Recover | Failure | Retry | Block | Commit =>
    case QualityAccept | QualityReject | QualityUnknown | GuidanceDecide | RequestCompletion | RepairEscalate | UiDecide =>
    case UnknownOperation =>
  }
}
