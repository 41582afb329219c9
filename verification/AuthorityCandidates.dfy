/**
 What the bounded checker's candidates can do. A canonical job is in few states, and in each
 of them exactly these operations are accepted, with these effects; so the machine the checker
 explores is spelled out here, and the straight way through it completes a job.
*/
module AuthorityCandidates {
  import opened Identifiers
  import opened Results
  import opened Sequences
  import opened Texts
  import opened AuthorityModel
  import opened AuthoritySafety
  import opened AuthorityCanonical
  import opened AuthorityRules
  import opened AuthorityChecker

  /** The operations the canonical candidate of which is accepted. */
  predicate MayTake(job: JobState, op: Operation) {
    match op
    case Admit => job.phase == New
    case Lease => job.phase == Admitted
    case Dispatch => job.phase == Leased
    case Start => job.phase == Dispatched
    case Evidence | Checkpoint | Crash | Failure => job.phase == Executing
    case QualityAccept | QualityReject | QualityUnknown => job.phase == QualityPending
    case Alternative => job.phase == QualityAccepted
    case GuidanceDecide => job.phase == OraclePending && !job.userDecisionRequired
    case RepairEscalate => job.phase == Executing || job.phase == QualityAccepted
    case Continue => job.phase == QualityAccepted && !job.materialAlternative
    case RequestCompletion =>
      (job.phase == QualityAccepted || job.phase == Executing) && job.quality == Accepted && !job.materialAlternative
    case Commit => job.phase == CompletionPending
    case Recover => job.phase == Recovering && job.checkpoint == Some(ZeroDigest())
    case Retry => job.phase == Blocked && job.leaseId != ""
    case Block => job.phase != Blocked && job.phase != Completed
    case UiDecide | UnknownOperation => false
  }

  /** The job after it. */
  function Taken(job: JobState, op: Operation): JobState {
    match op
    case Admit => job.(phase := Admitted)
    case Lease => job.(phase := Leased, leaseId := "LSE-" + job.jobId + "-B")
    case Dispatch => job.(phase := Dispatched)
    case Start | Continue => job.(phase := Executing)
    case Evidence => job.(phase := QualityPending, evidence := Some(ZeroDigest()))
    case Checkpoint => job.(checkpoint := Some(ZeroDigest()))
    case Crash => job.(phase := Recovering)
    case Failure | Block => job.(phase := Blocked)
    case QualityAccept => job.(phase := QualityAccepted, quality := Accepted)
    case QualityReject => job.(phase := Blocked, quality := Rejected)
    case QualityUnknown => job.(phase := Blocked, quality := Unknown)
    case Alternative =>
      job.(phase := OraclePending, materialAlternative := true, guidance := Pending, userDecisionRequired := false)
    case GuidanceDecide => job.(phase := QualityAccepted, materialAlternative := false, guidance := Approved)
    case RepairEscalate =>
      job.(phase := RepairPending, materialAlternative := true, guidance := Pending,
           userDecisionRequired := true, repairRequired := true)
    case RequestCompletion => job.(phase := CompletionPending)
    case Commit => job.(phase := Completed, terminalCommit := true)
    case Recover =>
      job.(phase := Leased, leaseId := "LSE-" + job.jobId + "-R", revision := job.revision + 1, attempt := job.attempt + 1)
    case Retry => job.(phase := Executing, attempt := job.attempt + 1)
    case UiDecide | UnknownOperation => job
  }

  /** What every job of a canonical run satisfies beyond the safety checks. */
  ghost predicate Reached(job: JobState) {
    && job.leaseId in {"", "LSE-" + job.jobId + "-B", "LSE-" + job.jobId + "-R"}
    && (job.phase == New || job.phase == Admitted ==> job.leaseId == "")
    && job.evidence in {None, Some(ZeroDigest())} && job.checkpoint in {None, Some(ZeroDigest())}
    && (job.phase == QualityPending ==> job.evidence == Some(ZeroDigest()))
    && job.ui == NotRequired && (job.guidance == Pending <==> job.materialAlternative)
  }

  // Privacy: the checker's own texts are public

  lemma PlainTextIsPublic(s: string)
    requires Plain(s, 0)
    ensures !Private(s)
  {
    PlainIsLower(s);
    forall w | w in PRIVATE_WORDS ensures !Occurs(w, s) {
      PlainIsPublic(s, w);
    }
  }

  lemma ZeroDigestIsPublic()
    ensures !Private(ZeroDigest())
  {
    var d := ZeroDigest();
    assert Lower(d) == d;
    forall w, i: nat | w in PRIVATE_WORDS && i <= |d| ensures !OccursAt(w, d, i) {
      if i + |w| <= |d| {
        var found := d[i..i + |w|];
        assert found[0] == d[i] && found[1] == d[i + 1] && found[2] == d[i + 2];
      }
    }
  }

  lemma UncertaintyIsPublic()
    ensures !Private("bounded uncertainty")
  {
    assert Plain("bounded uncertainty", 14);
    assert Plain("bounded uncertainty", 9);
    assert Plain("bounded uncertainty", 4);
    assert Plain("bounded uncertainty", 0);
    PlainTextIsPublic("bounded uncertainty");
  }

  lemma ExhaustionIsPublic()
    ensures !Private("bounded_repair_exhausted")
  {
    assert Plain("bounded_repair_exhausted", 19);
    assert Plain("bounded_repair_exhausted", 14);
    assert Plain("bounded_repair_exhausted", 9);
    assert Plain("bounded_repair_exhausted", 4);
    assert Plain("bounded_repair_exhausted", 0);
    PlainTextIsPublic("bounded_repair_exhausted");
  }

  /** A lease named after a job is as private as the job. */
  lemma LeaseIsAsPrivateAsTheJob(id: string, tail: string)
    requires tail == "B" || tail == "R"
    ensures Private("LSE-" + id + "-" + tail) <==> Private(id)
  {
    var lease := "LSE-" + id + "-" + tail;
    assert Lower(lease) == "lse" + "-" + (Lower(id) + "-" + Lower(tail));
    assert Plain("lse", 0) && Plain(Lower(tail), 0);
    forall w | w in PRIVATE_WORDS ensures Occurs(w, Lower(lease)) <==> Occurs(w, Lower(id)) {
      assert '-' !in w && w != [];
      OccursAcrossDash(w, Lower(id), Lower(tail));
      OccursAcrossDash(w, "lse", Lower(id) + "-" + Lower(tail));
      PlainIsPublic("lse", w);
      PlainIsPublic(Lower(tail), w);
    }
  }

  /** The texts a candidate of a canonical job may carry. */
  ghost function CandidateTexts(job: JobState): set<string> {
    {ZeroDigest(), "bounded uncertainty", "bounded_repair_exhausted", "", "LSE-" + job.jobId + "-B", "LSE-" + job.jobId + "-R"}
  }

  lemma DecisionCandidateCarries(job: JobState, op: Operation)
    requires Reached(job)
    requires op.QualityAccept? || op.QualityReject? || op.QualityUnknown? || op.GuidanceDecide? || op.UiDecide? || op.Block?
    ensures forall t | t in PayloadTexts(CanonicalPayload(job, op)) :: t in CandidateTexts(job)
  {
    hide ZeroDigest;
  }

  lemma OtherCandidateCarries(job: JobState, op: Operation)
    requires !op.QualityAccept? && !op.QualityReject? && !op.QualityUnknown? && !op.GuidanceDecide? && !op.UiDecide? && !op.Block?
    ensures forall t | t in PayloadTexts(CanonicalPayload(job, op)) :: t in CandidateTexts(job)
  {
    hide ZeroDigest, Reached;
  }

  lemma CandidateCarries(job: JobState, op: Operation)
    requires Reached(job)
    ensures job.leaseId in CandidateTexts(job)
    ensures forall t | t in PayloadTexts(CanonicalPayload(job, op)) :: t in CandidateTexts(job)
  {
    hide ZeroDigest, PayloadTexts, CanonicalPayload;
    match op
    case QualityAccept | QualityReject | QualityUnknown | GuidanceDecide | UiDecide | Block => DecisionCandidateCarries(job, op);
    case _ => OtherCandidateCarries(job, op);
  }

  lemma CandidateTextsAreAsPrivateAsTheJob(job: JobState, t: string)
    requires t in CandidateTexts(job) && !Private(job.jobId)
    ensures !Private(t)
  {
    hide Private, ZeroDigest;
    ZeroDigestIsPublic();
    UncertaintyIsPublic();
    ExhaustionIsPublic();
    PlainTextIsPublic("");
    var b, r := "LSE-" + job.jobId + "-" + "B", "LSE-" + job.jobId + "-" + "R";
    LeaseIsAsPrivateAsTheJob(job.jobId, "B");
    LeaseIsAsPrivateAsTheJob(job.jobId, "R");
    assert b == "LSE-" + job.jobId + "-B" && r == "LSE-" + job.jobId + "-R";
  }

  /** Of a canonical job and its candidate only the job's name can be private. */
  lemma CandidateIsAsPrivateAsTheJob(job: JobState, op: Operation)
    requires Reached(job)
    ensures (exists t | t in [job.jobId, job.leaseId] + PayloadTexts(CanonicalPayload(job, op)) :: Private(t))
       <==> Private(job.jobId)
  {
    hide Private, CandidateTexts, Reached, PayloadTexts, CanonicalPayload;
    CandidateCarries(job, op);
    var texts := [job.jobId, job.leaseId] + PayloadTexts(CanonicalPayload(job, op));
    assert texts[0] == job.jobId;
    if !Private(job.jobId) {
      forall t | t in texts ensures !Private(t) {
        if t != job.jobId {
          CandidateTextsAreAsPrivateAsTheJob(job, t);
        }
      }
    }
  }

  // The steps

  /** What the candidate of an operation meets, for any job at all: nothing but the job's own state can refuse it. */
  predicate Offerable(job: JobState, op: Operation) {
    match op
    case Admit => job.phase == New
    case Lease => job.phase == Admitted && job.leaseId != "LSE-" + job.jobId + "-B"
    case Dispatch => job.phase == Leased
    case Start => job.phase == Dispatched
    case Evidence | Checkpoint | Crash | Failure => job.phase == Executing
    case QualityAccept => job.phase == QualityPending && job.evidence.Some? && IsDigest(job.evidence.value)
    case QualityReject | QualityUnknown => job.phase == QualityPending
    case Alternative => job.phase == QualityAccepted
    case GuidanceDecide => (job.phase == OraclePending || job.phase == RepairPending) && !job.userDecisionRequired
    case UiDecide => job.phase == UiPending
    case RepairEscalate => job.phase == Executing || job.phase == QualityAccepted
    case Continue => job.phase == QualityAccepted && GatesPassed(job)
    case RequestCompletion => (job.phase == QualityAccepted || job.phase == Executing) && GatesPassed(job)
    case Commit => job.phase == CompletionPending
    case Recover => job.phase == Recovering && job.checkpoint == Some(ZeroDigest())
    case Retry => job.phase == Blocked && job.leaseId != ""
    case Block => job.phase != Blocked && job.phase != Completed
    case UnknownOperation => false
  }

  lemma CandidateDemandsOfAnyJob(job: JobState, op: Operation)
    ensures Demands(job, op, CanonicalPayload(job, op)) <==> Offerable(job, op)
    ensures CanonicalPayload(job, Failure) == FailurePayload(ZeroDigest(), true)
    ensures CanonicalPayload(job, Retry) == RetryPayload(ZeroDigest(), job.attempt + 1)
    ensures CanonicalPayload(job, Block) == BlockPayload(Held, ZeroDigest())
  {
    var d := ZeroDigest();
    assert IsDigest(d) && !IsDigest("");
    hide IsDigest, ZeroDigest;
  }

  lemma CandidateDemands(job: JobState, op: Operation)
    requires Canonical(job) && Reached(job)
    ensures Demands(job, op, CanonicalPayload(job, op)) <==> MayTake(job, op)
  {
    CleanIsFourChecks(job);
    hide IsDigest, Clean;
    assert IsDigest(ZeroDigest());
  }

  lemma CandidateTakes(job: JobState, op: Operation)
    requires Canonical(job) && Reached(job) && JobStep(job, op, CanonicalPayload(job, op)).Ok?
    ensures JobStep(job, op, CanonicalPayload(job, op)).value == Taken(job, op)
  {
    CandidateDemands(job, op);
    StepsExactlyWhen(job, op, CanonicalPayload(job, op));
    StepShape(job, op, CanonicalPayload(job, op));
    StepLeadsTo(job, op, CanonicalPayload(job, op));
    hide JobStep, IsDigest, Canonical, ZeroDigest, Demands, Objection, NextPhase, Allowed, PayloadFits, Digests, Active;
    match op
    case Admit | Lease | Dispatch | Start | Evidence | Continue | Alternative | Checkpoint | Crash =>
    case Recover | Failure | Retry | Block | Commit =>
    case QualityAccept | QualityReject | QualityUnknown | GuidanceDecide | RequestCompletion | RepairEscalate | UiDecide =>
    case UnknownOperation =>
  }

  lemma TakenIsReached(job: JobState, op: Operation)
    requires Canonical(job) && Reached(job) && MayTake(job, op)
    ensures Reached(Taken(job, op))
  {
    hide ZeroDigest, Clean, Violates;
  }

  /** What a candidate does to a canonical job. */
  lemma CandidateStepsExactly(job: JobState, op: Operation)
    requires Canonical(job) && Reached(job)
    ensures CandidateStep(job, op).Ok? <==> !Private(job.jobId) && MayTake(job, op)
    ensures CandidateStep(job, op).Ok? ==> CandidateStep(job, op).value == Taken(job, op) && Reached(Taken(job, op))
  {
    hide JobStep, Private, PayloadTexts, CanonicalPayload, Canonical, Reached, MayTake, Taken, Demands;
    CandidateIsAsPrivateAsTheJob(job, op);
    CandidateDemands(job, op);
    StepsExactlyWhen(job, op, CanonicalPayload(job, op));
    if CandidateStep(job, op).Ok? {
      CandidateTakes(job, op);
      TakenIsReached(job, op);
    }
  }

  lemma NewJobIsReached(id: string)
    ensures Reached(NewJob(id))
  {
  }

  // Runs

  lemma {:induction false} RunsAreReached(ids: seq<string>, path: Path)
    requires CanonicalRun(ids, path)
    ensures var jobs := Follow(ids, path).value;
            forall id | id in jobs :: Canonical(jobs[id]) && Reached(jobs[id]) && jobs[id].jobId == id
  {
    hide CandidateStep, Canonical, Follow, Reached;
    CanonicalRunsAreClean(ids, path);
    if path == [] {
      EmptyRun(ids);
      forall id ensures Reached(NewJob(id)) {
        NewJobIsReached(id);
      }
    } else {
      var before, c := path[..|path| - 1], path[|path| - 1];
      assert path == before + [c];
      FollowOne(ids, before, c);
      RunsAreReached(ids, before);
      CandidateStepsExactly(Follow(ids, before).value[c.jobId], c.op);
    }
  }

  /**
   After any canonical run, the candidate of a job and an operation is accepted exactly when the job's
   name is public and the operation is one the job may take; then it does exactly what is spelled out.
  */
  lemma CandidatesAreAcceptedExactlyWhen(ids: seq<string>, path: Path, c: Choice)
    requires CanonicalRun(ids, path) && c.jobId in ids
    ensures var jobs := Follow(ids, path).value;
            && c.jobId in jobs
            && (CanonicalRun(ids, path + [c]) <==> !Private(c.jobId) && MayTake(jobs[c.jobId], c.op))
            && (CanonicalRun(ids, path + [c]) ==>
                  Follow(ids, path + [c]) == Some(jobs[c.jobId := Taken(jobs[c.jobId], c.op)]))
    ensures var job := Follow(ids, path).value[c.jobId];
            forall explored: nat, sequence: int ::
              var offered := JobApply(job, Candidate(job, c.op, ActionId(explored, c.jobId, c.op), sequence));
              && (offered.Ok? <==> !Private(c.jobId) && MayTake(job, c.op))
              && (offered.Ok? ==> offered.value == Taken(job, c.op))
  {
    hide CandidateStep, Canonical, Reached, MayTake, Taken, Private, JobApply, Candidate, ActionId;
    CanonicalRunsAreClean(ids, path);
    RunsAreReached(ids, path);
    FollowOne(ids, path, c);
    var job := Follow(ids, path).value[c.jobId];
    CandidateStepsExactly(job, c.op);
    forall explored: nat, sequence: int
      ensures var offered := JobApply(job, Candidate(job, c.op, ActionId(explored, c.jobId, c.op), sequence));
              && (offered.Ok? <==> CandidateStep(job, c.op).Ok?)
              && (offered.Ok? ==> offered == CandidateStep(job, c.op))
    {
      CandidateIsItsStep(job, c.op, explored, sequence);
    }
  }

  /** The straight way. */
  function StraightWay(id: string): Path {
    [Choice(id, Admit), Choice(id, Lease), Choice(id, Dispatch), Choice(id, Start), Choice(id, Evidence),
     Choice(id, QualityAccept), Choice(id, RequestCompletion), Choice(id, Commit)]
  }

  lemma {:induction false} StraightWayTo(ids: seq<string>, id: string, n: nat)
    requires id in ids && !Private(id) && n <= 8
    ensures CanonicalRun(ids, StraightWay(id)[..n]) && id in Follow(ids, StraightWay(id)[..n]).value
    ensures var job := Follow(ids, StraightWay(id)[..n]).value[id];
            && job.phase == [New, Admitted, Leased, Dispatched, Executing, QualityPending, QualityAccepted,
                             CompletionPending, Completed][n]
            && !job.materialAlternative && (n >= 6 ==> job.quality == Accepted)
  {
    hide Follow, Private;
    if n == 0 {
      EmptyRun(ids);
    } else {
      StraightWayTo(ids, id, n - 1);
      CandidatesAreAcceptedExactlyWhen(ids, StraightWay(id)[..n - 1], StraightWay(id)[n - 1]);
      assert StraightWay(id)[..n] == StraightWay(id)[..n - 1] + [StraightWay(id)[n - 1]];
    }
  }

  lemma EmptyRun(ids: seq<string>)
    ensures Follow(ids, []) == Some(InitialJobs(ids))
  {
  }

  /** A job with a public name completes on the straight way, which so is among the runs of the deepest check. */
  lemma StraightWayCompletes(ids: seq<string>, id: string)
    requires id in ids && !Private(id)
    ensures CanonicalRun(ids, StraightWay(id)) && |StraightWay(id)| == 8
    ensures Follow(ids, StraightWay(id)).value[id].phase == Completed
  {
    StraightWayTo(ids, id, 8);
    assert StraightWay(id)[..8] == StraightWay(id);
  }

  /** The first steps: a job can be admitted or blocked, and nothing else. */
  lemma FirstStepsAreAdmitAndBlock(ids: seq<string>, c: Choice)
    ensures CanonicalRun(ids, [c]) <==> c.jobId in ids && !Private(c.jobId) && (c.op == Admit || c.op == Block)
  {
    hide Private, Follow;
    EmptyRun(ids);
    assert [] + [c] == [c];
    FollowOne(ids, [], c);
    if c.jobId in ids {
      CandidatesAreAcceptedExactlyWhen(ids, [], c);
    }
  }

  ghost function FirstSteps(ids: seq<string>): set<Path> {
    if ids == [] then {} else FirstSteps(ids[1..]) + {[Choice(ids[0], Admit)], [Choice(ids[0], Block)]}
  }

  predicate IsFirstStep(id: string, p: Path) {
    p == [Choice(id, Admit)] || p == [Choice(id, Block)]
  }

  lemma {:induction false} FirstStepsMeaning(ids: seq<string>, p: Path)
    ensures p in FirstSteps(ids) <==> exists id | id in ids :: IsFirstStep(id, p)
  {
    if ids != [] {
      FirstStepsMeaning(ids[1..], p);
      assert ids == [ids[0]] + ids[1..];
      assert IsFirstStep(ids[0], p) ==> p in FirstSteps(ids);
    }
  }

  lemma {:induction false} FirstStepsCount(ids: seq<string>)
    requires Distinct(ids)
    ensures |FirstSteps(ids)| == 2 * |ids|
  {
    if ids != [] {
      FirstStepsCount(ids[1..]);
      var admit, block := [Choice(ids[0], Admit)], [Choice(ids[0], Block)];
      assert admit[0] != block[0];
      forall p: Path | p == admit || p == block ensures p !in FirstSteps(ids[1..]) {
        FirstStepsMeaning(ids[1..], p);
        assert p[0].jobId == ids[0];
      }
    }
  }

  /** So a check of depth one reports one state and two more for each job. */
  lemma DepthOneStates(ids: seq<string>, visited: set<Path>)
    requires Distinct(ids) && forall id | id in ids :: !Private(id)
    requires forall p: Path :: p in visited <==> CanonicalRun(ids, p) && |p| <= 1
    ensures |visited| == 1 + 2 * |ids|
  {
    hide CanonicalRun, Private, FirstSteps;
    FirstStepsCount(ids);
    StartIsCanonical(ids);
    NothingIsNoFirstStep(ids);
    forall p: Path ensures p in visited <==> p in {[]} + FirstSteps(ids) {
      FirstStepsMeaning(ids, p);
      if |p| == 1 {
        assert p == [p[0]];
        FirstStepsAreAdmitAndBlock(ids, p[0]);
        assert IsFirstStep(p[0].jobId, p) <==> p[0].op == Admit || p[0].op == Block;
      }
    }
    assert visited == {[]} + FirstSteps(ids);
  }

  lemma NothingIsNoFirstStep(ids: seq<string>)
    ensures [] !in FirstSteps(ids)
  {
    FirstStepsMeaning(ids, []);
  }

  lemma StartIsCanonical(ids: seq<string>)
    ensures CanonicalRun(ids, [])
  {
  }

  /** The names the checker uses by default are public. */
  lemma DefaultNamesArePublic()
    ensures !Private("JOB-A") && !Private("JOB-B")
  {
    forall name | name in ["JOB-A", "JOB-B"] ensures !Private(name) {
      assert Lower(name) == (if name == "JOB-A" then "job-a" else "job-b");
      assert Plain("job-a", 0) && Plain("job-b", 0);
      forall w | w in PRIVATE_WORDS ensures !Occurs(w, Lower(name)) {
        PlainIsPublic(Lower(name), w);
      }
    }
    assert "JOB-A" in ["JOB-A", "JOB-B"] && "JOB-B" in ["JOB-A", "JOB-B"];
  }
}
