/**
 The history gate: what every run that ends a job in the completed phase must
 contain, whatever detours through blocks, retries, crashes and recoveries it took.
*/
module AuthorityHistory {
  import opened Identifiers
  import opened Results
  import opened AuthorityModel
  import opened AuthoritySafety

  predicate IsVerdict(act: Act) {
    act.op.QualityAccept? || act.op.QualityReject? || act.op.QualityUnknown?
  }

  /** A material change: an alternative or an escalated repair. */
  predicate IsChange(act: Act) {
    act.op.Alternative? || act.op.RepairEscalate?
  }

  predicate DemandsUser(act: Act) {
    act.op.RepairEscalate? || (act.payload.AlternativePayload? && UserDecisionKind(act.payload.changeKind))
  }

  predicate UserApproves(act: Act) {
    act.op.UiDecide? && act.payload.UiPayload? && act.payload.outcome == Approved
  }

  ghost predicate AdmittedThenLeased(h: seq<Act>) {
    exists i, j :: 0 <= i < j < |h| && h[i].op.Admit? && h[j].op.Lease?
  }

  ghost predicate LastVerdictAccepts(h: seq<Act>) {
    exists i :: 0 <= i < |h| && h[i].op.QualityAccept? && forall j :: i < j < |h| ==> !IsVerdict(h[j])
  }

  ghost predicate LastChangeAt(h: seq<Act>, c: int) {
    0 <= c < |h| && IsChange(h[c]) && forall j :: c < j < |h| ==> !IsChange(h[j])
  }

  predicate IsGuidance(act: Act) {
    act.op.GuidanceDecide? && act.payload.GuidancePayload?
  }

  /**
   The change at c is settled by the very next step: approved by guidance, or routed to the
   user and approved by the user at once, or refused by guidance and retried. Only a change
   that demands no user can be approved or refused by guidance alone.
  */
  ghost predicate Settled(h: seq<Act>, c: int) {
    && 0 <= c < |h| - 1 && IsGuidance(h[c + 1])
    && match h[c + 1].payload.decision
       case Approved => !DemandsUser(h[c])
       case RequiresUi => c + 2 < |h| && UserApproves(h[c + 2])
       case Rejected => !DemandsUser(h[c]) && c + 2 < |h| && h[c + 2].op.Retry?
       case _ => false
  }

  ghost predicate HistoryGate(h: seq<Act>) {
    && AdmittedThenLeased(h)
    && LastVerdictAccepts(h)
    && (forall c :: LastChangeAt(h, c) ==> Settled(h, c))
    && h[|h| - 1].op.Commit?
  }

  /** How far the last material change has been taken. A dropped one was blocked or denied by the user. */
  datatype Route =
    | NoChange
    | Open(demands: bool)
    | Routed(demands: bool)
    | Guided(demands: bool)
    | UserApproved(demands: bool)
    | Refused(demands: bool, retried: bool)
    | Dropped(demands: bool)

  function Advance(route: Route, act: Act): Route {
    if IsChange(act) then Open(DemandsUser(act))
    else match route
      case Open(d) =>
        if !IsGuidance(act) then Dropped(d)
        else (match act.payload.decision
              case Approved => Guided(d)
              case RequiresUi => Routed(d)
              case Rejected => Refused(d, false)
              case _ => Dropped(d))
      case Routed(d) => if UserApproves(act) then UserApproved(d) else Dropped(d)
      case Refused(d, false) => if act.op.Retry? then Refused(d, true) else Dropped(d)
      case _ => route
  }

  function RouteOf(h: seq<Act>): Route {
    if h == [] then NoChange else Advance(RouteOf(h[..|h| - 1]), h[|h| - 1])
  }

  /** The same, read off the two steps after the change. */
  function Taken(h: seq<Act>, c: nat): Route
    requires c < |h|
  {
    var d := DemandsUser(h[c]);
    if |h| == c + 1 then Open(d)
    else if !IsGuidance(h[c + 1]) then Dropped(d)
    else match h[c + 1].payload.decision
      case Approved => Guided(d)
      case RequiresUi => if |h| == c + 2 then Routed(d) else if UserApproves(h[c + 2]) then UserApproved(d) else Dropped(d)
      case Rejected => if |h| == c + 2 then Refused(d, false) else if h[c + 2].op.Retry? then Refused(d, true) else Dropped(d)
      case _ => Dropped(d)
  }

  lemma {:induction false} RouteMeaning(h: seq<Act>, c: nat)
    requires LastChangeAt(h, c)
    ensures RouteOf(h) == Taken(h, c)
  {
    var n := |h| - 1;
    if c < n {
      assert LastChangeAt(h[..n], c);
      RouteMeaning(h[..n], c);
    }
  }

  lemma {:induction false} NoChangeMeaning(h: seq<Act>)
    ensures RouteOf(h).NoChange? <==> forall i | 0 <= i < |h| :: !IsChange(h[i])
  {
    if h != [] {
      NoChangeMeaning(h[..|h| - 1]);
      assert forall i | 0 <= i < |h| - 1 :: h[..|h| - 1][i] == h[i];
    }
  }

  ghost predicate Admission(h: seq<Act>) {
    exists i :: 0 <= i < |h| && h[i].op.Admit?
  }

  /** The fields of a job that remember its history. */
  ghost predicate Remembers(job: JobState, h: seq<Act>) {
    && (job.quality == Accepted ==> LastVerdictAccepts(h))
    && RemembersEntry(job, Admission(h), AdmittedThenLeased(h))
    && RemembersRoute(job, RouteOf(h))
  }

  ghost predicate RemembersEntry(job: JobState, admitted: bool, leased: bool) {
    && (!job.phase.New? && !job.phase.Blocked? ==> admitted)
    && (job.leaseId != "" || !(job.phase.New? || job.phase.Admitted? || job.phase.Blocked?) ==> leased)
  }

  /** No gate of a material change is waiting. */
  predicate Quiet(phase: Phase) {
    !phase.OraclePending? && !phase.RepairPending? && !phase.UiPending?
  }

  ghost predicate RemembersRoute(job: JobState, route: Route) {
    match route
    case NoChange => !job.materialAlternative && job.guidance == NotRequired && Quiet(job.phase)
    case Open(d) =>
      && job.materialAlternative && job.guidance == Pending && job.userDecisionRequired == d
      && (job.phase.OraclePending? || (job.phase.RepairPending? && d))
    case Routed(_) => job.materialAlternative && job.guidance == RequiresUi && job.phase.UiPending?
    case Guided(d) => !job.materialAlternative && job.guidance == Approved && Quiet(job.phase) && !d
    case UserApproved(_) => !job.materialAlternative && job.guidance == Approved && Quiet(job.phase)
    case Refused(d, retried) =>
      && !job.materialAlternative && job.guidance == Rejected && Quiet(job.phase) && !d
      && (!retried ==> job.phase.Blocked?)
    case Dropped(_) => job.materialAlternative && Quiet(job.phase)
  }

  lemma VerdictKept(h: seq<Act>, act: Act)
    ensures act.op.QualityAccept? ==> LastVerdictAccepts(h + [act])
    ensures LastVerdictAccepts(h) && !IsVerdict(act) ==> LastVerdictAccepts(h + [act])
  {
    var g := h + [act];
    if act.op.QualityAccept? {
      assert g[|h|].op.QualityAccept?;
    } else if LastVerdictAccepts(h) && !IsVerdict(act) {
      var i :| 0 <= i < |h| && h[i].op.QualityAccept? && forall j :: i < j < |h| ==> !IsVerdict(h[j]);
      assert g[i].op.QualityAccept?;
    }
  }

  lemma EntryKept(h: seq<Act>, act: Act)
    ensures Admission(h) || act.op.Admit? ==> Admission(h + [act])
    ensures AdmittedThenLeased(h) || (Admission(h) && act.op.Lease?) ==> AdmittedThenLeased(h + [act])
  {
    var g := h + [act];
    assert g[|h|] == act;
    if i, j :| 0 <= i < j < |h| && h[i].op.Admit? && h[j].op.Lease? {
      assert g[i].op.Admit? && g[j].op.Lease?;
    }
    if i :| 0 <= i < |h| && h[i].op.Admit? {
      assert g[i].op.Admit?;
    }
  }

  lemma StepRemembersEntry(job: JobState, admitted: bool, leased: bool, act: Act)
    requires leased ==> admitted
    requires RemembersEntry(job, admitted, leased) && JobStep(job, act.op, act.payload).Ok?
    ensures RemembersEntry(JobStep(job, act.op, act.payload).value,
                           admitted || act.op.Admit?, leased || (admitted && act.op.Lease?))
  {
    hide Malformed;
  }

  lemma StepOpensRoute(job: JobState, route: Route, act: Act)
    requires IsChange(act) && JobStep(job, act.op, act.payload).Ok?
    ensures RemembersRoute(JobStep(job, act.op, act.payload).value, Advance(route, act))
  {
    StepShape(job, act.op, act.payload);
    hide JobStep;
  }

  lemma StepLeavesGate(job: JobState, route: Route, act: Act)
    requires !IsChange(act) && (route.Open? || route.Routed? || (route.Refused? && !route.retried))
    requires RemembersRoute(job, route) && JobStep(job, act.op, act.payload).Ok?
    ensures RemembersRoute(JobStep(job, act.op, act.payload).value, Advance(route, act))
  {
    StepShape(job, act.op, act.payload);
    hide JobStep;
    match act.op
    case Admit | Lease | Dispatch | Start | Evidence | Continue | Alternative | Checkpoint | Crash =>
    case Recover | Failure | Retry | Block | Commit =>
    case QualityAccept | QualityReject | QualityUnknown | GuidanceDecide | RequestCompletion | RepairEscalate | UiDecide =>
    case UnknownOperation =>
  }

  /** With no gate waiting, only a material change touches the gate fields. */
  lemma StepStaysQuiet(job: JobState, act: Act)
    requires !IsChange(act) && Quiet(job.phase) && JobStep(job, act.op, act.payload).Ok?
    ensures var next := JobStep(job, act.op, act.payload).value;
            && Quiet(next.phase) && next.materialAlternative == job.materialAlternative && next.guidance == job.guidance
  {
    StepShape(job, act.op, act.payload);
    hide JobStep, Objection;
    match act.op
    case Admit | Lease | Dispatch | Start | Evidence | Continue | Alternative | Checkpoint | Crash =>
    case Recover | Failure | Retry | Block | Commit =>
    case QualityAccept | QualityReject | QualityUnknown | GuidanceDecide | RequestCompletion | RepairEscalate | UiDecide =>
    case UnknownOperation =>
  }

  lemma StepKeepsSettled(job: JobState, route: Route, act: Act)
    requires !IsChange(act) && !route.Open? && !route.Routed? && (route.Refused? ==> route.retried)
    requires RemembersRoute(job, route) && JobStep(job, act.op, act.payload).Ok?
    ensures RemembersRoute(JobStep(job, act.op, act.payload).value, Advance(route, act))
  {
    hide JobStep;
    StepStaysQuiet(job, act);
  }

  lemma StepRemembersRoute(job: JobState, route: Route, act: Act)
    requires RemembersRoute(job, route) && JobStep(job, act.op, act.payload).Ok?
    ensures RemembersRoute(JobStep(job, act.op, act.payload).value, Advance(route, act))
  {
    hide JobStep, RemembersRoute, Advance;
    if IsChange(act) {
      StepOpensRoute(job, route, act);
    } else if route.Open? || route.Routed? || (route.Refused? && !route.retried) {
      StepLeavesGate(job, route, act);
    } else {
      StepKeepsSettled(job, route, act);
    }
  }

  lemma StepKeepsAcceptance(job: JobState, act: Act)
    requires JobStep(job, act.op, act.payload).Ok?
    requires JobStep(job, act.op, act.payload).value.quality == Accepted
    ensures act.op.QualityAccept? || (job.quality == Accepted && !IsVerdict(act))
  {
    StepShape(job, act.op, act.payload);
    hide JobStep;
    match act.op
    case Admit | Lease | Dispatch | Start | Evidence | Continue | Alternative | Checkpoint | Crash =>
    case Recover | Failure | Retry | Block | Commit =>
    case QualityAccept | QualityReject | QualityUnknown | GuidanceDecide | RequestCompletion | RepairEscalate | UiDecide =>
    case UnknownOperation =>
  }

  lemma StepRemembers(job: JobState, h: seq<Act>, act: Act)
    requires Sound(job) && Remembers(job, h) && JobStep(job, act.op, act.payload).Ok?
    ensures Remembers(JobStep(job, act.op, act.payload).value, h + [act])
  {
    assert (h + [act])[..|h|] == h;
    if JobStep(job, act.op, act.payload).value.quality == Accepted {
      StepKeepsAcceptance(job, act);
    }
    VerdictKept(h, act);
    EntryKept(h, act);
    StepRemembersEntry(job, Admission(h), AdmittedThenLeased(h), act);
    StepRemembersRoute(job, RouteOf(h), act);
  }

  lemma {:induction false} HistoryRemembered(jobId: string, h: seq<Act>)
    requires Legal(jobId, h)
    ensures Remembers(After(jobId, h).value, h)
  {
    if h != [] {
      var n := |h| - 1;
      assert h[..n] + [h[n]] == h;
      HistoryRemembered(jobId, h[..n]);
      CompletionChecksAlwaysHold(jobId, h[..n]);
      StepRemembers(After(jobId, h[..n]).value, h[..n], h[n]);
    }
  }

  /**
   A completed job was admitted and leased, its last verdict is an acceptance, and its last
   material change was settled. A change refused by guidance and then retried counts as settled.
  */
  lemma CompletionImpliesGates(jobId: string, h: seq<Act>)
    requires Legal(jobId, h) && After(jobId, h).value.phase.Completed?
    ensures HistoryGate(h)
  {
    hide JobStep, Remembers, RouteOf;
    HistoryRemembered(jobId, h);
    QualityStaysAccepted(jobId, h);
    CompletionChecksAlwaysHold(jobId, h);
    CompletedRemembers(After(jobId, h).value, h);
    forall c | LastChangeAt(h, c) ensures Settled(h, c) {
      RouteMeaning(h, c);
    }
  }

  lemma CompletedRemembers(job: JobState, h: seq<Act>)
    requires Sound(job) && Remembers(job, h) && job.phase.Completed? && job.quality == Accepted
    ensures AdmittedThenLeased(h) && LastVerdictAccepts(h)
    ensures match RouteOf(h)
            case NoChange => job.guidance == NotRequired
            case Guided(d) => !d && job.guidance == Approved
            case UserApproved(_) => job.guidance == Approved
            case Refused(d, retried) => !d && retried && job.guidance == Rejected
            case _ => false
  {
    hide AdmittedThenLeased, LastVerdictAccepts;
    assert !Violates(job, NoDecision);
  }

  /**
   What a completed job's guidance says: nothing if it never changed materially, rejected exactly
   if its last change was refused by guidance and retried, and otherwise approved, by guidance
   or by the user.
  */
  lemma GuidanceTellsTheDecision(jobId: string, h: seq<Act>)
    requires Legal(jobId, h) && After(jobId, h).value.phase.Completed?
    ensures var guidance := After(jobId, h).value.guidance;
            && (guidance == NotRequired <==> forall i | 0 <= i < |h| :: !IsChange(h[i]))
            && (forall c :: LastChangeAt(h, c) ==>
                  && Settled(h, c) && (guidance == Rejected || guidance == Approved)
                  && (guidance == Rejected <==> h[c + 1].payload.decision == Rejected))
  {
    hide JobStep, Remembers, RouteOf;
    HistoryRemembered(jobId, h);
    QualityStaysAccepted(jobId, h);
    CompletionChecksAlwaysHold(jobId, h);
    CompletedRemembers(After(jobId, h).value, h);
    NoChangeMeaning(h);
    CompletionImpliesGates(jobId, h);
    forall c | LastChangeAt(h, c)
      ensures var guidance := After(jobId, h).value.guidance;
              && (guidance == Rejected || guidance == Approved)
              && (guidance == Rejected <==> h[c + 1].payload.decision == Rejected)
    {
      RouteMeaning(h, c);
    }
  }

  // A refused change need not stop a job

  /** Accepted evidence, an ordinary alternative, its refusal, a retry, and completion all the same. */
  function RefusedAlternative(): seq<Act> {
    var d := ZeroDigest();
    Started()
    + [Act(Evidence, EvidencePayload(d))]
    + [Act(QualityAccept, VerdictPayload(d, Accepted, Awq))]
    + [Act(Alternative, AlternativePayload(d, "another way", Ordinary))]
    + [Act(GuidanceDecide, GuidancePayload(d, Rejected, Awg))]
    + [Act(Retry, RetryPayload(d, 1))]
    + [Act(RequestCompletion, GatePayload(d))]
    + [Act(Commit, CommitPayload(d, true))]
  }

  lemma RefusedAlternativeCompletes(jobId: string)
    ensures Legal(jobId, RefusedAlternative())
    ensures var job := After(jobId, RefusedAlternative()).value;
            job.phase.Completed? && job.guidance == Rejected
  {
    hide IsDigest, After;
    var d, h := ZeroDigest(), Started();
    StartedJob(jobId);
    var show, accept := Act(Evidence, EvidencePayload(d)), Act(QualityAccept, VerdictPayload(d, Accepted, Awq));
    var change := Act(Alternative, AlternativePayload(d, "another way", Ordinary));
    var refuse, retry := Act(GuidanceDecide, GuidancePayload(d, Rejected, Awg)), Act(Retry, RetryPayload(d, 1));
    var ask, commit := Act(RequestCompletion, GatePayload(d)), Act(Commit, CommitPayload(d, true));
    var job := NewJob(jobId).(phase := Executing, leaseId := "LSE-A");
    var shown := job.(phase := QualityPending, evidence := Some(d));
    var accepted := shown.(phase := QualityAccepted, quality := Accepted);
    var changed := accepted.(phase := OraclePending, materialAlternative := true, guidance := Pending);
    var refused := accepted.(phase := Blocked, guidance := Rejected);
    var retried := refused.(phase := Executing, attempt := 1);
    var asked := retried.(phase := CompletionPending);
    Took(jobId, h, job, show, shown);
    Took(jobId, h + [show], shown, accept, accepted);
    Took(jobId, h + [show] + [accept], accepted, change, changed);
    Took(jobId, h + [show] + [accept] + [change], changed, refuse, refused);
    Took(jobId, h + [show] + [accept] + [change] + [refuse], refused, retry, retried);
    Took(jobId, h + [show] + [accept] + [change] + [refuse] + [retry], retried, ask, asked);
    Took(jobId, h + [show] + [accept] + [change] + [refuse] + [retry] + [ask], asked, commit,
         asked.(phase := Completed, terminalCommit := true));
  }

  lemma StepToCompletion(job: JobState, op: Operation, p: Payload)
    requires JobStep(job, op, p).Ok? && Completing(JobStep(job, op, p).value.phase)
    requires job.phase.CompletionPending? ==> job.quality == Accepted
    ensures JobStep(job, op, p).value.quality == Accepted
    ensures JobStep(job, op, p).value.phase.Completed? ==> op.Commit?
  {
    StepShape(job, op, p);
    hide JobStep;
    match op
    case Admit | Lease | Dispatch | Start | Evidence | Continue | Alternative | Checkpoint | Crash =>
    case Recover | Failure | Retry | Block | Commit =>
    case QualityAccept | QualityReject | QualityUnknown | GuidanceDecide | RequestCompletion | RepairEscalate | UiDecide =>
    case UnknownOperation =>
  }

  /** Completion is requested only with quality accepted, and nothing intervenes before the commit. */
  lemma {:induction false} QualityStaysAccepted(jobId: string, h: seq<Act>)
    requires Legal(jobId, h) && Completing(After(jobId, h).value.phase)
    ensures After(jobId, h).value.quality == Accepted
    ensures After(jobId, h).value.phase.Completed? ==> h != [] && h[|h| - 1].op.Commit?
  {
    hide JobStep;
    var g := h[..|h| - 1];
    if After(jobId, g).value.phase.CompletionPending? {
      QualityStaysAccepted(jobId, g);
    }
    StepToCompletion(After(jobId, g).value, h[|h| - 1].op, h[|h| - 1].payload);
  }

  /** A completed job refuses every further step. */
  lemma CompletedIsAbsorbing(job: JobState, op: Operation, p: Payload)
    requires job.phase.Completed?
    ensures JobStep(job, op, p).Err?
  {
    assert Allowed(job.phase, op).None?;
    if JobStep(job, op, p).Ok? {
      StepShape(job, op, p);
    }
  }

  function Recoveries(h: seq<Act>): nat {
    if h == [] then 0 else
    Recoveries(h[..|h| - 1]) + (if h[|h| - 1].op.Recover? then 1 else 0)
  }

  lemma StepRevision(job: JobState, op: Operation, p: Payload)
    requires JobStep(job, op, p).Ok?
    ensures JobStep(job, op, p).value.revision == job.revision + (if op.Recover? then 1 else 0)
  {
    StepShape(job, op, p);
    hide JobStep;
    match op
    case Admit | Lease | Dispatch | Start | Evidence | Continue | Alternative | Checkpoint | Crash =>
    case Recover | Failure | Retry | Block | Commit =>
    case QualityAccept | QualityReject | QualityUnknown | GuidanceDecide | RequestCompletion | RepairEscalate | UiDecide =>
    case UnknownOperation =>
  }

  lemma {:induction false} RevisionCountsRecoveries(jobId: string, h: seq<Act>)
    requires Legal(jobId, h)
    ensures After(jobId, h).value.revision == 1 + Recoveries(h)
  {
    hide JobStep;
    if h != [] {
      RevisionCountsRecoveries(jobId, h[..|h| - 1]);
      StepRevision(After(jobId, h[..|h| - 1]).value, h[|h| - 1].op, h[|h| - 1].payload);
    }
  }
}
