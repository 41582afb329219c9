/**
 When the evidence a job completes with has been reviewed. Quality-pending, which evidence leads
 to, is left only by a verdict or by a block; a block can skip the review.
*/
module AuthorityReview {
  import opened Identifiers
  import opened Results
  import opened AuthorityModel
  import opened AuthoritySafety
  import opened AuthorityHistory
  import opened AuthorityFields

  function EvidenceAccepted(act: Act): Option<string> {
    if act.op.QualityAccept? && act.payload.VerdictPayload? then Some(act.payload.evidenceDigest) else None
  }

  ghost predicate LastEvidenceAt(h: seq<Act>, e: int) {
    0 <= e < |h| && h[e].op.Evidence? && forall k | e < k < |h| :: !h[k].op.Evidence?
  }

  /** Quality-pending is entered by evidence only, and left by a verdict or a block; verdicts happen only there. */
  lemma StepAtReview(job: JobState, op: Operation, p: Payload)
    requires JobStep(job, op, p).Ok?
    ensures var next := JobStep(job, op, p).value;
            && (next.phase.QualityPending? <==> op.Evidence?)
            && (IsVerdict(Act(op, p)) ==> job.phase.QualityPending?)
            && (job.phase.QualityPending? ==> IsVerdict(Act(op, p)) || op.Block?)
            && (!IsVerdict(Act(op, p)) ==> next.quality == job.quality)
            && (IsVerdict(Act(op, p)) ==> (next.quality == Accepted <==> op.QualityAccept?))
            && (op.QualityAccept? ==> EvidenceAccepted(Act(op, p)) == job.evidence && job.evidence.Some?)
            && (!op.Evidence? ==> next.evidence == job.evidence)
  {
    StepShape(job, op, p);
    hide JobStep;
    match op
    case Admit | Lease | Dispatch | Start | Evidence | Continue | Alternative | Checkpoint | Crash =>
    case Recover | Failure | Retry | Block | Commit =>
    case QualityAccept | QualityReject | QualityUnknown | GuidanceDecide | RequestCompletion | RepairEscalate | UiDecide =>
    case UnknownOperation =>
  }

  lemma {:induction false} PrefixIsLegal(jobId: string, h: seq<Act>, k: nat)
    requires Legal(jobId, h) && k <= |h|
    ensures Legal(jobId, h[..k])
    decreases |h|
  {
    hide JobStep;
    if k == |h| {
      assert h[..k] == h;
    } else {
      assert h[..|h| - 1][..k] == h[..k];
      PrefixIsLegal(jobId, h[..|h| - 1], k);
    }
  }

  lemma LastStep(jobId: string, h: seq<Act>)
    requires Legal(jobId, h) && h != []
    ensures var n := |h| - 1;
            Legal(jobId, h[..n]) && After(jobId, h) == JobStep(After(jobId, h[..n]).value, h[n].op, h[n].payload)
  {
    hide JobStep;
  }

  /** The step after the last evidence decides its review; what follows no longer touches it. */
  lemma {:induction false} AfterLastEvidence(jobId: string, h: seq<Act>, e: nat)
    requires Legal(jobId, h) && LastEvidenceAt(h, e) && e + 1 < |h|
    ensures Legal(jobId, h[..e + 1]) && After(jobId, h[..e + 1]).value.phase.QualityPending?
    ensures IsVerdict(h[e + 1]) || h[e + 1].op.Block?
    ensures forall k | e + 1 < k < |h| :: !IsVerdict(h[k])
    ensures var job, shown := After(jobId, h).value, After(jobId, h[..e + 1]).value;
            && !job.phase.QualityPending?
            && job.evidence == shown.evidence
            && (IsVerdict(h[e + 1]) ==> (job.quality == Accepted <==> h[e + 1].op.QualityAccept?))
            && (h[e + 1].op.Block? ==> job.quality == shown.quality)
    decreases |h|
  {
    hide JobStep;
    var n := |h| - 1;
    var g := h[..n];
    if n == e + 1 {
      assert g == h[..e + 1] && g[..e] == h[..e];
      LastStep(jobId, g);
      StepAtReview(After(jobId, h[..e]).value, h[e].op, h[e].payload);
    } else {
      assert g[..e + 1] == h[..e + 1];
      AfterLastEvidence(jobId, g, e);
      assert g[e + 1] == h[e + 1];
    }
    StepAtReview(After(jobId, g).value, h[n].op, h[n].payload);
  }

  /** A verdict accepted the evidence at e. */
  ghost predicate ReviewedAfter(h: seq<Act>, e: nat) {
    exists k | e < k < |h| :: h[k].op.QualityAccept?
  }

  /** After the evidence at e, a block was accepted while quality, still accepted from before, was pending. */
  ghost predicate ReviewSkipped(jobId: string, h: seq<Act>, e: nat)
    requires Legal(jobId, h)
  {
    exists k | e < k < |h| && Legal(jobId, h[..k]) ::
      h[k].op.Block? && After(jobId, h[..k]).value.phase.QualityPending? && After(jobId, h[..k]).value.quality == Accepted
  }

  lemma {:induction false} LastEvidenceExists(h: seq<Act>)
    requires LastOf(h, EvidenceShown).Some?
    ensures exists e :: LastEvidenceAt(h, e)
  {
    var n := |h| - 1;
    if h[n].op.Evidence? {
      assert LastEvidenceAt(h, n);
    } else {
      LastEvidenceExists(h[..n]);
      var e :| LastEvidenceAt(h[..n], e);
      assert LastEvidenceAt(h, e);
    }
  }

  lemma {:induction false} AcceptedShowedEvidence(jobId: string, h: seq<Act>)
    requires Legal(jobId, h) && After(jobId, h).value.quality == Accepted
    ensures LastOf(h, EvidenceShown).Some?
  {
    hide JobStep, EvidenceShown;
    var n := |h| - 1;
    var job := After(jobId, h[..n]).value;
    StepAtReview(job, h[n].op, h[n].payload);
    if job.quality == Accepted {
      AcceptedShowedEvidence(jobId, h[..n]);
    } else {
      FieldsFollowHistory(jobId, h);
    }
  }

  /** A step that shows no evidence and accepts none leaves both last words alone. */
  lemma {:induction false} LastWordsStay(h: seq<Act>, n: nat)
    requires n <= |h| && forall k | n <= k < |h| :: !h[k].op.Evidence? && !IsVerdict(h[k])
    ensures LastOf(h, EvidenceShown) == LastOf(h[..n], EvidenceShown)
    ensures LastOf(h, EvidenceAccepted) == LastOf(h[..n], EvidenceAccepted)
    decreases |h|
  {
    if n == |h| {
      assert h[..n] == h;
    } else {
      assert h[..|h| - 1][..n] == h[..n];
      LastWordsStay(h[..|h| - 1], n);
    }
  }

  /**
   The evidence a completed job holds was reviewed exactly when the step after it was not a
   block, that is, exactly when no block was accepted in quality-pending after it; such a block
   finds quality accepted from an earlier review. Reviewed evidence is the accepted evidence.
  */
  lemma EvidenceIsReviewedExactlyWhen(jobId: string, h: seq<Act>, e: nat)
    requires Legal(jobId, h) && After(jobId, h).value.phase.Completed? && LastEvidenceAt(h, e)
    ensures e + 1 < |h| && (h[e + 1].op.QualityAccept? <==> !h[e + 1].op.Block?)
    ensures ReviewedAfter(h, e) <==> h[e + 1].op.QualityAccept?
    ensures ReviewedAfter(h, e) <==> !ReviewSkipped(jobId, h, e)
    ensures ReviewedAfter(h, e) ==> LastOf(h, EvidenceAccepted) == LastOf(h, EvidenceShown)
  {
    hide JobStep, After, EvidenceShown;
    CompletedFollowsEvidence(jobId, h, e);
    AfterLastEvidence(jobId, h, e);
    QualityStaysAccepted(jobId, h);
    assert h[e + 1].op.QualityAccept? ==> ReviewedAfter(h, e);
    assert h[e + 1].op.Block? ==> ReviewSkipped(jobId, h, e);
    if ReviewSkipped(jobId, h, e) {
      var k :| e < k < |h| && Legal(jobId, h[..k]) && h[k].op.Block? && After(jobId, h[..k]).value.phase.QualityPending?;
      if k > e + 1 {
        AfterLastEvidence(jobId, h[..k], e);
      }
    }
    if h[e + 1].op.QualityAccept? {
      ReviewedEvidenceIsAccepted(jobId, h, e);
    }
  }

  lemma CompletedFollowsEvidence(jobId: string, h: seq<Act>, e: nat)
    requires Legal(jobId, h) && After(jobId, h).value.phase.Completed? && LastEvidenceAt(h, e)
    ensures e + 1 < |h|
  {
    hide JobStep;
    var n := |h| - 1;
    StepAtReview(After(jobId, h[..n]).value, h[n].op, h[n].payload);
  }

  lemma ReviewedEvidenceIsAccepted(jobId: string, h: seq<Act>, e: nat)
    requires Legal(jobId, h) && LastEvidenceAt(h, e) && e + 1 < |h| && h[e + 1].op.QualityAccept?
    ensures LastOf(h, EvidenceAccepted) == LastOf(h, EvidenceShown)
  {
    hide JobStep;
    AfterLastEvidence(jobId, h, e);
    LastWordsStay(h, e + 2);
    PrefixIsLegal(jobId, h, e + 2);
    assert h[..e + 2][..e + 1] == h[..e + 1];
    StepAtReview(After(jobId, h[..e + 1]).value, h[e + 1].op, h[e + 1].payload);
    FieldsFollowHistory(jobId, h[..e + 2]);
    FieldsFollowHistory(jobId, h[..e + 1]);
  }

  /** A completed job has last evidence, and its evidence field is that evidence. */
  lemma CompletedHasEvidence(jobId: string, h: seq<Act>)
    requires Legal(jobId, h) && After(jobId, h).value.phase.Completed?
    ensures exists e: nat :: LastEvidenceAt(h, e)
    ensures After(jobId, h).value.evidence == LastOf(h, EvidenceShown)
  {
    hide After, EvidenceShown;
    QualityStaysAccepted(jobId, h);
    AcceptedShowedEvidence(jobId, h);
    LastEvidenceExists(h);
    FieldsFollowHistory(jobId, h);
  }

  // A run that skips a review

  function OtherDigest(): (d: string)
    ensures IsDigest(d) && d != ZeroDigest()
  {
    var d := "sha256:" + seq(64, _ => '1');
    assert d[7] != ZeroDigest()[7];
    d
  }

  /** Evidence is accepted, execution continues and shows other evidence... */
  function Reworked(): seq<Act> {
    var d := ZeroDigest();
    Started()
    + [Act(Evidence, EvidencePayload(d))]
    + [Act(QualityAccept, VerdictPayload(d, Accepted, Awq))]
    + [Act(Continue, GatePayload(d))]
    + [Act(Evidence, EvidencePayload(OtherDigest()))]
  }

  lemma ReworkedJob(jobId: string)
    ensures After(jobId, Reworked()) ==
              Ok(NewJob(jobId).(phase := QualityPending, leaseId := "LSE-A", evidence := Some(OtherDigest()), quality := Accepted))
  {
    hide IsDigest, After;
    var d, h := ZeroDigest(), Started();
    StartedJob(jobId);
    var show, accept := Act(Evidence, EvidencePayload(d)), Act(QualityAccept, VerdictPayload(d, Accepted, Awq));
    var go := Act(Continue, GatePayload(d));
    var job := NewJob(jobId).(phase := Executing, leaseId := "LSE-A");
    var shown := job.(phase := QualityPending, evidence := Some(d));
    var accepted := shown.(phase := QualityAccepted, quality := Accepted);
    Took(jobId, h, job, show, shown);
    Took(jobId, h + [show], shown, accept, accepted);
    Took(jobId, h + [show] + [accept], accepted, go, accepted.(phase := Executing));
    Took(jobId, h + [show] + [accept] + [go], accepted.(phase := Executing), Act(Evidence, EvidencePayload(OtherDigest())),
         accepted.(phase := QualityPending, evidence := Some(OtherDigest())));
  }

  /** ...whose review a block and a retry skip. */
  function UnreviewedEvidence(): seq<Act> {
    var d := ZeroDigest();
    Reworked()
    + [Act(Block, BlockPayload(Held, d))]
    + [Act(Retry, RetryPayload(d, 1))]
    + [Act(RequestCompletion, GatePayload(d))]
    + [Act(Commit, CommitPayload(d, true))]
  }

  lemma UnreviewedJob(jobId: string)
    ensures After(jobId, UnreviewedEvidence()) ==
              Ok(NewJob(jobId).(phase := Completed, leaseId := "LSE-A", evidence := Some(OtherDigest()), quality := Accepted,
                                attempt := 1, terminalCommit := true))
  {
    hide IsDigest, After, OtherDigest;
    var d, h := ZeroDigest(), Reworked();
    ReworkedJob(jobId);
    var job := NewJob(jobId).(phase := QualityPending, leaseId := "LSE-A", evidence := Some(OtherDigest()), quality := Accepted);
    var block, retry := Act(Block, BlockPayload(Held, d)), Act(Retry, RetryPayload(d, 1));
    var ask, commit := Act(RequestCompletion, GatePayload(d)), Act(Commit, CommitPayload(d, true));
    var retried := job.(phase := Executing, attempt := 1);
    var asked := retried.(phase := CompletionPending);
    Took(jobId, h, job, block, job.(phase := Blocked));
    Took(jobId, h + [block], job.(phase := Blocked), retry, retried);
    Took(jobId, h + [block] + [retry], retried, ask, asked);
    Took(jobId, h + [block] + [retry] + [ask], asked, commit, asked.(phase := Completed, terminalCommit := true));
  }

  lemma LastOfOneMore<T>(h: seq<Act>, act: Act, pick: Act -> Option<T>)
    ensures LastOf(h + [act], pick) == if pick(act).Some? then pick(act) else LastOf(h, pick)
  {
    assert (h + [act])[..|h|] == h;
  }

  lemma LastAcceptance()
    ensures LastOf(UnreviewedEvidence(), EvidenceAccepted) == Some(ZeroDigest())
  {
    hide IsDigest, ZeroDigest, OtherDigest, LastOf, Started;
    var d := ZeroDigest();
    var h := Started() + [Act(Evidence, EvidencePayload(d))];
    var accept, go := Act(QualityAccept, VerdictPayload(d, Accepted, Awq)), Act(Continue, GatePayload(d));
    LastOfOneMore(h, accept, EvidenceAccepted);
    LastOfOneMore(h + [accept], go, EvidenceAccepted);
    LastOfOneMore(h + [accept] + [go], Act(Evidence, EvidencePayload(OtherDigest())), EvidenceAccepted);
    var g := Reworked();
    var block, retry := Act(Block, BlockPayload(Held, d)), Act(Retry, RetryPayload(d, 1));
    var ask := Act(RequestCompletion, GatePayload(d));
    LastOfOneMore(g, block, EvidenceAccepted);
    LastOfOneMore(g + [block], retry, EvidenceAccepted);
    LastOfOneMore(g + [block] + [retry], ask, EvidenceAccepted);
    LastOfOneMore(g + [block] + [retry] + [ask], Act(Commit, CommitPayload(d, true)), EvidenceAccepted);
  }

  /** The last evidence need not be the accepted evidence: this run completes with evidence nobody reviewed. */
  lemma UnreviewedEvidenceCompletes(jobId: string)
    ensures Legal(jobId, UnreviewedEvidence())
    ensures After(jobId, UnreviewedEvidence()).value.phase.Completed?
    ensures After(jobId, UnreviewedEvidence()).value.evidence == Some(OtherDigest())
    ensures LastOf(UnreviewedEvidence(), EvidenceAccepted) == Some(ZeroDigest()) != Some(OtherDigest())
  {
    hide After, UnreviewedEvidence, LastOf;
    UnreviewedJob(jobId);
    LastAcceptance();
  }
}
