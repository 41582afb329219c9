/**
 The lifecycle table read backwards, and what it says of a completed task: there is one way into
 completion, its last eight steps are always the same, and the table lets every ready task take them.
*/
module JournalPaths {
  import opened Identifiers
  import opened Results
  import opened RunJournal

  /** The statuses from which a status is entered. */
  function EnteredFrom(status: Status): set<Status> {
    match status
    case Planned | OtherStatus(_) => {}
    case Ready => {Planned, RepairPending}
    case Leased => {Ready, RepairPending, Recovering}
    case Executing => {Leased}
    case Streaming => {Executing}
    case EvidencePending => {Streaming}
    case QualityPending => {EvidencePending}
    case GuidancePending => {QualityPending}
    case UiPending => {GuidancePending}
    case Completed => {UiPending}
    case RepairPending => {Executing, Streaming, QualityPending, GuidancePending, UiPending}
    case Recovering => {Ready, Leased, Executing, Streaming, EvidencePending, QualityPending}
    case Failed | Blocked =>
      {Planned, Ready, Leased, Executing, Streaming, EvidencePending, QualityPending, GuidancePending, UiPending,
       RepairPending, Recovering}
  }

  lemma EnteredExactlyFrom(prior: Status, status: Status)
    ensures Follows(prior, status) <==> prior in EnteredFrom(status)
  {
  }

  /**
   On an accepted file a request is carried out exactly when it names a known status and task and the status
   is the task's own or can be entered from it; it then adds the one event that says so, or nothing.
  */
  lemma RequestedExactlyWhen(b: Binding, file: File, id: string, status: Status, evidence: string)
    requires Accepts(b, file)
    ensures var r := Transitioned(b, file, id, status, evidence);
            && (r.Ok? <==>
                  && !status.OtherStatus? && id in b.tasks
                  && (file.taskStatus[id] == status || file.taskStatus[id] in EnteredFrom(status)))
            && (r.Ok? && file.taskStatus[id] == status ==> r.value == file)
            && (r.Ok? && file.taskStatus[id] != status ==>
                  var body := Body(|file.events| + 1, LastDigest(file.events), id, status, b.evidenceDigest(evidence));
                  && r.value.events == file.events + [Event(body, b.digest(body))]
                  && r.value.taskStatus == file.taskStatus[id := status])
  {
    if id in b.tasks {
      EnteredExactlyFrom(file.taskStatus[id], status);
    }
  }

  /** Otherwise the first check it fails is named: the status, the file, the task, a terminal status, the table. */
  lemma RequestRefusals(b: Binding, file: File, id: string, status: Status, evidence: string)
    ensures var r := Transitioned(b, file, id, status, evidence);
            && (status.OtherStatus? ==> r == Err(UnknownState))
            && (!status.OtherStatus? && Refusal(b, file).Some? ==> r == Err(Refusal(b, file).value))
            && (!status.OtherStatus? && Refusal(b, file).None? && id !in b.tasks ==> r == Err(UnknownTask))
            && (!status.OtherStatus? && Refusal(b, file).None? && id in b.tasks && r.Err? ==>
                  r == Err(if file.taskStatus[id] in {Completed, Blocked, Failed} then TerminalReplay else InvalidTransition))
  {
  }

  /** The event counts up, names the digest before it, carries its own, and speaks of a known task and status. */
  ghost predicate Continues(b: Binding, events: seq<Event>, i: nat)
    requires i < |events|
  {
    var body := events[i].body;
    && body.sequence == i + 1 && events[i].eventDigest == b.digest(body)
    && body.previousDigest == (if i == 0 then ZeroDigest() else events[i - 1].eventDigest)
    && body.taskId in b.tasks && !body.status.OtherStatus? && IsDigest(body.evidenceDigest)
  }

  lemma LinkedExactlyWhenContinuing(b: Binding, events: seq<Event>, i: nat)
    requires i < |events|
    ensures Linked(b, events, i) <==> Continues(b, events, i)
  {
    hide IsDigest, ZeroDigest;
    assert LastDigest(events[..i]) == if i == 0 then ZeroDigest() else events[i - 1].eventDigest;
  }

  /**
   A file is accepted exactly when it is bound to the journal's tasks, graph and bound, every event continues
   the ones before it, and its statuses are the last ones told.
  */
  lemma AcceptedExactlyWhen(b: Binding, file: File)
    ensures Accepts(b, file) <==>
              && file.graphDigest == b.graphDigest && file.maxParallelism == b.maxParallelism
              && file.taskStatus.Keys == b.tasks
              && (forall i | 0 <= i < |file.events| :: Continues(b, file.events, i))
              && forall id | id in file.taskStatus :: file.taskStatus[id] == StatusAfter(file.events, id)
  {
    hide StatusAfter, Linked, Continues;
    forall i | 0 <= i < |file.events| ensures Linked(b, file.events, i) <==> Continues(b, file.events, i) {
      LinkedExactlyWhenContinuing(b, file.events, i);
    }
  }

  /** And a file that is refused fails its binding, then its chain, then its projection. */
  lemma LoadRefusals(b: Binding, file: File)
    ensures Refusal(b, file) == Some(BindingMismatch) <==>
              file.graphDigest != b.graphDigest || file.maxParallelism != b.maxParallelism || file.taskStatus.Keys != b.tasks
    ensures Refusal(b, file) == Some(IntegrityFailure) ==> !Chained(b, file.events)
    ensures Refusal(b, file) == Some(ProjectionMismatch) ==>
              Chained(b, file.events) && exists id | id in file.taskStatus :: file.taskStatus[id] != StatusAfter(file.events, id)
    ensures Refusal(b, file) in {None, Some(BindingMismatch), Some(IntegrityFailure), Some(ProjectionMismatch)}
  {
  }

  /** The last eight statuses on the way to completion. */
  function WholeWay(): (way: seq<Status>)
    ensures |way| == 8
  {
    [Leased, Executing, Streaming, EvidencePending, QualityPending, GuidancePending, UiPending, Completed]
  }

  lemma WholeWayFollows(n: nat)
    requires n < 8
    ensures Follows(if n == 0 then Ready else WholeWay()[n - 1], WholeWay()[n])
    ensures Known(WholeWay()[n]) && WholeWay()[n] != if n == 0 then Ready else WholeWay()[n - 1]
  {
  }

  /** The k-th last step was taken on the whole way. */
  lemma {:induction false} StepsBack(h: seq<Status>, k: nat)
    requires LifecyclePath(h) && h[|h| - 1] == Completed && k < 8
    ensures |h| >= k + 2 && h[|h| - 1 - k] == WholeWay()[7 - k]
  {
    if k > 0 {
      StepsBack(h, k - 1);
      EnteredExactlyFrom(h[|h| - 1 - k], h[|h| - k]);
    } else {
      assert h[0] == Planned;
    }
  }

  /**
   A completed task was ready first, and last went through lease, execution, streaming, evidence, quality,
   guidance and the user's gate, in this order and with nothing in between, from a ready, repaired or
   recovered status.
  */
  lemma CompletionTakesTheWholeWay(h: seq<Status>)
    requires LifecyclePath(h) && h[|h| - 1] == Completed
    ensures |h| >= 10 && h[0] == Planned && h[1] == Ready
    ensures h[|h| - 8..] == WholeWay()
    ensures h[|h| - 9] in {Ready, RepairPending, Recovering}
  {
    StepsBack(h, 7);
    forall i | 0 <= i < 8 ensures h[|h| - 8..][i] == WholeWay()[i] {
      StepsBack(h, 7 - i);
    }
    assert h[|h| - 8] == Leased;
    EnteredExactlyFrom(h[|h| - 9], h[|h| - 8]);
    assert Follows(h[0], h[1]) && (|h| > 2 ==> Follows(h[1], h[2]));
  }

  /** So it is for every task of every run that the journal shows as completed. */
  lemma EveryCompletionTookTheWholeWay(b: Binding, requests: seq<Request>, id: string)
    requires DigestFunctions(b)
    requires id in AfterRequests(b, requests).taskStatus && AfterRequests(b, requests).taskStatus[id] == Completed
    ensures var h := StatusHistory(AfterRequests(b, requests).events, id);
            |h| >= 10 && h[1] == Ready && h[|h| - 9] in {Ready, RepairPending, Recovering} && h[|h| - 8..] == WholeWay()
  {
    hide StatusHistory, LifecyclePath;
    EveryRunIsSound(b, requests);
    var file := AfterRequests(b, requests);
    HistoryEndsInStatus(file.events, id);
    assert LifecyclePath(StatusHistory(file.events, id));
    CompletionTakesTheWholeWay(StatusHistory(file.events, id));
  }

  lemma KnownIfEntered(b: Binding, file: File, id: string, status: Status)
    requires Accepts(b, file) && id in file.taskStatus && file.taskStatus[id] in EnteredFrom(status)
    ensures id in b.tasks && !status.OtherStatus? && file.taskStatus[id] != status
  {
    hide Chained, Projected;
  }

  /** A request the table admits is carried out. */
  lemma AdmittedIsDone(b: Binding, requests: seq<Request>, q: Request)
    requires DigestFunctions(b) && q.id in AfterRequests(b, requests).taskStatus
    requires AfterRequests(b, requests).taskStatus[q.id] in EnteredFrom(q.status)
    ensures AfterRequests(b, requests + [q]).taskStatus == AfterRequests(b, requests).taskStatus[q.id := q.status]
  {
    hide Transitioned, Accepts, LifecyclePaths, DigestFunctions, EnteredFrom;
    EveryRunIsSound(b, requests);
    var before := AfterRequests(b, requests);
    KnownIfEntered(b, before, q.id, q.status);
    RequestedExactlyWhen(b, before, q.id, q.status, q.evidence);
    assert (requests + [q])[..|requests|] == requests;
  }

  function Asks(id: string, statuses: seq<Status>, evidence: string): (r: seq<Request>)
    ensures |r| == |statuses|
  {
    seq(|statuses|, i requires 0 <= i < |statuses| => Request(id, statuses[i], evidence))
  }

  /** And a ready task can be taken the whole way. */
  lemma {:induction false} WholeWayIsOpen(b: Binding, requests: seq<Request>, id: string, evidence: string, n: nat)
    requires DigestFunctions(b) && n <= 8
    requires id in AfterRequests(b, requests).taskStatus && AfterRequests(b, requests).taskStatus[id] == Ready
    ensures AfterRequests(b, requests + Asks(id, WholeWay()[..n], evidence)).taskStatus
         == AfterRequests(b, requests).taskStatus[id := if n == 0 then Ready else WholeWay()[n - 1]]
  {
    hide AfterRequests;
    var asks := Asks(id, WholeWay()[..n], evidence);
    if n == 0 {
      assert requests + asks == requests;
      assert AfterRequests(b, requests).taskStatus[id := Ready] == AfterRequests(b, requests).taskStatus;
    } else {
      WholeWayIsOpen(b, requests, id, evidence, n - 1);
      var earlier := Asks(id, WholeWay()[..n - 1], evidence);
      assert asks == earlier + [Request(id, WholeWay()[n - 1], evidence)];
      assert requests + asks == (requests + earlier) + [Request(id, WholeWay()[n - 1], evidence)];
      AdmittedIsDone(b, requests + earlier, Request(id, WholeWay()[n - 1], evidence));
    }
  }

  // Attempts

  /** The places in the journal where the task was leased. */
  ghost function LeasedAt(events: seq<Event>, id: string): set<int> {
    set i | 0 <= i < |events| && events[i].body.taskId == id && events[i].body.status == Leased
  }

  lemma LeasedOneMore(events: seq<Event>, id: string)
    requires events != []
    ensures var n := |events| - 1;
            var last := events[n].body;
            LeasedAt(events, id)
            == LeasedAt(events[..n], id) + if last.taskId == id && last.status == Leased then {n} else {}
  {
    var n := |events| - 1;
    forall i | 0 <= i < n ensures events[..n][i] == events[i] {
    }
  }

  /** A task's attempts are the times it was leased. */
  lemma {:induction false} AttemptsCountLeases(events: seq<Event>, id: string)
    ensures Attempts(events, id) == |LeasedAt(events, id)|
  {
    if events != [] {
      var n := |events| - 1;
      AttemptsCountLeases(events[..n], id);
      var last := events[n].body;
      var now := if last.taskId == id && last.status == Leased then {n} else {};
      LeasedOneMore(events, id);
      assert LeasedAt(events[..n], id) !! now;
    }
  }
}
