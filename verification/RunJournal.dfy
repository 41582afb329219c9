/**
 The durable run journal: hash-linked events, the lifecycle table that admits them,
 and the projection of every task's status. The digest is a function of the event
 body; where its injectivity matters, the lemma says so.
*/
module RunJournal {
  import opened Identifiers
  import opened Results

  datatype Status =
    | Planned | Ready | Leased | Executing | Streaming | EvidencePending | QualityPending
    | GuidancePending | UiPending | RepairPending | Recovering | Completed | Blocked | Failed
    | OtherStatus(name: string)

  datatype Body = Body(sequence: int, previousDigest: string, taskId: string, status: Status, evidenceDigest: string)

  datatype Event = Event(body: Body, eventDigest: string)

  datatype File = File(graphDigest: string, maxParallelism: int, events: seq<Event>, taskStatus: map<string, Status>)

  /** What a journal is bound to: its tasks, its graph and its digest functions. */
  datatype Binding = Binding(
    tasks: set<string>, graphDigest: string, maxParallelism: int,
    digest: Body -> string, evidenceDigest: string -> string)

  datatype JournalError =
    | BindingMismatch | IntegrityFailure | ProjectionMismatch
    | UnknownState | UnknownTask | TerminalReplay | InvalidTransition

  predicate Known(status: Status) {
    !status.OtherStatus?
  }

  predicate Terminal(status: Status) {
    status.Completed? || status.Blocked? || status.Failed?
  }

  /** The lifecycle table. */
  predicate Follows(prior: Status, status: Status) {
    match prior
    case Planned => status.Ready? || status.Failed? || status.Blocked?
    case Ready => status.Leased? || status.Recovering? || status.Failed? || status.Blocked?
    case Leased => status.Executing? || status.Recovering? || status.Failed? || status.Blocked?
    case Executing => status.Streaming? || status.Recovering? || status.RepairPending? || status.Failed? || status.Blocked?
    case Streaming =>
      status.EvidencePending? || status.Recovering? || status.RepairPending? || status.Failed? || status.Blocked?
    case EvidencePending => status.QualityPending? || status.Recovering? || status.Failed? || status.Blocked?
    case QualityPending =>
      status.GuidancePending? || status.RepairPending? || status.Recovering? || status.Failed? || status.Blocked?
    case GuidancePending => status.UiPending? || status.RepairPending? || status.Failed? || status.Blocked?
    case UiPending => status.Completed? || status.RepairPending? || status.Failed? || status.Blocked?
    case RepairPending => status.Ready? || status.Leased? || status.Failed? || status.Blocked?
    case Recovering => status.Leased? || status.Failed? || status.Blocked?
    case Completed | Blocked | Failed | OtherStatus(_) => false
  }

  function LastDigest(events: seq<Event>): string {
    if events == [] then ZeroDigest() else events[|events| - 1].eventDigest
  }

  /** The status a task has after the events. */
  function StatusAfter(events: seq<Event>, id: string): Status {
    if events == [] then Planned
    else if events[|events| - 1].body.taskId == id then events[|events| - 1].body.status
    else StatusAfter(events[..|events| - 1], id)
  }

  predicate Linked(b: Binding, events: seq<Event>, i: nat)
    requires i < |events|
  {
    var e := events[i];
    && e.body.sequence == i + 1
    && e.body.previousDigest == LastDigest(events[..i])
    && e.eventDigest == b.digest(e.body)
    && e.body.taskId in b.tasks
    && Known(e.body.status)
    && IsDigest(e.body.evidenceDigest)
  }

  predicate Chained(b: Binding, events: seq<Event>) {
    forall i :: 0 <= i < |events| ==> Linked(b, events, i)
  }

  predicate Bound(b: Binding, file: File) {
    file.graphDigest == b.graphDigest && file.maxParallelism == b.maxParallelism && file.taskStatus.Keys == b.tasks
  }

  predicate Projected(file: File) {
    forall id | id in file.taskStatus :: file.taskStatus[id] == StatusAfter(file.events, id)
  }

  /** What loading accepts. */
  predicate Accepts(b: Binding, file: File) {
    Bound(b, file) && Chained(b, file.events) && Projected(file)
  }

  function Refusal(b: Binding, file: File): Option<JournalError> {
    if !Bound(b, file) then Some(BindingMismatch)
    else if !Chained(b, file.events) then Some(IntegrityFailure)
    else if !Projected(file) then Some(ProjectionMismatch)
    else None
  }

  function Fresh(b: Binding): File {
    File(b.graphDigest, b.maxParallelism, [], map id | id in b.tasks :: Planned)
  }

  function NewEvent(b: Binding, events: seq<Event>, id: string, status: Status, evidence: string): Event {
    var body := Body(|events| + 1, LastDigest(events), id, status, b.evidenceDigest(evidence));
    Event(body, b.digest(body))
  }

  /** What a transition request does to the stored file. */
  function Transitioned(b: Binding, file: File, id: string, status: Status, evidence: string): Result<File, JournalError> {
    if !Known(status) then Err(UnknownState) else
    match Refusal(b, file)
    case Some(e) => Err(e)
    case None =>
      if id !in b.tasks then Err(UnknownTask) else
      var prior := file.taskStatus[id];
      if prior == status then Ok(file)
      else if Terminal(prior) then Err(TerminalReplay)
      else if !Follows(prior, status) then Err(InvalidTransition)
      else Ok(file.(events := file.events + [NewEvent(b, file.events, id, status, evidence)],
                    taskStatus := file.taskStatus[id := status]))
  }

  ghost predicate DigestFunctions(b: Binding) {
    forall e :: IsDigest(b.evidenceDigest(e))
  }

  lemma StatusAfterOne(events: seq<Event>, e: Event, id: string)
    ensures StatusAfter(events + [e], id) == if e.body.taskId == id then e.body.status else StatusAfter(events, id)
  {
    assert (events + [e])[..|events + [e]| - 1] == events;
  }

  lemma NothingHappened(id: string)
    ensures StatusAfter([], id) == Planned
  {
  }

  /** Every transition leaves a journal that loading accepts. */
  lemma TransitionKeepsAcceptance(b: Binding, file: File, id: string, status: Status, evidence: string)
    requires DigestFunctions(b) && Accepts(b, file)
    requires Transitioned(b, file, id, status, evidence).Ok?
    ensures Accepts(b, Transitioned(b, file, id, status, evidence).value)
  {
    var after := Transitioned(b, file, id, status, evidence).value;
    if after != file {
      var e := NewEvent(b, file.events, id, status, evidence);
      forall i | 0 <= i < |after.events| ensures Linked(b, after.events, i) {
        assert after.events[..i] == file.events[..i];
        assert file.events[..|file.events|] == file.events;
        if i < |file.events| {
          assert Linked(b, file.events, i);
        }
      }
      forall other | other in after.taskStatus ensures after.taskStatus[other] == StatusAfter(after.events, other) {
        StatusAfterOne(file.events, e, other);
      }
    }
  }

  lemma FreshIsAccepted(b: Binding)
    ensures Accepts(b, Fresh(b))
  {
  }

  // Lifecycle histories

  /** The statuses a task went through, from the initial one. */
  function StatusHistory(events: seq<Event>, id: string): (h: seq<Status>)
    ensures h != []
  {
    if events == [] then [Planned]
    else if events[|events| - 1].body.taskId == id then
      StatusHistory(events[..|events| - 1], id) + [events[|events| - 1].body.status]
    else StatusHistory(events[..|events| - 1], id)
  }

  /** Each status follows the one before by the table; so nothing follows a terminal one. */
  ghost predicate LifecyclePath(h: seq<Status>) {
    h != [] && h[0] == Planned && forall i :: 0 <= i < |h| - 1 ==> Follows(h[i], h[i + 1])
  }

  ghost predicate LifecyclePaths(events: seq<Event>) {
    forall id :: LifecyclePath(StatusHistory(events, id))
  }

  lemma TerminalEndsPath(h: seq<Status>, i: nat)
    requires LifecyclePath(h) && i < |h| && Terminal(h[i])
    ensures i == |h| - 1
  {
    assert i < |h| - 1 ==> Follows(h[i], h[i + 1]);
  }

  lemma {:induction false} HistoryEndsInStatus(events: seq<Event>, id: string)
    ensures var h := StatusHistory(events, id); h[|h| - 1] == StatusAfter(events, id)
  {
    if events != [] && events[|events| - 1].body.taskId != id {
      HistoryEndsInStatus(events[..|events| - 1], id);
    }
  }

  lemma TransitionKeepsPaths(b: Binding, file: File, id: string, status: Status, evidence: string)
    requires Accepts(b, file) && LifecyclePaths(file.events)
    requires Transitioned(b, file, id, status, evidence).Ok?
    ensures LifecyclePaths(Transitioned(b, file, id, status, evidence).value.events)
  {
    var after := Transitioned(b, file, id, status, evidence).value;
    if after != file {
      var n := |file.events|;
      assert after.events[..n] == file.events;
      forall other ensures LifecyclePath(StatusHistory(after.events, other)) {
        var h := StatusHistory(file.events, other);
        HistoryEndsInStatus(file.events, other);
        assert LifecyclePath(h);
        if other == id {
          var longer := h + [status];
          forall i | 0 <= i < |longer| - 1 ensures Follows(longer[i], longer[i + 1]) {
            if i < |h| - 1 {
              assert Follows(h[i], h[i + 1]);
            }
          }
        }
      }
    }
  }

  datatype Request = Request(id: string, status: Status, evidence: string)

  /** The file after a run of transition requests; refused ones change nothing. */
  function AfterRequests(b: Binding, requests: seq<Request>): File {
    if requests == [] then Fresh(b) else
    var before, q := AfterRequests(b, requests[..|requests| - 1]), requests[|requests| - 1];
    match Transitioned(b, before, q.id, q.status, q.evidence)
    case Ok(after) => after
    case Err(_) => before
  }

  /** In every run the journal stays loadable and every task walks the lifecycle table. */
  lemma {:induction false} EveryRunIsSound(b: Binding, requests: seq<Request>)
    requires DigestFunctions(b)
    ensures Accepts(b, AfterRequests(b, requests)) && LifecyclePaths(AfterRequests(b, requests).events)
  {
    if requests == [] {
      FreshIsAccepted(b);
    } else {
      var rest, q := requests[..|requests| - 1], requests[|requests| - 1];
      EveryRunIsSound(b, rest);
      var before := AfterRequests(b, rest);
      if Transitioned(b, before, q.id, q.status, q.evidence).Ok? {
        TransitionKeepsAcceptance(b, before, q.id, q.status, q.evidence);
        TransitionKeepsPaths(b, before, q.id, q.status, q.evidence);
      }
    }
  }

  // Tamper evidence

  ghost predicate Injective(digest: Body -> string) {
    forall x, y :: digest(x) == digest(y) ==> x == y
  }

  /** No event's digest is the anchor a chain starts from. */
  ghost predicate NeverAnchor(digest: Body -> string) {
    forall body :: digest(body) != ZeroDigest()
  }

  lemma {:induction false} SameDigestSameEvents(b: Binding, xs: seq<Event>, ys: seq<Event>)
    requires Injective(b.digest) && Chained(b, xs) && Chained(b, ys)
    requires xs != [] && ys != [] && LastDigest(xs) == LastDigest(ys)
    ensures xs == ys
    decreases |xs|
  {
    var n := |xs| - 1;
    assert Linked(b, xs, n) && Linked(b, ys, |ys| - 1);
    assert xs[n].body == ys[|ys| - 1].body;
    assert |xs| == |ys|;
    assert xs == xs[..n] + [xs[n]] && ys == ys[..n] + [ys[n]];
    if n > 0 {
      ChainedPrefix(b, xs, n);
      ChainedPrefix(b, ys, n);
      SameDigestSameEvents(b, xs[..n], ys[..n]);
    }
  }

  /**
   Two accepted chains with the same last digest are the same chain. The last digest of the empty
   chain is the anchor, so it is told from the others only if no event's digest is the anchor.
  */
  lemma SameDigestSameChain(b: Binding, xs: seq<Event>, ys: seq<Event>)
    requires Injective(b.digest) && Chained(b, xs) && Chained(b, ys) && LastDigest(xs) == LastDigest(ys)
    ensures xs == ys || ((xs == [] || ys == []) && !NeverAnchor(b.digest))
  {
    if xs != [] && ys != [] {
      SameDigestSameEvents(b, xs, ys);
    } else {
      assert xs != [] ==> Linked(b, xs, |xs| - 1) && b.digest(xs[|xs| - 1].body) == LastDigest(xs);
      assert ys != [] ==> Linked(b, ys, |ys| - 1) && b.digest(ys[|ys| - 1].body) == LastDigest(ys);
    }
  }

  lemma ChainedPrefix(b: Binding, xs: seq<Event>, n: nat)
    requires Chained(b, xs) && n <= |xs|
    ensures Chained(b, xs[..n])
  {
    forall i | 0 <= i < n ensures Linked(b, xs[..n], i) {
      assert xs[..n][..i] == xs[..i];
      assert Linked(b, xs, i);
    }
  }

  function Attempts(events: seq<Event>, id: string): nat {
    if events == [] then 0 else
    var last := events[|events| - 1].body;
    Attempts(events[..|events| - 1], id) + (if last.taskId == id && last.status.Leased? then 1 else 0)
  }

  /** The journal object: one stored file, re-read and re-checked by every operation. */
  class Journal {
    const binding: Binding
    var file: File

    ghost predicate Valid()
      reads this
    {
      DigestFunctions(binding) && Accepts(binding, file)
    }

    constructor (binding: Binding)
      requires DigestFunctions(binding)
      ensures Valid() && this.binding == binding && file == Fresh(binding)
    {
      this.binding := binding;
      this.file := Fresh(binding);
    }

    /** Reads the file back, checking the binding, every link of the chain and the projection. */
    method Load() returns (r: Result<File, JournalError>)
      ensures r == match Refusal(binding, file) case Some(e) => Err(e) case None => Ok(file)
    {
      hide IsDigest, Known, StatusAfter;
      var value := file;
      if value.graphDigest != binding.graphDigest || value.maxParallelism != binding.maxParallelism
         || value.taskStatus.Keys != binding.tasks {
        return Err(BindingMismatch);
      }
      var previous := ZeroDigest();
      var derived := map id | id in binding.tasks :: Planned;
      forall id { NothingHappened(id); }
      for n := 0 to |value.events|
        invariant previous == LastDigest(value.events[..n])
        invariant forall i :: 0 <= i < n ==> Linked(binding, value.events, i)
        invariant derived.Keys == binding.tasks
        invariant forall id | id in derived :: derived[id] == StatusAfter(value.events[..n], id)
      {
        var e := value.events[n];
        assert value.events[..n + 1] == value.events[..n] + [e];
        if e.body.sequence != n + 1 || e.body.previousDigest != previous || e.eventDigest != binding.digest(e.body)
           || e.body.taskId !in binding.tasks || !Known(e.body.status) || !IsDigest(e.body.evidenceDigest) {
          assert !Linked(binding, value.events, n);
          return Err(IntegrityFailure);
        }
        forall id { StatusAfterOne(value.events[..n], e, id); }
        previous := e.eventDigest;
        derived := derived[e.body.taskId := e.body.status];
      }
      assert value.events[..|value.events|] == value.events;
      if derived != value.taskStatus {
        assert exists id | id in derived :: derived[id] != value.taskStatus[id];
        return Err(ProjectionMismatch);
      }
      r := Ok(value);
    }

    method Transition(id: string, status: Status, evidence: string) returns (r: Result<bool, JournalError>)
      modifies this
      ensures match Transitioned(binding, old(file), id, status, evidence)
              case Ok(after) => r.Ok? && file == after
              case Err(e) => r == Err(e) && file == old(file)
      ensures old(Valid()) ==> Valid()
    {
      if old(Valid()) && Transitioned(binding, file, id, status, evidence).Ok? {
        TransitionKeepsAcceptance(binding, file, id, status, evidence);
      }
      if status.OtherStatus? { return Err(UnknownState); }
      var loaded := Load();
      if loaded.Err? { return Err(loaded.error); }
      var value := loaded.value;
      if id !in binding.tasks { return Err(UnknownTask); }
      var prior := value.taskStatus[id];
      if Terminal(prior) {
        if prior == status { return Ok(false); }
        return Err(TerminalReplay);
      }
      if prior == status { return Ok(false); }
      if !Follows(prior, status) { return Err(InvalidTransition); }
      var body := Body(|value.events| + 1, LastDigest(value.events), id, status, binding.evidenceDigest(evidence));
      value := value.(events := value.events + [Event(body, binding.digest(body))]);
      value := value.(taskStatus := value.taskStatus[id := status]);
      file := value;
      r := Ok(true);
    }

    method CountAttempts(id: string) returns (n: nat)
      ensures n == Attempts(file.events, id)
    {
      n := 0;
      for i := 0 to |file.events|
        invariant n == Attempts(file.events[..i], id)
      {
        assert file.events[..i + 1][..i] == file.events[..i];
        if file.events[i].body.taskId == id && file.events[i].body.status.Leased? {
          n := n + 1;
        }
      }
      assert file.events[..|file.events|] == file.events;
    }
  }
}
