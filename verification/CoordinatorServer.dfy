/**
 The in-process coordinator: a revisioned event log behind compare-and-swap writes,
 with replay detection by operation id and an ordered queue of injected faults.

 Digests and the privacy scan are functions supplied from outside. The request
 fingerprint covers everything but the attempt number and the timeout.
*/
module CoordinatorServer {
  import opened Identifiers
  import opened Results

  datatype Operation = ReadRevision | WriteEvent | OtherOperation

  /** The part of a request its fingerprint covers. */
  datatype Core = Core(
    protocol: string, taskId: string, projectKey: string, worktreeKey: string, sessionId: string,
    ownerId: string, leaseId: string, authReference: string, operation: Operation,
    operationId: string, correlationId: string, expectedRevision: int,
    eventKind: Option<string>, eventDigest: Option<string>, authProof: string)

  datatype Request = Request(core: Core, attempt: int, timeoutMs: int)

  datatype Response = Response(
    disposition: string, taskId: Option<string>, taskRevision: Option<int>, eventCount: Option<int>,
    stateDigest: Option<string>, eventDigest: Option<string>,
    correlationId: Option<string>, operationId: Option<string>)

  datatype Event = Event(
    operationId: string, correlationId: string, eventKind: string, eventDigest: string, taskRevision: int)

  datatype Fault = Unavailable | DeadlineExceeded | Timeout | AmbiguousAfterCommit | MalformedResponse

  datatype IdName = TaskName | SessionName | OwnerName | LeaseName | OperationName | CorrelationName | ReferenceName

  datatype Code =
    | UnsupportedProtocol | CrossedBinding | InvalidId(name: IdName) | InvalidWorktreeKey | InvalidAuthProof
    | InvalidBounds | PrivacyOrOperation | ChangedReplay | FaultCode(fault: Fault) | AmbiguousOutcome
    | StaleRevision | InvalidEventKind | InvalidEventDigest | InvalidRevision

  datatype Reply = Accepted(response: Response) | Rejected(code: Code)

  datatype Stored = Stored(fingerprint: string, response: Response)

  datatype Server = Server(
    taskId: string, revision: int, authReference: string, events: seq<Event>,
    operations: map<string, Stored>, faults: seq<Fault>)

  datatype Functions = Functions(
    fingerprint: Core -> string, authProof: (string, string) -> string,
    stateDigest: seq<Event> -> string, isPrivate: string -> bool)

  const PROTOCOL := "awr-coordinator-client/1.0.0"
  const PROJECT := "agent-workflow-runtime"
  const MAX_ATTEMPTS := 3
  const MAX_TIMEOUT_MS := 30000

  predicate IsWorktreeKey(s: string) {
    && 1 <= |s| <= 128 && s[0] != '-'
    && forall i :: 0 <= i < |s| ==> 'a' <= s[i] <= 'z' || '0' <= s[i] <= '9' || s[i] == '-'
  }

  predicate IsEventKind(s: string) {
    && 1 <= |s| <= 32 && 'a' <= s[0] <= 'z'
    && forall i :: 0 <= i < |s| ==> 'a' <= s[i] <= 'z' || '0' <= s[i] <= '9' || s[i] == '_'
  }

  /** Every text of a request the privacy scan looks at. */
  function Texts(c: Core): seq<string> {
    [c.protocol, c.taskId, c.projectKey, c.worktreeKey, c.sessionId, c.ownerId, c.leaseId,
     c.authReference, c.operationId, c.correlationId, c.authProof]
    + (if c.eventKind.Some? then [c.eventKind.value] else [])
    + (if c.eventDigest.Some? then [c.eventDigest.value] else [])
  }

  /** The first identifier of a request that is malformed, if any. */
  function BadId(c: Core): Option<IdName> {
    if !IsTaskId(c.taskId) then Some(TaskName)
    else if !IsId("SES-", c.sessionId) then Some(SessionName)
    else if !IsId("WRK-", c.ownerId) then Some(OwnerName)
    else if !IsId("LSE-", c.leaseId) then Some(LeaseName)
    else if !IsId("OP-", c.operationId) then Some(OperationName)
    else if !IsId("CORR-", c.correlationId) then Some(CorrelationName)
    else if !IsId("AUTH-", c.authReference) then Some(ReferenceName)
    else None
  }

  /** Why a request's core is refused before the log is consulted, if it is. */
  function CoreRefusal(f: Functions, taskId: string, authReference: string, c: Core): (r: Option<Code>)
    ensures r.Some? ==> !r.value.FaultCode? && !r.value.AmbiguousOutcome?
  {
    if c.protocol != PROTOCOL then Some(UnsupportedProtocol)
    else if c.taskId != taskId || c.projectKey != PROJECT || c.authReference != authReference then Some(CrossedBinding)
    else if BadId(c).Some? then Some(InvalidId(BadId(c).value))
    else if !IsWorktreeKey(c.worktreeKey) then Some(InvalidWorktreeKey)
    else if !IsDigest(c.authProof) || c.authProof != f.authProof(authReference, c.correlationId) then Some(InvalidAuthProof)
    else None
  }

  predicate BoundsHold(r: Request) {
    1 <= r.timeoutMs <= MAX_TIMEOUT_MS && 1 <= r.attempt <= MAX_ATTEMPTS
  }

  predicate Scanned(f: Functions, c: Core) {
    !c.operation.OtherOperation? && !exists t | t in Texts(c) :: f.isPrivate(t)
  }

  function RequestRefusal(f: Functions, s: Server, r: Request): Option<Code> {
    var refusal := CoreRefusal(f, s.taskId, s.authReference, r.core);
    if refusal.Some? then refusal
    else if !BoundsHold(r) then Some(InvalidBounds)
    else if !Scanned(f, r.core) then Some(PrivacyOrOperation)
    else None
  }

  function ReadResponse(f: Functions, s: Server, c: Core): Response {
    Response("accepted", Some(s.taskId), Some(s.revision), Some(|s.events|),
             Some(f.stateDigest(s.events)), None, Some(c.correlationId), Some(c.operationId))
  }

  /** The response to the write that made the log this long. */
  function WriteResponse(taskId: string, revision: int, count: nat, digest: string, c: Core): Response {
    Response("accepted", Some(taskId), Some(revision), Some(count), None, Some(digest),
             Some(c.correlationId), Some(c.operationId))
  }

  predicate Committable(c: Core) {
    c.eventKind.Some? && IsEventKind(c.eventKind.value) && c.eventDigest.Some? && IsDigest(c.eventDigest.value)
  }

  function EventOf(c: Core, revision: int): Event
    requires Committable(c)
  {
    Event(c.operationId, c.correlationId, c.eventKind.value, c.eventDigest.value, revision)
  }

  /** The log with one more entry, and the operation remembered with its response. */
  function Committed(f: Functions, s: Server, c: Core): Server
    requires Committable(c)
  {
    var response := WriteResponse(s.taskId, s.revision + 1, |s.events| + 1, c.eventDigest.value, c);
    s.(events := s.events + [EventOf(c, s.revision)], revision := s.revision + 1,
       operations := s.operations[c.operationId := Stored(f.fingerprint(c), response)])
  }

  function CommitRefusal(c: Core): Code
    requires !Committable(c)
  {
    if c.eventKind.None? || !IsEventKind(c.eventKind.value) then InvalidEventKind else InvalidEventDigest
  }

  /** Serves one request: replay, then an injected fault, then compare-and-swap. */
  function Exchange(f: Functions, s: Server, r: Request): (Server, Reply) {
    var refusal := RequestRefusal(f, s, r);
    var c := r.core;
    if refusal.Some? then (s, Rejected(refusal.value))
    else if c.operationId in s.operations then
      (s, if s.operations[c.operationId].fingerprint == f.fingerprint(c)
          then Accepted(s.operations[c.operationId].response) else Rejected(ChangedReplay))
    else if s.faults != [] then Faulted(f, s.(faults := s.faults[1..]), c, s.faults[0])
    else if c.expectedRevision != s.revision then (s, Rejected(StaleRevision))
    else if c.operation.ReadRevision? then
      var response := ReadResponse(f, s, c);
      (s.(operations := s.operations[c.operationId := Stored(f.fingerprint(c), response)]), Accepted(response))
    else if !Committable(c) then (s, Rejected(CommitRefusal(c)))
    else
      var after := Committed(f, s, c);
      (after, Accepted(after.operations[c.operationId].response))
  }

  const MALFORMED := Response("accepted", None, None, None, None, None, Some("wrong"), None)

  function Faulted(f: Functions, s: Server, c: Core, fault: Fault): (Server, Reply) {
    match fault
    case AmbiguousAfterCommit =>
      if !c.operation.WriteEvent? then (s, Rejected(AmbiguousOutcome))
      else if !Committable(c) then (s, Rejected(CommitRefusal(c)))
      else (Committed(f, s, c), Rejected(AmbiguousOutcome))
    case MalformedResponse => (s, Accepted(MALFORMED))
    case _ => (s, Rejected(FaultCode(fault)))
  }

  /** A request that is rejected before the log is consulted changes nothing, whatever is queued. */
  ghost predicate RejectedWith(f: Functions, s: Server, r: Request, code: Code) {
    Exchange(f, s, r) == (s, Rejected(code))
  }

  /** The request is for this coordinator, in its protocol. */
  ghost predicate Addressed(s: Server, c: Core) {
    && c.protocol == "awr-coordinator-client/1.0.0"
    && c.taskId == s.taskId && c.projectKey == "agent-workflow-runtime" && c.authReference == s.authReference
  }

  ghost predicate WellIdentified(c: Core) {
    && IsTaskId(c.taskId) && IsId("SES-", c.sessionId) && IsId("WRK-", c.ownerId) && IsId("LSE-", c.leaseId)
    && IsId("OP-", c.operationId) && IsId("CORR-", c.correlationId) && IsId("AUTH-", c.authReference)
  }

  /** The proof is the digest of the coordinator's own reference and the request's correlation. */
  ghost predicate Proven(f: Functions, s: Server, c: Core) {
    IsDigest(c.authProof) && c.authProof == f.authProof(s.authReference, c.correlationId)
  }

  ghost predicate Fit(f: Functions, s: Server, c: Core) {
    Addressed(s, c) && WellIdentified(c) && IsWorktreeKey(c.worktreeKey) && Proven(f, s, c)
  }

  /** A request for somebody else, malformed, or without the right proof is rejected with the code of its first fault. */
  lemma UnfitRequestsAreRejected(f: Functions, s: Server, r: Request)
    ensures var c := r.core;
            && (c.protocol != "awr-coordinator-client/1.0.0" ==> RejectedWith(f, s, r, UnsupportedProtocol))
            && (c.protocol == "awr-coordinator-client/1.0.0" && !Addressed(s, c) ==> RejectedWith(f, s, r, CrossedBinding))
            && (Addressed(s, c) && !WellIdentified(c) ==> exists name :: RejectedWith(f, s, r, InvalidId(name)))
            && (Addressed(s, c) && WellIdentified(c) && !IsWorktreeKey(c.worktreeKey) ==>
                  RejectedWith(f, s, r, InvalidWorktreeKey))
            && (Addressed(s, c) && WellIdentified(c) && IsWorktreeKey(c.worktreeKey) && !Proven(f, s, c) ==>
                  RejectedWith(f, s, r, InvalidAuthProof))
            && (Fit(f, s, c) && !(1 <= r.timeoutMs <= 30000 && 1 <= r.attempt <= 3) ==> RejectedWith(f, s, r, InvalidBounds))
            && (Fit(f, s, c) && 1 <= r.timeoutMs <= 30000 && 1 <= r.attempt <= 3
                && (c.operation.OtherOperation? || exists t | t in Texts(c) :: f.isPrivate(t)) ==>
                  RejectedWith(f, s, r, PrivacyOrOperation))
  {
    hide IsId, IsTaskId, IsDigest, IsWorktreeKey, Texts;
    var c := r.core;
    assert BadId(c).None? <==> WellIdentified(c);
    if BadId(c).Some? && Addressed(s, c) {
      assert RejectedWith(f, s, r, InvalidId(BadId(c).value));
    }
  }

  /** The name in the code is that of the first malformed identifier. */
  lemma FirstBadIdIsNamed(c: Core)
    ensures BadId(c) == Some(TaskName) <==> !IsTaskId(c.taskId)
    ensures BadId(c) == Some(SessionName) <==> IsTaskId(c.taskId) && !IsId("SES-", c.sessionId)
    ensures BadId(c) == Some(OwnerName) <==>
              IsTaskId(c.taskId) && IsId("SES-", c.sessionId) && !IsId("WRK-", c.ownerId)
    ensures BadId(c) == Some(LeaseName) <==>
              IsTaskId(c.taskId) && IsId("SES-", c.sessionId) && IsId("WRK-", c.ownerId) && !IsId("LSE-", c.leaseId)
    ensures BadId(c) == Some(OperationName) ==> !IsId("OP-", c.operationId)
    ensures BadId(c) == Some(CorrelationName) ==> !IsId("CORR-", c.correlationId) && IsId("OP-", c.operationId)
    ensures BadId(c) == Some(ReferenceName) ==> !IsId("AUTH-", c.authReference) && IsId("CORR-", c.correlationId)
    ensures BadId(c).None? <==> WellIdentified(c)
  {
    hide IsId, IsTaskId;
  }

  /** The answers to the requests that get through, but for the write itself. */
  lemma AdmittedRequestsAreAnswered(f: Functions, s: Server, r: Request)
    requires RequestRefusal(f, s, r).None?
    ensures var c := r.core;
            && (c.operationId in s.operations && s.operations[c.operationId].fingerprint == f.fingerprint(c) ==>
                  Exchange(f, s, r) == (s, Accepted(s.operations[c.operationId].response)))
            && (c.operationId in s.operations && s.operations[c.operationId].fingerprint != f.fingerprint(c) ==>
                  RejectedWith(f, s, r, ChangedReplay))
            && (c.operationId !in s.operations && s.faults == [] && c.expectedRevision != s.revision ==>
                  RejectedWith(f, s, r, StaleRevision))
            && (c.operationId !in s.operations && s.faults != [] ==>
                  var (after, reply) := Exchange(f, s, r);
                  && after.faults == s.faults[1..]
                  && (s.faults[0].Unavailable? || s.faults[0].DeadlineExceeded? || s.faults[0].Timeout? ==>
                        after == s.(faults := s.faults[1..]) && reply == Rejected(FaultCode(s.faults[0])))
                  && (s.faults[0].MalformedResponse? ==>
                        && after == s.(faults := s.faults[1..])
                        && reply == Accepted(Response("accepted", None, None, None, None, None, Some("wrong"), None))))
            && (c.operationId !in s.operations && s.faults == [] && c.expectedRevision == s.revision
                && !c.operation.ReadRevision? ==>
                  var kind := c.eventKind.Some? && IsEventKind(c.eventKind.value);
                  var digest := c.eventDigest.Some? && IsDigest(c.eventDigest.value);
                  && (!kind ==> RejectedWith(f, s, r, InvalidEventKind))
                  && (kind && !digest ==> RejectedWith(f, s, r, InvalidEventDigest)))
  {
    hide RequestRefusal, IsDigest, IsEventKind;
  }

  // Invariant of the log

  ghost predicate InjectiveFingerprint(f: Functions) {
    forall x, y :: f.fingerprint(x) == f.fingerprint(y) ==> x == y
  }

  /** Entry i of the log is the one this request made, and the stored response says so. */
  ghost predicate LoggedAt(s: Server, i: int, c: Core, response: Response) {
    && 0 <= i < |s.events| && Committable(c)
    && s.events[i] == EventOf(c, s.events[i].taskRevision)
    && response == WriteResponse(s.taskId, s.events[i].taskRevision + 1, i + 1, c.eventDigest.value, c)
  }

  /** The stored record is what this request was answered with. */
  ghost predicate Explains(f: Functions, s: Server, op: string, c: Core)
    requires op in s.operations
  {
    && c.operationId == op
    && s.operations[op].fingerprint == f.fingerprint(c)
    && (c.operation.WriteEvent? ==> exists i :: LoggedAt(s, i, c, s.operations[op].response))
    && (!c.operation.WriteEvent? ==> forall i | 0 <= i < |s.events| :: s.events[i].operationId != op)
  }

  ghost predicate Consistent(f: Functions, s: Server, initial: int) {
    && s.revision == initial + |s.events|
    && (forall i | 0 <= i < |s.events| :: s.events[i].taskRevision == initial + i)
    && (forall i, j | 0 <= i < j < |s.events| :: s.events[i].operationId != s.events[j].operationId)
    && (forall i | 0 <= i < |s.events| :: s.events[i].operationId in s.operations)
    && (forall op | op in s.operations :: exists c :: Explains(f, s, op, c))
  }

  /** An explanation outlives later entries of other operations. */
  lemma StillExplains(f: Functions, s: Server, after: Server, op: string, c: Core)
    requires op in s.operations && Explains(f, s, op, c)
    requires after.taskId == s.taskId && s.events <= after.events
    requires op in after.operations && after.operations[op] == s.operations[op]
    requires forall i | |s.events| <= i < |after.events| :: after.events[i].operationId != op
    ensures Explains(f, after, op, c)
  {
    if c.operation.WriteEvent? {
      var i :| LoggedAt(s, i, c, s.operations[op].response);
      assert LoggedAt(after, i, c, after.operations[op].response);
    }
  }

  lemma CommitKeepsConsistent(f: Functions, s: Server, c: Core, initial: int)
    requires Consistent(f, s, initial) && Committable(c) && c.operation.WriteEvent? && c.operationId !in s.operations
    ensures Consistent(f, Committed(f, s, c), initial)
  {
    hide IsEventKind, IsDigest, Explains, LoggedAt;
    var after := Committed(f, s, c);
    CommitIsExplained(f, s, c);
    forall op | op in after.operations ensures exists d :: Explains(f, after, op, d) {
      if op == c.operationId {
        assert Explains(f, after, op, c);
      } else {
        var d :| Explains(f, s, op, d);
        StillExplains(f, s, after, op, d);
      }
    }
  }

  lemma CommitIsExplained(f: Functions, s: Server, c: Core)
    requires Committable(c) && c.operation.WriteEvent?
    ensures Explains(f, Committed(f, s, c), c.operationId, c)
  {
    hide IsEventKind, IsDigest;
    var after := Committed(f, s, c);
    assert LoggedAt(after, |s.events|, c, after.operations[c.operationId].response);
  }

  lemma RecordReadKeepsConsistent(f: Functions, s: Server, c: Core, response: Response, initial: int)
    requires Consistent(f, s, initial) && c.operation.ReadRevision? && c.operationId !in s.operations
    ensures Consistent(f, s.(operations := s.operations[c.operationId := Stored(f.fingerprint(c), response)]), initial)
  {
    hide IsEventKind, IsDigest, Committable, LoggedAt;
    var after := s.(operations := s.operations[c.operationId := Stored(f.fingerprint(c), response)]);
    assert Explains(f, after, c.operationId, c);
    forall op | op in after.operations ensures exists d :: Explains(f, after, op, d) {
      if op != c.operationId {
        var d :| Explains(f, s, op, d);
        StillExplains(f, s, after, op, d);
      }
    }
  }

  lemma FaultQueueIsApart(f: Functions, s: Server, faults: seq<Fault>, initial: int)
    requires Consistent(f, s, initial)
    ensures Consistent(f, s.(faults := faults), initial)
  {
    hide IsEventKind, IsDigest, Committable, LoggedAt;
    var after := s.(faults := faults);
    forall op | op in after.operations ensures exists d :: Explains(f, after, op, d) {
      var d :| Explains(f, s, op, d);
      StillExplains(f, s, after, op, d);
    }
  }

  lemma ExchangeKeepsConsistent(f: Functions, s: Server, r: Request, initial: int)
    requires Consistent(f, s, initial)
    ensures Consistent(f, Exchange(f, s, r).0, initial)
  {
    hide Consistent, CoreRefusal, Committed, IsEventKind, IsDigest;
    var c := r.core;
    if RequestRefusal(f, s, r).None? && c.operationId !in s.operations {
      if s.faults != [] {
        var rest := s.(faults := s.faults[1..]);
        FaultQueueIsApart(f, s, s.faults[1..], initial);
        if s.faults[0].AmbiguousAfterCommit? && c.operation.WriteEvent? && Committable(c) {
          CommitKeepsConsistent(f, rest, c, initial);
        }
      } else if c.expectedRevision == s.revision {
        if c.operation.ReadRevision? {
          RecordReadKeepsConsistent(f, s, c, ReadResponse(f, s, c), initial);
        } else if Committable(c) {
          CommitKeepsConsistent(f, s, c, initial);
        }
      }
    }
  }

  // Runs

  datatype Command = Inject(faults: seq<Fault>) | Send(request: Request)

  function Step(f: Functions, s: Server, cmd: Command): Server {
    match cmd
    case Inject(faults) => s.(faults := s.faults + faults)
    case Send(r) => Exchange(f, s, r).0
  }

  function Run(f: Functions, s: Server, cmds: seq<Command>): Server {
    if cmds == [] then s else Step(f, Run(f, s, cmds[..|cmds| - 1]), cmds[|cmds| - 1])
  }

  function Initial(taskId: string, revision: int, authReference: string): Server {
    Server(taskId, revision, authReference, [], map[], [])
  }

  lemma {:induction false} RunKeepsConsistent(f: Functions, s: Server, cmds: seq<Command>, initial: int)
    requires Consistent(f, s, initial)
    ensures Consistent(f, Run(f, s, cmds), initial)
  {
    if cmds != [] {
      hide Exchange, Consistent;
      var before := Run(f, s, cmds[..|cmds| - 1]);
      RunKeepsConsistent(f, s, cmds[..|cmds| - 1], initial);
      match cmds[|cmds| - 1]
      case Inject(faults) => FaultQueueIsApart(f, before, before.faults + faults, initial);
      case Send(r) => ExchangeKeepsConsistent(f, before, r, initial);
    }
  }

  /**
   In every reachable state: the revision counts the log, each entry carries the revision
   it replaced, operation ids in the log are distinct, and every remembered operation is
   explained by the request it answered.
  */
  lemma EveryLogIsConsistent(f: Functions, taskId: string, revision: int, authReference: string, cmds: seq<Command>)
    ensures Consistent(f, Run(f, Initial(taskId, revision, authReference), cmds), revision)
  {
    RunKeepsConsistent(f, Initial(taskId, revision, authReference), cmds, revision);
  }

  /** The log only grows, by at most one entry a request, and remembered operations never change. */
  ghost predicate Later(s: Server, after: Server) {
    && after.taskId == s.taskId && after.authReference == s.authReference
    && s.events <= after.events && s.revision <= after.revision
    && forall op | op in s.operations :: op in after.operations && after.operations[op] == s.operations[op]
  }

  lemma StepIsLater(f: Functions, s: Server, cmd: Command)
    ensures Later(s, Step(f, s, cmd))
  {
    hide CoreRefusal, IsEventKind, IsDigest, Scanned;
  }

  lemma {:induction false} RunIsLater(f: Functions, s: Server, cmds: seq<Command>)
    ensures Later(s, Run(f, s, cmds))
  {
    if cmds != [] {
      hide Exchange;
      RunIsLater(f, s, cmds[..|cmds| - 1]);
      StepIsLater(f, Run(f, s, cmds[..|cmds| - 1]), cmds[|cmds| - 1]);
    }
  }

  ghost predicate Grows(f: Functions, s: Server, r: Request) {
    |Exchange(f, s, r).0.events| > |s.events|
  }

  /** An accepted write that extends the log; the ambiguous branch extends it unaccepted. */
  ghost predicate AcceptedCommit(f: Functions, s: Server, r: Request) {
    Grows(f, s, r) && Exchange(f, s, r).1.Accepted?
  }

  lemma AcceptedCommitSwapsRevision(f: Functions, s: Server, r: Request)
    requires AcceptedCommit(f, s, r)
    ensures r.core.expectedRevision == s.revision && Exchange(f, s, r).0.revision == s.revision + 1
    ensures s.faults == [] && r.core.operation.WriteEvent?
  {
    hide CoreRefusal, IsEventKind, IsDigest;
  }

  /** Of two accepted commits the later one always expected a later revision. */
  lemma CommitsNeverShareRevision(f: Functions, s: Server, a: Request, between: seq<Command>, b: Request)
    requires AcceptedCommit(f, s, a)
    requires AcceptedCommit(f, Run(f, Exchange(f, s, a).0, between), b)
    ensures a.core.expectedRevision < b.core.expectedRevision
  {
    hide Exchange, AcceptedCommit;
    AcceptedCommitSwapsRevision(f, s, a);
    RunIsLater(f, Exchange(f, s, a).0, between);
    AcceptedCommitSwapsRevision(f, Run(f, Exchange(f, s, a).0, between), b);
  }

  /** A stale write is logged exactly in the ambiguous-fault branch, which skips compare-and-swap. */
  lemma StaleCommitsExactlyWhenAmbiguous(f: Functions, s: Server, r: Request)
    requires r.core.expectedRevision != s.revision
    ensures Grows(f, s, r) <==>
              && RequestRefusal(f, s, r).None? && r.core.operationId !in s.operations
              && s.faults != [] && s.faults[0].AmbiguousAfterCommit?
              && r.core.operation.WriteEvent? && Committable(r.core)
  {
    hide CoreRefusal, IsEventKind, IsDigest;
  }

  /** So two ambiguous writes with the same expected revision can both be logged. */
  lemma AmbiguousWritesShareRevision(f: Functions, s: Server, a: Request, b: Request)
    requires RequestRefusal(f, s, a).None? && RequestRefusal(f, s, b).None?
    requires a.core.operation.WriteEvent? && b.core.operation.WriteEvent? && Committable(a.core) && Committable(b.core)
    requires a.core.expectedRevision == b.core.expectedRevision && a.core.operationId != b.core.operationId
    requires a.core.operationId !in s.operations && b.core.operationId !in s.operations
    requires s.faults == [AmbiguousAfterCommit, AmbiguousAfterCommit]
    ensures Grows(f, s, a) && Grows(f, Exchange(f, s, a).0, b)
  {
    hide CoreRefusal, IsEventKind, IsDigest, Scanned;
    assert s.faults[1..] == [AmbiguousAfterCommit];
  }

  /** The coordinator object. */
  class InProcessCoordinator {
    const functions: Functions
    const taskId: string
    const authReference: string
    var revision: int
    var events: seq<Event>
    var operations: map<string, Stored>
    var faults: seq<Fault>

    function State(): Server
      reads this
    {
      Server(taskId, revision, authReference, events, operations, faults)
    }

    constructor (functions: Functions, taskId: string, revision: int, authReference: string)
      requires IsTaskId(taskId) && IsId("AUTH-", authReference) && revision >= 1
      ensures State() == Initial(taskId, revision, authReference) && this.functions == functions
    {
      this.functions, this.taskId, this.authReference := functions, taskId, authReference;
      this.revision, events, operations, faults := revision, [], map[], [];
    }

    static method Open(functions: Functions, taskId: string, revision: int, authReference: string)
      returns (r: Result<InProcessCoordinator, Code>)
      ensures r.Ok? <==> IsTaskId(taskId) && IsId("AUTH-", authReference) && revision >= 1
      ensures r.Ok? ==> fresh(r.value) && r.value.functions == functions
                        && r.value.State() == Initial(taskId, revision, authReference)
    {
      if !IsTaskId(taskId) {
        return Err(InvalidId(TaskName));
      }
      if !IsId("AUTH-", authReference) {
        return Err(InvalidId(ReferenceName));
      }
      if revision < 1 {
        return Err(InvalidRevision);
      }
      var coordinator := new InProcessCoordinator(functions, taskId, revision, authReference);
      r := Ok(coordinator);
    }

    method InjectFaults(more: seq<Fault>)
      modifies this
      ensures State() == Step(functions, old(State()), Inject(more))
    {
      faults := faults + more;
    }

    /** Appends the entry and remembers the operation. */
    method Commit(c: Core, fingerprint: string) returns (r: Result<Response, Code>)
      requires fingerprint == functions.fingerprint(c)
      modifies this
      ensures Committable(c) ==>
                State() == Committed(functions, old(State()), c) && r == Ok(State().operations[c.operationId].response)
      ensures !Committable(c) ==> State() == old(State()) && r == Err(CommitRefusal(c))
    {
      if c.eventKind.None? || !IsEventKind(c.eventKind.value) {
        return Err(InvalidEventKind);
      }
      if c.eventDigest.None? || !IsDigest(c.eventDigest.value) {
        return Err(InvalidEventDigest);
      }
      events := events + [Event(c.operationId, c.correlationId, c.eventKind.value, c.eventDigest.value, revision)];
      revision := revision + 1;
      var response := Response("accepted", Some(taskId), Some(revision), Some(|events|), None,
                               Some(c.eventDigest.value), Some(c.correlationId), Some(c.operationId));
      operations := operations[c.operationId := Stored(fingerprint, response)];
      r := Ok(response);
    }

    method Serve(request: Request) returns (reply: Reply)
      modifies this
      ensures (State(), reply) == Exchange(functions, old(State()), request)
    {
      hide CoreRefusal, IsEventKind, IsDigest, Scanned;
      var refusal := RequestRefusal(functions, State(), request);
      if refusal.Some? {
        return Rejected(refusal.value);
      }
      var c := request.core;
      var fingerprint := functions.fingerprint(c);
      if c.operationId in operations {
        if operations[c.operationId].fingerprint != fingerprint {
          return Rejected(ChangedReplay);
        }
        return Accepted(operations[c.operationId].response);
      }
      if faults != [] {
        var fault := faults[0];
        faults := faults[1..];
        if fault.AmbiguousAfterCommit? {
          if c.operation.WriteEvent? {
            var committed := Commit(c, fingerprint);
            if committed.Err? {
              return Rejected(committed.error);
            }
          }
          return Rejected(AmbiguousOutcome);
        }
        if fault.MalformedResponse? {
          return Accepted(MALFORMED);
        }
        return Rejected(FaultCode(fault));
      }
      if c.expectedRevision != revision {
        return Rejected(StaleRevision);
      }
      var response;
      if c.operation.ReadRevision? {
        response := ReadResponse(functions, State(), c);
      } else {
        var committed := Commit(c, fingerprint);
        if committed.Err? {
          return Rejected(committed.error);
        }
        response := committed.value;
      }
      RememberedTwice(c, fingerprint, response);
      operations := operations[c.operationId := Stored(fingerprint, response)];
      reply := Accepted(response);
    }

    /** A commit has already remembered the operation; doing it again changes nothing. */
    lemma RememberedTwice(c: Core, fingerprint: string, response: Response)
      ensures c.operationId in operations && operations[c.operationId] == Stored(fingerprint, response) ==>
                operations[c.operationId := Stored(fingerprint, response)] == operations
    {
    }
  }
}
