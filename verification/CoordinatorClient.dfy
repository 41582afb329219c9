/**
 The Coordinator client over the in-process coordinator: bounded retry of safe transport
 failures, response checks, and the rule that an ambiguous write is never reported as done.
*/
module CoordinatorClient {
  import opened Identifiers
  import opened Results
  import opened CoordinatorServer

  datatype Binding = Binding(
    taskId: string, projectKey: string, worktreeKey: string, sessionId: string,
    ownerId: string, leaseId: string, authReference: string)

  datatype Problem =
    | InvalidBinding | InvalidRetryBound | InvalidOperationId | InvalidCorrelationId
    | InvalidExpectedRevision | InvalidTimeout | InvalidKind | InvalidDigest
    | MalformedResponseSeen | CorrelationMismatch | EventMismatch

  /** What a call returns or raises. */
  datatype Outcome<T> =
    | Done(value: T)
    | Unknown(operationId: string, correlationId: string)
    | Refused(code: Code)
    | Invalid(problem: Problem)

  datatype Snapshot = Snapshot(
    taskId: string, revision: int, eventCount: int, stateDigest: string, correlationId: string, operationId: string)

  datatype CasWrite = CasWrite(
    taskId: string, revision: int, eventCount: int, eventDigest: string, correlationId: string, operationId: string)

  /** What the caller of one operation supplies. */
  datatype Call = Call(
    operation: Operation, operationId: string, correlationId: string, expectedRevision: int,
    timeoutMs: int, eventKind: Option<string>, eventDigest: Option<string>)

  function Write(operationId: string, correlationId: string, expectedRevision: int, timeoutMs: int,
                 eventKind: string, eventDigest: string): Call {
    Call(WriteEvent, operationId, correlationId, expectedRevision, timeoutMs, Some(eventKind), Some(eventDigest))
  }

  function Read(operationId: string, correlationId: string, expectedRevision: int, timeoutMs: int): Call {
    Call(ReadRevision, operationId, correlationId, expectedRevision, timeoutMs, None, None)
  }

  predicate ValidBinding(b: Binding) {
    && IsTaskId(b.taskId) && b.projectKey == PROJECT && IsWorktreeKey(b.worktreeKey) && IsId("SES-", b.sessionId)
    && IsId("WRK-", b.ownerId) && IsId("LSE-", b.leaseId) && IsId("AUTH-", b.authReference)
  }

  function CoreOf(f: Functions, b: Binding, c: Call): Core {
    Core(PROTOCOL, b.taskId, b.projectKey, b.worktreeKey, b.sessionId, b.ownerId, b.leaseId, b.authReference,
         c.operation, c.operationId, c.correlationId, c.expectedRevision, c.eventKind, c.eventDigest,
         f.authProof(b.authReference, c.correlationId))
  }

  /** What the client refuses before anything is sent. */
  function CallProblem(c: Call): Option<Problem> {
    if c.operation.WriteEvent? && !(c.eventKind.Some? && IsEventKind(c.eventKind.value)) then Some(InvalidKind)
    else if c.operation.WriteEvent? && !(c.eventDigest.Some? && IsDigest(c.eventDigest.value)) then Some(InvalidDigest)
    else if !IsId("OP-", c.operationId) then Some(InvalidOperationId)
    else if !IsId("CORR-", c.correlationId) then Some(InvalidCorrelationId)
    else if c.expectedRevision < 1 then Some(InvalidExpectedRevision)
    else if !(1 <= c.timeoutMs <= MAX_TIMEOUT_MS) then Some(InvalidTimeout)
    else None
  }

  predicate Retryable(code: Code) {
    code.FaultCode? && (code.fault.Unavailable? || code.fault.DeadlineExceeded? || code.fault.Timeout?)
  }

  /** The exchanges from one attempt on: what they leave behind and what the caller sees. */
  function Exchanges(f: Functions, s: Server, core: Core, timeoutMs: int, attempt: int, max: int)
    : (Server, Outcome<Response>)
    decreases max - attempt
  {
    var (after, reply) := Exchange(f, s, Request(core, attempt, timeoutMs));
    match reply
    case Accepted(response) => (after, Done(response))
    case Rejected(code) =>
      if code.AmbiguousOutcome? then (after, Unknown(core.operationId, core.correlationId))
      else if Retryable(code) && attempt < max then Exchanges(f, after, core, timeoutMs, attempt + 1, max)
      else (after, Refused(code))
  }

  function CommonProblem(r: Response, correlationId: string, operationId: string): Option<Problem> {
    if r.disposition != "accepted" then Some(MalformedResponseSeen)
    else if r.correlationId != Some(correlationId) || r.operationId != Some(operationId) then Some(CorrelationMismatch)
    else if r.taskRevision.None? || r.taskRevision.value < 1 then Some(MalformedResponseSeen)
    else if r.eventCount.None? || r.eventCount.value < 0 then Some(MalformedResponseSeen)
    else if r.taskId.None? || !IsTaskId(r.taskId.value) then Some(MalformedResponseSeen)
    else None
  }

  function SnapshotOf(r: Response, correlationId: string, operationId: string): Outcome<Snapshot> {
    var problem := CommonProblem(r, correlationId, operationId);
    if problem.Some? then Invalid(problem.value)
    else if r.stateDigest.None? || !IsDigest(r.stateDigest.value) then Invalid(MalformedResponseSeen)
    else
      Done(Snapshot(r.taskId.value, r.taskRevision.value, r.eventCount.value, r.stateDigest.value,
                    correlationId, operationId))
  }

  function CasWriteOf(r: Response, correlationId: string, operationId: string, expectedDigest: string): Outcome<CasWrite> {
    var problem := CommonProblem(r, correlationId, operationId);
    if problem.Some? then Invalid(problem.value)
    else if r.eventDigest != Some(expectedDigest) || !IsDigest(expectedDigest) then Invalid(EventMismatch)
    else
      Done(CasWrite(r.taskId.value, r.taskRevision.value, r.eventCount.value, expectedDigest,
                    correlationId, operationId))
  }

  function Forward<T>(o: Outcome<Response>): Outcome<T>
    requires !o.Done?
  {
    match o
    case Unknown(op, corr) => Unknown(op, corr)
    case Refused(code) => Refused(code)
    case Invalid(problem) => Invalid(problem)
  }

  function Written(f: Functions, s: Server, b: Binding, max: int, c: Call): (Server, Outcome<CasWrite>)
    requires c.eventDigest.Some?
  {
    var problem := CallProblem(c);
    if problem.Some? then (s, Invalid(problem.value))
    else
      var (after, o) := Exchanges(f, s, CoreOf(f, b, c), c.timeoutMs, 1, max);
      (after, if o.Done? then CasWriteOf(o.value, c.correlationId, c.operationId, c.eventDigest.value) else Forward(o))
  }

  function ReadBack(f: Functions, s: Server, b: Binding, max: int, c: Call): (Server, Outcome<Snapshot>) {
    var problem := CallProblem(c);
    if problem.Some? then (s, Invalid(problem.value))
    else
      var (after, o) := Exchanges(f, s, CoreOf(f, b, c), c.timeoutMs, 1, max);
      (after, if o.Done? then SnapshotOf(o.value, c.correlationId, c.operationId) else Forward(o))
  }

  // What a call does to the log

  /** Only queued faults were consumed. */
  ghost predicate OnlyFaults(s: Server, after: Server) {
    after == s.(faults := after.faults)
  }

  /** Besides consumed faults, exactly this write was committed. */
  ghost predicate OneCommit(f: Functions, s: Server, core: Core, after: Server)
    requires Committable(core)
  {
    core.operationId !in s.operations && after == Committed(f, s.(faults := after.faults), core)
  }

  /** What the exchanges of a well-formed write can come to. */
  ghost predicate WriteEffect(f: Functions, s: Server, core: Core, after: Server, o: Outcome<Response>)
    requires Committable(core)
  {
    match o
    case Done(response) =>
      || (OnlyFaults(s, after) && response == MALFORMED)
      || (after == s && core.operationId in s.operations
          && s.operations[core.operationId] == Stored(f.fingerprint(core), response))
      || (OneCommit(f, s, core, after) && response == after.operations[core.operationId].response)
    case Unknown(op, corr) => op == core.operationId && corr == core.correlationId && OneCommit(f, s, core, after)
    case Refused(_) => OnlyFaults(s, after)
    case Invalid(_) => false
  }

  /** The server lets the request through to its replay check. */
  ghost predicate Admitted(f: Functions, s: Server, core: Core) {
    CoreRefusal(f, s.taskId, s.authReference, core).None? && Scanned(f, core)
  }

  lemma {:induction false} ExchangesEffect(f: Functions, s: Server, core: Core, timeoutMs: int, attempt: int, max: int)
    requires Committable(core) && core.operation.WriteEvent?
    ensures var (after, o) := Exchanges(f, s, core, timeoutMs, attempt, max);
            WriteEffect(f, s, core, after, o) && (o.Done? || o.Unknown? ==> Admitted(f, s, core))
    decreases max - attempt
  {
    hide CoreRefusal, IsEventKind, IsDigest, Scanned;
    var (after, reply) := Exchange(f, s, Request(core, attempt, timeoutMs));
    if reply.Rejected? && Retryable(reply.code) && attempt < max {
      ExchangesEffect(f, after, core, timeoutMs, attempt + 1, max);
    }
  }

  lemma {:induction false} ExchangesKeepConsistent(
    f: Functions, s: Server, core: Core, timeoutMs: int, attempt: int, max: int, initial: int)
    requires Consistent(f, s, initial)
    ensures Consistent(f, Exchanges(f, s, core, timeoutMs, attempt, max).0, initial)
    decreases max - attempt
  {
    hide Consistent, Exchange;
    ExchangeKeepsConsistent(f, s, Request(core, attempt, timeoutMs), initial);
    var (after, reply) := Exchange(f, s, Request(core, attempt, timeoutMs));
    if reply.Rejected? && Retryable(reply.code) && attempt < max {
      ExchangesKeepConsistent(f, after, core, timeoutMs, attempt + 1, max, initial);
    }
  }

  // Exactly once

  /** One entry, at one place in the log, belongs to the operation. */
  ghost predicate LoggedOnce(s: Server, i: int, e: Event) {
    && 0 <= i < |s.events| && s.events[i] == e
    && forall j | 0 <= j < |s.events| :: s.events[j].operationId == e.operationId ==> j == i
  }

  predicate IsWrite(c: Call) {
    c.operation.WriteEvent? && c.eventKind.Some? && c.eventDigest.Some?
  }

  function EntryOf(c: Call, revision: int): Event
    requires IsWrite(c)
  {
    Event(c.operationId, c.correlationId, c.eventKind.value, c.eventDigest.value, revision)
  }

  /** The result names the entry of this write: its place, its revision and its digest. */
  ghost predicate Names(s: Server, c: Call, w: CasWrite)
    requires IsWrite(c)
  {
    && w == CasWrite(s.taskId, w.revision, w.eventCount, c.eventDigest.value, c.correlationId, c.operationId)
    && LoggedOnce(s, w.eventCount - 1, EntryOf(c, w.revision - 1))
  }

  /**
   A write either returns a result that names its one log entry, or raises an unknown
   outcome having added exactly its entry, or raises something else and leaves the log alone.
  */
  ghost predicate ExactlyOnce(s: Server, c: Call, after: Server, o: Outcome<CasWrite>)
    requires IsWrite(c)
  {
    match o
    case Done(w) =>
      && Names(after, c, w)
      && (after == s || after.events == s.events + [EntryOf(c, s.revision)])
    case Unknown(op, corr) =>
      && op == c.operationId && corr == c.correlationId
      && after.events == s.events + [EntryOf(c, s.revision)]
      && LoggedOnce(after, |s.events|, EntryOf(c, s.revision))
    case _ => after.events == s.events && after.revision == s.revision && after.operations == s.operations
  }

  /** Consistency places every entry: no other entry shares its operation. */
  lemma EntriesAreLoggedOnce(f: Functions, s: Server, i: int, initial: int)
    requires Consistent(f, s, initial) && 0 <= i < |s.events|
    ensures LoggedOnce(s, i, s.events[i]) && s.events[i].taskRevision == initial + i
  {
    forall j | 0 <= j < |s.events|
      ensures s.events[j].operationId == s.events[i].operationId ==> j == i
    {
      assert j < i ==> s.events[j].operationId != s.events[i].operationId;
      assert i < j ==> s.events[i].operationId != s.events[j].operationId;
    }
  }

  /** What an operation is remembered by, when its request was this write, names its entry. */
  lemma StoredAnswerNamesItsEntry(f: Functions, s: Server, c: Call, core: Core, response: Response, initial: int)
    requires Consistent(f, s, initial) && initial >= 1 && InjectiveFingerprint(f) && IsWrite(c)
    requires core.operation.WriteEvent? && Committable(core) && IsTaskId(s.taskId)
    requires core.operationId == c.operationId && core.correlationId == c.correlationId
    requires core.eventKind == c.eventKind && core.eventDigest == c.eventDigest
    requires core.operationId in s.operations && s.operations[core.operationId] == Stored(f.fingerprint(core), response)
    ensures var o := CasWriteOf(response, c.correlationId, c.operationId, c.eventDigest.value);
            o.Done? && Names(s, c, o.value)
  {
    hide IsTaskId, IsDigest, IsEventKind;
    var d :| Explains(f, s, core.operationId, d);
    assert d == core;
    var i :| LoggedAt(s, i, core, response);
    EntriesAreLoggedOnce(f, s, i, initial);
  }

  lemma AdmittedTask(f: Functions, s: Server, core: Core)
    requires Admitted(f, s, core)
    ensures IsTaskId(s.taskId)
  {
  }

  lemma WritesAreExactlyOnce(f: Functions, s: Server, b: Binding, max: int, c: Call, initial: int)
    requires Consistent(f, s, initial) && initial >= 1 && InjectiveFingerprint(f) && IsWrite(c)
    ensures var (after, o) := Written(f, s, b, max, c);
            Consistent(f, after, initial) && ExactlyOnce(s, c, after, o)
  {
    hide Exchanges, IsDigest, IsEventKind, IsTaskId, IsId, Consistent, Admitted;
    if CallProblem(c).None? {
      var core := CoreOf(f, b, c);
      var (after, o) := Exchanges(f, s, core, c.timeoutMs, 1, max);
      ExchangesEffect(f, s, core, c.timeoutMs, 1, max);
      ExchangesKeepConsistent(f, s, core, c.timeoutMs, 1, max, initial);
      if o.Done? && o.value != MALFORMED {
        AdmittedTask(f, s, core);
        StoredAnswerNamesItsEntry(f, after, c, core, o.value, initial);
      }
      if o.Unknown? {
        EntriesAreLoggedOnce(f, after, |s.events|, initial);
      }
    }
  }

  /**
   After an unknown outcome, and as well after a success, issuing the write again returns the
   committed result and changes nothing, whatever was injected and whatever others did meanwhile.
  */
  lemma ReissueReturnsTheCommittedWrite(
    f: Functions, s: Server, b: Binding, max: int, c: Call, between: seq<Command>,
    again: int, timeoutMs: int, initial: int)
    requires Consistent(f, s, initial) && initial >= 1 && InjectiveFingerprint(f) && IsWrite(c)
    requires var o := Written(f, s, b, max, c).1; o.Unknown? || o.Done?
    requires 1 <= timeoutMs <= MAX_TIMEOUT_MS
    ensures var (after, o) := Written(f, s, b, max, c);
            var later := Run(f, after, between);
            var (last, o') := Written(f, later, b, again, c.(timeoutMs := timeoutMs));
            && last == later && o'.Done? && (o.Done? ==> o' == o)
            && (o.Unknown? ==> o'.value.revision == s.revision + 1 && o'.value.eventCount == |s.events| + 1)
            && Names(later, c, o'.value)
  {
    hide Run, Exchanges, IsDigest, IsEventKind, IsTaskId, IsId, Consistent, Admitted;
    var core := CoreOf(f, b, c);
    var (after, o) := Exchanges(f, s, core, c.timeoutMs, 1, max);
    ExchangesEffect(f, s, core, c.timeoutMs, 1, max);
    ExchangesKeepConsistent(f, s, core, c.timeoutMs, 1, max, initial);
    var later := Run(f, after, between);
    RunIsLater(f, after, between);
    RunKeepsConsistent(f, after, between, initial);
    AdmittedTask(f, s, core);
    var response := after.operations[core.operationId].response;
    StoredAnswerNamesItsEntry(f, later, c, core, response, initial);
    RememberedIsReplayed(f, s, later, core, response, timeoutMs, again);
  }

  lemma RememberedIsReplayed(
    f: Functions, s: Server, later: Server, core: Core, response: Response, timeoutMs: int, max: int)
    requires Admitted(f, s, core) && later.taskId == s.taskId && later.authReference == s.authReference
    requires core.operationId in later.operations
    requires later.operations[core.operationId] == Stored(f.fingerprint(core), response)
    requires 1 <= timeoutMs <= MAX_TIMEOUT_MS
    ensures Exchanges(f, later, core, timeoutMs, 1, max) == (later, Done(response))
  {
    hide CoreRefusal, Scanned;
  }

  // When a new write succeeds

  predicate Transient(fault: Fault) {
    fault.Unavailable? || fault.DeadlineExceeded? || fault.Timeout?
  }

  /** Only transient faults are queued before place k. */
  ghost predicate TransientUpTo(faults: seq<Fault>, k: int)
    requires k <= |faults|
  {
    forall i | 0 <= i < k :: Transient(faults[i])
  }

  /** An ambiguous fault is reached within the given number of attempts. */
  ghost predicate AmbiguousWithin(faults: seq<Fault>, attempts: int) {
    exists k | 0 <= k < |faults| && k < attempts :: faults[k].AmbiguousAfterCommit? && TransientUpTo(faults, k)
  }

  lemma TransientShift(faults: seq<Fault>, k: int)
    requires 0 <= k < |faults|
    ensures TransientUpTo(faults, k + 1) <==> Transient(faults[0]) && TransientUpTo(faults[1..], k)
  {
    assert forall i | 0 < i <= k :: faults[i] == faults[1..][i - 1];
    if TransientUpTo(faults, k + 1) {
      forall i | 0 <= i < k ensures Transient(faults[1..][i]) {
        assert Transient(faults[i + 1]);
      }
    }
  }

  lemma {:induction false} FreshExchanges(f: Functions, s: Server, core: Core, timeoutMs: int, attempt: int, max: int)
    requires Admitted(f, s, core) && Committable(core) && core.operation.WriteEvent? && core.operationId !in s.operations
    requires 1 <= timeoutMs <= MAX_TIMEOUT_MS && 1 <= attempt <= max <= MAX_ATTEMPTS
    ensures var (after, o) := Exchanges(f, s, core, timeoutMs, attempt, max);
            && (o.Done? && OneCommit(f, s, core, after) <==>
                  |s.faults| <= max - attempt && TransientUpTo(s.faults, |s.faults|) && core.expectedRevision == s.revision)
            && (o.Unknown? <==> AmbiguousWithin(s.faults, max - attempt + 1))
    decreases max - attempt
  {
    hide CoreRefusal, IsEventKind, IsDigest, Scanned;
    var (after, reply) := Exchange(f, s, Request(core, attempt, timeoutMs));
    if s.faults != [] {
      var rest := s.faults[1..];
      assert s.faults == [s.faults[0]] + rest;
      if Transient(s.faults[0]) {
        assert after == s.(faults := rest);
        forall k | 0 <= k <= |rest| ensures TransientUpTo(s.faults, k + 1) <==> TransientUpTo(rest, k) {
          TransientShift(s.faults, k);
        }
        if attempt < max {
          FreshExchanges(f, after, core, timeoutMs, attempt + 1, max);
          AmbiguousLater(s.faults, max - attempt + 1);
        }
      }
    }
  }

  lemma AmbiguousLater(faults: seq<Fault>, attempts: int)
    requires faults != [] && Transient(faults[0])
    requires forall k | 0 <= k <= |faults| - 1 :: TransientUpTo(faults, k + 1) <==> TransientUpTo(faults[1..], k)
    ensures AmbiguousWithin(faults, attempts) <==> AmbiguousWithin(faults[1..], attempts - 1)
  {
    var rest := faults[1..];
    if AmbiguousWithin(faults, attempts) {
      var k :| 0 <= k < |faults| && k < attempts && faults[k].AmbiguousAfterCommit? && TransientUpTo(faults, k);
      assert TransientUpTo(rest, k - 1) && rest[k - 1] == faults[k];
    }
    if AmbiguousWithin(rest, attempts - 1) {
      var k :| 0 <= k < |rest| && k < attempts - 1 && rest[k].AmbiguousAfterCommit? && TransientUpTo(rest, k);
      assert TransientUpTo(faults, k + 1) && faults[k + 1] == rest[k];
    }
  }

  /** The client's binding and call as the coordinator at the other end wants them. */
  ghost predicate Welcome(f: Functions, s: Server, b: Binding, c: Call) {
    && b.taskId == s.taskId && b.authReference == s.authReference && b.projectKey == "agent-workflow-runtime"
    && IsTaskId(b.taskId) && IsWorktreeKey(b.worktreeKey) && IsId("SES-", b.sessionId) && IsId("WRK-", b.ownerId)
    && IsId("LSE-", b.leaseId) && IsId("AUTH-", b.authReference)
    && IsId("OP-", c.operationId) && IsId("CORR-", c.correlationId)
    && IsDigest(f.authProof(b.authReference, c.correlationId))
    && forall t | t in Said(f, b, c) :: !f.isPrivate(t)
  }

  /** What the client says in a request. */
  ghost function Said(f: Functions, b: Binding, c: Call): set<string> {
    {"awr-coordinator-client/1.0.0", b.taskId, b.projectKey, b.worktreeKey, b.sessionId, b.ownerId, b.leaseId,
     b.authReference, c.operationId, c.correlationId, f.authProof(b.authReference, c.correlationId)}
    + (if c.eventKind.Some? then {c.eventKind.value} else {})
    + (if c.eventDigest.Some? then {c.eventDigest.value} else {})
  }

  /** The bounds of a call; for a write also its event. */
  ghost predicate InBounds(c: Call) {
    c.expectedRevision >= 1 && 1 <= c.timeoutMs <= 30000
  }

  ghost predicate TellsEvent(c: Call) {
    c.eventKind.Some? && IsEventKind(c.eventKind.value) && c.eventDigest.Some? && IsDigest(c.eventDigest.value)
  }

  lemma SaidIsScanned(f: Functions, b: Binding, c: Call, t: string)
    ensures t in Said(f, b, c) <==> t in Texts(CoreOf(f, b, c))
  {
  }

  /** The coordinator admits exactly the welcome clients. */
  lemma AdmittedExactlyWhenWelcome(f: Functions, s: Server, b: Binding, c: Call)
    requires c.operation.ReadRevision? || c.operation.WriteEvent?
    ensures Admitted(f, s, CoreOf(f, b, c)) <==> Welcome(f, s, b, c)
    ensures Welcome(f, s, b, c) ==> ValidBinding(b)
    ensures ValidBinding(b) && b.taskId == s.taskId && b.authReference == s.authReference && CallProblem(c).None?
            && IsDigest(f.authProof(b.authReference, c.correlationId)) && (forall t | t in Said(f, b, c) :: !f.isPrivate(t))
            ==> Welcome(f, s, b, c)
  {
    hide IsId, IsTaskId, IsDigest, IsWorktreeKey, IsEventKind, Said, Texts;
    FirstBadIdIsNamed(CoreOf(f, b, c));
    assert forall t :: t in Said(f, b, c) <==> t in Texts(CoreOf(f, b, c)) by {
      forall t {
        SaidIsScanned(f, b, c, t);
      }
    }
  }

  /** The client sends exactly well-formed calls, and refuses the others without a word to the coordinator. */
  lemma SentExactlyWhenWellFormed(c: Call)
    requires c.operation.ReadRevision? || c.operation.WriteEvent?
    ensures CallProblem(c).None? <==>
              && IsId("OP-", c.operationId) && IsId("CORR-", c.correlationId) && InBounds(c)
              && (c.operation.WriteEvent? ==> TellsEvent(c))
  {
    hide IsId, IsEventKind, IsDigest;
  }

  /** What the two calls of the client ask for: a write tells its event, a read tells none. */
  lemma CallsAskForWhatTheySay(operationId: string, correlationId: string, expectedRevision: int, timeoutMs: int,
                               eventKind: string, eventDigest: string)
    ensures var (w, r) := (Write(operationId, correlationId, expectedRevision, timeoutMs, eventKind, eventDigest),
                           Read(operationId, correlationId, expectedRevision, timeoutMs));
            && IsWrite(w) && w.eventKind == Some(eventKind) && w.eventDigest == Some(eventDigest)
            && r.operation.ReadRevision? && r.eventKind == r.eventDigest == None
            && forall c | c in {w, r} ::
                 && c.operationId == operationId && c.correlationId == correlationId
                 && c.expectedRevision == expectedRevision && c.timeoutMs == timeoutMs
  {
  }

  /** A call that is not sent leaves the coordinator alone, and names its first fault. */
  lemma UnsentCallsNameTheirFault(f: Functions, s: Server, b: Binding, max: int, c: Call)
    requires IsWrite(c)
    ensures var (after, o) := Written(f, s, b, max, c);
            var (told, named) := (TellsEvent(c), IsId("OP-", c.operationId) && IsId("CORR-", c.correlationId));
            && (!IsEventKind(c.eventKind.value) ==> o == Invalid(InvalidKind))
            && (IsEventKind(c.eventKind.value) && !told ==> o == Invalid(InvalidDigest))
            && (told && !IsId("OP-", c.operationId) ==> o == Invalid(InvalidOperationId))
            && (told && IsId("OP-", c.operationId) && !named ==> o == Invalid(InvalidCorrelationId))
            && (told && named && c.expectedRevision < 1 ==> o == Invalid(InvalidExpectedRevision))
            && (told && named && c.expectedRevision >= 1 && !InBounds(c) ==> o == Invalid(InvalidTimeout))
            && (!told || !named || !InBounds(c) ==> after == s)
  {
    hide IsId, IsEventKind, IsDigest, Exchanges;
  }

  /** What a coordinator answers that is not this write's result is refused as such. */
  lemma ForeignResponsesAreRefused(r: Response, c: Call)
    requires IsWrite(c)
    ensures var o := CasWriteOf(r, c.correlationId, c.operationId, c.eventDigest.value);
            var whole := && r.taskRevision.Some? && r.taskRevision.value >= 1 && r.eventCount.Some? && r.eventCount.value >= 0
                         && r.taskId.Some? && IsTaskId(r.taskId.value);
            var ours := r.correlationId == Some(c.correlationId) && r.operationId == Some(c.operationId);
            && (r.disposition != "accepted" ==> o == Invalid(MalformedResponseSeen))
            && (r.disposition == "accepted" && !ours ==> o == Invalid(CorrelationMismatch))
            && (r.disposition == "accepted" && ours && !whole ==> o == Invalid(MalformedResponseSeen))
            && (r.disposition == "accepted" && ours && whole && (r.eventDigest != c.eventDigest || !IsDigest(c.eventDigest.value))
                ==> o == Invalid(EventMismatch))
            && (o.Done? ==> o.value == CasWrite(r.taskId.value, r.taskRevision.value, r.eventCount.value,
                                                c.eventDigest.value, c.correlationId, c.operationId))
  {
    hide IsTaskId, IsDigest;
  }

  /** The same for what is answered to a read. */
  lemma ForeignSnapshotsAreRefused(r: Response, c: Call)
    ensures var o := SnapshotOf(r, c.correlationId, c.operationId);
            var whole := && r.taskRevision.Some? && r.taskRevision.value >= 1 && r.eventCount.Some? && r.eventCount.value >= 0
                         && r.taskId.Some? && IsTaskId(r.taskId.value) && r.stateDigest.Some? && IsDigest(r.stateDigest.value);
            var ours := r.correlationId == Some(c.correlationId) && r.operationId == Some(c.operationId);
            && (r.disposition != "accepted" ==> o == Invalid(MalformedResponseSeen))
            && (r.disposition == "accepted" && !ours ==> o == Invalid(CorrelationMismatch))
            && (r.disposition == "accepted" && ours && !whole ==> o == Invalid(MalformedResponseSeen))
            && (r.disposition == "accepted" && ours && whole ==>
                  o == Done(Snapshot(r.taskId.value, r.taskRevision.value, r.eventCount.value, r.stateDigest.value,
                                     c.correlationId, c.operationId)))
  {
    hide IsTaskId, IsDigest;
  }

  /**
   A new write succeeds exactly when the client is welcome, its event and bounds are well formed, it
   expects the current revision, and fewer faults are queued than attempts allowed, all transient; its
   outcome is unknown exactly when, for a welcome and well-formed call, an ambiguous fault comes up, after
   transient ones only, within the allowed attempts.
  */
  lemma NewWriteSucceedsExactlyWhen(f: Functions, s: Server, b: Binding, max: int, c: Call, initial: int)
    requires Consistent(f, s, initial) && initial >= 1 && InjectiveFingerprint(f) && IsWrite(c)
    requires c.operationId !in s.operations && 1 <= max <= MAX_ATTEMPTS
    ensures var (after, o) := Written(f, s, b, max, c);
            var fit := Welcome(f, s, b, c) && TellsEvent(c) && InBounds(c);
            && (o.Done? <==>
                  fit && |s.faults| < max && TransientUpTo(s.faults, |s.faults|) && c.expectedRevision == s.revision)
            && (o.Unknown? <==> fit && AmbiguousWithin(s.faults, max))
  {
    hide Exchanges, IsDigest, IsEventKind, IsTaskId, IsId, Consistent, Admitted, TransientUpTo, AmbiguousWithin;
    hide Said, IsWorktreeKey;
    SentExactlyWhenWellFormed(c);
    AdmittedExactlyWhenWelcome(f, s, b, c);
    if CallProblem(c).None? {
      var core := CoreOf(f, b, c);
      var (after, o) := Exchanges(f, s, core, c.timeoutMs, 1, max);
      ExchangesEffect(f, s, core, c.timeoutMs, 1, max);
      if Admitted(f, s, core) {
        ExchangesKeepConsistent(f, s, core, c.timeoutMs, 1, max, initial);
        FreshExchanges(f, s, core, c.timeoutMs, 1, max);
        AdmittedTask(f, s, core);
        if OneCommit(f, s, core, after) && o.Done? && o.value != MALFORMED {
          StoredAnswerNamesItsEntry(f, after, c, core, o.value, initial);
        }
      }
    }
  }

  // Reads

  lemma {:induction false} ReadExchanges(f: Functions, s: Server, core: Core, timeoutMs: int, attempt: int, max: int)
    requires core.operation.ReadRevision?
    ensures var (after, o) := Exchanges(f, s, core, timeoutMs, attempt, max);
            && after.events == s.events && after.revision == s.revision
            && after.taskId == s.taskId && after.authReference == s.authReference
            && (o.Done? && core.operationId !in s.operations && o.value != MALFORMED ==>
                  && core.expectedRevision == s.revision && o.value == ReadResponse(f, s, core)
                  && after.operations == s.operations[core.operationId := Stored(f.fingerprint(core), o.value)]
                  && Admitted(f, s, core))
    decreases max - attempt
  {
    hide CoreRefusal, IsEventKind, IsDigest, Scanned;
    var (after, reply) := Exchange(f, s, Request(core, attempt, timeoutMs));
    if reply.Rejected? && Retryable(reply.code) && attempt < max {
      ReadExchanges(f, after, core, timeoutMs, attempt + 1, max);
    }
  }

  /**
   Reads never touch the log. A first read reports the current revision and log length;
   repeating the operation later reports the same snapshot again, even when it is stale.
  */
  lemma ReadsReportTheRevision(f: Functions, s: Server, b: Binding, max: int, c: Call, between: seq<Command>, again: int)
    requires c.operation.ReadRevision?
    ensures var (after, o) := ReadBack(f, s, b, max, c);
            && after.events == s.events && after.revision == s.revision
            && (o.Done? && c.operationId !in s.operations ==>
                  && o.value == Snapshot(s.taskId, s.revision, |s.events|, f.stateDigest(s.events),
                                         c.correlationId, c.operationId)
                  && var later := Run(f, after, between);
                     ReadBack(f, later, b, again, c) == (later, o))
  {
    hide IsDigest, IsTaskId, IsId, Run, Admitted, Exchanges;
    if CallProblem(c).None? {
      var core := CoreOf(f, b, c);
      var (after, o) := Exchanges(f, s, core, c.timeoutMs, 1, max);
      ReadExchanges(f, s, core, c.timeoutMs, 1, max);
      if o.Done? && c.operationId !in s.operations && o.value != MALFORMED {
        RunIsLater(f, after, between);
        RememberedIsReplayed(f, s, Run(f, after, between), core, o.value, c.timeoutMs, again);
      }
    }
  }

  lemma {:induction false} FreshReads(f: Functions, s: Server, core: Core, timeoutMs: int, attempt: int, max: int)
    requires core.operation.ReadRevision? && core.operationId !in s.operations
    requires 1 <= timeoutMs <= MAX_TIMEOUT_MS && 1 <= attempt <= max <= MAX_ATTEMPTS
    ensures var (after, o) := Exchanges(f, s, core, timeoutMs, attempt, max);
            && (o.Done? && o.value != MALFORMED <==>
                  && Admitted(f, s, core) && |s.faults| <= max - attempt && TransientUpTo(s.faults, |s.faults|)
                  && core.expectedRevision == s.revision)
            && (o.Unknown? <==> Admitted(f, s, core) && AmbiguousWithin(s.faults, max - attempt + 1))
            && (o.Done? && o.value != MALFORMED ==> o.value == ReadResponse(f, s, core))
    decreases max - attempt
  {
    hide CoreRefusal, IsEventKind, IsDigest, Scanned;
    var (after, reply) := Exchange(f, s, Request(core, attempt, timeoutMs));
    if Admitted(f, s, core) && s.faults != [] {
      var rest := s.faults[1..];
      assert s.faults == [s.faults[0]] + rest;
      if Transient(s.faults[0]) {
        assert after == s.(faults := rest);
        forall k | 0 <= k <= |rest| ensures TransientUpTo(s.faults, k + 1) <==> TransientUpTo(rest, k) {
          TransientShift(s.faults, k);
        }
        if attempt < max {
          FreshReads(f, after, core, timeoutMs, attempt + 1, max);
          AmbiguousLater(s.faults, max - attempt + 1);
        }
      }
    }
  }

  /** The same for a new read, if the log has a digest. */
  lemma NewReadSucceedsExactlyWhen(f: Functions, s: Server, b: Binding, max: int, c: Call)
    requires c.operation.ReadRevision? && c.operationId !in s.operations && 1 <= max <= MAX_ATTEMPTS
    requires s.revision >= 1 && IsDigest(f.stateDigest(s.events))
    ensures var (after, o) := ReadBack(f, s, b, max, c);
            var fit := Welcome(f, s, b, c) && InBounds(c);
            && (o.Done? <==>
                  fit && |s.faults| < max && TransientUpTo(s.faults, |s.faults|) && c.expectedRevision == s.revision)
            && (o.Unknown? <==> fit && AmbiguousWithin(s.faults, max))
  {
    hide Exchanges, IsDigest, IsEventKind, IsTaskId, IsId, Admitted, TransientUpTo, AmbiguousWithin, Said, IsWorktreeKey;
    SentExactlyWhenWellFormed(c);
    AdmittedExactlyWhenWelcome(f, s, b, c);
    if CallProblem(c).None? {
      FreshReads(f, s, CoreOf(f, b, c), c.timeoutMs, 1, max);
    }
  }

  /** The client object, bound to one coordinator. */
  class CoordinatorClient {
    const transport: InProcessCoordinator
    const binding: Binding
    const maxAttempts: int

    constructor (transport: InProcessCoordinator, binding: Binding, maxAttempts: int)
      requires 1 <= maxAttempts <= MAX_ATTEMPTS && ValidBinding(binding)
      ensures this.transport == transport && this.binding == binding && this.maxAttempts == maxAttempts
    {
      this.transport, this.binding, this.maxAttempts := transport, binding, maxAttempts;
    }

    static method Connect(transport: InProcessCoordinator, binding: Binding, maxAttempts: int)
      returns (r: Result<CoordinatorClient, Problem>)
      ensures r.Ok? <==> 1 <= maxAttempts <= MAX_ATTEMPTS && ValidBinding(binding)
      ensures r.Ok? ==> fresh(r.value) && r.value.transport == transport && r.value.binding == binding
                        && r.value.maxAttempts == maxAttempts
    {
      if !(1 <= maxAttempts <= MAX_ATTEMPTS) {
        return Err(InvalidRetryBound);
      }
      if !ValidBinding(binding) {
        return Err(InvalidBinding);
      }
      var client := new CoordinatorClient(transport, binding, maxAttempts);
      r := Ok(client);
    }

    /** Sends the request, again after each transient failure, until it is decided or the attempts are used up. */
    method Send(c: Call) returns (o: Outcome<Response>)
      requires CallProblem(c).None? && 1 <= maxAttempts
      modifies transport
      ensures var core := CoreOf(transport.functions, binding, c);
              (transport.State(), o)
              == Exchanges(transport.functions, old(transport.State()), core, c.timeoutMs, 1, maxAttempts)
    {
      hide Exchange, CallProblem;
      ghost var f := transport.functions;
      var core := CoreOf(transport.functions, binding, c);
      var attempt := 1;
      while true
        invariant 1 <= attempt <= maxAttempts
        invariant Exchanges(f, transport.State(), core, c.timeoutMs, attempt, maxAttempts)
               == Exchanges(f, old(transport.State()), core, c.timeoutMs, 1, maxAttempts)
        decreases maxAttempts - attempt
      {
        var reply := transport.Serve(Request(core, attempt, c.timeoutMs));
        match reply {
          case Accepted(response) =>
            return Done(response);
          case Rejected(code) =>
            if code.AmbiguousOutcome? {
              return Unknown(c.operationId, c.correlationId);
            }
            if !(Retryable(code) && attempt < maxAttempts) {
              return Refused(code);
            }
        }
        attempt := attempt + 1;
      }
    }

    method WriteEvent(operationId: string, correlationId: string, expectedRevision: int,
                      eventKind: string, eventDigest: string, timeoutMs: int) returns (o: Outcome<CasWrite>)
      requires 1 <= maxAttempts
      modifies transport
      ensures var c := Write(operationId, correlationId, expectedRevision, timeoutMs, eventKind, eventDigest);
              (transport.State(), o) == Written(transport.functions, old(transport.State()), binding, maxAttempts, c)
    {
      hide Exchanges, IsId, IsDigest, IsEventKind;
      var c := Write(operationId, correlationId, expectedRevision, timeoutMs, eventKind, eventDigest);
      var problem := CallProblem(c);
      if problem.Some? {
        return Invalid(problem.value);
      }
      var sent := Send(c);
      o := if sent.Done? then CasWriteOf(sent.value, correlationId, operationId, eventDigest) else Forward(sent);
    }

    method ReadRevision(operationId: string, correlationId: string, expectedRevision: int, timeoutMs: int)
      returns (o: Outcome<Snapshot>)
      requires 1 <= maxAttempts
      modifies transport
      ensures var c := Read(operationId, correlationId, expectedRevision, timeoutMs);
              (transport.State(), o) == ReadBack(transport.functions, old(transport.State()), binding, maxAttempts, c)
    {
      hide Exchanges, IsId, IsDigest, IsEventKind;
      var c := Read(operationId, correlationId, expectedRevision, timeoutMs);
      var problem := CallProblem(c);
      if problem.Some? {
        return Invalid(problem.value);
      }
      var sent := Send(c);
      o := if sent.Done? then SnapshotOf(sent.value, correlationId, operationId) else Forward(sent);
    }
  }
}
