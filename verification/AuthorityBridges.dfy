/**
 The runtime's bridge to the quality, guidance and user authorities, and the authority
 fakes it talks to. Only a fake's prepared responses and its respond call create outcomes;
 the bridge requests, observes, retries and resumes.

 The result digest is a function of the other result fields and is not modelled apart.
*/
module AuthorityBridges {
  import opened Identifiers
  import opened Results

  datatype Authority = Awq | Awg | Ui

  datatype Status =
    | New | Pending | Accepted | Approved | RequiresUi | Rejected | Timeout | Unknown | Blocked
    | OtherStatus(text: string)

  datatype Request = Request(
    operationId: string, attempt: int, maxAttempts: int, bindingDigest: string, requestDigest: string)

  /** What a request's fingerprint covers. */
  datatype Identity = Identity(operationId: string, maxAttempts: int, bindingDigest: string, requestDigest: string)

  datatype Observation = Observation(
    authority: Authority, operationId: string, attempt: int, status: Status, bindingDigest: string)

  datatype Waiting = Waiting(fingerprint: string, attempt: int, bindingDigest: string)

  datatype Completion = Completion(fingerprint: string, result: Observation)

  datatype Fake = Fake(
    authority: Authority, responses: seq<Status>, pending: map<string, Waiting>,
    completed: map<string, Completion>, lastObserved: map<string, Observation>)

  datatype Error =
    | InvalidOperationId | InvalidRetryBound | InvalidRequestDigest | ChangedReplay | ChangedPendingReplay
    | AmbiguousOutcome | NotPending | InvalidResponse | UnknownOperation | InvalidRequest | InvalidChangeKind
    | WrongKind | CrossedReplay | CrossedResult | NotRetryable | InvalidGate | NotRouted | NotApproved

  /** The digest of a text, and the digest of what a fingerprint covers. */
  datatype Digests = Digests(text: string -> string, fingerprint: Identity -> string)

  predicate Outcome(a: Authority, s: Status) {
    match s
    case Accepted => a.Awq?
    case Approved => !a.Awq?
    case RequiresUi => a.Awg?
    case Rejected => true
    case Timeout => true
    case Unknown => true
    case _ => false
  }

  /** An outcome that stands: the others must be retried. */
  predicate Decisive(s: Status) {
    s.Accepted? || s.Approved? || s.RequiresUi? || s.Rejected?
  }

  function IdentityOf(r: Request): Identity {
    Identity(r.operationId, r.maxAttempts, r.bindingDigest, r.requestDigest)
  }

  // The authority fake

  function RequestProblem(r: Request): Option<Error> {
    if !IsId("OP-", r.operationId) then Some(InvalidOperationId)
    else if r.attempt < 1 || r.maxAttempts < r.attempt || r.maxAttempts > 5 then Some(InvalidRetryBound)
    else if !IsDigest(r.bindingDigest) || !IsDigest(r.requestDigest) then Some(InvalidRequestDigest)
    else None
  }

  /** Stands a decisive outcome for good, or keeps a transient one for observers. */
  function Completing(fake: Fake, op: string, w: Waiting, status: Status): (Fake, Observation) {
    var result := Observation(fake.authority, op, w.attempt, status, w.bindingDigest);
    if Decisive(status) then (fake.(completed := fake.completed[op := Completion(w.fingerprint, result)]), result)
    else (fake.(lastObserved := fake.lastObserved[op := result]), result)
  }

  function PendingView(fake: Fake, op: string, w: Waiting): Observation {
    Observation(fake.authority, op, w.attempt, Pending, w.bindingDigest)
  }

  function Requested(d: Digests, fake: Fake, r: Request): (Fake, Result<Observation, Error>) {
    var problem := RequestProblem(r);
    var op, fingerprint := r.operationId, d.fingerprint(IdentityOf(r));
    if problem.Some? then (fake, Err(problem.value))
    else if op in fake.completed then
      (fake, if fake.completed[op].fingerprint == fingerprint then Ok(fake.completed[op].result) else Err(ChangedReplay))
    else if op in fake.pending then
      var w := fake.pending[op];
      (fake, if w.fingerprint == fingerprint && w.bindingDigest == r.bindingDigest then Ok(PendingView(fake, op, w))
             else Err(ChangedPendingReplay))
    else
      var w := Waiting(fingerprint, r.attempt, r.bindingDigest);
      var status := if fake.responses == [] then Unknown else fake.responses[0];
      var next := fake.(responses := if fake.responses == [] then [] else fake.responses[1..]);
      if status.Pending? then (next.(pending := next.pending[op := w]), Ok(PendingView(fake, op, w)))
      else if !Outcome(fake.authority, status) then (next, Err(AmbiguousOutcome))
      else
        var (after, result) := Completing(next, op, w, status);
        (after, Ok(result))
  }

  function Responded(fake: Fake, op: string, status: Status): (Fake, Result<Observation, Error>) {
    if op !in fake.pending then (fake, Err(NotPending))
    else if !Outcome(fake.authority, status) then (fake, Err(InvalidResponse))
    else
      var (after, result) := Completing(fake.(pending := fake.pending - {op}), op, fake.pending[op], status);
      (after, Ok(result))
  }

  function Observed(fake: Fake, op: string): Result<Observation, Error> {
    if op in fake.completed then Ok(fake.completed[op].result)
    else if op in fake.lastObserved then Ok(fake.lastObserved[op])
    else if op in fake.pending then Ok(PendingView(fake, op, fake.pending[op]))
    else Err(UnknownOperation)
  }

  class LocalAuthorityFake {
    const digests: Digests
    const authority: Authority
    var responses: seq<Status>
    var pending: map<string, Waiting>
    var completed: map<string, Completion>
    var lastObserved: map<string, Observation>

    function State(): Fake
      reads this
    {
      Fake(authority, responses, pending, completed, lastObserved)
    }

    constructor (digests: Digests, authority: Authority, responses: seq<Status>)
      ensures State() == NewFake(authority, responses) && this.digests == digests
    {
      this.digests, this.authority, this.responses := digests, authority, responses;
      pending, completed, lastObserved := map[], map[], map[];
    }

    method Request(r: Request) returns (result: Result<Observation, Error>)
      modifies this
      ensures (State(), result) == Requested(digests, old(State()), r)
    {
      hide RequestProblem;
      var problem := RequestProblem(r);
      if problem.Some? {
        return Err(problem.value);
      }
      var op, fingerprint := r.operationId, digests.fingerprint(IdentityOf(r));
      if op in completed {
        if completed[op].fingerprint != fingerprint {
          return Err(ChangedReplay);
        }
        return Ok(completed[op].result);
      }
      if op in pending {
        var prior := pending[op];
        if prior.fingerprint != fingerprint || prior.bindingDigest != r.bindingDigest {
          return Err(ChangedPendingReplay);
        }
        return Ok(PendingView(State(), op, prior));
      }
      var status := Unknown;
      if responses != [] {
        status, responses := responses[0], responses[1..];
      }
      var waiting := Waiting(fingerprint, r.attempt, r.bindingDigest);
      if status.Pending? {
        pending := pending[op := waiting];
        return Ok(PendingView(State(), op, waiting));
      }
      if !Outcome(authority, status) {
        return Err(AmbiguousOutcome);
      }
      var done := Complete(op, waiting, status);
      result := Ok(done);
    }

    method Respond(op: string, status: Status) returns (result: Result<Observation, Error>)
      modifies this
      ensures (State(), result) == Responded(old(State()), op, status)
    {
      if op !in pending {
        return Err(NotPending);
      }
      if !Outcome(authority, status) {
        return Err(InvalidResponse);
      }
      var waiting := pending[op];
      pending := pending - {op};
      var done := Complete(op, waiting, status);
      result := Ok(done);
    }

    method Complete(op: string, waiting: Waiting, status: Status) returns (result: Observation)
      requires Outcome(authority, status)
      modifies this
      ensures (State(), result) == Completing(old(State()), op, waiting, status)
    {
      result := Observation(authority, op, waiting.attempt, status, waiting.bindingDigest);
      if !status.Timeout? && !status.Unknown? {
        completed := completed[op := Completion(waiting.fingerprint, result)];
      } else {
        lastObserved := lastObserved[op := result];
      }
    }

    function Observe(op: string): Result<Observation, Error>
      reads this
    {
      Observed(State(), op)
    }
  }

  function NewFake(authority: Authority, responses: seq<Status>): Fake {
    Fake(authority, responses, map[], map[], map[])
  }

  // The bridge

  datatype Kind = Evidence | Discussion | HumanGate | OtherKind

  datatype Change =
    | NoChange | OrdinaryAlternative | Refinement | TestChange | SpecificationChange | RepairEscalation
    | OtherChange

  datatype Operation = Operation(
    authority: Authority, requestId: string, kind: Kind, change: Change, maxAttempts: int,
    binding: string, requestDigest: string, attempts: seq<Observation>, status: Status, resumed: nat)

  datatype Fakes = Fakes(awq: Fake, awg: Fake, ui: Fake) {
    function At(a: Authority): Fake {
      match a case Awq => awq case Awg => awg case Ui => ui
    }

    function With(a: Authority, fake: Fake): Fakes {
      match a
      case Awq => this.(awq := fake)
      case Awg => this.(awg := fake)
      case Ui => this.(ui := fake)
    }
  }

  datatype System = System(binding: string, fakes: Fakes, operations: map<string, Operation>)

  datatype Ask = Ask(
    authority: Authority, requestId: string, kind: Kind, payload: string, operationId: string, maxAttempts: int,
    change: Change)

  predicate UserChange(c: Change) {
    c.Refinement? || c.TestChange? || c.SpecificationChange? || c.RepairEscalation?
  }

  predicate KindFits(a: Authority, k: Kind) {
    match a case Awq => k.Evidence? case Awg => k.Discussion? case Ui => k.HumanGate?
  }

  function AskProblem(ask: Ask): Option<Error> {
    if !IsId("REQ-", ask.requestId) then Some(InvalidRequest)
    else if !IsId("OP-", ask.operationId) then Some(InvalidOperationId)
    else if ask.maxAttempts < 1 || ask.maxAttempts > 5 then Some(InvalidRetryBound)
    else if ask.change.OtherChange? then Some(InvalidChangeKind)
    else if !KindFits(ask.authority, ask.kind) then Some(WrongKind)
    else None
  }

  function OperationOf(d: Digests, binding: string, ask: Ask): Operation {
    Operation(ask.authority, ask.requestId, ask.kind, ask.change, ask.maxAttempts, binding, d.text(ask.payload), [], New, 0)
  }

  function RequestOf(d: Digests, op: string, o: Operation): Request {
    Request(op, |o.attempts| + 1, o.maxAttempts, d.text(o.binding), o.requestDigest)
  }

  /** Sends the next attempt. The fake may have moved even when the send raises. */
  function Sent(d: Digests, s: System, op: string): (System, Option<Error>)
    requires op in s.operations
  {
    var o := s.operations[op];
    var (fake, observed) := Requested(d, s.fakes.At(o.authority), RequestOf(d, op, o));
    var after := s.(fakes := s.fakes.With(o.authority, fake));
    if observed.Err? then (after, Some(observed.error))
    else if observed.value.bindingDigest != d.text(o.binding) then (after, Some(CrossedResult))
    else
      var sent := o.(attempts := o.attempts + [observed.value], status := observed.value.status);
      (after.(operations := after.operations[op := sent]), None)
  }

  function ViewOf(r: (System, Option<Error>), op: string): (System, Result<Operation, Error>)
    requires op in r.0.operations
  {
    (r.0, if r.1.Some? then Err(r.1.value) else Ok(r.0.operations[op]))
  }

  function Asked(d: Digests, s: System, ask: Ask): (System, Result<Operation, Error>) {
    var problem := AskProblem(ask);
    var op := ask.operationId;
    if problem.Some? then (s, Err(problem.value))
    else if op in s.operations then
      var o := s.operations[op];
      (s, if o.requestDigest != d.text(ask.payload) || o.binding != s.binding then Err(CrossedReplay) else Ok(o))
    else ViewOf(Sent(d, s.(operations := s.operations[op := OperationOf(d, s.binding, ask)]), op), op)
  }

  function Noted(o: Operation, observed: Observation): Operation {
    var seen := o.attempts != [] && observed == o.attempts[|o.attempts| - 1];
    o.(attempts := if seen then o.attempts else o.attempts + [observed], status := observed.status)
  }

  function Watched(d: Digests, s: System, op: string): (System, Result<Operation, Error>) {
    if op !in s.operations then (s, Err(UnknownOperation))
    else
      var o := s.operations[op];
      var observed := Observed(s.fakes.At(o.authority), op);
      if observed.Err? then (s, Err(observed.error))
      else if observed.value.bindingDigest != d.text(o.binding) then (s, Err(CrossedResult))
      else (s.(operations := s.operations[op := Noted(o, observed.value)]), Ok(Noted(o, observed.value)))
  }

  function Retried(d: Digests, s: System, op: string): (System, Result<Operation, Error>) {
    if op !in s.operations then (s, Err(UnknownOperation))
    else
      var o := s.operations[op];
      if !o.status.Timeout? && !o.status.Unknown? then (s, Err(NotRetryable))
      else if |o.attempts| >= o.maxAttempts then
        (s.(operations := s.operations[op := o.(status := Blocked)]), Ok(o.(status := Blocked)))
      else ViewOf(Sent(d, s, op), op)
  }

  function Resumed(d: Digests, s: System, op: string): (System, Result<Operation, Error>) {
    if op !in s.operations then (s, Err(UnknownOperation))
    else Watched(d, s.(operations := s.operations[op := s.operations[op].(resumed := s.operations[op].resumed + 1)]), op)
  }

  /** Why a change is not authorized by these two operations, if it is not. */
  function FinalizeRefusal(s: System, awg: string, ui: string): Option<Error> {
    if awg !in s.operations || ui !in s.operations then Some(UnknownOperation)
    else
      var (a, u) := (s.operations[awg], s.operations[ui]);
      if a.binding != s.binding || u.binding != s.binding then Some(CrossedReplay)
      else if !a.authority.Awg? || !u.authority.Ui? || !UserChange(a.change) then Some(InvalidGate)
      else if !a.status.RequiresUi? then Some(NotRouted)
      else if !u.status.Approved? then Some(NotApproved)
      else None
  }

  class AuthorityBridge {
    const digests: Digests
    const binding: string
    const awq: LocalAuthorityFake
    const awg: LocalAuthorityFake
    const ui: LocalAuthorityFake
    var operations: map<string, Operation>

    function State(): System
      reads this, awq, awg, ui
    {
      System(binding, Fakes(awq.State(), awg.State(), ui.State()), operations)
    }

    ghost predicate Valid()
      reads this
    {
      && awq.authority.Awq? && awg.authority.Awg? && ui.authority.Ui?
      && awq.digests == awg.digests == ui.digests == digests
    }

    function FakeFor(a: Authority): (fake: LocalAuthorityFake)
    {
      match a case Awq => awq case Awg => awg case Ui => ui
    }

    constructor (digests: Digests, binding: string, awq: LocalAuthorityFake, awg: LocalAuthorityFake, ui: LocalAuthorityFake)
      requires awq.authority.Awq? && awg.authority.Awg? && ui.authority.Ui?
      requires awq.digests == awg.digests == ui.digests == digests
      ensures Valid() && State() == System(binding, Fakes(awq.State(), awg.State(), ui.State()), map[])
      ensures this.awq == awq && this.awg == awg && this.ui == ui
    {
      this.digests, this.binding, this.awq, this.awg, this.ui := digests, binding, awq, awg, ui;
      operations := map[];
    }

    method Request(ask: Ask) returns (r: Result<Operation, Error>)
      requires Valid()
      modifies this, awq, awg, ui
      ensures Valid() && (State(), r) == Asked(digests, old(State()), ask)
    {
      hide AskProblem, Sent;
      var problem := AskProblem(ask);
      if problem.Some? {
        return Err(problem.value);
      }
      var op := ask.operationId;
      if op in operations {
        if operations[op].requestDigest != digests.text(ask.payload) || operations[op].binding != binding {
          return Err(CrossedReplay);
        }
        return Ok(operations[op]);
      }
      operations := operations[op := OperationOf(digests, binding, ask)];
      var error := Send(op);
      r := if error.Some? then Err(error.value) else Ok(operations[op]);
    }

    method Send(op: string) returns (error: Option<Error>)
      requires Valid() && op in operations
      modifies this, awq, awg, ui
      ensures Valid() && (State(), error) == Sent(digests, old(State()), op) && op in operations
    {
      hide Requested;
      var o := operations[op];
      var fake := FakeFor(o.authority);
      var observed := fake.Request(RequestOf(digests, op, o));
      if observed.Err? {
        return Some(observed.error);
      }
      if observed.value.bindingDigest != digests.text(o.binding) {
        return Some(CrossedResult);
      }
      operations := operations[op := o.(attempts := o.attempts + [observed.value], status := observed.value.status)];
      error := None;
    }

    method Observe(op: string) returns (r: Result<Operation, Error>)
      requires Valid()
      modifies this
      ensures Valid() && (State(), r) == Watched(digests, old(State()), op)
    {
      if op !in operations {
        return Err(UnknownOperation);
      }
      var o := operations[op];
      var observed := FakeFor(o.authority).Observe(op);
      if observed.Err? {
        return Err(observed.error);
      }
      if observed.value.bindingDigest != digests.text(o.binding) {
        return Err(CrossedResult);
      }
      if o.attempts == [] || observed.value != o.attempts[|o.attempts| - 1] {
        o := o.(attempts := o.attempts + [observed.value]);
      }
      o := o.(status := observed.value.status);
      operations := operations[op := o];
      r := Ok(o);
    }

    method Retry(op: string) returns (r: Result<Operation, Error>)
      requires Valid()
      modifies this, awq, awg, ui
      ensures Valid() && (State(), r) == Retried(digests, old(State()), op)
    {
      hide Sent;
      if op !in operations {
        return Err(UnknownOperation);
      }
      var o := operations[op];
      if !o.status.Timeout? && !o.status.Unknown? {
        return Err(NotRetryable);
      }
      if |o.attempts| >= o.maxAttempts {
        operations := operations[op := o.(status := Blocked)];
        return Ok(operations[op]);
      }
      var error := Send(op);
      r := if error.Some? then Err(error.value) else Ok(operations[op]);
    }

    method Resume(op: string) returns (r: Result<Operation, Error>)
      requires Valid()
      modifies this
      ensures Valid() && (State(), r) == Resumed(digests, old(State()), op)
    {
      hide Observed;
      if op !in operations {
        return Err(UnknownOperation);
      }
      operations := operations[op := operations[op].(resumed := operations[op].resumed + 1)];
      r := Observe(op);
    }

    /** None when the change is authorized. */
    function FinalizeChange(awgOp: string, uiOp: string): Option<Error>
      reads this, awq, awg, ui
    {
      FinalizeRefusal(State(), awgOp, uiOp)
    }
  }
}
