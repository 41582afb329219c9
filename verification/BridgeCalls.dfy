/**
 What the calls of the bridge and of its authorities come to: which outcomes an authority can
 give, how a new request is answered, how a pending one is resolved, and what a retry does.
*/
module BridgeCalls {
  import opened Identifiers
  import opened Results
  import opened AuthorityBridges
  import opened BridgeSafety

  /** The outcomes of each authority: only guidance routes to the user, and only quality accepts. */
  function OutcomesOf(a: Authority): set<Status> {
    match a
    case Awq => {Accepted, Rejected, Timeout, Unknown}
    case Awg => {Approved, RequiresUi, Rejected, Timeout, Unknown}
    case Ui => {Approved, Rejected, Timeout, Unknown}
  }

  lemma OutcomesAreTheAuthoritys(a: Authority, status: Status)
    ensures Outcome(a, status) <==> status in OutcomesOf(a)
    ensures Outcome(a, status) ==> (Decisive(status) <==> status != Timeout && status != Unknown)
  {
  }

  /** In every reachable state a decided operation has a decision its own authority can give. */
  lemma DecisionsBelongToTheirAuthority(d: Digests, binding: string, p: Prepared, cmds: seq<Command>, op: string)
    ensures var s := Run(d, Initial(binding, p), cmds);
            op in s.operations && s.operations[op].status in {Accepted, Approved, RequiresUi, Rejected} ==>
              s.operations[op].status in OutcomesOf(s.operations[op].authority)
  {
    hide Run, Supplied;
    EveryRunIsSound(d, binding, p, cmds);
    var s := Run(d, Initial(binding, p), cmds);
    if op in s.operations {
      var o := s.operations[op];
      assert Backed(d, s, op);
      assert FakeSound(s.fakes.At(o.authority), p.At(o.authority), cmds);
      if Decisive(o.status) {
        OutcomesAreTheAuthoritys(o.authority, o.status);
      }
    }
  }

  /** A question the bridge takes: to the authority that handles its kind, within the bounds. */
  ghost predicate Askable(ask: Ask) {
    && IsId("REQ-", ask.requestId) && IsId("OP-", ask.operationId) && 1 <= ask.maxAttempts <= 5
    && ask.change in {NoChange, OrdinaryAlternative, Refinement, TestChange, SpecificationChange, RepairEscalation}
    && (ask.authority, ask.kind) in {(Awq, Evidence), (Awg, Discussion), (Ui, HumanGate)}
  }

  lemma AskedExactlyWhenAskable(ask: Ask)
    ensures AskProblem(ask).None? <==> Askable(ask)
  {
    hide IsId;
  }

  /** The authority's next answer; it answers unknown once nothing is prepared. */
  function NextAnswer(fake: Fake): Status {
    if fake.responses == [] then Unknown else fake.responses[0]
  }

  /** The operation a question becomes once it was answered. */
  function AnsweredOperation(d: Digests, binding: string, ask: Ask, status: Status): Operation {
    Operation(ask.authority, ask.requestId, ask.kind, ask.change, ask.maxAttempts, binding, d.text(ask.payload),
              [Observation(ask.authority, ask.operationId, 1, status, d.text(binding))], status, 0)
  }

  lemma RequestedExactlyWhenInBounds(r: Request)
    ensures RequestProblem(r).None? <==>
              && IsId("OP-", r.operationId) && 1 <= r.attempt <= r.maxAttempts <= 5
              && IsDigest(r.bindingDigest) && IsDigest(r.requestDigest)
  {
    hide IsId, IsDigest;
  }

  /** What an authority makes of a request it does not know: it waits, decides, keeps a transient answer, or raises. */
  lemma NewRequestIsAnswered(d: Digests, fake: Fake, r: Request)
    requires RequestProblem(r).None? && r.operationId !in fake.completed && r.operationId !in fake.pending
    ensures var (after, result) := Requested(d, fake, r);
            var status := NextAnswer(fake);
            var seen := Observation(fake.authority, r.operationId, r.attempt, status, r.bindingDigest);
            && (result.Ok? <==> status == Pending || status in OutcomesOf(fake.authority))
            && (result.Ok? ==> result.value == seen && Observed(after, r.operationId)
                               == if status == Pending && r.operationId in fake.lastObserved
                                  then Ok(fake.lastObserved[r.operationId]) else Ok(seen))
            && (result.Err? ==> result == Err(AmbiguousOutcome))
            && after.authority == fake.authority
            && after.responses == (if fake.responses == [] then [] else fake.responses[1..])
            && after.pending.Keys == fake.pending.Keys + (if status == Pending then {r.operationId} else {})
            && after.completed.Keys == fake.completed.Keys
                 + (if status in OutcomesOf(fake.authority) && status != Timeout && status != Unknown
                    then {r.operationId} else {})
  {
    hide RequestProblem, OutcomesOf;
    OutcomesAreTheAuthoritys(fake.authority, NextAnswer(fake));
    if NextAnswer(fake) == Pending {
      PendingIsNoOutcome(fake.authority);
    }
  }

  lemma PendingIsNoOutcome(a: Authority)
    ensures Pending !in OutcomesOf(a)
  {
  }

  /**
   A new question to an authority that does not know it: the answer, pending included, becomes the
   operation's first observation and its status. An answer the authority cannot give raises, and leaves
   the operation new.
  */
  lemma NewQuestionIsAnswered(d: Digests, s: System, ask: Ask)
    requires (forall text :: IsDigest(d.text(text))) && Askable(ask) && ask.operationId !in s.operations
    requires var fake := s.fakes.At(ask.authority);
             fake.authority == ask.authority && ask.operationId !in fake.completed && ask.operationId !in fake.pending
    ensures var (after, r) := Asked(d, s, ask);
            var op, status := ask.operationId, NextAnswer(s.fakes.At(ask.authority));
            var answered := AnsweredOperation(d, s.binding, ask, status);
            && (r.Ok? <==> status == Pending || status in OutcomesOf(ask.authority))
            && (r.Ok? ==> r.value == answered && after.operations == s.operations[op := answered])
            && (r.Err? ==> r == Err(AmbiguousOutcome)
                           && after.operations == s.operations[op := answered.(attempts := [], status := New)])
  {
    hide IsId, IsDigest, OutcomesOf, Requested, RequestProblem;
    AskedExactlyWhenAskable(ask);
    assert IsDigest(d.text(s.binding)) && IsDigest(d.text(ask.payload));
    var stored := OperationOf(d, s.binding, ask);
    var request := RequestOf(d, ask.operationId, stored);
    RequestedExactlyWhenInBounds(request);
    NewRequestIsAnswered(d, s.fakes.At(ask.authority), request);
    var begun := s.(operations := s.operations[ask.operationId := stored]);
    assert begun.operations[ask.operationId] == stored;
    assert Asked(d, s, ask) == ViewOf(Sent(d, begun, ask.operationId), ask.operationId);
    var answered := AnsweredOperation(d, s.binding, ask, NextAnswer(s.fakes.At(ask.authority)));
    assert answered.(attempts := [], status := New) == stored;
    var (_, observed) := Requested(d, begun.fakes.At(stored.authority), RequestOf(d, ask.operationId, stored));
    assert Sent(d, begun, ask.operationId).1 == if observed.Err? then Some(observed.error) else None;
    assert stored.attempts + answered.attempts == answered.attempts;
    assert begun.operations[ask.operationId := answered] == s.operations[ask.operationId := answered];
  }

  /**
   A pending operation is resolved by its authority with one of its outcomes, and by nothing else; the
   next observation gives the bridge that outcome.
  */
  lemma PendingIsResolvedByItsAuthority(d: Digests, s: System, op: string, status: Status)
    requires op in s.operations
    requires var fake := s.fakes.At(s.operations[op].authority);
             && fake.authority == s.operations[op].authority && op in fake.pending && op !in fake.completed
             && fake.pending[op].bindingDigest == d.text(s.operations[op].binding)
    ensures var a := s.operations[op].authority;
            var (responded, result) := Responded(s.fakes.At(a), op, status);
            && (result.Ok? <==> status in OutcomesOf(a)) && (result.Err? ==> responded == s.fakes.At(a))
            && (result.Ok? ==>
                  var resolved := s.(fakes := s.fakes.With(a, responded));
                  var (after, seen) := Watched(d, resolved, op);
                  && seen.Ok? && seen.value.status == status && after.operations[op] == seen.value
                  && seen.value.attempts != [] && seen.value.attempts[|seen.value.attempts| - 1].status == status)
  {
    hide OutcomesOf;
    OutcomesAreTheAuthoritys(s.operations[op].authority, status);
  }

  /**
   Only a timed out or unknown operation is retried. With its attempts used up it is blocked; otherwise
   one more attempt is sent. Any other operation is left alone.
  */
  lemma RetriedExactlyWhenTransient(d: Digests, s: System, op: string)
    requires op in s.operations
    ensures var (after, r) := Retried(d, s, op);
            var o := s.operations[op];
            && (o.status != Timeout && o.status != Unknown ==> after == s && r == Err(NotRetryable))
            && ((o.status == Timeout || o.status == Unknown) && |o.attempts| >= o.maxAttempts ==>
                  after == s.(operations := s.operations[op := o.(status := Blocked)]) && r == Ok(o.(status := Blocked)))
            && ((o.status == Timeout || o.status == Unknown) && |o.attempts| < o.maxAttempts ==>
                  && after.fakes == s.fakes.With(o.authority,
                       Requested(d, s.fakes.At(o.authority),
                                 Request(op, |o.attempts| + 1, o.maxAttempts, d.text(o.binding), o.requestDigest)).0)
                  && (r.Ok? ==> |after.operations[op].attempts| == |o.attempts| + 1))
  {
    hide Requested;
  }

  /** Observing notes an observation once: repeating it changes nothing, and resuming only counts besides. */
  lemma ObservingAgainChangesNothing(d: Digests, s: System, op: string)
    ensures var (after, r) := Watched(d, s, op);
            && (r.Err? ==> after == s)
            && (r.Ok? ==>
                  && Watched(d, after, op) == (after, r) && after.fakes == s.fakes
                  && Resumed(d, after, op)
                     == (after.(operations := after.operations[op := r.value.(resumed := r.value.resumed + 1)]),
                         Ok(r.value.(resumed := r.value.resumed + 1))))
  {
    hide Observed;
    var (after, r) := Watched(d, s, op);
    if r.Ok? {
      assert after.operations[op := r.value] == after.operations;
      var more := r.value.(resumed := r.value.resumed + 1);
      assert after.operations[op := more][op := more] == after.operations[op := more];
    }
  }

  // Refusals

  /** A question that is not taken names its first fault; a known id is answered or crossed by its payload. */
  lemma AskRefusals(d: Digests, s: System, ask: Ask)
    ensures var r := Asked(d, s, ask).1;
            var bounded := IsId("REQ-", ask.requestId) && IsId("OP-", ask.operationId) && 1 <= ask.maxAttempts <= 5;
            && (!IsId("REQ-", ask.requestId) ==> r == Err(InvalidRequest))
            && (IsId("REQ-", ask.requestId) && !IsId("OP-", ask.operationId) ==> r == Err(InvalidOperationId))
            && (IsId("REQ-", ask.requestId) && IsId("OP-", ask.operationId) && !bounded ==> r == Err(InvalidRetryBound))
            && (bounded && ask.change == OtherChange ==> r == Err(InvalidChangeKind))
            && (bounded && ask.change != OtherChange && !Askable(ask) ==> r == Err(WrongKind))
            && (Askable(ask) && ask.operationId in s.operations ==>
                  var o := s.operations[ask.operationId];
                  && Asked(d, s, ask).0 == s
                  && r == if o.requestDigest == d.text(ask.payload) && o.binding == s.binding then Ok(o) else Err(CrossedReplay))
  {
    hide IsId, Sent;
    AskedExactlyWhenAskable(ask);
  }

  /** An authority refuses requests out of bounds, and changed ones under an id it has decided or waits for. */
  lemma RequestRefusals(d: Digests, fake: Fake, r: Request)
    ensures var (after, result) := Requested(d, fake, r);
            var op := r.operationId;
            var fingerprint := d.fingerprint(Identity(op, r.maxAttempts, r.bindingDigest, r.requestDigest));
            var fit := RequestProblem(r).None?;
            && (!fit || op in fake.completed || op in fake.pending ==> after == fake)
            && (!IsId("OP-", op) ==> result == Err(InvalidOperationId))
            && (IsId("OP-", op) && !(1 <= r.attempt <= r.maxAttempts <= 5) ==> result == Err(InvalidRetryBound))
            && (IsId("OP-", op) && 1 <= r.attempt <= r.maxAttempts <= 5 && !fit ==> result == Err(InvalidRequestDigest))
            && (fit && op in fake.completed ==>
                  result == if fake.completed[op].fingerprint == fingerprint then Ok(fake.completed[op].result)
                            else Err(ChangedReplay))
            && (fit && op !in fake.completed && op in fake.pending ==>
                  var w := fake.pending[op];
                  result == if w.fingerprint == fingerprint && w.bindingDigest == r.bindingDigest
                            then Ok(Observation(fake.authority, op, w.attempt, Pending, w.bindingDigest))
                            else Err(ChangedPendingReplay))
  {
    hide IsId, IsDigest, Completing, Outcome;
  }

  /** A send takes the answer over only if it is for the operation's binding; else it raises and leaves the operation. */
  lemma SendTakesOwnAnswers(d: Digests, s: System, op: string)
    requires op in s.operations
    ensures var (after, error) := Sent(d, s, op);
            var o := s.operations[op];
            var (fake, answer) := Requested(d, s.fakes.At(o.authority),
                                            Request(op, |o.attempts| + 1, o.maxAttempts, d.text(o.binding), o.requestDigest));
            && after.fakes == s.fakes.With(o.authority, fake)
            && (answer.Err? ==> error == Some(answer.error))
            && (answer.Ok? && answer.value.bindingDigest != d.text(o.binding) ==> error == Some(CrossedResult))
            && (error.Some? ==> after.operations == s.operations)
            && (error.None? ==>
                  && answer.Ok? && answer.value.bindingDigest == d.text(o.binding)
                  && after.operations
                     == s.operations[op := o.(attempts := o.attempts + [answer.value], status := answer.value.status)])
  {
    hide Requested;
    var o := s.operations[op];
    var (_, answer) := Requested(d, s.fakes.At(o.authority), RequestOf(d, op, o));
    assert answer.Ok? || answer.Err?;
    assert answer.Err? ==> Sent(d, s, op).1.Some?;
  }

  /** Nothing is done to an operation that is not there, and no result of another binding is taken over. */
  lemma UnknownOrCrossed(d: Digests, s: System, op: string)
    ensures op !in s.operations ==>
              Watched(d, s, op) == Retried(d, s, op) == Resumed(d, s, op) == (s, Err(UnknownOperation))
    ensures op in s.operations ==>
              var observed := Observed(s.fakes.At(s.operations[op].authority), op);
              && (observed.Err? ==> observed == Err(UnknownOperation) && Watched(d, s, op) == (s, Err(UnknownOperation)))
              && (observed.Ok? && observed.value.bindingDigest != d.text(s.operations[op].binding) ==>
                    Watched(d, s, op) == (s, Err(CrossedResult)))
    ensures forall a: Authority, status :: var fake := s.fakes.At(a);
              && (op !in fake.pending ==> Responded(fake, op, status) == (fake, Err(NotPending)))
              && (op in fake.pending && status !in OutcomesOf(fake.authority) ==>
                    Responded(fake, op, status) == (fake, Err(InvalidResponse)))
  {
    hide OutcomesOf;
    forall a: Authority, status ensures Outcome(s.fakes.At(a).authority, status) <==> status in OutcomesOf(s.fakes.At(a).authority) {
      OutcomesAreTheAuthoritys(s.fakes.At(a).authority, status);
    }
  }

  /** Why a change is not authorized: the first of the gate's checks that fails. */
  lemma FinalizeRefusals(s: System, awg: string, ui: string)
    ensures var refusal := FinalizeRefusal(s, awg, ui);
            && (refusal == Some(UnknownOperation) <==> awg !in s.operations || ui !in s.operations)
            && (awg in s.operations && ui in s.operations ==>
                  var (a, u) := (s.operations[awg], s.operations[ui]);
                  var bound := a.binding == s.binding && u.binding == s.binding;
                  var gated := a.authority == Awg && u.authority == Ui
                               && a.change in {Refinement, TestChange, SpecificationChange, RepairEscalation};
                  && (!bound ==> refusal == Some(CrossedReplay))
                  && (bound && !gated ==> refusal == Some(InvalidGate))
                  && (bound && gated && a.status != RequiresUi ==> refusal == Some(NotRouted))
                  && (bound && gated && a.status == RequiresUi && u.status != Approved ==> refusal == Some(NotApproved))
                  && (bound && gated && a.status == RequiresUi && u.status == Approved ==> refusal == None))
  {
  }
}
