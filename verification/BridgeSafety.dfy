/**
 Where approvals come from: over every run of bridge calls, direct requests by others and
 authority responses, a decisive status is one the authority completed from a supplied
 response, it never changes, and an authorized change stays authorized.
*/
module BridgeSafety {
  import opened Identifiers
  import opened Results
  import opened AuthorityBridges

  datatype Command =
    | BridgeRequest(ask: Ask) | BridgeObserve(op: string) | BridgeRetry(op: string) | BridgeResume(op: string)
    | DirectRequest(authority: Authority, request: Request)
    | Respond(authority: Authority, op: string, status: Status)

  function Step(d: Digests, s: System, cmd: Command): System {
    match cmd
    case BridgeRequest(ask) => Asked(d, s, ask).0
    case BridgeObserve(op) => Watched(d, s, op).0
    case BridgeRetry(op) => Retried(d, s, op).0
    case BridgeResume(op) => Resumed(d, s, op).0
    case DirectRequest(a, r) => s.(fakes := s.fakes.With(a, Requested(d, s.fakes.At(a), r).0))
    case Respond(a, op, status) => s.(fakes := s.fakes.With(a, Responded(s.fakes.At(a), op, status).0))
  }

  function Run(d: Digests, s: System, cmds: seq<Command>): System {
    if cmds == [] then s else Step(d, Run(d, s, cmds[..|cmds| - 1]), cmds[|cmds| - 1])
  }

  /** The responses prepared for each authority. */
  datatype Prepared = Prepared(awq: seq<Status>, awg: seq<Status>, ui: seq<Status>) {
    function At(a: Authority): seq<Status> {
      match a case Awq => awq case Awg => awg case Ui => ui
    }
  }

  function Initial(binding: string, p: Prepared): System {
    System(binding, Fakes(NewFake(Awq, p.awq), NewFake(Awg, p.awg), NewFake(Ui, p.ui)), map[])
  }

  // One fake

  /** The status was prepared, or the authority responded with it to this operation. */
  ghost predicate Supplied(prepared: seq<Status>, cmds: seq<Command>, a: Authority, op: string, status: Status) {
    status in prepared || Respond(a, op, status) in cmds
  }

  ghost predicate FakeSound(fake: Fake, prepared: seq<Status>, cmds: seq<Command>) {
    && (forall status | status in fake.responses :: status in prepared)
    && (forall op | op in fake.completed ::
          var result := fake.completed[op].result;
          && result.authority == fake.authority && result.operationId == op
          && Decisive(result.status) && Outcome(fake.authority, result.status)
          && Supplied(prepared, cmds, fake.authority, op, result.status))
    && (forall op | op in fake.lastObserved :: !Decisive(fake.lastObserved[op].status))
    && (forall op | op in fake.pending :: op !in fake.completed)
  }

  /** Completed results stay. */
  ghost predicate FakeLater(fake: Fake, after: Fake) {
    && after.authority == fake.authority
    && forall op | op in fake.completed :: op in after.completed && after.completed[op] == fake.completed[op]
  }

  lemma MoreCommands(fake: Fake, prepared: seq<Status>, cmds: seq<Command>, cmd: Command)
    requires FakeSound(fake, prepared, cmds)
    ensures FakeSound(fake, prepared, cmds + [cmd])
  {
    forall op | op in fake.completed
      ensures Supplied(prepared, cmds + [cmd], fake.authority, op, fake.completed[op].result.status)
    {
      assert Supplied(prepared, cmds, fake.authority, op, fake.completed[op].result.status);
    }
  }

  lemma CompletingKeepsFake(fake: Fake, op: string, w: Waiting, status: Status, prepared: seq<Status>, cmds: seq<Command>)
    requires FakeSound(fake, prepared, cmds) && op !in fake.pending && op !in fake.completed
    requires Outcome(fake.authority, status) && (status.Unknown? || Supplied(prepared, cmds, fake.authority, op, status))
    ensures var (after, result) := Completing(fake, op, w, status);
            && FakeSound(after, prepared, cmds) && FakeLater(fake, after) && result.status == status
            && (Decisive(status) ==> op in after.completed && result == after.completed[op].result)
  {
    hide Supplied;
  }

  lemma RequestedKeepsFake(d: Digests, fake: Fake, r: Request, prepared: seq<Status>, cmds: seq<Command>)
    requires FakeSound(fake, prepared, cmds)
    ensures var (after, observed) := Requested(d, fake, r);
            && FakeSound(after, prepared, cmds) && FakeLater(fake, after)
            && (observed.Ok? && Decisive(observed.value.status) ==>
                  r.operationId in after.completed && observed.value == after.completed[r.operationId].result)
  {
    hide RequestProblem, Supplied, Completing;
    var op, w := r.operationId, Waiting(d.fingerprint(IdentityOf(r)), r.attempt, r.bindingDigest);
    if RequestProblem(r).None? && op !in fake.completed && op !in fake.pending {
      var status := if fake.responses == [] then Unknown else fake.responses[0];
      var next := fake.(responses := if fake.responses == [] then [] else fake.responses[1..]);
      assert fake.responses != [] ==> status in fake.responses;
      assert status in prepared ==> Supplied(prepared, cmds, fake.authority, op, status) by {
        PreparedIsSupplied(prepared, cmds, fake.authority, op, status);
      }
      if !status.Pending? && Outcome(fake.authority, status) {
        CompletingKeepsFake(next, op, w, status, prepared, cmds);
      }
    }
  }

  lemma PreparedIsSupplied(prepared: seq<Status>, cmds: seq<Command>, a: Authority, op: string, status: Status)
    ensures status in prepared || Respond(a, op, status) in cmds ==> Supplied(prepared, cmds, a, op, status)
  {
  }

  lemma RespondedKeepsFake(fake: Fake, op: string, status: Status, prepared: seq<Status>, cmds: seq<Command>)
    requires FakeSound(fake, prepared, cmds) && Respond(fake.authority, op, status) in cmds
    ensures var after := Responded(fake, op, status).0;
            FakeSound(after, prepared, cmds) && FakeLater(fake, after)
  {
    hide Supplied, Completing;
    if op in fake.pending && Outcome(fake.authority, status) {
      PreparedIsSupplied(prepared, cmds, fake.authority, op, status);
      CompletingKeepsFake(fake.(pending := fake.pending - {op}), op, fake.pending[op], status, prepared, cmds);
    }
  }

  // The whole system

  ghost predicate FakesSound(s: System, p: Prepared, cmds: seq<Command>) {
    forall a: Authority :: s.fakes.At(a).authority == a && FakeSound(s.fakes.At(a), p.At(a), cmds)
  }

  /** A decisive status is the matching fake's completed result for this very binding. */
  ghost predicate Backed(d: Digests, s: System, op: string)
    requires op in s.operations
  {
    var o := s.operations[op];
    var completed := s.fakes.At(o.authority).completed;
    && o.binding == s.binding
    && (Decisive(o.status) ==>
          && op in completed && completed[op].result.status == o.status
          && completed[op].result.bindingDigest == d.text(o.binding))
  }

  ghost predicate Sound(d: Digests, s: System, p: Prepared, cmds: seq<Command>) {
    FakesSound(s, p, cmds) && forall op | op in s.operations :: Backed(d, s, op)
  }

  /** What an operation is for, and its decision if it has one. */
  ghost predicate SamePurpose(o: Operation, after: Operation) {
    && after.authority == o.authority && after.change == o.change && after.maxAttempts == o.maxAttempts
    && after.requestDigest == o.requestDigest && after.binding == o.binding
    && (Decisive(o.status) ==> after.status == o.status)
  }

  /** What never changes: completed results, decisive statuses, and what an operation is for. */
  ghost predicate Later(s: System, after: System) {
    && after.binding == s.binding
    && (forall a: Authority :: FakeLater(s.fakes.At(a), after.fakes.At(a)))
    && forall op | op in s.operations :: op in after.operations && SamePurpose(s.operations[op], after.operations[op])
  }

  lemma LaterIsTransitive(a: System, b: System, c: System)
    requires Later(a, b) && Later(b, c)
    ensures Later(a, c)
  {
    forall x: Authority ensures FakeLater(a.fakes.At(x), c.fakes.At(x)) {
      assert FakeLater(a.fakes.At(x), b.fakes.At(x)) && FakeLater(b.fakes.At(x), c.fakes.At(x));
    }
  }

  /** Moving one fake forward keeps everything else. */
  lemma FakeMoves(d: Digests, s: System, a: Authority, fake: Fake, p: Prepared, cmds: seq<Command>)
    requires Sound(d, s, p, cmds) && FakeLater(s.fakes.At(a), fake) && FakeSound(fake, p.At(a), cmds)
    ensures var after := s.(fakes := s.fakes.With(a, fake));
            Sound(d, after, p, cmds) && Later(s, after) && after.fakes.At(a) == fake
  {
    hide FakeSound;
    var after := s.(fakes := s.fakes.With(a, fake));
    assert forall x: Authority | x != a :: after.fakes.At(x) == s.fakes.At(x);
    forall op | op in after.operations ensures Backed(d, after, op) {
      assert Backed(d, s, op);
    }
  }

  /** Replacing or adding one operation that is backed and keeps its purpose. */
  lemma OperationMoves(d: Digests, s: System, op: string, o: Operation, p: Prepared, cmds: seq<Command>)
    requires Sound(d, s, p, cmds)
    requires var after := s.(operations := s.operations[op := o]); Backed(d, after, op)
    requires op in s.operations ==> SamePurpose(s.operations[op], o)
    ensures var after := s.(operations := s.operations[op := o]);
            Sound(d, after, p, cmds) && Later(s, after)
  {
    hide FakeSound, SamePurpose;
    var after := s.(operations := s.operations[op := o]);
    forall other | other in after.operations ensures Backed(d, after, other) {
      assert other != op ==> Backed(d, s, other);
    }
    forall other | other in s.operations && other != op ensures SamePurpose(s.operations[other], after.operations[other]) {
      PurposeStays(s.operations[other]);
    }
  }

  lemma PurposeStays(o: Operation)
    ensures SamePurpose(o, o)
  {
  }

  lemma SendKeepsSound(d: Digests, s: System, op: string, p: Prepared, cmds: seq<Command>)
    requires Sound(d, s, p, cmds) && op in s.operations && !Decisive(s.operations[op].status)
    ensures var after := Sent(d, s, op).0;
            Sound(d, after, p, cmds) && Later(s, after)
  {
    hide Requested, FakeSound, Later, FakesSound, FakeLater;
    var o := s.operations[op];
    FakeIsSound(s, o.authority, p, cmds);
    assert Backed(d, s, op);
    var (fake, observed) := Requested(d, s.fakes.At(o.authority), RequestOf(d, op, o));
    RequestedKeepsFake(d, s.fakes.At(o.authority), RequestOf(d, op, o), p.At(o.authority), cmds);
    FakeMoves(d, s, o.authority, fake, p, cmds);
    var moved := s.(fakes := s.fakes.With(o.authority, fake));
    if Sent(d, s, op).1.None? {
      var sent := o.(attempts := o.attempts + [observed.value], status := observed.value.status);
      OperationMoves(d, moved, op, sent, p, cmds);
      LaterIsTransitive(s, moved, Sent(d, s, op).0);
    }
  }

  lemma FakeIsSound(s: System, a: Authority, p: Prepared, cmds: seq<Command>)
    requires FakesSound(s, p, cmds)
    ensures s.fakes.At(a).authority == a && FakeSound(s.fakes.At(a), p.At(a), cmds)
  {
    hide FakeSound;
  }

  lemma StaysPut(s: System)
    ensures Later(s, s)
  {
  }

  /** A decisive observation is the completed result. */
  lemma ObservationIsBacked(fake: Fake, op: string, prepared: seq<Status>, cmds: seq<Command>)
    requires FakeSound(fake, prepared, cmds) && Observed(fake, op).Ok?
    ensures op in fake.completed ==> Observed(fake, op).value == fake.completed[op].result
    ensures op !in fake.completed ==> !Decisive(Observed(fake, op).value.status)
  {
  }

  lemma WatchKeepsSound(d: Digests, s: System, op: string, p: Prepared, cmds: seq<Command>)
    requires Sound(d, s, p, cmds)
    ensures var after := Watched(d, s, op).0;
            Sound(d, after, p, cmds) && Later(s, after)
  {
    hide FakesSound, Later, FakeLater;
    StaysPut(s);
    if op in s.operations && Watched(d, s, op).1.Ok? {
      var o := s.operations[op];
      assert Backed(d, s, op);
      FakeIsSound(s, o.authority, p, cmds);
      ObservationIsBacked(s.fakes.At(o.authority), op, p.At(o.authority), cmds);
      var observed := Observed(s.fakes.At(o.authority), op).value;
      OperationMoves(d, s, op, Noted(o, observed), p, cmds);
    }
  }

  lemma AskKeepsSound(d: Digests, s: System, ask: Ask, p: Prepared, cmds: seq<Command>)
    requires Sound(d, s, p, cmds)
    ensures Sound(d, Asked(d, s, ask).0, p, cmds) && Later(s, Asked(d, s, ask).0)
  {
    hide Sent, FakeSound, AskProblem, Later, FakesSound, FakeLater;
    StaysPut(s);
    var op := ask.operationId;
    if AskProblem(ask).None? && op !in s.operations {
      var begun := s.(operations := s.operations[op := OperationOf(d, s.binding, ask)]);
      OperationMoves(d, s, op, OperationOf(d, s.binding, ask), p, cmds);
      SendKeepsSound(d, begun, op, p, cmds);
      LaterIsTransitive(s, begun, Sent(d, begun, op).0);
    }
  }

  lemma RetryKeepsSound(d: Digests, s: System, op: string, p: Prepared, cmds: seq<Command>)
    requires Sound(d, s, p, cmds)
    ensures Sound(d, Retried(d, s, op).0, p, cmds) && Later(s, Retried(d, s, op).0)
  {
    hide Sent, FakeSound, Later, FakesSound, FakeLater;
    StaysPut(s);
    if op in s.operations && (s.operations[op].status.Timeout? || s.operations[op].status.Unknown?) {
      assert Backed(d, s, op);
      if |s.operations[op].attempts| >= s.operations[op].maxAttempts {
        OperationMoves(d, s, op, s.operations[op].(status := Blocked), p, cmds);
      } else {
        SendKeepsSound(d, s, op, p, cmds);
      }
    }
  }

  lemma ResumeKeepsSound(d: Digests, s: System, op: string, p: Prepared, cmds: seq<Command>)
    requires Sound(d, s, p, cmds)
    ensures Sound(d, Resumed(d, s, op).0, p, cmds) && Later(s, Resumed(d, s, op).0)
  {
    hide Watched, FakeSound, Later, FakesSound, FakeLater;
    StaysPut(s);
    if op in s.operations {
      var o := s.operations[op].(resumed := s.operations[op].resumed + 1);
      assert Backed(d, s, op);
      OperationMoves(d, s, op, o, p, cmds);
      var begun := s.(operations := s.operations[op := o]);
      WatchKeepsSound(d, begun, op, p, cmds);
      LaterIsTransitive(s, begun, Watched(d, begun, op).0);
    }
  }

  lemma StepKeepsSound(d: Digests, s: System, cmd: Command, p: Prepared, cmds: seq<Command>)
    requires Sound(d, s, p, cmds)
    ensures Sound(d, Step(d, s, cmd), p, cmds + [cmd]) && Later(s, Step(d, s, cmd))
  {
    hide FakeSound, Requested, Responded, Asked, Watched, Retried, Resumed, Later;
    forall a: Authority ensures FakeSound(s.fakes.At(a), p.At(a), cmds + [cmd]) {
      MoreCommands(s.fakes.At(a), p.At(a), cmds, cmd);
    }
    match cmd
    case DirectRequest(a, r) =>
      RequestedKeepsFake(d, s.fakes.At(a), r, p.At(a), cmds + [cmd]);
      FakeMoves(d, s, a, Requested(d, s.fakes.At(a), r).0, p, cmds + [cmd]);
    case Respond(a, op, status) =>
      RespondedKeepsFake(s.fakes.At(a), op, status, p.At(a), cmds + [cmd]);
      FakeMoves(d, s, a, Responded(s.fakes.At(a), op, status).0, p, cmds + [cmd]);
    case BridgeRequest(ask) =>
      AskKeepsSound(d, s, ask, p, cmds + [cmd]);
    case BridgeObserve(op) =>
      WatchKeepsSound(d, s, op, p, cmds + [cmd]);
    case BridgeRetry(op) =>
      RetryKeepsSound(d, s, op, p, cmds + [cmd]);
    case BridgeResume(op) =>
      ResumeKeepsSound(d, s, op, p, cmds + [cmd]);
  }

  lemma {:induction false} EveryRunIsSound(d: Digests, binding: string, p: Prepared, cmds: seq<Command>)
    ensures Sound(d, Run(d, Initial(binding, p), cmds), p, cmds)
  {
    if cmds != [] {
      hide Step, Sound;
      var earlier, last := cmds[..|cmds| - 1], cmds[|cmds| - 1];
      EveryRunIsSound(d, binding, p, earlier);
      StepKeepsSound(d, Run(d, Initial(binding, p), earlier), last, p, earlier);
      assert earlier + [last] == cmds;
    }
  }

  lemma {:induction false} RunIsLater(d: Digests, s: System, p: Prepared, past: seq<Command>, cmds: seq<Command>)
    requires Sound(d, s, p, past)
    ensures Sound(d, Run(d, s, cmds), p, past + cmds) && Later(s, Run(d, s, cmds))
  {
    if cmds == [] {
      assert past + [] == past;
    } else {
      hide Step, Sound, Later;
      var earlier, last := cmds[..|cmds| - 1], cmds[|cmds| - 1];
      RunIsLater(d, s, p, past, earlier);
      StepKeepsSound(d, Run(d, s, earlier), last, p, past + earlier);
      assert past + earlier + [last] == past + cmds;
      LaterIsTransitive(s, Run(d, s, earlier), Run(d, s, cmds));
    }
  }

  /** A decided operation and every completed result stay as they are in every later state. */
  lemma DecisionsNeverChange(d: Digests, binding: string, p: Prepared, past: seq<Command>, cmds: seq<Command>)
    ensures Later(Run(d, Initial(binding, p), past), Run(d, Run(d, Initial(binding, p), past), cmds))
  {
    hide Run, Later, Sound;
    EveryRunIsSound(d, binding, p, past);
    RunIsLater(d, Run(d, Initial(binding, p), past), p, past, cmds);
  }

  /** A repeated operation id is answered by payload alone: authority, kind, limit and change are not compared. */
  lemma ReplayComparesOnlyThePayload(d: Digests, s: System, p: Prepared, cmds: seq<Command>, ask: Ask)
    requires Sound(d, s, p, cmds) && AskProblem(ask).None? && ask.operationId in s.operations
    ensures var (after, r) := Asked(d, s, ask);
            var o := s.operations[ask.operationId];
            && after == s
            && r == (if o.requestDigest == d.text(ask.payload) then Ok(o) else Err(CrossedReplay))
  {
    hide IsId;
    assert Backed(d, s, ask.operationId);
  }
}
