/**
 How often the bridge sends an operation: the sends that come back recorded never exceed the
 operation's limit; sends that raise are bounded only when the prepared responses are valid
 and nobody else uses the operation's id.
*/
module BridgeSends {
  import opened Identifiers
  import opened AuthorityBridges
  import opened BridgeSafety

  /** The command makes the bridge send the operation to its authority. */
  ghost predicate Sends(s: System, cmd: Command, op: string) {
    || (cmd.BridgeRequest? && cmd.ask.operationId == op && AskProblem(cmd.ask).None? && op !in s.operations)
    || (cmd.BridgeRetry? && cmd.op == op && op in s.operations
        && (s.operations[op].status.Timeout? || s.operations[op].status.Unknown?)
        && |s.operations[op].attempts| < s.operations[op].maxAttempts)
  }

  /** The send came back with a result, which was recorded as an attempt. */
  ghost predicate Records(d: Digests, s: System, cmd: Command, op: string) {
    Sends(s, cmd, op) && (if cmd.BridgeRequest? then Asked(d, s, cmd.ask).1.Ok? else Retried(d, s, op).1.Ok?)
  }

  ghost function SendCount(d: Digests, s: System, cmds: seq<Command>, op: string): nat {
    if cmds == [] then 0
    else
      var earlier := cmds[..|cmds| - 1];
      SendCount(d, s, earlier, op) + (if Sends(Run(d, s, earlier), cmds[|cmds| - 1], op) then 1 else 0)
  }

  ghost function RecordCount(d: Digests, s: System, cmds: seq<Command>, op: string): nat {
    if cmds == [] then 0
    else
      var earlier := cmds[..|cmds| - 1];
      RecordCount(d, s, earlier, op) + (if Records(d, Run(d, s, earlier), cmds[|cmds| - 1], op) then 1 else 0)
  }

  function AttemptsOf(s: System, op: string): nat {
    if op in s.operations then |s.operations[op].attempts| else 0
  }

  function LimitOf(s: System, op: string): int {
    if op in s.operations then s.operations[op].maxAttempts else 0
  }

  /** Attempts and limits never shrink, and each recorded send adds one attempt, below the limit. */
  lemma StepAttempts(d: Digests, s: System, cmd: Command, op: string)
    ensures AttemptsOf(Step(d, s, cmd), op) >= AttemptsOf(s, op) + (if Records(d, s, cmd, op) then 1 else 0)
    ensures LimitOf(Step(d, s, cmd), op) >= LimitOf(s, op)
    ensures Records(d, s, cmd, op) ==> AttemptsOf(s, op) < LimitOf(Step(d, s, cmd), op)
  {
    hide Requested, Responded, Observed, IsId;
  }

  lemma {:induction false} RecordsStayWithin(d: Digests, s: System, cmds: seq<Command>, op: string)
    requires op !in s.operations
    ensures RecordCount(d, s, cmds, op) <= AttemptsOf(Run(d, s, cmds), op)
    ensures RecordCount(d, s, cmds, op) <= LimitOf(Run(d, s, cmds), op)
  {
    hide Step, Records;
    if cmds != [] {
      var earlier, last := cmds[..|cmds| - 1], cmds[|cmds| - 1];
      RecordsStayWithin(d, s, earlier, op);
      StepAttempts(d, Run(d, s, earlier), last, op);
    }
  }

  /** Recorded sends of an operation never exceed its limit, whatever observing adds to its attempts. */
  lemma RecordedSendsAreBounded(d: Digests, binding: string, p: Prepared, cmds: seq<Command>, op: string)
    ensures RecordCount(d, Initial(binding, p), cmds, op) <= LimitOf(Run(d, Initial(binding, p), cmds), op)
  {
    hide Run, RecordCount;
    RecordsStayWithin(d, Initial(binding, p), cmds, op);
  }

  // When every send is recorded

  /** Whatever the fake holds under this operation id came from this very request. */
  ghost predicate Mine(fake: Fake, op: string, fingerprint: string, bindingDigest: string) {
    && (op in fake.completed ==>
          fake.completed[op].fingerprint == fingerprint && fake.completed[op].result.bindingDigest == bindingDigest)
    && (op in fake.pending ==>
          fake.pending[op].fingerprint == fingerprint && fake.pending[op].bindingDigest == bindingDigest)
  }

  ghost predicate Absent(fake: Fake, op: string) {
    op !in fake.completed && op !in fake.pending
  }

  /** Every response still prepared is one the authority can give. */
  ghost predicate Trustworthy(fake: Fake) {
    forall status | status in fake.responses :: status.Pending? || Outcome(fake.authority, status)
  }

  function FingerprintOf(d: Digests, op: string, o: Operation): string {
    d.fingerprint(Identity(op, o.maxAttempts, d.text(o.binding), o.requestDigest))
  }

  ghost predicate Own(d: Digests, s: System, op: string) {
    if op in s.operations then
      var o := s.operations[op];
      && IsId("OP-", op) && 1 <= o.maxAttempts <= 5 && o.binding == s.binding && IsDigest(o.requestDigest)
      && Mine(s.fakes.At(o.authority), op, FingerprintOf(d, op, o), d.text(o.binding))
    else forall a: Authority :: Absent(s.fakes.At(a), op)
  }

  ghost predicate AllTrustworthy(s: System) {
    forall a: Authority :: s.fakes.At(a).authority == a && Trustworthy(s.fakes.At(a))
  }

  lemma RequestedTouchesOnlyItsOperation(
    d: Digests, fake: Fake, r: Request, op: string, fingerprint: string, bindingDigest: string)
    ensures var after := Requested(d, fake, r).0;
            && after.authority == fake.authority && (Trustworthy(fake) ==> Trustworthy(after))
            && (r.operationId != op && Absent(fake, op) ==> Absent(after, op))
            && (Mine(fake, op, fingerprint, bindingDigest)
                && (r.operationId == op ==> d.fingerprint(IdentityOf(r)) == fingerprint && r.bindingDigest == bindingDigest)
                ==> Mine(after, op, fingerprint, bindingDigest))
  {
    hide RequestProblem;
  }

  lemma RespondedTouchesOnlyPending(
    fake: Fake, other: string, status: Status, op: string, fingerprint: string, bindingDigest: string)
    ensures var after := Responded(fake, other, status).0;
            && after.authority == fake.authority && (Trustworthy(fake) ==> Trustworthy(after))
            && (Absent(fake, op) ==> Absent(after, op))
            && (Mine(fake, op, fingerprint, bindingDigest) ==> Mine(after, op, fingerprint, bindingDigest))
  {
  }

  /** A request of one's own, to a fake with valid responses, always comes back. */
  lemma OwnRequestComesBack(d: Digests, fake: Fake, r: Request)
    requires Trustworthy(fake) && RequestProblem(r).None?
    requires Mine(fake, r.operationId, d.fingerprint(IdentityOf(r)), r.bindingDigest)
    ensures var observed := Requested(d, fake, r).1;
            observed.Ok? && observed.value.bindingDigest == r.bindingDigest
  {
    hide RequestProblem;
    assert fake.responses != [] ==> fake.responses[0] in fake.responses;
  }

  lemma SendKeepsOwn(d: Digests, s: System, sent: string, op: string)
    requires sent in s.operations && Own(d, s, op) && AllTrustworthy(s)
    ensures Own(d, Sent(d, s, sent).0, op) && AllTrustworthy(Sent(d, s, sent).0)
  {
    hide Requested, IsId;
    var o := s.operations[sent];
    var a, r := o.authority, RequestOf(d, sent, o);
    var fingerprint := if op in s.operations then FingerprintOf(d, op, s.operations[op]) else "";
    RequestedTouchesOnlyItsOperation(d, s.fakes.At(a), r, op, fingerprint, d.text(s.binding));
    var after := Sent(d, s, sent).0;
    assert forall b: Authority | b != a :: after.fakes.At(b) == s.fakes.At(b);
    assert IdentityOf(r) == Identity(sent, o.maxAttempts, d.text(o.binding), o.requestDigest);
  }

  lemma DirectRequestKeepsOwn(d: Digests, s: System, a: Authority, r: Request, op: string)
    requires Own(d, s, op) && AllTrustworthy(s) && r.operationId != op
    ensures var after := Step(d, s, DirectRequest(a, r)); Own(d, after, op) && AllTrustworthy(after)
  {
    hide Requested, IsId, IsDigest, Trustworthy;
    var fingerprint := if op in s.operations then FingerprintOf(d, op, s.operations[op]) else "";
    var after := Step(d, s, DirectRequest(a, r));
    RequestedTouchesOnlyItsOperation(d, s.fakes.At(a), r, op, fingerprint, d.text(s.binding));
    assert forall b: Authority | b != a :: after.fakes.At(b) == s.fakes.At(b);
  }

  lemma RespondKeepsOwn(d: Digests, s: System, a: Authority, other: string, status: Status, op: string)
    requires Own(d, s, op) && AllTrustworthy(s)
    ensures var after := Step(d, s, Respond(a, other, status)); Own(d, after, op) && AllTrustworthy(after)
  {
    hide Responded, IsId, IsDigest, Trustworthy;
    var fingerprint := if op in s.operations then FingerprintOf(d, op, s.operations[op]) else "";
    var after := Step(d, s, Respond(a, other, status));
    RespondedTouchesOnlyPending(s.fakes.At(a), other, status, op, fingerprint, d.text(s.binding));
    assert forall b: Authority | b != a :: after.fakes.At(b) == s.fakes.At(b);
  }

  lemma StepKeepsOwn(d: Digests, s: System, cmd: Command, op: string)
    requires Own(d, s, op) && AllTrustworthy(s) && (cmd.DirectRequest? ==> cmd.request.operationId != op)
    requires forall text :: IsDigest(d.text(text))
    ensures Own(d, Step(d, s, cmd), op) && AllTrustworthy(Step(d, s, cmd))
  {
    hide Requested, Responded, Observed, Sent, IsId, IsDigest, Mine, Absent, Trustworthy;
    match cmd
    case DirectRequest(a, r) => DirectRequestKeepsOwn(d, s, a, r, op);
    case Respond(a, other, status) => RespondKeepsOwn(d, s, a, other, status, op);
    case BridgeRequest(ask) =>
      if AskProblem(ask).None? && ask.operationId !in s.operations {
        var begun := s.(operations := s.operations[ask.operationId := OperationOf(d, s.binding, ask)]);
        NewOperationIsOwn(d, s, ask, op);
        SendKeepsOwn(d, begun, ask.operationId, op);
      }
    case BridgeRetry(other) =>
      if other in s.operations {
        SendKeepsOwn(d, s, other, op);
      }
    case _ =>
  }

  lemma NewOperationIsOwn(d: Digests, s: System, ask: Ask, op: string)
    requires Own(d, s, op) && AskProblem(ask).None? && ask.operationId !in s.operations
    requires forall text :: IsDigest(d.text(text))
    ensures Own(d, s.(operations := s.operations[ask.operationId := OperationOf(d, s.binding, ask)]), op)
  {
    hide IsId, IsDigest;
  }

  lemma OwnSendsAreRecorded(d: Digests, s: System, cmd: Command, op: string)
    requires Own(d, s, op) && AllTrustworthy(s) && Sends(s, cmd, op)
    requires forall text :: IsDigest(d.text(text))
    ensures Records(d, s, cmd, op)
  {
    hide Requested, IsId, IsDigest;
    var begun := if cmd.BridgeRequest? then s.(operations := s.operations[op := OperationOf(d, s.binding, cmd.ask)]) else s;
    var o := begun.operations[op];
    OwnRequestComesBack(d, s.fakes.At(o.authority), RequestOf(d, op, o));
  }

  lemma {:induction false} CountsAgree(d: Digests, binding: string, p: Prepared, cmds: seq<Command>, op: string)
    requires forall text :: IsDigest(d.text(text))
    requires forall a: Authority, status | status in p.At(a) :: status.Pending? || Outcome(a, status)
    requires forall cmd | cmd in cmds :: cmd.DirectRequest? ==> cmd.request.operationId != op
    ensures var s := Run(d, Initial(binding, p), cmds);
            Own(d, s, op) && AllTrustworthy(s)
    ensures SendCount(d, Initial(binding, p), cmds, op) == RecordCount(d, Initial(binding, p), cmds, op)
  {
    var start := Initial(binding, p);
    if cmds == [] {
      assert forall a: Authority :: start.fakes.At(a) == NewFake(a, p.At(a));
    } else {
      hide Step, Records, Sends, Own, AllTrustworthy, Initial, IsDigest;
      var earlier, last := cmds[..|cmds| - 1], cmds[|cmds| - 1];
      CountsAgree(d, binding, p, earlier, op);
      var before := Run(d, start, earlier);
      StepKeepsOwn(d, before, last, op);
      if Sends(before, last, op) {
        OwnSendsAreRecorded(d, before, last, op);
      }
      RecordedIsSent(d, before, last, op);
    }
  }

  lemma RecordedIsSent(d: Digests, s: System, cmd: Command, op: string)
    ensures Records(d, s, cmd, op) ==> Sends(s, cmd, op)
  {
  }

  /**
   When every prepared response is one its authority can give and nobody else requests this
   operation's id, the bridge sends the operation at most as often as its limit says.
  */
  lemma SendsAreBoundedAmongFriends(d: Digests, binding: string, p: Prepared, cmds: seq<Command>, op: string)
    requires forall text :: IsDigest(d.text(text))
    requires forall a: Authority, status | status in p.At(a) :: status.Pending? || Outcome(a, status)
    requires forall cmd | cmd in cmds :: cmd.DirectRequest? ==> cmd.request.operationId != op
    ensures var s := Run(d, Initial(binding, p), cmds);
            SendCount(d, Initial(binding, p), cmds, op) <= LimitOf(s, op)
  {
    hide Run, SendCount, RecordCount, Initial, Own, AllTrustworthy, IsDigest;
    CountsAgree(d, binding, p, cmds, op);
    RecordedSendsAreBounded(d, binding, p, cmds, op);
  }

  /**
   The authority would not answer this operation: it holds another request under the id, or is
   to answer afresh with something it cannot give.
  */
  ghost predicate Obstructed(d: Digests, s: System, op: string)
    requires op in s.operations
  {
    var o := s.operations[op];
    var fake := s.fakes.At(o.authority);
    || (op in fake.completed && (fake.completed[op].fingerprint != FingerprintOf(d, op, o)
                                 || fake.completed[op].result.bindingDigest != d.text(o.binding)))
    || (op !in fake.completed && op in fake.pending
        && (fake.pending[op].fingerprint != FingerprintOf(d, op, o)
            || fake.pending[op].bindingDigest != d.text(o.binding)))
    || (Absent(fake, op) && fake.responses != []
        && !fake.responses[0].Pending? && !Outcome(fake.authority, fake.responses[0]))
  }

  /** A send raises exactly when the operation is obstructed. */
  lemma SendRaisesExactlyWhen(d: Digests, s: System, op: string)
    requires op in s.operations && RequestProblem(RequestOf(d, op, s.operations[op])).None?
    ensures Sent(d, s, op).1.Some? <==> Obstructed(d, s, op)
  {
    hide RequestProblem;
  }

  // How many sends are not recorded

  /** What every stored operation passed when it was asked for. */
  ghost predicate Sendable(s: System) {
    forall op | op in s.operations ::
      IsId("OP-", op) && 1 <= s.operations[op].maxAttempts <= 5 && IsDigest(s.operations[op].requestDigest)
  }

  lemma StepKeepsSendable(d: Digests, s: System, cmd: Command)
    requires Sendable(s) && forall text :: IsDigest(d.text(text))
    ensures Sendable(Step(d, s, cmd))
  {
    hide Requested, Responded, Observed, IsId, IsDigest;
  }

  lemma {:induction false} RunKeepsSendable(d: Digests, s: System, cmds: seq<Command>)
    requires Sendable(s) && forall text :: IsDigest(d.text(text))
    ensures Sendable(Run(d, s, cmds))
  {
    hide Step, IsDigest, Sendable;
    if cmds != [] {
      RunKeepsSendable(d, s, cmds[..|cmds| - 1]);
      StepKeepsSendable(d, Run(d, s, cmds[..|cmds| - 1]), cmds[|cmds| - 1]);
    }
  }

  /** The state a command sends from: a new operation is stored first. */
  function SentFrom(d: Digests, s: System, cmd: Command): System {
    if cmd.BridgeRequest? && cmd.ask.operationId !in s.operations then
      s.(operations := s.operations[cmd.ask.operationId := OperationOf(d, s.binding, cmd.ask)])
    else s
  }

  /** The command sends an obstructed operation. */
  ghost predicate SendsObstructed(d: Digests, s: System, cmd: Command, op: string) {
    Sends(s, cmd, op) && Obstructed(d, SentFrom(d, s, cmd), op)
  }

  lemma RecordsExactlyWhenClear(d: Digests, s: System, cmd: Command, op: string)
    requires Sendable(s) && Sends(s, cmd, op) && forall text :: IsDigest(d.text(text))
    ensures Records(d, s, cmd, op) <==> !SendsObstructed(d, s, cmd, op)
  {
    hide Requested, IsId, IsDigest, Obstructed;
    var begun := SentFrom(d, s, cmd);
    assert IsDigest(d.text(s.binding));
    assert IsDigest(d.text(begun.operations[op].binding));
    SendRaisesExactlyWhen(d, begun, op);
  }

  ghost function ObstructedCount(d: Digests, s: System, cmds: seq<Command>, op: string): nat {
    if cmds == [] then 0
    else
      var earlier := cmds[..|cmds| - 1];
      ObstructedCount(d, s, earlier, op) + (if SendsObstructed(d, Run(d, s, earlier), cmds[|cmds| - 1], op) then 1 else 0)
  }

  /** Somewhere in the run an obstructed operation is sent. */
  ghost predicate EverObstructed(d: Digests, s: System, cmds: seq<Command>, op: string) {
    exists k | 0 <= k < |cmds| :: SendsObstructed(d, Run(d, s, cmds[..k]), cmds[k], op)
  }

  lemma {:induction false} SendsSplit(d: Digests, s: System, cmds: seq<Command>, op: string)
    requires Sendable(s) && forall text :: IsDigest(d.text(text))
    ensures SendCount(d, s, cmds, op) == RecordCount(d, s, cmds, op) + ObstructedCount(d, s, cmds, op)
  {
    hide Step, Records, Sends, Sendable, IsDigest, SendsObstructed;
    if cmds != [] {
      var earlier, last := cmds[..|cmds| - 1], cmds[|cmds| - 1];
      var before := Run(d, s, earlier);
      SendsSplit(d, s, earlier, op);
      RunKeepsSendable(d, s, earlier);
      if Sends(before, last, op) {
        RecordsExactlyWhenClear(d, before, last, op);
      }
      RecordedIsSent(d, before, last, op);
      ObstructedIsSent(d, before, last, op);
    }
  }

  lemma ObstructedIsSent(d: Digests, s: System, cmd: Command, op: string)
    ensures SendsObstructed(d, s, cmd, op) ==> Sends(s, cmd, op)
  {
  }

  lemma {:induction false} CountsObstructions(d: Digests, s: System, cmds: seq<Command>, op: string)
    ensures ObstructedCount(d, s, cmds, op) == 0 <==> !EverObstructed(d, s, cmds, op)
  {
    hide SendsObstructed, Step;
    if cmds != [] {
      var n := |cmds| - 1;
      CountsObstructions(d, s, cmds[..n], op);
      forall k | 0 <= k < n ensures cmds[..n][..k] == cmds[..k] && cmds[..n][k] == cmds[k] {
      }
      if EverObstructed(d, s, cmds, op) {
        var k :| 0 <= k < |cmds| && SendsObstructed(d, Run(d, s, cmds[..k]), cmds[k], op);
        assert k < n ==> SendsObstructed(d, Run(d, s, cmds[..n][..k]), cmds[..n][k], op);
      }
      if EverObstructed(d, s, cmds[..n], op) {
        var k :| 0 <= k < n && SendsObstructed(d, Run(d, s, cmds[..n][..k]), cmds[..n][k], op);
        assert SendsObstructed(d, Run(d, s, cmds[..k]), cmds[k], op);
      }
      if SendsObstructed(d, Run(d, s, cmds[..n]), cmds[n], op) {
        assert EverObstructed(d, s, cmds, op);
      }
    }
  }

  /**
   In every run the sends of an operation are the recorded ones and the obstructed ones. They are
   all recorded exactly when none is obstructed, and they stay within the limit exactly when
   recorded and obstructed ones together do; the recorded ones alone always do.
  */
  lemma SendsAreBoundedExactlyWhen(d: Digests, binding: string, p: Prepared, cmds: seq<Command>, op: string)
    requires forall text :: IsDigest(d.text(text))
    ensures var start := Initial(binding, p);
            var limit := LimitOf(Run(d, start, cmds), op);
            var sent, recorded := SendCount(d, start, cmds, op), RecordCount(d, start, cmds, op);
            var obstructed := ObstructedCount(d, start, cmds, op);
            && sent == recorded + obstructed && recorded <= limit
            && (sent == recorded <==> !EverObstructed(d, start, cmds, op))
            && (sent <= limit <==> obstructed <= limit - recorded)
            && (!EverObstructed(d, start, cmds, op) ==> sent <= limit)
  {
    hide Run, SendCount, RecordCount, ObstructedCount, EverObstructed, IsDigest, LimitOf;
    SendsSplit(d, Initial(binding, p), cmds, op);
    CountsObstructions(d, Initial(binding, p), cmds, op);
    RecordedSendsAreBounded(d, binding, p, cmds, op);
  }

  // Sends that raise are not bounded

  function Repeated<T>(x: T, n: nat): (r: seq<T>)
    ensures |r| == n && forall i | 0 <= i < n :: r[i] == x
  {
    if n == 0 then [] else [x] + Repeated(x, n - 1)
  }

  /** After a timeout, every further response the authority cannot give costs one more send. */
  lemma {:induction false} RaisingRetriesGoOn(d: Digests, s: System, op: string, n: nat, k: nat)
    requires forall text :: IsDigest(d.text(text))
    requires op in s.operations && IsId("OP-", op) && s.operations[op].status.Timeout?
    requires s.operations[op].authority.Awq? && s.operations[op].maxAttempts == 2 && |s.operations[op].attempts| == 1
    requires IsDigest(s.operations[op].requestDigest)
    requires Absent(s.fakes.awq, op) && s.fakes.awq.authority.Awq?
    requires s.fakes.awq.responses == Repeated(OtherStatus("maybe"), n)
    requires k <= n
    ensures SendCount(d, s, Repeated(BridgeRetry(op), k), op) == k
    ensures var after := Run(d, s, Repeated(BridgeRetry(op), k));
            && op in after.operations && after.operations[op] == s.operations[op]
            && Absent(after.fakes.awq, op) && after.fakes.awq.authority.Awq?
            && after.fakes.awq.responses == s.fakes.awq.responses[k..]
    decreases k
  {
    var cmds := Repeated(BridgeRetry(op), k);
    if k > 0 {
      assert cmds[..k - 1] == Repeated(BridgeRetry(op), k - 1);
      RaisingRetriesGoOn(d, s, op, n, k - 1);
      RaisingRetry(d, Run(d, s, cmds[..k - 1]), op);
    }
  }

  lemma RaisingRetry(d: Digests, s: System, op: string)
    requires forall text :: IsDigest(d.text(text))
    requires op in s.operations && IsId("OP-", op) && s.operations[op].status.Timeout?
    requires s.operations[op].authority.Awq? && s.operations[op].maxAttempts == 2 && |s.operations[op].attempts| == 1
    requires IsDigest(s.operations[op].requestDigest)
    requires Absent(s.fakes.awq, op) && s.fakes.awq.authority.Awq?
    requires s.fakes.awq.responses != [] && s.fakes.awq.responses[0].OtherStatus?
    ensures Sends(s, BridgeRetry(op), op)
    ensures var after := Step(d, s, BridgeRetry(op));
            && after.operations == s.operations && Absent(after.fakes.awq, op) && after.fakes.awq.authority.Awq?
            && after.fakes.awq.responses == s.fakes.awq.responses[1..]
  {
    hide IsId, IsDigest;
  }

  /**
   So with a limit of two attempts the bridge can be made to send any number of times: a
   timeout, then responses that are no outcome, each of which raises and is not recorded.
  */
  lemma RaisingSendsAreUnbounded(d: Digests, binding: string, ask: Ask, n: nat)
    requires forall text :: IsDigest(d.text(text))
    requires AskProblem(ask).None? && ask.authority.Awq? && ask.maxAttempts == 2
    ensures var p := Prepared([Timeout] + Repeated(OtherStatus("maybe"), n), [], []);
            var s := Step(d, Initial(binding, p), BridgeRequest(ask));
            && s.operations.Keys == {ask.operationId} && s.operations[ask.operationId].maxAttempts == 2
            && SendCount(d, s, Repeated(BridgeRetry(ask.operationId), n), ask.operationId) == n
  {
    var rest := Repeated(OtherStatus("maybe"), n);
    var p := Prepared([Timeout] + rest, [], []);
    assert p.awq[1..] == rest;
    var op := ask.operationId;
    FirstTimesOut(d, binding, ask, p);
    RaisingRetriesGoOn(d, Step(d, Initial(binding, p), BridgeRequest(ask)), op, n, n);
  }

  lemma FirstTimesOut(d: Digests, binding: string, ask: Ask, p: Prepared)
    requires forall text :: IsDigest(d.text(text))
    requires AskProblem(ask).None? && ask.authority.Awq? && ask.maxAttempts == 2 && p.awq != [] && p.awq[0].Timeout?
    ensures var s := Step(d, Initial(binding, p), BridgeRequest(ask));
            var op := ask.operationId;
            && s.operations.Keys == {op} && s.operations[op].status.Timeout? && s.operations[op].authority.Awq?
            && s.operations[op].maxAttempts == 2 && |s.operations[op].attempts| == 1
            && IsDigest(s.operations[op].requestDigest) && IsId("OP-", op)
            && Absent(s.fakes.awq, op) && s.fakes.awq.authority.Awq? && s.fakes.awq.responses == p.awq[1..]
  {
    hide IsId, IsDigest;
    assert IsDigest(d.text(binding)) && IsDigest(d.text(ask.payload));
  }
}
