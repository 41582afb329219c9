/**
 Where completed results come from, response by response: every completed operation of an
 authority has an origin of its own, a prepared response already consumed or a respond call.
*/
module BridgeSupply {
  import opened Sets
  import opened AuthorityBridges
  import opened BridgeSafety

  /** The i-th prepared response, or the k-th command of the run, a response of the authority. */
  datatype Origin = FromPrepared(i: nat) | FromRespond(k: nat)

  ghost predicate Originates(fake: Fake, prepared: seq<Status>, cmds: seq<Command>, op: string, origin: Origin)
    requires op in fake.completed
  {
    var status := fake.completed[op].result.status;
    match origin
    case FromPrepared(i) => i < |prepared| - |fake.responses| && prepared[i] == status
    case FromRespond(k) => k < |cmds| && cmds[k] == Respond(fake.authority, op, status)
  }

  /** Prepared responses are consumed in order, and no two completed operations share an origin. */
  ghost predicate Accounts(fake: Fake, prepared: seq<Status>, cmds: seq<Command>, from: map<string, Origin>) {
    && |fake.responses| <= |prepared| && fake.responses == prepared[|prepared| - |fake.responses|..]
    && from.Keys == fake.completed.Keys && Injective(from)
    && forall op | op in from :: Originates(fake, prepared, cmds, op, from[op])
  }

  ghost predicate Accounted(fake: Fake, prepared: seq<Status>, cmds: seq<Command>) {
    exists from :: Accounts(fake, prepared, cmds, from)
  }

  /** A request consumes at most one response, and completes at most its own operation, with that response. */
  lemma RequestedConsumes(d: Digests, fake: Fake, r: Request)
    ensures var after := Requested(d, fake, r).0;
            && after.authority == fake.authority
            && (|| (after.responses == fake.responses && after.completed == fake.completed)
                || (fake.responses != [] && after.responses == fake.responses[1..] && after.completed == fake.completed)
                || (fake.responses != [] && after.responses == fake.responses[1..] && r.operationId !in fake.completed
                    && r.operationId in after.completed
                    && after.completed == fake.completed[r.operationId := after.completed[r.operationId]]
                    && after.completed[r.operationId].result.status == fake.responses[0]))
  {
    hide RequestProblem;
  }

  lemma RequestedAccounts(d: Digests, fake: Fake, r: Request, prepared: seq<Status>, cmds: seq<Command>)
    requires Accounted(fake, prepared, cmds)
    ensures Accounted(Requested(d, fake, r).0, prepared, cmds)
  {
    hide Requested;
    var from :| Accounts(fake, prepared, cmds, from);
    var after := Requested(d, fake, r).0;
    var used := |prepared| - |fake.responses|;
    RequestedConsumes(d, fake, r);
    if after.completed == fake.completed {
      assert Accounts(after, prepared, cmds, from);
    } else {
      assert Accounts(after, prepared, cmds, from[r.operationId := FromPrepared(used)]);
    }
  }

  lemma RespondedCompletes(fake: Fake, op: string, status: Status, prepared: seq<Status>, cmds: seq<Command>)
    requires FakeSound(fake, prepared, cmds)
    ensures var after := Responded(fake, op, status).0;
            && after.authority == fake.authority && after.responses == fake.responses
            && (|| after.completed == fake.completed
                || (op !in fake.completed && op in after.completed
                    && after.completed == fake.completed[op := after.completed[op]]
                    && after.completed[op].result.status == status))
  {
    hide Supplied;
  }

  lemma RespondedAccounts(fake: Fake, op: string, status: Status, prepared: seq<Status>, cmds: seq<Command>)
    requires Accounted(fake, prepared, cmds) && FakeSound(fake, prepared, cmds)
    ensures Accounted(Responded(fake, op, status).0, prepared, cmds + [Respond(fake.authority, op, status)])
  {
    hide Responded, FakeSound;
    var after, longer := Responded(fake, op, status).0, cmds + [Respond(fake.authority, op, status)];
    var from :| Accounts(fake, prepared, cmds, from);
    RespondedCompletes(fake, op, status, prepared, cmds);
    if after.completed == fake.completed {
      assert Accounts(after, prepared, longer, from);
    } else {
      assert longer[|cmds|] == Respond(fake.authority, op, status);
      assert Accounts(after, prepared, longer, from[op := FromRespond(|cmds|)]);
    }
  }

  lemma LongerAccounts(fake: Fake, prepared: seq<Status>, cmds: seq<Command>, cmd: Command)
    requires Accounted(fake, prepared, cmds)
    ensures Accounted(fake, prepared, cmds + [cmd])
  {
    var from :| Accounts(fake, prepared, cmds, from);
    assert Accounts(fake, prepared, cmds + [cmd], from);
  }

  /** A step leaves a fake alone, or is a request to it, or is its response. */
  lemma FakeSteps(d: Digests, s: System, cmd: Command, a: Authority)
    ensures var fake, after := s.fakes.At(a), Step(d, s, cmd).fakes.At(a);
            || after == fake
            || (exists r :: after == Requested(d, fake, r).0)
            || (cmd.Respond? && cmd.authority == a && after == Responded(fake, cmd.op, cmd.status).0)
  {
    hide Requested, Responded, Observed, AskProblem;
  }

  lemma StepAccounts(d: Digests, s: System, cmd: Command, p: Prepared, cmds: seq<Command>, a: Authority)
    requires Sound(d, s, p, cmds) && Accounted(s.fakes.At(a), p.At(a), cmds)
    ensures Accounted(Step(d, s, cmd).fakes.At(a), p.At(a), cmds + [cmd])
  {
    hide Step, Accounted, FakeSound, Requested, Responded;
    var fake, after := s.fakes.At(a), Step(d, s, cmd).fakes.At(a);
    FakeIsSound(s, a, p, cmds);
    FakeSteps(d, s, cmd, a);
    if cmd.Respond? && cmd.authority == a && after == Responded(fake, cmd.op, cmd.status).0 {
      RespondedAccounts(fake, cmd.op, cmd.status, p.At(a), cmds);
      assert cmd == Respond(fake.authority, cmd.op, cmd.status);
    } else {
      LongerAccounts(fake, p.At(a), cmds, cmd);
      if after != fake {
        var r :| after == Requested(d, fake, r).0;
        RequestedAccounts(d, fake, r, p.At(a), cmds + [cmd]);
      }
    }
  }

  /** In every reachable state each prepared response has completed at most one operation. */
  lemma {:induction false} EveryRunAccounts(d: Digests, binding: string, p: Prepared, cmds: seq<Command>, a: Authority)
    ensures Accounted(Run(d, Initial(binding, p), cmds).fakes.At(a), p.At(a), cmds)
  {
    var start := Initial(binding, p);
    if cmds == [] {
      assert start.fakes.At(a) == NewFake(a, p.At(a));
      assert Accounts(start.fakes.At(a), p.At(a), cmds, map[]);
    } else {
      hide Step, Sound, Accounted, Initial;
      var earlier, last := cmds[..|cmds| - 1], cmds[|cmds| - 1];
      EveryRunAccounts(d, binding, p, earlier, a);
      EveryRunIsSound(d, binding, p, earlier);
      StepAccounts(d, Run(d, start, earlier), last, p, earlier, a);
      assert earlier + [last] == cmds;
    }
  }

  /**
   No approval is manufactured: an operation's decisive status is the status its own
   authority completed, under the operation's binding, from a prepared response that
   completed no other operation or a response to this operation.
  */
  lemma DecisiveStatusIsSupplied(d: Digests, binding: string, p: Prepared, cmds: seq<Command>, op: string)
    requires var s := Run(d, Initial(binding, p), cmds);
             op in s.operations && Decisive(s.operations[op].status)
    ensures var s := Run(d, Initial(binding, p), cmds);
            var o := s.operations[op];
            var completed := s.fakes.At(o.authority).completed;
            && op in completed && completed[op].result.status == o.status
            && completed[op].result.bindingDigest == d.text(binding)
            && Outcome(o.authority, o.status) && Supplied(p.At(o.authority), cmds, o.authority, op, o.status)
            && Accounted(s.fakes.At(o.authority), p.At(o.authority), cmds)
  {
    hide Run;
    EveryRunIsSound(d, binding, p, cmds);
    var s := Run(d, Initial(binding, p), cmds);
    assert Backed(d, s, op);
    assert FakeSound(s.fakes.At(s.operations[op].authority), p.At(s.operations[op].authority), cmds);
    RunIsLater(d, Initial(binding, p), p, [], cmds);
    EveryRunAccounts(d, binding, p, cmds, s.operations[op].authority);
  }

  /** An authorized change stays authorized, and rests on a supplied routing and a supplied user approval. */
  lemma AuthorizedChangesStayAuthorized(
    d: Digests, binding: string, p: Prepared, past: seq<Command>, cmds: seq<Command>, awg: string, ui: string)
    requires FinalizeRefusal(Run(d, Initial(binding, p), past), awg, ui).None?
    ensures FinalizeRefusal(Run(d, Run(d, Initial(binding, p), past), cmds), awg, ui).None?
    ensures Supplied(p.awg, past, Awg, awg, RequiresUi) && Supplied(p.ui, past, Ui, ui, Approved)
  {
    hide Run, Sound;
    DecisionsNeverChange(d, binding, p, past, cmds);
    DecisiveStatusIsSupplied(d, binding, p, past, awg);
    DecisiveStatusIsSupplied(d, binding, p, past, ui);
  }
}
