/**
 What a user approval authorizes. The change gate looks at the guidance operation and at the
 user operation apart, so an approval fits every routed change; when each change can have an
 approval of its own is a matter of counting.
*/
module BridgeApprovals {
  import opened Identifiers
  import opened Results
  import opened Sets
  import opened AuthorityBridges
  import opened BridgeSafety

  /** The changes guidance has routed to the user. */
  function RoutedChanges(s: System): set<string> {
    set op | op in s.operations && s.operations[op].authority.Awg? && UserChange(s.operations[op].change)
             && s.operations[op].status.RequiresUi?
  }

  function Approvals(s: System): set<string> {
    set op | op in s.operations && s.operations[op].authority.Ui? && s.operations[op].status.Approved?
  }

  lemma BindingsAgree(d: Digests, binding: string, p: Prepared, cmds: seq<Command>, op: string)
    requires op in Run(d, Initial(binding, p), cmds).operations
    ensures var s := Run(d, Initial(binding, p), cmds);
            s.operations[op].binding == s.binding
  {
    hide Run;
    EveryRunIsSound(d, binding, p, cmds);
    assert Backed(d, Run(d, Initial(binding, p), cmds), op);
  }

  /** In every reachable state two operations authorize a change exactly when one is routed and the other approved. */
  lemma AuthorizedExactlyWhen(d: Digests, binding: string, p: Prepared, cmds: seq<Command>, awg: string, ui: string)
    ensures var s := Run(d, Initial(binding, p), cmds);
            FinalizeRefusal(s, awg, ui).None? <==> awg in RoutedChanges(s) && ui in Approvals(s)
  {
    hide Run;
    var s := Run(d, Initial(binding, p), cmds);
    if awg in s.operations {
      BindingsAgree(d, binding, p, cmds, awg);
    }
    if ui in s.operations {
      BindingsAgree(d, binding, p, cmds, ui);
    }
  }

  /** So a change can be authorized exactly when it is routed and the user has approved anything at all. */
  lemma AuthorizableExactlyWhen(d: Digests, binding: string, p: Prepared, cmds: seq<Command>, awg: string)
    ensures var s := Run(d, Initial(binding, p), cmds);
            (exists ui :: FinalizeRefusal(s, awg, ui).None?) <==> awg in RoutedChanges(s) && Approvals(s) != {}
  {
    hide Run, FinalizeRefusal, RoutedChanges, Approvals;
    var s := Run(d, Initial(binding, p), cmds);
    forall ui ensures FinalizeRefusal(s, awg, ui).None? <==> awg in RoutedChanges(s) && ui in Approvals(s) {
      AuthorizedExactlyWhen(d, binding, p, cmds, awg, ui);
    }
    if awg in RoutedChanges(s) && Approvals(s) != {} {
      var ui :| ui in Approvals(s);
      assert FinalizeRefusal(s, awg, ui).None?;
    }
  }

  /** An approval that authorizes one change authorizes every routed one. */
  lemma ApprovalsAreInterchangeable(
    d: Digests, binding: string, p: Prepared, cmds: seq<Command>, awg: string, ui: string, other: string)
    requires var s := Run(d, Initial(binding, p), cmds);
             FinalizeRefusal(s, awg, ui).None? && other in RoutedChanges(s)
    ensures FinalizeRefusal(Run(d, Initial(binding, p), cmds), other, ui).None?
  {
    hide Run, RoutedChanges, Approvals, FinalizeRefusal;
    AuthorizedExactlyWhen(d, binding, p, cmds, awg, ui);
    AuthorizedExactlyWhen(d, binding, p, cmds, other, ui);
  }

  /** Every change that can be authorized has an approval of its own. */
  ghost predicate HasOwnApprovals(s: System, own: map<string, string>) {
    && Injective(own)
    && (forall awg :: awg in own <==> exists ui :: FinalizeRefusal(s, awg, ui).None?)
    && (forall awg | awg in own :: FinalizeRefusal(s, awg, own[awg]).None?)
  }

  /**
   The changes that can be authorized can each be given an approval of its own exactly when
   nothing is approved, or no more changes are routed than operations approved.
  */
  lemma OwnApprovalsExactlyWhen(d: Digests, binding: string, p: Prepared, cmds: seq<Command>)
    ensures var s := Run(d, Initial(binding, p), cmds);
            (exists own :: HasOwnApprovals(s, own)) <==> Approvals(s) == {} || |RoutedChanges(s)| <= |Approvals(s)|
  {
    hide Run, FinalizeRefusal, RoutedChanges, Approvals;
    var s := Run(d, Initial(binding, p), cmds);
    var routed, approved := RoutedChanges(s), Approvals(s);
    forall awg, ui ensures FinalizeRefusal(s, awg, ui).None? <==> awg in routed && ui in approved {
      AuthorizedExactlyWhen(d, binding, p, cmds, awg, ui);
    }
    forall awg ensures (exists ui :: FinalizeRefusal(s, awg, ui).None?) <==> awg in routed && approved != {} {
      AuthorizableExactlyWhen(d, binding, p, cmds, awg);
    }
    if approved == {} {
      assert HasOwnApprovals(s, map[]);
    } else if |routed| <= |approved| {
      MatchingExists(routed, approved);
      var own: map<string, string> :| own.Keys == routed && Injective(own) && forall k | k in own :: own[k] in approved;
      assert HasOwnApprovals(s, own);
    }
    if own :| HasOwnApprovals(s, own) && approved != {} {
      assert own.Keys == routed;
      MatchedIsNoLarger(own, approved);
    }
  }

  // One approval, two changes

  const FIRST := Ask(Awg, "REQ-A", Discussion, "first change", "OP-A", 1, Refinement)
  const SECOND := Ask(Awg, "REQ-B", Discussion, "second change", "OP-B", 1, TestChange)
  const GATE := Ask(Ui, "REQ-C", HumanGate, "first change", "OP-C", 1, NoChange)

  lemma RunOfThree(d: Digests, s: System, a: Command, b: Command, c: Command)
    ensures Run(d, s, [a, b, c]) == Step(d, Step(d, Step(d, s, a), b), c)
  {
    hide Step;
    assert [a, b, c][..2] == [a, b] && [a, b][..1] == [a] && [a][..0] == [];
    assert Run(d, s, [a]) == Step(d, s, a);
    assert Run(d, s, [a, b]) == Step(d, Step(d, s, a), b);
  }

  /** A new operation answered at once by a prepared decisive response. */
  lemma AnsweredAtOnce(d: Digests, s: System, ask: Ask, status: Status)
    requires forall text :: IsDigest(d.text(text))
    requires AskProblem(ask).None? && ask.operationId !in s.operations && Decisive(status) && Outcome(ask.authority, status)
    requires var fake := s.fakes.At(ask.authority);
             && fake.authority == ask.authority && fake.responses != [] && fake.responses[0] == status
             && ask.operationId !in fake.completed && ask.operationId !in fake.pending
    ensures var after := Step(d, s, BridgeRequest(ask));
            && after.binding == s.binding && ask.operationId in after.operations
            && after.operations == s.operations[ask.operationId := after.operations[ask.operationId]]
            && after.operations[ask.operationId].authority == ask.authority
            && after.operations[ask.operationId].change == ask.change
            && after.operations[ask.operationId].binding == s.binding
            && after.operations[ask.operationId].status == status
            && (forall a: Authority | a != ask.authority :: after.fakes.At(a) == s.fakes.At(a))
            && after.fakes.At(ask.authority).authority == ask.authority
            && after.fakes.At(ask.authority).responses == s.fakes.At(ask.authority).responses[1..]
            && after.fakes.At(ask.authority).pending == s.fakes.At(ask.authority).pending
            && after.fakes.At(ask.authority).completed.Keys
               == s.fakes.At(ask.authority).completed.Keys + {ask.operationId}
  {
    hide IsId, IsDigest;
    assert IsDigest(d.text(s.binding)) && IsDigest(d.text(ask.payload));
  }

  /** This run has the user approve once, and both changes are authorized by that approval. */
  lemma OneApprovalAuthorizesTwoChanges(d: Digests, binding: string)
    requires forall text :: IsDigest(d.text(text))
    ensures var p := Prepared([], [RequiresUi, RequiresUi], [Approved]);
            var s := Run(d, Initial(binding, p), [BridgeRequest(FIRST), BridgeRequest(SECOND), BridgeRequest(GATE)]);
            && FinalizeRefusal(s, "OP-A", "OP-C").None? && FinalizeRefusal(s, "OP-B", "OP-C").None?
            && Approvals(s) == {"OP-C"} && RoutedChanges(s) == {"OP-A", "OP-B"}
            && !exists own :: HasOwnApprovals(s, own)
  {
    hide IsDigest, Step, HasOwnApprovals, Run;
    var p := Prepared([], [RequiresUi, RequiresUi], [Approved]);
    var cmds := [BridgeRequest(FIRST), BridgeRequest(SECOND), BridgeRequest(GATE)];
    var start := Initial(binding, p);
    AnsweredAtOnce(d, start, FIRST, RequiresUi);
    var one := Step(d, start, BridgeRequest(FIRST));
    AnsweredAtOnce(d, one, SECOND, RequiresUi);
    var two := Step(d, one, BridgeRequest(SECOND));
    AnsweredAtOnce(d, two, GATE, Approved);
    var s := Step(d, two, BridgeRequest(GATE));
    RunOfThree(d, start, BridgeRequest(FIRST), BridgeRequest(SECOND), BridgeRequest(GATE));
    assert Approvals(s) == {"OP-C"};
    assert RoutedChanges(s) == {"OP-A", "OP-B"};
    OwnApprovalsExactlyWhen(d, binding, p, cmds);
  }
}
