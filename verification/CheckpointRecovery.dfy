/**
 Offline checkpoint recovery: a worker holds the task under a lease, checkpoints idempotent
 operations, and after an interruption hands over to another worker under another lease.
*/
module CheckpointRecovery {
  import opened Results

  datatype Phase = Active | Interrupting | Interrupted | Recovering | Replayed | Completed | Failed

  datatype Operation =
    | Checkpoint | Retry | HostFailed | AgentFailed | Interrupt | InterruptAck | Recover | Replay | Resume
    | Complete | Fail | UnknownOperation

  /** A payload by the keys it has; other keys are only counted. */
  datatype Payload = Payload(
    checkpointId: Option<string>, operationId: Option<string>, sequence: Option<int>, stateDigest: Option<string>,
    inputDigest: Option<string>, resultDigest: Option<string>, durableDigest: Option<string>,
    newWorker: Option<string>, newLease: Option<string>, otherKeys: nat)

  datatype Record = Record(
    checkpointId: string, operationId: string, sequence: int, stateDigest: string, inputDigest: string,
    resultDigest: string, durableDigest: string)

  datatype Action = Action(operation: Operation, eventId: string, worker: string, lease: string, payload: Payload)

  datatype State = State(
    worker: string, lease: string, phase: Phase, sequence: nat, checkpoint: Option<Record>,
    operations: map<string, Record>, eventIds: set<string>)

  datatype Error =
    | ReplayedEvent | FenceMismatch | RecoveryNeedsCheckpoint | RecoveryNeedsNewHolder | ReplayNeedsCheckpoint
    | ResumeNeedsRecovery | InvalidTransition | MalformedCheckpoint | DuplicateOperation | UnknownRetry
    | ChangedOperation | RetryMustAdvance | NoSuchOperation

  function NewState(worker: string, lease: string): State {
    State(worker, lease, Active, 0, None, map[], {})
  }

  // Payload shapes

  predicate HasDigests(p: Payload) {
    p.stateDigest.Some? && p.inputDigest.Some? && p.resultDigest.Some? && p.durableDigest.Some?
  }

  predicate NoHolder(p: Payload) {
    p.newWorker.None? && p.newLease.None? && p.otherKeys == 0
  }

  predicate IsCheckpointPayload(p: Payload) {
    p.checkpointId.Some? && p.operationId.Some? && p.sequence.Some? && HasDigests(p) && NoHolder(p)
  }

  predicate IsRetryPayload(p: Payload) {
    p.checkpointId.None? && p.operationId.Some? && p.sequence.Some? && HasDigests(p) && NoHolder(p)
  }

  function RecordOf(p: Payload): Record
    requires IsCheckpointPayload(p)
  {
    Record(p.checkpointId.value, p.operationId.value, p.sequence.value, p.stateDigest.value, p.inputDigest.value,
           p.resultDigest.value, p.durableDigest.value)
  }

  /** The retried operation repeats every digest of the original. */
  predicate Repeats(p: Payload, original: Record)
    requires IsRetryPayload(p)
  {
    && p.operationId.value == original.operationId && p.stateDigest.value == original.stateDigest
    && p.inputDigest.value == original.inputDigest && p.resultDigest.value == original.resultDigest
    && p.durableDigest.value == original.durableDigest
  }

  // One action

  function Moved(phase: Phase, op: Operation): Option<Phase> {
    match (phase, op)
    case (Active, Interrupt) => Some(Interrupting)
    case (Active, HostFailed) => Some(Interrupted)
    case (Active, AgentFailed) => Some(Interrupted)
    case (Interrupting, InterruptAck) => Some(Interrupted)
    case (Recovering, Replay) => Some(Replayed)
    case (Active, Complete) => Some(Completed)
    case (Active, Fail) => Some(Failed)
    case _ => None
  }

  predicate NewHolder(s: State, p: Payload) {
    && p.newWorker.Some? && p.newLease.Some? && p.newWorker.value != "" && p.newLease.value != ""
    && p.newWorker.value != s.worker && p.newLease.value != s.lease
  }

  function Effect(s: State, op: Operation, p: Payload): Result<State, Error> {
    match op
    case Checkpoint =>
      if !s.phase.Active? || !IsCheckpointPayload(p) || p.sequence.value != s.sequence + 1 then Err(MalformedCheckpoint)
      else if p.operationId.value in s.operations then Err(DuplicateOperation)
      else Ok(s.(operations := s.operations[p.operationId.value := RecordOf(p)], checkpoint := Some(RecordOf(p))))
    case Retry =>
      if !IsRetryPayload(p) || p.operationId.value !in s.operations then Err(UnknownRetry)
      else
        var original := s.operations[p.operationId.value];
        if !Repeats(p, original) then Err(ChangedOperation)
        else if p.sequence.value <= original.sequence then Err(RetryMustAdvance)
        else Ok(s)
    case Recover =>
      if !s.phase.Interrupted? || s.checkpoint.None? then Err(RecoveryNeedsCheckpoint)
      else if !NewHolder(s, p) then Err(RecoveryNeedsNewHolder)
      else Ok(s.(worker := p.newWorker.value, lease := p.newLease.value, phase := Recovering))
    case Replay =>
      if !s.phase.Recovering? || s.checkpoint.None? || p.checkpointId != Some(s.checkpoint.value.checkpointId) then
        Err(ReplayNeedsCheckpoint)
      else Ok(s.(phase := Replayed))
    case Resume =>
      if !s.phase.Recovering? && !s.phase.Replayed? then Err(ResumeNeedsRecovery) else Ok(s.(phase := Active))
    case UnknownOperation => Err(NoSuchOperation)
    case _ =>
      var target := Moved(s.phase, op);
      if target.Some? then Ok(s.(phase := target.value)) else Err(InvalidTransition)
  }

  function Acted(s: State, a: Action): Result<State, Error> {
    if a.eventId in s.eventIds then Err(ReplayedEvent)
    else if a.worker != s.worker || a.lease != s.lease then Err(FenceMismatch)
    else
      var after := Effect(s, a.operation, a.payload);
      if after.Err? then after
      else Ok(after.value.(eventIds := s.eventIds + {a.eventId}, sequence := s.sequence + 1))
  }

  // Runs: a refused action changes nothing

  function Step(s: State, a: Action): State {
    var after := Acted(s, a);
    if after.Ok? then after.value else s
  }

  function Run(s: State, actions: seq<Action>): State {
    if actions == [] then s else Step(Run(s, actions[..|actions| - 1]), actions[|actions| - 1])
  }

  /** The current checkpoint is the newest entry of the table, whose sequences go up to n. */
  ghost predicate Tabled(s: State, n: int) {
    && (forall op | op in s.operations :: s.operations[op].operationId == op && 1 <= s.operations[op].sequence <= n)
    && (s.checkpoint.None? ==> s.operations == map[])
    && (s.checkpoint.Some? ==> Newest(s.operations, s.checkpoint.value))
  }

  ghost predicate Newest(operations: map<string, Record>, record: Record) {
    && record.operationId in operations && operations[record.operationId] == record
    && forall op | op in operations && op != record.operationId :: operations[op].sequence < record.sequence
  }

  /**
   The sequence counts the accepted events; the current checkpoint is in the table and is its
   newest entry; recovery phases exist only with a checkpoint.
  */
  ghost predicate Sound(s: State) {
    && |s.eventIds| == s.sequence
    && Tabled(s, s.sequence)
    && (s.phase.Recovering? || s.phase.Replayed? ==> s.checkpoint.Some?)
  }

  lemma EffectKeepsTable(s: State, op: Operation, p: Payload)
    requires Tabled(s, s.sequence) && (s.phase.Recovering? || s.phase.Replayed? ==> s.checkpoint.Some?)
    ensures var after := Effect(s, op, p);
            after.Ok? ==>
              && Tabled(after.value, s.sequence + 1)
              && (after.value.phase.Recovering? || after.value.phase.Replayed? ==> after.value.checkpoint.Some?)
              && after.value.sequence == s.sequence && after.value.eventIds == s.eventIds
  {
    hide HasDigests, NoHolder, NewHolder, Repeats;
    match op
    case Checkpoint => NewRecordIsNewest(s, p);
    case Retry | Recover | Replay | Resume | UnknownOperation =>
    case HostFailed | AgentFailed | Interrupt | InterruptAck | Complete | Fail =>
  }

  lemma NewRecordIsNewest(s: State, p: Payload)
    requires Tabled(s, s.sequence)
    ensures var after := Effect(s, Checkpoint, p);
            after.Ok? ==> Tabled(after.value, s.sequence + 1)
  {
    hide HasDigests, NoHolder;
  }

  lemma StepKeepsSound(s: State, a: Action)
    requires Sound(s)
    ensures Sound(Step(s, a))
  {
    hide Effect, Newest;
    EffectKeepsTable(s, a.operation, a.payload);
  }

  lemma {:induction false} EveryRunIsSound(worker: string, lease: string, actions: seq<Action>)
    ensures Sound(Run(NewState(worker, lease), actions))
  {
    if actions != [] {
      hide Step, Sound;
      EveryRunIsSound(worker, lease, actions[..|actions| - 1]);
      StepKeepsSound(Run(NewState(worker, lease), actions[..|actions| - 1]), actions[|actions| - 1]);
    }
  }

  /** Sequences and events grow, the table keeps every record, and a newer checkpoint has a higher sequence. */
  ghost predicate Later(s: State, after: State) {
    && s.sequence <= after.sequence && s.eventIds <= after.eventIds
    && (forall op | op in s.operations :: op in after.operations && after.operations[op] == s.operations[op])
    && (s.checkpoint.Some? ==>
          && after.checkpoint.Some?
          && (after.checkpoint == s.checkpoint || s.checkpoint.value.sequence < after.checkpoint.value.sequence))
    && (s.phase.Completed? || s.phase.Failed? ==>
          after == s.(sequence := after.sequence, eventIds := after.eventIds))
  }

  lemma CheckpointIsLater(s: State, p: Payload)
    requires Tabled(s, s.sequence)
    ensures Effect(s, Checkpoint, p).Ok? ==> Later(s, Effect(s, Checkpoint, p).value)
  {
    hide HasDigests, NoHolder;
  }

  lemma EffectIsLater(s: State, op: Operation, p: Payload)
    requires Sound(s)
    ensures Effect(s, op, p).Ok? ==> Later(s, Effect(s, op, p).value)
  {
    if op.Checkpoint? {
      CheckpointIsLater(s, p);
    } else {
      hide HasDigests, NoHolder, NewHolder, Repeats, Tabled;
      match op
      case Checkpoint | Retry | Recover | Replay | Resume | UnknownOperation =>
      case HostFailed | AgentFailed | Interrupt | InterruptAck | Complete | Fail =>
    }
  }

  lemma StepIsLater(s: State, a: Action)
    requires Sound(s)
    ensures Later(s, Step(s, a))
  {
    hide Effect, Tabled;
    EffectIsLater(s, a.operation, a.payload);
  }

  /**
   Over any stretch of a run nothing recorded is lost or changed, checkpoint sequences strictly
   increase, and a completed or failed task only ever counts retries.
  */
  lemma {:induction false} RunIsLater(s: State, actions: seq<Action>)
    requires Sound(s)
    ensures Sound(Run(s, actions)) && Later(s, Run(s, actions))
  {
    if actions != [] {
      hide Step, Sound;
      var before := Run(s, actions[..|actions| - 1]);
      RunIsLater(s, actions[..|actions| - 1]);
      StepKeepsSound(before, actions[|actions| - 1]);
      StepIsLater(before, actions[|actions| - 1]);
    }
  }

  // The way back from an interruption

  predicate Away(phase: Phase) {
    phase.Interrupting? || phase.Interrupted?
  }

  /** The k-th action hands over: from an interruption with a checkpoint, both worker and lease change. */
  ghost predicate HandsOver(s: State, actions: seq<Action>, k: nat)
    requires k < |actions|
  {
    var before, after := Run(s, actions[..k]), Run(s, actions[..k + 1]);
    && before.phase.Interrupted? && before.checkpoint.Some? && actions[k].operation.Recover?
    && after.phase.Recovering? && after.worker != before.worker && after.lease != before.lease
    && after.checkpoint == before.checkpoint
  }

  lemma LeavingInterruption(s: State, a: Action)
    requires Away(s.phase) && !Away(Step(s, a).phase)
    ensures s.phase.Interrupted? && s.checkpoint.Some? && a.operation.Recover?
    ensures var after := Step(s, a);
            after.phase.Recovering? && after.worker != s.worker && after.lease != s.lease && after.checkpoint == s.checkpoint
  {
  }

  /** No run goes from an interruption to any other phase except through a hand-over. */
  lemma {:induction false} InterruptionEndsByHandOver(s: State, actions: seq<Action>)
    requires Away(s.phase) && !Away(Run(s, actions).phase)
    ensures exists k: nat :: k < |actions| && HandsOver(s, actions, k)
  {
    var n := |actions| - 1;
    var before := Run(s, actions[..n]);
    if Away(before.phase) {
      LeavingInterruption(before, actions[n]);
      assert actions[..n + 1] == actions;
      assert HandsOver(s, actions, n);
    } else {
      InterruptionEndsByHandOver(s, actions[..n]);
      var k: nat :| k < n && HandsOver(s, actions[..n], k);
      assert actions[..n][..k] == actions[..k] && actions[..n][..k + 1] == actions[..k + 1];
      assert HandsOver(s, actions, k);
    }
  }

  lemma OnlyRecoveryChangesTheHolder(s: State, a: Action)
    ensures Step(s, a).worker != s.worker || Step(s, a).lease != s.lease ==>
              a.operation.Recover? && s.phase.Interrupted? && s.checkpoint.Some?
              && Step(s, a).worker != s.worker && Step(s, a).lease != s.lease
  {
  }

  /** The k-th action is an accepted recovery that names this worker. */
  ghost predicate GivesWorker(s: State, actions: seq<Action>, k: nat, worker: string)
    requires k < |actions|
  {
    && actions[k].operation.Recover? && Acted(Run(s, actions[..k]), actions[k]).Ok?
    && actions[k].payload.newWorker == Some(worker)
  }

  /** The k-th action is an accepted recovery that names this lease. */
  ghost predicate GivesLease(s: State, actions: seq<Action>, k: nat, lease: string)
    requires k < |actions|
  {
    && actions[k].operation.Recover? && Acted(Run(s, actions[..k]), actions[k]).Ok?
    && actions[k].payload.newLease == Some(lease)
  }

  /** A worker, or a lease, that a run ends with but did not start with was given by one of its recoveries. */
  lemma {:induction false} HolderWasGiven(s: State, actions: seq<Action>)
    ensures Run(s, actions).worker == s.worker
            || exists k: nat :: k < |actions| && GivesWorker(s, actions, k, Run(s, actions).worker)
    ensures Run(s, actions).lease == s.lease
            || exists k: nat :: k < |actions| && GivesLease(s, actions, k, Run(s, actions).lease)
  {
    if actions != [] {
      var n := |actions| - 1;
      var before := Run(s, actions[..n]);
      HolderWasGiven(s, actions[..n]);
      HolderStep(before, actions[n]);
      forall k | 0 <= k < n ensures actions[..n][..k] == actions[..k] {
      }
      if before.worker == Run(s, actions).worker != s.worker {
        var k: nat :| k < n && GivesWorker(s, actions[..n], k, before.worker);
        assert GivesWorker(s, actions, k, before.worker);
      } else if before.worker != Run(s, actions).worker {
        assert GivesWorker(s, actions, n, Run(s, actions).worker);
      }
      if before.lease == Run(s, actions).lease != s.lease {
        var k: nat :| k < n && GivesLease(s, actions[..n], k, before.lease);
        assert GivesLease(s, actions, k, before.lease);
      } else if before.lease != Run(s, actions).lease {
        assert GivesLease(s, actions, n, Run(s, actions).lease);
      }
    }
  }

  lemma HolderStep(s: State, a: Action)
    ensures var after := Step(s, a);
            after.worker != s.worker || after.lease != s.lease ==>
              && Acted(s, a).Ok? && a.operation.Recover?
              && a.payload.newWorker == Some(after.worker) && a.payload.newLease == Some(after.lease)
  {
  }

  /**
   After a hand-over an action of the replaced worker, or under the replaced lease, changes
   nothing until a later recovery gives that worker, or that lease, back.
  */
  lemma StaleHolderChangesNothing(s: State, handOver: Action, later: seq<Action>, stale: Action)
    requires Acted(s, handOver).Ok? && handOver.operation.Recover?
    ensures var after := Step(s, handOver);
            && (stale.worker == s.worker && !(exists k: nat :: k < |later| && GivesWorker(after, later, k, s.worker)) ==>
                  Step(Run(after, later), stale) == Run(after, later))
            && (stale.lease == s.lease && !(exists k: nat :: k < |later| && GivesLease(after, later, k, s.lease)) ==>
                  Step(Run(after, later), stale) == Run(after, later))
  {
    hide Run, Effect;
    var after := Step(s, handOver);
    HandOverReplaces(s, handOver);
    HolderWasGiven(after, later);
  }

  lemma HandOverReplaces(s: State, a: Action)
    requires Acted(s, a).Ok? && a.operation.Recover?
    ensures Step(s, a).worker != s.worker && Step(s, a).lease != s.lease
  {
  }

  /** A retry accepted at any later time repeats the digests of the one checkpoint its operation ever had. */
  lemma RetriesRepeatTheirCheckpoint(s: State, checkpoint: Action, between: seq<Action>, retry: Action)
    requires Sound(s) && Acted(s, checkpoint).Ok? && checkpoint.operation.Checkpoint?
    requires retry.operation.Retry? && retry.payload.operationId == checkpoint.payload.operationId
    requires Acted(Run(Step(s, checkpoint), between), retry).Ok?
    ensures retry.payload.stateDigest == checkpoint.payload.stateDigest
    ensures retry.payload.inputDigest == checkpoint.payload.inputDigest
    ensures retry.payload.resultDigest == checkpoint.payload.resultDigest
    ensures retry.payload.durableDigest == checkpoint.payload.durableDigest
    ensures retry.payload.sequence.value > checkpoint.payload.sequence.value
  {
    hide Run, Sound;
    StepKeepsSound(s, checkpoint);
    RunIsLater(Step(s, checkpoint), between);
  }

  // What each action demands and where it leads

  /** The payload has exactly the fields of a checkpoint; of a retry, with no checkpoint id. */
  predicate Full(p: Payload, checkpoint: bool) {
    && p.checkpointId.Some? == checkpoint && p.operationId.Some? && p.sequence.Some? && p.stateDigest.Some?
    && p.inputDigest.Some? && p.resultDigest.Some? && p.durableDigest.Some?
    && p.newWorker.None? && p.newLease.None? && p.otherKeys == 0
  }

  /** The operation may be taken in this state with this payload. */
  predicate MayAct(s: State, op: Operation, p: Payload) {
    match op
    case Checkpoint =>
      && s.phase == Active && Full(p, true) && p.sequence == Some(s.sequence + 1)
      && p.operationId.value !in s.operations
    case Retry =>
      && Full(p, false) && p.operationId.value in s.operations
      && var original := s.operations[p.operationId.value];
         && p.sequence.value > original.sequence
         && original == Record(original.checkpointId, p.operationId.value, original.sequence, p.stateDigest.value,
                               p.inputDigest.value, p.resultDigest.value, p.durableDigest.value)
    case Interrupt | HostFailed | AgentFailed | Complete | Fail => s.phase == Active
    case InterruptAck => s.phase == Interrupting
    case Recover =>
      && s.phase == Interrupted && s.checkpoint != None
      && p.newWorker.Some? && p.newWorker.value != "" && p.newWorker.value != s.worker
      && p.newLease.Some? && p.newLease.value != "" && p.newLease.value != s.lease
    case Replay => s.phase == Recovering && s.checkpoint.Some? && p.checkpointId == Some(s.checkpoint.value.checkpointId)
    case Resume => s.phase == Recovering || s.phase == Replayed
    case UnknownOperation => false
  }

  /** The phase an operation leads to; checkpoints and retries leave it. */
  function LeadsTo(op: Operation, phase: Phase): Phase {
    match op
    case Interrupt => Interrupting
    case InterruptAck | HostFailed | AgentFailed => Interrupted
    case Recover => Recovering
    case Replay => Replayed
    case Resume => Active
    case Complete => Completed
    case Fail => Failed
    case Checkpoint | Retry | UnknownOperation => phase
  }

  /**
   An action is accepted exactly when its event is new, it comes from the holder and its operation may be
   taken; it then counts as one event, leads where its operation does, and touches the holder only if it is a
   recovery and the checkpoints only if it is a checkpoint.
  */
  lemma ActedExactlyWhen(s: State, a: Action)
    requires forall op | op in s.operations :: s.operations[op].operationId == op
    ensures Acted(s, a).Ok? <==>
              && a.eventId !in s.eventIds && a.worker == s.worker && a.lease == s.lease
              && MayAct(s, a.operation, a.payload)
    ensures Acted(s, a).Ok? ==>
              var (after, p) := (Acted(s, a).value, a.payload);
              && after.phase == LeadsTo(a.operation, s.phase)
              && after.sequence == s.sequence + 1 && after.eventIds == s.eventIds + {a.eventId}
              && (a.operation == Recover ==> after.worker == p.newWorker.value && after.lease == p.newLease.value)
              && (a.operation != Recover ==> after.worker == s.worker && after.lease == s.lease)
              && (a.operation != Checkpoint ==> after.operations == s.operations && after.checkpoint == s.checkpoint)
              && (a.operation == Checkpoint ==>
                    var record := Record(p.checkpointId.value, p.operationId.value, s.sequence + 1, p.stateDigest.value,
                                         p.inputDigest.value, p.resultDigest.value, p.durableDigest.value);
                    after.operations == s.operations[p.operationId.value := record] && after.checkpoint == Some(record))
  {
  }

  /** A refused action names the first check it fails: the event, the holder, and then its operation's own. */
  lemma ActionRefusals(s: State, a: Action)
    requires a.eventId !in s.eventIds && a.worker == s.worker && a.lease == s.lease && Acted(s, a).Err?
    ensures var (error, p) := (Acted(s, a).error, a.payload);
            match a.operation
            case Checkpoint =>
              error == if s.phase == Active && Full(p, true) && p.sequence == Some(s.sequence + 1)
                       then DuplicateOperation else MalformedCheckpoint
            case Retry =>
              if Full(p, false) && p.operationId.value in s.operations
              then error == ChangedOperation
                   || (error == RetryMustAdvance && p.sequence.value <= s.operations[p.operationId.value].sequence)
              else error == UnknownRetry
            case Recover =>
              error == if s.phase == Interrupted && s.checkpoint != None then RecoveryNeedsNewHolder else RecoveryNeedsCheckpoint
            case Replay => error == ReplayNeedsCheckpoint
            case Resume => error == ResumeNeedsRecovery
            case UnknownOperation => error == NoSuchOperation
            case _ => error == InvalidTransition
  {
  }

  lemma FenceRefusals(s: State, a: Action)
    ensures Acted(s, a) == Err(ReplayedEvent) <==> a.eventId in s.eventIds
    ensures Acted(s, a) == Err(FenceMismatch) <==>
              a.eventId !in s.eventIds && (a.worker != s.worker || a.lease != s.lease)
  {
  }

  /** The k-th action is an accepted one with this operation. */
  ghost predicate Took(s: State, actions: seq<Action>, k: nat, op: Operation)
    requires k < |actions|
  {
    actions[k].operation == op && Acted(Run(s, actions[..k]), actions[k]).Ok?
  }

  ghost predicate EverTook(s: State, actions: seq<Action>, op: Operation) {
    exists k: nat :: k < |actions| && Took(s, actions, k, op)
  }

  lemma EverTookOneMore(s: State, actions: seq<Action>, op: Operation)
    requires actions != []
    ensures EverTook(s, actions, op) <==>
              || EverTook(s, actions[..|actions| - 1], op)
              || Took(s, actions, |actions| - 1, op)
  {
    hide Run, Acted;
    var earlier := actions[..|actions| - 1];
    forall k: nat | k < |earlier| ensures Took(s, earlier, k, op) <==> Took(s, actions, k, op) {
      assert earlier[..k] == actions[..k];
    }
    if EverTook(s, earlier, op) {
      var k: nat :| k < |earlier| && Took(s, earlier, k, op);
      assert Took(s, actions, k, op);
    }
    if EverTook(s, actions, op) {
      var k: nat :| k < |actions| && Took(s, actions, k, op);
      assert k < |earlier| ==> Took(s, earlier, k, op);
    }
  }

  lemma EndStep(s: State, a: Action)
    requires forall op | op in s.operations :: s.operations[op].operationId == op
    ensures Step(s, a).phase == Completed <==> s.phase == Completed || (a.operation == Complete && Acted(s, a).Ok?)
    ensures Step(s, a).phase == Failed <==> s.phase == Failed || (a.operation == Fail && Acted(s, a).Ok?)
  {
    hide Acted;
    ActedExactlyWhen(s, a);
  }

  /** A run has completed its task exactly when it took a completion, and failed it exactly when it took a failure. */
  lemma {:induction false} EndsExactlyByItsOwnWord(worker: string, lease: string, actions: seq<Action>)
    ensures var s := NewState(worker, lease);
            && (Run(s, actions).phase == Completed <==> EverTook(s, actions, Complete))
            && (Run(s, actions).phase == Failed <==> EverTook(s, actions, Fail))
  {
    hide Acted, Step, Sound, EverTook;
    var s := NewState(worker, lease);
    if actions == [] {
      NothingTook(s, Complete);
      NothingTook(s, Fail);
    } else {
      var n := |actions| - 1;
      var before := Run(s, actions[..n]);
      EndsExactlyByItsOwnWord(worker, lease, actions[..n]);
      EveryRunIsSound(worker, lease, actions[..n]);
      TableNamesItsOperations(before);
      EndStep(before, actions[n]);
      EverTookOneMore(s, actions, Complete);
      EverTookOneMore(s, actions, Fail);
    }
  }

  lemma NothingTook(s: State, op: Operation)
    ensures !EverTook(s, [], op)
  {
  }

  lemma TableNamesItsOperations(s: State)
    requires Sound(s)
    ensures forall op | op in s.operations :: s.operations[op].operationId == op
  {
  }

  /** The recovery object. */
  class RecoveryState {
    var worker: string
    var lease: string
    var phase: Phase
    var sequence: nat
    var checkpoint: Option<Record>
    var operations: map<string, Record>
    var eventIds: set<string>

    function Value(): State
      reads this
    {
      State(worker, lease, phase, sequence, checkpoint, operations, eventIds)
    }

    constructor (worker: string, lease: string)
      ensures Value() == NewState(worker, lease)
    {
      this.worker, this.lease, phase, sequence := worker, lease, Active, 0;
      checkpoint, operations, eventIds := None, map[], {};
    }

    method Act(a: Action) returns (r: Result<Phase, Error>)
      modifies this
      ensures Value() == Step(old(Value()), a)
      ensures var acted := Acted(old(Value()), a);
              r == if acted.Ok? then Ok(acted.value.phase) else Err(acted.error)
    {
      if a.eventId in eventIds {
        return Err(ReplayedEvent);
      }
      if a.worker != worker || a.lease != lease {
        return Err(FenceMismatch);
      }
      var error := None;
      match a.operation {
        case Checkpoint =>
          error := TakeCheckpoint(a.payload);
        case Retry =>
          error := CheckRetry(a.payload);
        case Recover =>
          if !phase.Interrupted? || checkpoint.None? {
            return Err(RecoveryNeedsCheckpoint);
          }
          if !NewHolder(Value(), a.payload) {
            return Err(RecoveryNeedsNewHolder);
          }
          worker, lease, phase := a.payload.newWorker.value, a.payload.newLease.value, Recovering;
        case Replay =>
          if !phase.Recovering? || checkpoint.None? || a.payload.checkpointId != Some(checkpoint.value.checkpointId) {
            return Err(ReplayNeedsCheckpoint);
          }
          error := Transition(Replay);
        case Resume =>
          if !phase.Recovering? && !phase.Replayed? {
            return Err(ResumeNeedsRecovery);
          }
          phase := Active;
        case UnknownOperation =>
          return Err(NoSuchOperation);
        case _ =>
          error := Transition(a.operation);
      }
      if error.Some? {
        return Err(error.value);
      }
      eventIds := eventIds + {a.eventId};
      sequence := sequence + 1;
      r := Ok(phase);
    }

    method Transition(op: Operation) returns (error: Option<Error>)
      modifies this`phase
      ensures var target := Moved(old(phase), op);
              if target.Some? then error.None? && phase == target.value
              else error == Some(InvalidTransition) && phase == old(phase)
    {
      var target := Moved(phase, op);
      if target.None? {
        return Some(InvalidTransition);
      }
      phase := target.value;
      error := None;
    }

    method TakeCheckpoint(p: Payload) returns (error: Option<Error>)
      modifies this`operations, this`checkpoint
      ensures var effect := Effect(old(Value()), Checkpoint, p);
              if effect.Ok? then error.None? && Value() == effect.value
              else error == Some(effect.error) && Value() == old(Value())
    {
      if !phase.Active? || !IsCheckpointPayload(p) || p.sequence.value != sequence + 1 {
        return Some(MalformedCheckpoint);
      }
      if p.operationId.value in operations {
        return Some(DuplicateOperation);
      }
      operations := operations[p.operationId.value := RecordOf(p)];
      checkpoint := Some(RecordOf(p));
      error := None;
    }

    method CheckRetry(p: Payload) returns (error: Option<Error>)
      ensures var effect := Effect(Value(), Retry, p);
              error == if effect.Ok? then None else Some(effect.error)
    {
      if !IsRetryPayload(p) || p.operationId.value !in operations {
        return Some(UnknownRetry);
      }
      var original := operations[p.operationId.value];
      if !Repeats(p, original) {
        return Some(ChangedOperation);
      }
      if p.sequence.value <= original.sequence {
        return Some(RetryMustAdvance);
      }
      error := None;
    }
  }
}
