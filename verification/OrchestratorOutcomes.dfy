/**
 What becomes of the tasks of a pass: which are announced, what a worker's end makes of its
 task by the stored status and the coordinator's record alone, and that ordinary work completes.
*/
module OrchestratorOutcomes {
  import opened Sequences
  import opened TaskGraph
  import opened RunJournal
  import opened JournalPaths
  import opened OrchestratorModel

  /** The statuses from which a live lease can be recovered; a task already recovering stays so. */
  predicate Recoverable(status: Status) {
    status in {Ready, Leased, Executing, Streaming, EvidencePending, QualityPending, Recovering}
  }

  predicate LeaseWithAttemptsLeft(file: File, id: string, record: Record, maxAttempts: int) {
    record.RunningLease? && Attempts(file.events, id) < maxAttempts
  }

  /**
   A worker that met a live lease elsewhere defers and leaves the file alone. Any other ending decides:
   a finished task stays as it is; a recorded success with complete gates completes a task
   that only waited for the user's gate; a live lease with attempts left defers a recoverable task; and
   every other task fails. No other task is touched.
  */
  lemma EndingDecides(b: Binding, maxAttempts: int, file: File, id: string, record: Record)
    requires Accepts(b, file) && id in b.tasks
    ensures Ended(b, maxAttempts, file, id, LeaseStillLive) == (file, true)
    ensures var (after, deferred) := Ended(b, maxAttempts, file, id, Over(record));
            var was, now := file.taskStatus[id], StatusIn(after.taskStatus, id);
            && after.taskStatus == file.taskStatus[id := now]
            && (now == Completed <==> was == Completed || (record == DoneWithGates && was == UiPending))
            && (deferred <==> LeaseWithAttemptsLeft(file, id, record, maxAttempts) && Recoverable(was))
            && (deferred ==> now == Recovering)
            && (was in {Completed, Blocked, Failed} ==> after == file)
            && (was !in {Completed, Blocked, Failed} && now != Completed && !deferred ==> now == Failed)
  {
    hide DigestFunctions, Attempts;
    StatusIsKnown(b, file.events, id);
    assert file.taskStatus[id := file.taskStatus[id]] == file.taskStatus;
  }

  /** Exactly the planned tasks of the batch become ready before the workers start. */
  lemma {:induction false} AnnouncingMakesPlannedReady(b: Binding, file: File, selected: seq<string>)
    requires DigestFunctions(b) && Accepts(b, file)
    requires Distinct(selected) && forall id | id in selected :: id in b.tasks
    ensures var after := Announced(b, file, file.taskStatus, selected);
            && Accepts(b, after) && after.taskStatus.Keys == file.taskStatus.Keys
            && forall id | id in file.taskStatus ::
                 after.taskStatus[id] ==
                 if id in selected && file.taskStatus[id] == Planned then Ready else file.taskStatus[id]
  {
    hide DigestFunctions, Accepts, Tried;
    if selected != [] {
      var n := |selected| - 1;
      var last := selected[n];
      AnnouncingMakesPlannedReady(b, file, selected[..n]);
      KeysAreTasks(b, file);
      assert selected == selected[..n] + [last];
      if file.taskStatus[last] == Planned {
        TriedIsDone(b, Announced(b, file, file.taskStatus, selected[..n]), last, Ready, "graph digest");
      }
    }
  }

  lemma KeysAreTasks(b: Binding, file: File)
    requires Accepts(b, file)
    ensures file.taskStatus.Keys == b.tasks
  {
  }

  // Deferral

  /** The move ends a running worker that defers its task. */
  ghost predicate DefersBy(l: Loop, pass: nat, p: Pass, move: Move) {
    move.Finish? && move.id in p.running && DefersTask(l, pass, p.file, move.id)
  }

  /** A worker that ends now, ended as the environment says, leaves its task to a later run. */
  ghost predicate DefersTask(l: Loop, pass: nat, file: File, id: string) {
    Ended(l.binding, if id in l.tasks then l.tasks[id].maxAttempts else 0, file, id, l.env.ending(pass, id)).1
  }

  ghost predicate PlayDefersAt(l: Loop, pass: nat, p: Pass, moves: seq<Move>, k: nat)
    requires k < |moves|
  {
    DefersBy(l, pass, Played(l, pass, p, moves[..k]), moves[k])
  }

  lemma MoveDefers(l: Loop, pass: nat, p: Pass, move: Move)
    ensures Play(l, pass, p, move).deferred <==> p.deferred || DefersBy(l, pass, p, move)
  {
    hide Ended, Tried;
  }

  /** A pass has deferred exactly when a worker that ended deferred its task. */
  lemma {:induction false} PlayDefersExactlyWhen(l: Loop, pass: nat, p: Pass, moves: seq<Move>)
    ensures Played(l, pass, p, moves).deferred <==>
              p.deferred || exists k: nat :: k < |moves| && PlayDefersAt(l, pass, p, moves, k)
  {
    hide Play, DefersBy;
    if moves != [] {
      var n := |moves| - 1;
      PlayDefersExactlyWhen(l, pass, p, moves[..n]);
      MoveDefers(l, pass, Played(l, pass, p, moves[..n]), moves[n]);
      forall k: nat | k < n ensures PlayDefersAt(l, pass, p, moves[..n], k) <==> PlayDefersAt(l, pass, p, moves, k) {
        assert moves[..n][..k] == moves[..k];
      }
      assert PlayDefersAt(l, pass, p, moves, n) <==> DefersBy(l, pass, Played(l, pass, p, moves[..n]), moves[n]);
    }
  }

  ghost predicate DrainDefersAt(l: Loop, pass: nat, p: Pass, selected: seq<string>, k: nat)
    requires k < |selected|
  {
    DefersBy(l, pass, Drained(l, pass, p, selected[..k]), Finish(selected[k]))
  }

  lemma DrainOneMore(l: Loop, pass: nat, p: Pass, selected: seq<string>)
    requires selected != []
    ensures var n := |selected| - 1;
            Drained(l, pass, p, selected) == Play(l, pass, Drained(l, pass, p, selected[..n]), Finish(selected[n]))
  {
    hide WorkerEnds;
  }

  /** And so for the workers that are ended at the end of the pass, in order. */
  lemma {:induction false} DrainDefersExactlyWhen(l: Loop, pass: nat, p: Pass, selected: seq<string>)
    ensures Drained(l, pass, p, selected).deferred <==>
              p.deferred || exists k: nat :: k < |selected| && DrainDefersAt(l, pass, p, selected, k)
  {
    hide Drained, Play, DefersBy;
    if selected == [] {
      NothingDrained(l, pass, p);
    } else {
      var n := |selected| - 1;
      DrainOneMore(l, pass, p, selected);
      DrainDefersExactlyWhen(l, pass, p, selected[..n]);
      MoveDefers(l, pass, Drained(l, pass, p, selected[..n]), Finish(selected[n]));
      forall k: nat | k < n ensures DrainDefersAt(l, pass, p, selected[..n], k) <==> DrainDefersAt(l, pass, p, selected, k) {
        assert selected[..n][..k] == selected[..k];
      }
      assert DrainDefersAt(l, pass, p, selected, n)
        <==> DefersBy(l, pass, Drained(l, pass, p, selected[..n]), Finish(selected[n]));
    }
  }

  lemma NothingDrained(l: Loop, pass: nat, p: Pass)
    ensures Drained(l, pass, p, []) == p
  {
  }

  // Ordinary work

  function WholeWayAttempts(id: string, evidence: string): (moves: seq<Move>)
    ensures |moves| == 8
  {
    seq(8, i requires 0 <= i < 8 => Attempt(id, WholeWay()[i], evidence))
  }

  /** A single task whose worker goes the whole way and returns. */
  ghost predicate OrdinaryWork(l: Loop, a: string, evidence: string) {
    && l.ids == [a] == l.listed && l.tasks.Keys == l.binding.tasks == {a} && l.tasks[a].dependencies == []
    && l.maxParallel >= 1 && DigestFunctions(l.binding)
    && l.env.moves(1) == WholeWayAttempts(a, evidence) && l.env.ending(1, a) == Over(NoRecord)
  }

  lemma {:induction false} WorkerGoesTheWay(l: Loop, a: string, evidence: string, file: File, n: nat)
    requires OrdinaryWork(l, a, evidence) && Accepts(l.binding, file) && file.taskStatus == map[a := Ready] && n <= 8
    ensures var p := Played(l, 1, Pass(file, {a}, false), WholeWayAttempts(a, evidence)[..n]);
            && p.running == {a} && !p.deferred && Accepts(l.binding, p.file)
            && p.file.taskStatus == map[a := if n == 0 then Ready else WholeWay()[n - 1]]
  {
    hide Accepts, Tried, DigestFunctions, Follows, WholeWay;
    if n > 0 {
      var moves := WholeWayAttempts(a, evidence);
      WorkerGoesTheWay(l, a, evidence, file, n - 1);
      assert moves[..n][..n - 1] == moves[..n - 1];
      var before := Played(l, 1, Pass(file, {a}, false), moves[..n - 1]).file;
      WholeWayFollows(n - 1);
      TriedIsDone(l.binding, before, a, WholeWay()[n - 1], evidence);
    }
  }

  /** What one task alone is selected. */
  lemma AloneIsSelected(l: Loop, a: string, evidence: string, file: File)
    requires OrdinaryWork(l, a, evidence) && file.taskStatus.Keys == {a}
    ensures Selected(l, file) == if Terminal(file.taskStatus[a]) then [] else [a]
  {
    assert [a][..0] == [];
    assert IsReady(l.tasks, file.taskStatus, a) <==> !Terminal(file.taskStatus[a]);
    assert ReadyIn(l.tasks, [a], file.taskStatus) == if Terminal(file.taskStatus[a]) then [] else [a];
    assert Selection(l.tasks, [a], l.maxParallel) == [a];
  }

  lemma OrdinaryPassCompletes(l: Loop, a: string, evidence: string)
    requires OrdinaryWork(l, a, evidence)
    ensures var p := PassResult(l, 1, Fresh(l.binding), [a]);
            !p.deferred && Accepts(l.binding, p.file) && p.file.taskStatus == map[a := Completed]
  {
    hide Accepts, DigestFunctions, Tried, Played, Announced;
    var start := Fresh(l.binding);
    FreshIsAccepted(l.binding);
    AnnouncingMakesPlannedReady(l.binding, start, [a]);
    var announced := Announced(l.binding, start, start.taskStatus, [a]);
    var moves := WholeWayAttempts(a, evidence);
    assert moves[..8] == moves && (set id | id in [a]) == {a};
    WorkerGoesTheWay(l, a, evidence, announced, 8);
    var p := Played(l, 1, Pass(announced, {a}, false), moves);
    assert [a][..0] == [];
    assert Drained(l, 1, p, []) == p;
    assert PassResult(l, 1, start, [a]) == WorkerEnds(l, 1, p, a);
    assert WorkerEnds(l, 1, p, a).file == p.file;
  }

  /** The ordinary run over a fresh file completes its task and ends. */
  lemma OrdinaryRunCompletes(l: Loop, a: string, evidence: string)
    requires OrdinaryWork(l, a, evidence)
    ensures exists files, end ::
              RunTrace(l, files, Fresh(l.binding), false, end) && end.taskStatus == map[a := Completed]
  {
    hide PassResult, LayerBlocked, Accepts, DigestFunctions, Selected, LastDefers, PassesFollow, OrdinaryWork;
    var start := Fresh(l.binding);
    FreshOfOne(l, a, evidence);
    AloneIsSelected(l, a, evidence, start);
    OrdinaryPassCompletes(l, a, evidence);
    var done := PassResult(l, 1, start, [a]).file;
    FirstFile(l, start);
    PassesGoOn(l, [start], done, [a]);
    AloneIsSelected(l, a, evidence, done);
    NothingPending(l, done);
    assert RunTrace(l, [start] + [done], start, false, done);
  }

  lemma FreshOfOne(l: Loop, a: string, evidence: string)
    requires OrdinaryWork(l, a, evidence)
    ensures Fresh(l.binding).taskStatus == map[a := Planned]
  {
  }
}
