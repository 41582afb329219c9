/**
 The bounded model checker: a worklist of cloned models, one pushed per accepted
 candidate. It visits every canonical run up to its depth exactly once.
*/
module AuthorityChecker {
  import opened Results
  import opened Texts
  import opened AuthorityModel
  import opened AuthorityCanonical
  import opened Sequences
  import opened Worklists

  datatype Choice = Choice(jobId: string, op: Operation)

  type Path = seq<Choice>

  function InitialJobs(ids: seq<string>): map<string, JobState> {
    map id | id in ids :: NewJob(id)
  }

  function Choose(jobs: map<string, JobState>, c: Choice): Option<map<string, JobState>> {
    if c.jobId !in jobs then None else
    match CandidateStep(jobs[c.jobId], c.op)
    case Err(_) => None
    case Ok(job) => Some(jobs[c.jobId := job])
  }

  /** The jobs after a run of accepted candidates. */
  function Follow(ids: seq<string>, path: Path): Option<map<string, JobState>> {
    if path == [] then Some(InitialJobs(ids)) else
    match Follow(ids, path[..|path| - 1])
    case None => None
    case Some(jobs) => Choose(jobs, path[|path| - 1])
  }

  ghost predicate CanonicalRun(ids: seq<string>, path: Path) {
    Follow(ids, path).Some?
  }

  ghost predicate CleanJobs(jobs: map<string, JobState>) {
    forall id | id in jobs :: Clean(jobs[id])
  }

  lemma FollowOne(ids: seq<string>, path: Path, c: Choice)
    ensures Follow(ids, path + [c]) ==
            if CanonicalRun(ids, path) then Choose(Follow(ids, path).value, c) else None
  {
    assert (path + [c])[..|path|] == path;
  }

  /** Canonical runs keep every job canonical: no check ever fails, no user decision is awaited. */
  lemma {:induction false} CanonicalRunsAreClean(ids: seq<string>, path: Path)
    requires CanonicalRun(ids, path)
    ensures var jobs := Follow(ids, path).value;
            jobs.Keys == (set id | id in ids) && CleanJobs(jobs)
            && forall id | id in jobs :: Canonical(jobs[id]) && jobs[id].jobId == id
  {
    if path == [] {
      forall id ensures Clean(NewJob(id)) {
      }
    } else {
      CanonicalRunsAreClean(ids, path[..|path| - 1]);
      var c := path[|path| - 1];
      CandidateKeepsCanonical(Follow(ids, path[..|path| - 1]).value[c.jobId], c.op);
    }
  }

  /** One job with every operation. */
  function Row(id: string): seq<Choice> {
    seq(21, k requires 0 <= k < 21 => Choice(id, OperationAt(k)))
  }

  /** All pairs of a job and an operation, jobs first. */
  function Product(ids: seq<string>): seq<Choice> {
    if ids == [] then [] else Row(ids[0]) + Product(ids[1..])
  }

  lemma RowIsComplete(id: string)
    ensures Distinct(Row(id))
    ensures forall c :: c in Row(id) <==> c.jobId == id && !c.op.UnknownOperation?
  {
    assert forall k | 0 <= k < 21 :: Rank(Row(id)[k].op) == k;
    forall c: Choice | c.jobId == id && !c.op.UnknownOperation? ensures c in Row(id) {
      assert Row(id)[Rank(c.op)] == c;
    }
  }

  lemma {:induction false} ProductIsComplete(ids: seq<string>)
    ensures forall c :: c in Product(ids) <==> c.jobId in ids && !c.op.UnknownOperation?
    ensures Distinct(ids) ==> Distinct(Product(ids))
  {
    hide Row;
    if ids != [] {
      ProductIsComplete(ids[1..]);
      RowIsComplete(ids[0]);
      assert forall k :: 0 < k < |ids| ==> ids[k] in ids[1..];
      var row, rest := Row(ids[0]), Product(ids[1..]);
      assert forall k :: 0 <= k < |row| ==> row[k] in row;
      assert forall k :: 0 <= k < |rest| ==> rest[k] in rest;
    }
  }

  /** All paths over these jobs up to a length; the finite space the worklist consumes. */
  ghost function Paths(ids: seq<string>, depth: nat): set<Path> {
    if depth == 0 then {[]} else
    Paths(ids, depth - 1) + set p, c | p in Paths(ids, depth - 1) && c in Product(ids) :: p + [c]
  }

  /** A step of a canonical run is one of the offered pairs. */
  lemma ChosenIsOffered(ids: seq<string>, p: Path, c: Choice)
    requires CanonicalRun(ids, p + [c])
    ensures c in Product(ids) && CanonicalRun(ids, p)
  {
    FollowOne(ids, p, c);
    CanonicalRunsAreClean(ids, p);
    ProductIsComplete(ids);
  }

  lemma {:induction false} RunsAreListed(ids: seq<string>, path: Path, depth: nat)
    requires CanonicalRun(ids, path) && |path| <= depth
    ensures path in Paths(ids, depth)
  {
    hide CandidateStep;
    if path != [] {
      var before, c := path[..|path| - 1], path[|path| - 1];
      RunsAreListed(ids, before, depth - 1);
      assert path == before + [c];
      ChosenIsOffered(ids, before, c);
    } else if depth > 0 {
      RunsAreListed(ids, path, depth - 1);
    }
  }

  /** The identifiers a model carries all come from earlier expansions. */
  ghost predicate IssuedUpTo(eventIds: set<string>, explored: nat) {
    forall e | e in eventIds :: exists n: nat, id, op | n <= explored :: e == ActionId(n, id, op)
  }

  /** A new expansion's identifiers are new. */
  lemma FreshActionId(eventIds: set<string>, explored: nat, jobId: string, op: Operation)
    requires IssuedUpTo(eventIds, explored)
    ensures ActionId(explored + 1, jobId, op) !in eventIds
  {
    hide OperationName, Decimal;
    var e := ActionId(explored + 1, jobId, op);
    if e in eventIds {
      var n: nat, id, o :| n <= explored && e == ActionId(n, id, o);
      var x, y := jobId + "-" + OperationName(op), id + "-" + OperationName(o);
      assert e == "BMC-" + (Decimal(explored + 1) + "-" + x);
      assert e == "BMC-" + (Decimal(n) + "-" + y);
      assert e[4..] == Decimal(explored + 1) + "-" + x;
      assert e[4..] == Decimal(n) + "-" + y;
      PrefixBeforeDash(Decimal(explored + 1), Decimal(n), x, y);
      DecimalInjective(explored + 1, n);
    }
  }

  // The worklist

  ghost function Runs(ids: seq<string>): Path -> bool {
    p => CanonicalRun(ids, p)
  }

  lemma RunsArePrefixClosed(ids: seq<string>)
    ensures PrefixClosed(Runs(ids))
  {
    hide Choose;
    forall p: Path, c | Runs(ids)(p + [c]) ensures Runs(ids)(p) {
      FollowOne(ids, p, c);
    }
  }

  ghost predicate CleanRun(ids: seq<string>, p: Path) {
    CanonicalRun(ids, p) && CleanJobs(Follow(ids, p).value)
  }

  lemma RunKeepsNames(ids: seq<string>, p: Path, id: string)
    requires CanonicalRun(ids, p)
    ensures var jobs := Follow(ids, p).value;
            (id in jobs <==> id in ids) && (id in jobs ==> jobs[id].jobId == id)
  {
    hide Follow, CleanJobs, Canonical;
    CanonicalRunsAreClean(ids, p);
  }

  lemma IssuedOneMore(eventIds: set<string>, explored: nat, jobId: string, op: Operation)
    requires IssuedUpTo(eventIds, explored)
    ensures IssuedUpTo(eventIds + {ActionId(explored + 1, jobId, op)}, explored + 1)
  {
    hide ActionId;
  }

  /** A model at the end of a run accepts a candidate exactly when the run goes on that way. */
  lemma OfferExtendsRun(ids: seq<string>, p: Path, m: Model, c: Choice, explored: nat)
    requires Follow(ids, p) == Some(m.jobs) && IssuedUpTo(m.eventIds, explored) && c.jobId in ids
    ensures c.jobId in m.jobs
    ensures var r := Applied(m, Candidate(m.jobs[c.jobId], c.op, ActionId(explored + 1, c.jobId, c.op), |p| + 1));
            && (r.Ok? <==> Runs(ids)(p + [c]))
            && (r.Ok? ==> Follow(ids, p + [c]) == Some(r.value.jobs) && IssuedUpTo(r.value.eventIds, explored + 1))
  {
    hide ActionId, CandidateStep, JobApply, Follow, IssuedUpTo;
    RunKeepsNames(ids, p, c.jobId);
    FollowOne(ids, p, c);
    FreshActionId(m.eventIds, explored, c.jobId, c.op);
    IssuedOneMore(m.eventIds, explored, c.jobId, c.op);
    CandidateIsItsStep(m.jobs[c.jobId], c.op, explored + 1, |p| + 1);
  }

  /** The visited runs are the runs up to the depth. */
  lemma VisitedAll(ids: seq<string>, maxDepth: nat, visited: set<Path>)
    requires Worklist(Runs(ids), maxDepth, visited, []) && AllExpanded(Runs(ids), maxDepth, visited, [])
    ensures forall p :: p in visited <==> CanonicalRun(ids, p) && |p| <= maxDepth
  {
    hide CanonicalRun;
    RunsArePrefixClosed(ids);
    forall p | CanonicalRun(ids, p) && |p| <= maxDepth ensures p in visited {
      NothingMissed(Runs(ids), maxDepth, visited, p);
    }
    forall p | p in visited ensures CanonicalRun(ids, p) {
      assert Runs(ids)(p);
    }
  }

  datatype Tally = Tally(states: nat, acceptedEdges: nat)

  datatype CheckError = InvalidLimit | InvalidJobs | InvariantViolated

  /** The stack of models mirrors the trail of runs that led to them. */
  ghost predicate Mirrors(ids: seq<string>, frontier: seq<(Model, nat)>, trail: seq<Path>, explored: nat) {
    && |frontier| == |trail|
    && forall k :: 0 <= k < |frontier| ==>
         && frontier[k].1 == |trail[k]|
         && Follow(ids, trail[k]) == Some(frontier[k].0.jobs)
         && IssuedUpTo(frontier[k].0.eventIds, explored)
  }

  lemma Inspected(ids: seq<string>, p: Path, jobs: map<string, JobState>, violations: seq<(string, Check)>)
    requires Follow(ids, p) == Some(jobs)
    requires forall id, check :: (id, check) in violations <==> id in jobs && Violates(jobs[id], check)
    ensures CleanRun(ids, p) <==> violations == []
    ensures violations != [] ==> CanonicalRun(ids, p)
  {
    hide Follow, Violates;
    if violations != [] {
      assert violations[0] in violations;
      assert !Clean(jobs[violations[0].0]);
    } else {
      forall id, check | id in jobs ensures !Violates(jobs[id], check) {
        assert (id, check) !in violations;
      }
    }
  }

  /**
   The search proper, for any depth. It succeeds only after visiting every canonical
   run of that length or less, each once and with every check passed; it fails only
   on a run that violates a check.
  */
  method Explore(initial: Model, ids: seq<string>, maxDepth: nat)
    returns (r: Result<Tally, CheckError>, ghost visited: set<Path>)
    requires Distinct(ids)
    requires initial == Model(InitialJobs(ids), {})
    ensures r.Ok? ==>
              && (forall p :: p in visited <==> CanonicalRun(ids, p) && |p| <= maxDepth)
              && (forall p | p in visited :: CleanRun(ids, p))
              && r.value.states == |visited| == r.value.acceptedEdges + 1
    ensures r.Err? ==> exists p :: CanonicalRun(ids, p) && |p| <= maxDepth && !CleanRun(ids, p)
  {
    hide CanonicalRun, CleanRun, IssuedUpTo, Runs, Follow, Worklist, Expanded, Violates, Paths, Product, Mirrors;
    hide AllExpanded, AllExpandedBut, InitialJobs, Distinct;
    SoleRunMirrored(ids, initial);
    var frontier := [(initial, 0)];
    var explored, accepted := 0, 0;
    visited := {};
    ghost var trail: seq<Path> := [[]];
    var choices := Product(ids);
    FirstRun(ids, maxDepth);
    while frontier != []
      invariant Worklist(Runs(ids), maxDepth, visited, trail) && AllExpanded(Runs(ids), maxDepth, visited, trail)
      invariant |frontier| == |trail| && Mirrors(ids, frontier, trail, explored)
      invariant forall p | p in visited :: CleanRun(ids, p)
      invariant explored == |visited| && accepted + 1 == |visited| + |trail|
      invariant visited <= Paths(ids, maxDepth)
      decreases Paths(ids, maxDepth) - visited
    {
      var (view, depth) := frontier[|frontier| - 1];
      ghost var p := trail[|trail| - 1];
      PendingRun(ids, maxDepth, visited, trail);
      TopMirrored(ids, frontier, trail, explored);
      frontier := frontier[..|frontier| - 1];
      explored := explored + 1;
      var model := new InteractionModel.Clone(view);
      var violations := model.Invariants();
      Inspected(ids, p, view.jobs, violations);
      if violations != [] {
        return Err(InvariantViolated), visited;
      }
      Pop(Runs(ids), maxDepth, visited, trail);
      visited, trail := visited + {p}, trail[..|trail| - 1];
      if depth < maxDepth {
        accepted, frontier, trail :=
          Expand(ids, maxDepth, choices, view, depth, explored, frontier, accepted, visited, trail, p);
      }
    }
    VisitedAll(ids, maxDepth, visited);
    r := Ok(Tally(explored, accepted));
  }

  lemma FirstRun(ids: seq<string>, maxDepth: nat)
    ensures Worklist(Runs(ids), maxDepth, {}, [[]]) && AllExpanded(Runs(ids), maxDepth, {}, [[]])
    ensures Follow(ids, []) == Some(InitialJobs(ids)) && IssuedUpTo({}, 0)
  {
  }

  lemma PendingRun(ids: seq<string>, maxDepth: nat, visited: set<Path>, trail: seq<Path>)
    requires Worklist(Runs(ids), maxDepth, visited, trail) && trail != []
    ensures var p := trail[|trail| - 1];
            CanonicalRun(ids, p) && |p| <= maxDepth && p in Paths(ids, maxDepth)
  {
    hide Follow;
    var p := trail[|trail| - 1];
    assert p in trail && Runs(ids)(p);
    RunsAreListed(ids, p, maxDepth);
  }

  lemma SoleRunMirrored(ids: seq<string>, initial: Model)
    requires initial == Model(InitialJobs(ids), {})
    ensures Mirrors(ids, [(initial, 0)], [[]], 0)
  {
  }

  /** The top of the stack, and the stack below it, when the next expansion begins. */
  lemma TopMirrored(ids: seq<string>, frontier: seq<(Model, nat)>, trail: seq<Path>, explored: nat)
    requires Mirrors(ids, frontier, trail, explored) && frontier != []
    ensures trail != []
    ensures var (model, depth), p := frontier[|frontier| - 1], trail[|trail| - 1];
            depth == |p| && Follow(ids, p) == Some(model.jobs) && IssuedUpTo(model.eventIds, explored)
    ensures Mirrors(ids, frontier[..|frontier| - 1], trail[..|trail| - 1], explored + 1)
  {
    hide Follow, ActionId;
  }

  lemma SameHeight(ids: seq<string>, frontier: seq<(Model, nat)>, trail: seq<Path>, explored: nat)
    requires Mirrors(ids, frontier, trail, explored)
    ensures |frontier| == |trail|
  {
    hide Follow, IssuedUpTo;
  }

  lemma PushMirrored(ids: seq<string>, frontier: seq<(Model, nat)>, trail: seq<Path>, explored: nat,
                     model: Model, p: Path)
    requires Mirrors(ids, frontier, trail, explored)
    requires Follow(ids, p) == Some(model.jobs) && IssuedUpTo(model.eventIds, explored)
    ensures Mirrors(ids, frontier + [(model, |p|)], trail + [p], explored)
  {
    hide Follow, IssuedUpTo;
  }

  /** The runs pushed so far: all from the first choices, each extending p. */
  ghost predicate PushedUpTo(ids: seq<string>, trail0: seq<Path>, trail: seq<Path>, p: Path, choices: seq<Choice>, n: nat)
    requires n <= |choices|
  {
    && (forall k | 0 <= k < n :: Runs(ids)(p + [choices[k]]) ==> p + [choices[k]] in trail)
    && (forall q | q in trail :: q in trail0 || exists k | 0 <= k < n :: q == p + [choices[k]])
  }

  lemma NotPushedYet(ids: seq<string>, trail0: seq<Path>, trail: seq<Path>, p: Path, choices: seq<Choice>, n: nat)
    requires n < |choices| && Distinct(choices) && PushedUpTo(ids, trail0, trail, p, choices, n)
    requires p + [choices[n]] !in trail0
    ensures p + [choices[n]] !in trail
    ensures PushedUpTo(ids, trail0, trail + [p + [choices[n]]], p, choices, n + 1)
    ensures !Runs(ids)(p + [choices[n]]) ==> PushedUpTo(ids, trail0, trail, p, choices, n + 1)
  {
    hide Runs;
    forall k | 0 <= k < n ensures p + [choices[k]] != p + [choices[n]] {
      assert (p + [choices[k]])[|p|] != (p + [choices[n]])[|p|];
    }
  }

  lemma AllPushed(ids: seq<string>, visited: set<Path>, trail0: seq<Path>, trail: seq<Path>, p: Path)
    requires PushedUpTo(ids, trail0, trail, p, Product(ids), |Product(ids)|)
    ensures Expanded(Runs(ids), visited, trail, p)
  {
    hide Product, Follow;
    forall c | Runs(ids)(p + [c]) ensures p + [c] in trail {
      ChosenIsOffered(ids, p, c);
    }
  }

  /** Offers one candidate to a clone of the model. */
  method Offer(ghost ids: seq<string>, model: Model, c: Choice, explored: nat, depth: nat, ghost p: Path)
    returns (accepted: bool, result: Model)
    requires Follow(ids, p) == Some(model.jobs) && IssuedUpTo(model.eventIds, explored) && c.jobId in ids && depth == |p|
    ensures accepted <==> Runs(ids)(p + [c])
    ensures accepted ==> Follow(ids, p + [c]) == Some(result.jobs) && IssuedUpTo(result.eventIds, explored + 1)
  {
    hide Runs, Follow, IssuedUpTo, Applied, Candidate, ActionId;
    OfferExtendsRun(ids, p, model, c, explored);
    var candidate := new InteractionModel.Clone(model);
    var action := Candidate(candidate.jobs[c.jobId], c.op, ActionId(explored + 1, c.jobId, c.op), depth + 1);
    var outcome := candidate.Apply(action);
    accepted, result := outcome.Ok?, candidate.View();
  }

  /** Pushes a clone for every candidate the model accepts. */
  method Expand(ghost ids: seq<string>, ghost maxDepth: nat, choices: seq<Choice>, model: Model,
                depth: nat, explored: nat, frontier0: seq<(Model, nat)>, accepted0: nat,
                ghost visited: set<Path>, ghost trail0: seq<Path>, ghost p: Path)
    returns (accepted: nat, frontier: seq<(Model, nat)>, ghost trail: seq<Path>)
    requires explored > 0 && choices == Product(ids) && Distinct(ids)
    requires Worklist(Runs(ids), maxDepth, visited, trail0) && p in visited && |p| == depth < maxDepth
    requires AllExpandedBut(Runs(ids), maxDepth, visited, trail0, p)
    requires Mirrors(ids, frontier0, trail0, explored)
    requires Follow(ids, p) == Some(model.jobs) && IssuedUpTo(model.eventIds, explored - 1)
    requires forall c :: p + [c] !in visited && p + [c] !in trail0
    ensures Worklist(Runs(ids), maxDepth, visited, trail) && Mirrors(ids, frontier, trail, explored)
    ensures AllExpanded(Runs(ids), maxDepth, visited, trail)
    ensures accepted == accepted0 + |trail| - |trail0| && |frontier| == |trail|
  {
    hide Runs, Follow, IssuedUpTo, Worklist, Product, Mirrors, Expanded;
    ProductIsComplete(ids);
    accepted, frontier, trail := accepted0, frontier0, trail0;
    for n := 0 to |choices|
      invariant Worklist(Runs(ids), maxDepth, visited, trail) && Mirrors(ids, frontier, trail, explored)
      invariant accepted == accepted0 + |trail| - |trail0|
      invariant forall q :: Expanded(Runs(ids), visited, trail0, q) ==> Expanded(Runs(ids), visited, trail, q)
      invariant PushedUpTo(ids, trail0, trail, p, choices, n)
    {
      var ok, candidate := Offer(ids, model, choices[n], explored - 1, depth, p);
      NotPushedYet(ids, trail0, trail, p, choices, n);
      if ok {
        Push(Runs(ids), maxDepth, visited, trail, p, choices[n]);
        PushMirrored(ids, frontier, trail, explored, candidate, p + [choices[n]]);
        accepted := accepted + 1;
        frontier := frontier + [(candidate, depth + 1)];
        trail := trail + [p + [choices[n]]];
      }
    }
    AllPushed(ids, visited, trail0, trail, p);
    SameHeight(ids, frontier, trail, explored);
  }

  datatype Report = Report(maxDepth: int, jobs: nat, states: nat, acceptedEdges: nat)

  ghost predicate Registrable(ids: seq<string>) {
    Distinct(ids) && forall id | id in ids :: "JOB-" <= id
  }

  lemma EveryRunIsClean(ids: seq<string>)
    ensures forall p :: CanonicalRun(ids, p) ==> CleanRun(ids, p)
  {
    hide Follow, CleanJobs;
    forall p | CanonicalRun(ids, p) ensures CleanRun(ids, p) {
      CanonicalRunsAreClean(ids, p);
    }
  }

  /**
   The checker as called. It reports on every admissible call, never finds a violation,
   and counts one state per canonical run and one edge per run but the empty one.
  */
  method BoundedModelCheck(maxDepth: int, jobIds: seq<string>)
    returns (r: Result<Report, CheckError>, ghost visited: set<Path>)
    ensures r.Ok? <==> 1 <= maxDepth <= 8 && jobIds != [] && Registrable(jobIds)
    ensures r.Ok? ==>
              && (forall p :: p in visited <==> CanonicalRun(jobIds, p) && |p| <= maxDepth)
              && (forall p | p in visited :: CleanRun(jobIds, p))
              && r.value == Report(maxDepth, |jobIds|, |visited|, |visited| - 1)
  {
    hide CanonicalRun, CleanRun;
    visited := {};
    if maxDepth < 1 || maxDepth > 8 || jobIds == [] {
      return Err(InvalidLimit), visited;
    }
    var initial := new InteractionModel();
    for n := 0 to |jobIds|
      invariant initial.View() == Model(InitialJobs(jobIds[..n]), {})
      invariant Registrable(jobIds[..n])
    {
      var added := initial.AddJob(jobIds[n]);
      assert jobIds[..n + 1] == jobIds[..n] + [jobIds[n]];
      if added.Err? {
        assert jobIds[n] in jobIds;
        return Err(InvalidJobs), visited;
      }
    }
    assert jobIds[..|jobIds|] == jobIds;
    EveryRunIsClean(jobIds);
    var tally;
    tally, visited := Explore(initial.View(), jobIds, maxDepth);
    r := match tally
      case Ok(t) => Ok(Report(maxDepth, |jobIds|, t.states, t.acceptedEdges))
      case Err(e) => Err(e);
  }
}
