/**
 Depth-bounded exploration of a tree of runs with a worklist: the bookkeeping that
 makes a stack of pending runs visit every run once. A run is a sequence of choices;
 `run` says which sequences are runs.
*/
module Worklists {

  import opened Sequences

  ghost predicate PrefixClosed<C(!new)>(run: seq<C> -> bool) {
    run([]) && forall p, c :: run(p + [c]) ==> run(p)
  }

  /** Visited runs, and runs still to be expanded. */
  ghost predicate Worklist<C(!new)>(run: seq<C> -> bool, depth: nat, visited: set<seq<C>>, trail: seq<seq<C>>) {
    && Distinct(trail)
    && (forall p | p in trail :: p !in visited && run(p) && |p| <= depth)
    && (forall p | p in visited :: run(p) && |p| <= depth)
    && (forall p | p in visited || p in trail :: p != [] ==> p[..|p| - 1] in visited)
    && ([] in visited || [] in trail)
  }

  /** Every child of the run is known. */
  ghost predicate Expanded<C(!new)>(run: seq<C> -> bool, visited: set<seq<C>>, trail: seq<seq<C>>, p: seq<C>) {
    forall c :: run(p + [c]) ==> p + [c] in visited || p + [c] in trail
  }

  ghost predicate AllExpanded<C(!new)>(run: seq<C> -> bool, depth: nat, visited: set<seq<C>>, trail: seq<seq<C>>) {
    forall p | p in visited && |p| < depth :: Expanded(run, visited, trail, p)
  }

  ghost predicate AllExpandedBut<C(!new)>(
    run: seq<C> -> bool, depth: nat, visited: set<seq<C>>, trail: seq<seq<C>>, p: seq<C>)
  {
    forall q | q in visited && |q| < depth && q != p :: Expanded(run, visited, trail, q)
  }

  /** When nothing is left to expand, every run up to the depth has been visited. */
  lemma {:induction false} NothingMissed<C(!new)>(run: seq<C> -> bool, depth: nat, visited: set<seq<C>>, path: seq<C>)
    requires PrefixClosed(run)
    requires Worklist(run, depth, visited, []) && AllExpanded(run, depth, visited, [])
    requires run(path) && |path| <= depth
    ensures path in visited
  {
    if path != [] {
      var before, c := path[..|path| - 1], path[|path| - 1];
      assert before + [c] == path;
      NothingMissed(run, depth, visited, before);
      assert Expanded(run, visited, [], before);
    }
  }

  lemma Pop<C(!new)>(run: seq<C> -> bool, depth: nat, visited: set<seq<C>>, trail: seq<seq<C>>)
    requires Worklist(run, depth, visited, trail) && AllExpanded(run, depth, visited, trail) && trail != []
    ensures var p, rest := trail[|trail| - 1], trail[..|trail| - 1];
            && p !in visited && p !in rest
            && Worklist(run, depth, visited + {p}, rest)
            && |visited + {p}| == |visited| + 1
            && AllExpandedBut(run, depth, visited + {p}, rest, p)
            && (|p| == depth ==> AllExpanded(run, depth, visited + {p}, rest))
            && (forall c :: p + [c] !in visited + {p} && p + [c] !in rest)
  {
    var p, rest := trail[|trail| - 1], trail[..|trail| - 1];
    assert trail == rest + [p];
    forall c ensures p + [c] !in visited + {p} && p + [c] !in rest {
      assert (p + [c])[..|p + [c]| - 1] == p;
    }
    forall q | q in visited && |q| < depth ensures Expanded(run, visited + {p}, rest, q) {
      assert Expanded(run, visited, trail, q);
    }
  }

  lemma Push<C(!new)>(run: seq<C> -> bool, depth: nat, visited: set<seq<C>>, trail: seq<seq<C>>, p: seq<C>, c: C)
    requires Worklist(run, depth, visited, trail) && p in visited && |p| < depth
    requires run(p + [c]) && p + [c] !in visited && p + [c] !in trail
    ensures Worklist(run, depth, visited, trail + [p + [c]])
    ensures forall q :: Expanded(run, visited, trail, q) ==> Expanded(run, visited, trail + [p + [c]], q)
  {
    assert (p + [c])[..|p + [c]| - 1] == p;
  }
}
