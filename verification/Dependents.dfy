/** bench/fleet_priority.py, `downstream`: how many jobs wait, directly or not, for each job. */
module Dependents {
  import opened Sorting
  import opened Walks

  datatype Job = Job(terminal: bool, dependsOn: set<string>)

  /** From a job to the live jobs that depend on it: declared in payloads, or rows of the dependencies table. */
  function Children(jobs: map<string, Job>, rows: set<(string, string)>): (g: Graph<string>)
    ensures forall n :: Successors(g, n) <= jobs.Keys
    ensures forall a, b :: a in Successors(g, b) <==>
              a in jobs && !jobs[a].terminal && (b in jobs[a].dependsOn || (a, b) in rows)
  {
    var parents := (set a, b | a in jobs && b in jobs[a].dependsOn :: b) + (set r | r in rows :: r.1);
    map b | b in parents :: set a | a in jobs && !jobs[a].terminal && (b in jobs[a].dependsOn || (a, b) in rows)
  }

  /** The worklist has seen `root` and everything outside `todo` that what it has seen leads to. */
  ghost predicate Explored(g: Graph<string>, root: string, seen: set<string>, todo: seq<string>) {
    && root in seen
    && (forall n :: n in seen || n in todo ==> Reachable(g, root, n))
    && (forall n, t :: n in seen && t in Successors(g, n) ==> t in seen || t in todo)
  }

  lemma {:induction false} ExploreOne(g: Graph<string>, root: string, seen: set<string>, todo: seq<string>, j: string,
                                      more: seq<string>)
    requires Explored(g, root, seen, todo + [j]) && forall x :: x in more <==> x in Successors(g, j)
    ensures Explored(g, root, seen + {j}, todo + more)
  {
    assert j in todo + [j];
    var steps: nat :| Reaches(g, root, j, steps);
    forall t | t in more ensures Reachable(g, root, t) {
      OneMoreStep(g, root, j, t, steps);
    }
    forall n, t | n in seen + {j} && t in Successors(g, n) ensures t in seen + {j} || t in todo + more {
      if n in seen {
        assert t in seen || t in todo + [j];
      }
    }
    forall n | n in todo ensures n in todo + [j] {
    }
  }

  lemma {:induction false} SkipSeen(g: Graph<string>, root: string, seen: set<string>, todo: seq<string>, j: string)
    requires Explored(g, root, seen, todo + [j]) && j in seen
    ensures Explored(g, root, seen, todo)
  {
    forall n | n in todo ensures n in todo + [j] {
    }
    forall n, t | n in seen && t in Successors(g, n) ensures t in seen || t in todo {
      assert t in seen || t in todo + [j];
    }
  }

  /** The jobs reachable from `root`, itself included: each once, cycles or not. */
  method Closure(g: Graph<string>, ids: set<string>, root: string) returns (seen: set<string>)
    requires root in ids && forall n :: Successors(g, n) <= ids
    ensures forall n :: n in seen <==> Reachable(g, root, n)
  {
    hide Explored, Reachable, Successors;
    seen := {root};
    var todo := SetToSeq(Successors(g, root));
    StartExploring(g, root, todo);
    while todo != []
      invariant Explored(g, root, seen, todo)
      invariant seen <= ids && forall t :: t in todo ==> t in ids
      decreases |ids - seen|, |todo|
    {
      var k := |todo| - 1;
      var j := todo[k];
      assert todo == todo[..k] + [j] && j in todo;
      if j in seen {
        SkipSeen(g, root, seen, todo[..k], j);
        todo := todo[..k];
      } else {
        var more := SetToSeq(Successors(g, j));
        ExploreOne(g, root, seen, todo[..k], j, more);
        FewerUnseen(ids, seen, j);
        seen, todo := seen + {j}, todo[..k] + more;
      }
    }
    AllExplored(g, root, seen);
  }

  lemma {:induction false} StartExploring(g: Graph<string>, root: string, todo: seq<string>)
    requires forall t :: t in todo <==> t in Successors(g, root)
    ensures Explored(g, root, {root}, todo)
  {
    NoSteps(g, root, root);
    forall t | t in todo ensures Reachable(g, root, t) {
      OneMoreStep(g, root, root, t, 0);
    }
  }

  lemma {:induction false} FewerUnseen(ids: set<string>, seen: set<string>, j: string)
    requires j in ids && j !in seen
    ensures |ids - (seen + {j})| < |ids - seen|
  {
    SubsetSize(ids - (seen + {j}), ids - seen - {j});
  }

  lemma {:induction false} AllExplored(g: Graph<string>, root: string, seen: set<string>)
    requires Explored(g, root, seen, [])
    ensures forall n :: n in seen <==> Reachable(g, root, n)
  {
    forall n | Reachable(g, root, n) ensures n in seen {
      var steps: nat :| Reaches(g, root, n, steps);
      ClosedHoldsReachable(g, seen, root, n, steps);
    }
  }

  /** The distinct jobs other than `root` that wait for it, directly or through others. */
  ghost predicate IsWaiting(g: Graph<string>, root: string, waiting: set<string>) {
    forall n :: n in waiting <==> n != root && Reachable(g, root, n)
  }

  method Downstream(jobs: map<string, Job>, rows: set<(string, string)>) returns (counts: map<string, nat>)
    ensures counts.Keys == set id | id in jobs :: "exp-" + id
    ensures forall id, waiting: set<string> :: id in jobs && IsWaiting(Children(jobs, rows), id, waiting) ==>
              counts["exp-" + id] == |waiting|
  {
    var g := Children(jobs, rows);
    counts := map[];
    var todo := jobs.Keys;
    while todo != {}
      invariant todo <= jobs.Keys
      invariant counts.Keys == set id | id in jobs.Keys - todo :: "exp-" + id
      invariant forall id, waiting: set<string> :: id in jobs.Keys - todo && IsWaiting(g, id, waiting) ==>
                  counts["exp-" + id] == |waiting|
      decreases |todo|
    {
      var root :| root in todo;
      var seen := Closure(g, jobs.Keys, root);
      NoSteps(g, root, root);
      forall waiting: set<string> | IsWaiting(g, root, waiting) ensures |waiting| == |seen| - 1 {
        assert waiting == seen - {root};
      }
      forall id | id != root ensures "exp-" + id != "exp-" + root {
        assert ("exp-" + id)[4..] == id && ("exp-" + root)[4..] == root;
      }
      counts := counts["exp-" + root := |seen| - 1];
      todo := todo - {root};
    }
  }
}
