/** bench/feedback.py, `Graph.reach`: how far every file is from a check, over imports. */
module ImportGraph {
  import opened Sorting
  import opened Walks

  /** What a file imports, and what it names by path. */
  datatype Direct = Direct(imports: set<string>, names: set<string>)

  type Sources = map<string, Direct>

  /** `direct` never lists the file itself, and lists only files of the repository. */
  ghost predicate Wellformed(files: Sources) {
    forall f :: f in files ==>
        f !in files[f].imports && f !in files[f].names && files[f].imports + files[f].names <= files.Keys
  }

  /** Files that the check names by path and does not import. */
  function Leaves(files: Sources, source: string): set<string>
    requires source in files
  {
    files[source].names - files[source].imports
  }

  /** The graph that `reach` measures: the check leads to what it imports and names; leaves lead nowhere. */
  function Followed(files: Sources, source: string): Graph<string>
    requires source in files
  {
    map f | f in files ::
      if f == source then files[f].imports + files[f].names
      else if f in Leaves(files, source) then {} else files[f].imports
  }

  /** Exactly the files reachable from the check, other than the check itself, with their distances. */
  ghost predicate IsReach(files: Sources, source: string, distance: map<string, nat>)
    requires source in files
  {
    var g := Followed(files, source);
    && (forall f :: f in distance <==> f != source && Reachable(g, source, f))
    && (forall f :: f in distance ==> IsDistance(g, source, f, distance[f]))
  }

  /** After the round of this depth: all distances up to it, and the files at it that are followed. */
  ghost predicate Searched(files: Sources, source: string, distance: map<string, nat>, frontier: seq<string>,
                           depth: nat)
    requires source in files
  {
    var g := Followed(files, source);
    && depth >= 1 && source !in distance && distance.Keys <= files.Keys
    && (forall f :: f in distance ==> 1 <= distance[f] <= depth && IsDistance(g, source, f, distance[f]))
    && (forall f, n: nat :: n <= depth && Reaches(g, source, f, n) ==> f == source || f in distance)
    && (forall f :: f in frontier ==> f in distance && distance[f] == depth)
    && (forall f :: f in distance && distance[f] == depth && Successors(g, f) != {} ==> f in frontier)
  }

  lemma {:induction false} NearerIsKnown(files: Sources, source: string, distance: map<string, nat>,
                                         frontier: seq<string>, depth: nat, f: string)
    requires source in files && Wellformed(files) && Searched(files, source, distance, frontier, depth)
    requires f != source && f !in distance && Reaches(Followed(files, source), source, f, depth + 1)
    ensures exists path :: path in frontier && f in files[path].imports
    ensures f in files && IsDistance(Followed(files, source), source, f, depth + 1)
  {
    var g := Followed(files, source);
    var b := LastStep(g, source, f, depth + 1);
    if b == source {
      NoSteps(g, source, source);
      OneMoreStep(g, source, source, f, 0);
    }
    assert b in distance;
    if distance[b] < depth {
      OneMoreStep(g, source, b, f, distance[b]);
    }
    assert b in frontier;
    forall steps: nat | Reaches(g, source, f, steps) ensures depth + 1 <= steps {
    }
  }

  lemma {:induction false} FollowedStep(files: Sources, source: string, distance: map<string, nat>,
                                        frontier: seq<string>, depth: nat,
                                        path: string, target: string)
    requires source in files && Wellformed(files) && Searched(files, source, distance, frontier, depth)
    requires path in frontier && path !in Leaves(files, source) && target in files[path].imports
    ensures Reaches(Followed(files, source), source, target, depth + 1) && target in files
  {
    OneMoreStep(Followed(files, source), source, path, target, depth);
  }

  class ImportIndex {
    const files: Sources
    /** The `_reach` memo. */
    var memo: map<string, map<string, nat>>

    ghost predicate Valid()
      reads this
    {
      Wellformed(files) && forall s :: s in memo ==> s in files && IsReach(files, s, memo[s])
    }

    constructor (files: Sources)
      requires Wellformed(files)
      ensures Valid() && this.files == files && memo == map[]
    {
      this.files := files;
      memo := map[];
    }

    /** Breadth first over imports; the files named by path only one step from the check itself. */
    method Reach(source: string) returns (distance: map<string, nat>)
      requires Valid() && source in files
      modifies this
      ensures Valid() && IsReach(files, source, distance)
      ensures memo == old(memo)[source := distance]
    {
      if source in memo {
        return memo[source];
      }
      distance := Search(files, source);
      memo := memo[source := distance];
    }
  }

  /** The search itself, round by round. */
  method Search(files: Sources, source: string) returns (distance: map<string, nat>)
    requires Wellformed(files) && source in files
    ensures IsReach(files, source, distance)
  {
    var direct := files[source];
    distance := map f | f in direct.imports + direct.names :: 1;
    var frontier := SetToSeq(direct.imports);
    var depth := 1;
    FirstRound(files, source, distance, frontier);
    while frontier != []
      invariant Searched(files, source, distance, frontier, depth)
      invariant forall f :: f in frontier ==> f !in Leaves(files, source)
      decreases |files.Keys - distance.Keys|, |frontier|
    {
      ghost var known, round := distance, frontier;
      ghost var before := distance.Keys;
      depth := depth + 1;
      distance, frontier := NextRound(files, source, distance, frontier, depth);
      RoundIsSearched(files, source, known, round, distance, frontier, depth);
      if frontier != [] {
        assert frontier[0] in frontier;
        SmallerDifference(files.Keys, before, distance.Keys, frontier[0]);
      } else {
        SubsetSize(files.Keys - distance.Keys, files.Keys - before);
      }
    }
    NothingFurther(files, source, distance, depth);
  }

  lemma {:induction false} SmallerDifference(all: set<string>, small: set<string>, large: set<string>, x: string)
    requires small <= large <= all && x in large && x !in small
    ensures |all - large| < |all - small|
  {
    SubsetSize(all - large, all - small - {x});
  }

  lemma {:induction false} FirstRound(files: Sources, source: string, distance: map<string, nat>, frontier: seq<string>)
    requires source in files && Wellformed(files)
    requires distance.Keys == files[source].imports + files[source].names
    requires forall f :: f in distance ==> distance[f] == 1
    requires forall f :: f in frontier <==> f in files[source].imports
    ensures Searched(files, source, distance, frontier, 1)
    ensures forall f :: f in frontier ==> f !in Leaves(files, source)
  {
    var g := Followed(files, source);
    NoSteps(g, source, source);
    forall f | f in distance ensures IsDistance(g, source, f, 1) {
      OneMoreStep(g, source, source, f, 0);
      NoSteps(g, source, f);
    }
    forall f, n: nat | n <= 1 && Reaches(g, source, f, n) ensures f == source || f in distance {
      NoSteps(g, source, f);
      if n == 1 {
        var b := LastStep(g, source, f, 1);
        NoSteps(g, source, b);
      }
    }
  }

  /** The distances after meeting these targets in the round of this depth. */
  ghost predicate Met(source: string, before: map<string, nat>, met: set<string>, distance: map<string, nat>,
                      following: seq<string>, depth: nat) {
    && (forall f :: f in distance <==> f in before || (f in met && f != source))
    && (forall f :: f in before ==> distance[f] == before[f])
    && (forall f :: f in distance && f !in before ==> distance[f] == depth)
    && (forall f :: f in following <==> f in distance && f !in before)
  }

  /** What the files of this list import. */
  function ImportsOf(files: Sources, list: seq<string>): (targets: set<string>)
    requires forall f :: f in list ==> f in files
    ensures forall t :: t in targets <==> exists i :: 0 <= i < |list| && t in files[list[i]].imports
  {
    if list == [] then {}
    else
      var n := |list| - 1;
      assert list[n] in list && forall f :: f in list[..n] ==> f in list;
      ImportsOf(files, list[..n]) + files[list[n]].imports
  }

  /** One round: the imports of the frontier that have no distance yet get the next one. */
  method NextRound(files: Sources, source: string, before: map<string, nat>, frontier: seq<string>, depth: nat)
    returns (distance: map<string, nat>, following: seq<string>)
    requires forall f :: f in frontier ==> f in files
    ensures Met(source, before, ImportsOf(files, frontier), distance, following, depth)
  {
    distance, following := before, [];
    ghost var met: set<string> := {};
    for i := 0 to |frontier|
      invariant met == ImportsOf(files, frontier[..i]) && Met(source, before, met, distance, following, depth)
    {
      assert frontier[..i + 1][..i] == frontier[..i];
      var targets := SetToSeq(files[frontier[i]].imports);
      distance, following, met := MeetAll(source, before, met, distance, following, depth, targets);
      assert ElementsOf(targets) == files[frontier[i]].imports;
    }
    assert frontier[..|frontier|] == frontier;
  }

  method MeetAll(source: string, ghost before: map<string, nat>, ghost met0: set<string>, distance0: map<string, nat>,
                 following0: seq<string>, depth: nat, targets: seq<string>)
    returns (distance: map<string, nat>, following: seq<string>, ghost met: set<string>)
    requires Met(source, before, met0, distance0, following0, depth)
    ensures met == met0 + ElementsOf(targets) && Met(source, before, met, distance, following, depth)
  {
    distance, following, met := distance0, following0, met0;
    for j := 0 to |targets|
      invariant met == met0 + ElementsOf(targets[..j]) && Met(source, before, met, distance, following, depth)
    {
      var target := targets[j];
      assert targets[..j + 1] == targets[..j] + [target];
      if target !in distance && target != source {
        distance := distance[target := depth];
        following := following + [target];
      }
      met := met + {target};
    }
    assert targets[..|targets|] == targets;
  }

  lemma {:induction false} NewInRound(files: Sources, source: string, before: map<string, nat>, frontier: seq<string>,
                                      depth: nat, f: string)
    requires depth >= 2 && source in files && Wellformed(files) && Searched(files, source, before, frontier, depth - 1)
    requires forall f :: f in frontier ==> f !in Leaves(files, source)
    requires f in ImportsOf(files, frontier) && f != source && f !in before
    ensures IsDistance(Followed(files, source), source, f, depth) && f in files && f !in Leaves(files, source)
  {
    var i :| 0 <= i < |frontier| && f in files[frontier[i]].imports;
    FollowedStep(files, source, before, frontier, depth - 1, frontier[i], f);
    NearerIsKnown(files, source, before, frontier, depth - 1, f);
    LeavesAreNear(files, source, before, frontier, depth - 1);
  }

  lemma {:induction false} RoundIsSearched(files: Sources, source: string, before: map<string, nat>,
                                           frontier: seq<string>,
                                           distance: map<string, nat>, following: seq<string>, depth: nat)
    requires depth >= 2 && source in files && Wellformed(files) && Searched(files, source, before, frontier, depth - 1)
    requires forall f :: f in frontier ==> f !in Leaves(files, source)
    requires Met(source, before, ImportsOf(files, frontier), distance, following, depth)
    ensures Searched(files, source, distance, following, depth)
    ensures forall f :: f in following ==> f !in Leaves(files, source)
  {
    var g := Followed(files, source);
    forall f | f in distance && f !in before
      ensures IsDistance(g, source, f, depth) && f in files && f !in Leaves(files, source)
    {
      NewInRound(files, source, before, frontier, depth, f);
    }
    forall f, n: nat | n <= depth && Reaches(g, source, f, n) ensures f == source || f in distance {
      if n == depth && f != source && f !in before {
        NearerIsKnown(files, source, before, frontier, depth - 1, f);
      }
    }
  }

  lemma {:induction false} LeavesAreNear(files: Sources, source: string, distance: map<string, nat>,
                                         frontier: seq<string>, depth: nat)
    requires source in files && Wellformed(files) && Searched(files, source, distance, frontier, depth)
    ensures Leaves(files, source) <= distance.Keys
  {
    var g := Followed(files, source);
    NoSteps(g, source, source);
    forall f | f in Leaves(files, source) ensures f in distance {
      OneMoreStep(g, source, source, f, 0);
    }
  }

  /** An empty frontier means that nothing is left to reach. */
  lemma {:induction false} NothingFurther(files: Sources, source: string, distance: map<string, nat>, depth: nat)
    requires source in files && Wellformed(files) && Searched(files, source, distance, [], depth)
    ensures IsReach(files, source, distance)
  {
    var g := Followed(files, source);
    var all := distance.Keys + {source};
    forall n | n in all ensures Successors(g, n) <= all {
      forall t | t in Successors(g, n) ensures t in all {
        if n == source {
          NoSteps(g, source, source);
          OneMoreStep(g, source, source, t, 0);
        } else {
          assert distance[n] < depth;
          OneMoreStep(g, source, n, t, distance[n]);
        }
      }
    }
    forall f ensures f in distance <==> f != source && Reachable(g, source, f) {
      if f != source && Reachable(g, source, f) {
        var steps: nat :| Reaches(g, source, f, steps);
        ClosedHoldsReachable(g, all, source, f, steps);
      }
    }
  }

  // ---- named files that are also imported

  /** The graph of all imports. */
  function Imports(files: Sources): Graph<string> {
    map f | f in files :: files[f].imports
  }

  /** What the named files that imports lead to import, is found without following them. */
  ghost predicate NothingBlocked(files: Sources, source: string)
    requires source in files && Wellformed(files)
  {
    forall f, t :: f in Leaves(files, source) && Reachable(Imports(files), source, f) && t in files[f].imports ==>
      t == source || Reachable(Followed(files, source), source, t)
  }

  /**
   A file that the check names by path is not followed even where it is also imported: the result
   holds every file that imports lead to if and only if nothing is blocked.
   */
  lemma {:induction false} NamedFilesBlock(files: Sources, source: string, distance: map<string, nat>)
    requires source in files && Wellformed(files) && IsReach(files, source, distance)
    ensures NothingBlocked(files, source) <==>
              forall f :: f != source && Reachable(Imports(files), source, f) ==> f in distance
  {
    var g, h := Followed(files, source), Imports(files);
    NoSteps(h, source, source);
    if NothingBlocked(files, source) {
      forall f | f != source && Reachable(h, source, f) ensures f in distance {
        var steps: nat :| Reaches(h, source, f, steps);
        BlockedStep(files, source, distance, f, steps);
      }
    }
    if forall f :: f != source && Reachable(h, source, f) ==> f in distance {
      forall f, t | f in Leaves(files, source) && Reachable(h, source, f) && t in files[f].imports
        ensures t == source || Reachable(g, source, t)
      {
        var steps: nat :| Reaches(h, source, f, steps);
        OneMoreStep(h, source, f, t, steps);
        assert Reachable(h, source, t);
      }
    }
  }

  lemma {:induction false} BlockedStep(files: Sources, source: string, distance: map<string, nat>, f: string,
                                       steps: nat)
    requires source in files && Wellformed(files) && IsReach(files, source, distance)
    requires NothingBlocked(files, source)
    requires Reaches(Imports(files), source, f, steps)
    ensures f == source || f in distance
    decreases steps
  {
    var g, h := Followed(files, source), Imports(files);
    if steps == 0 {
      NoSteps(h, source, f);
    } else {
      var n := LastStep(h, source, f, steps);
      BlockedStep(files, source, distance, n, steps - 1);
      if n == source {
        NoSteps(g, source, source);
        OneMoreStep(g, source, source, f, 0);
        assert Reachable(g, source, f);
      } else if n in Leaves(files, source) {
        assert Reachable(h, source, n);
      } else {
        var k: nat :| Reaches(g, source, n, k);
        OneMoreStep(g, source, n, f, k);
        assert Reachable(g, source, f);
      }
    }
  }

  /** A check that imports `a` and names `n`, where `a` imports `n` and only `n` imports `b`. */
  function BlockedExample(): Sources {
    map["check" := Direct({"a"}, {"n"}), "a" := Direct({"n"}, {}), "n" := Direct({"b"}, {}), "b" := Direct({}, {})]
  }

  lemma {:induction false} ImportedFileIsMissed(distance: map<string, nat>)
    requires IsReach(BlockedExample(), "check", distance)
    ensures "b" !in distance && Reachable(Imports(BlockedExample()), "check", "b")
  {
    var files := BlockedExample();
    var g, h := Followed(files, "check"), Imports(files);
    NoSteps(h, "check", "check");
    OneMoreStep(h, "check", "check", "a", 0);
    OneMoreStep(h, "check", "a", "n", 1);
    OneMoreStep(h, "check", "n", "b", 2);
    forall steps: nat ensures !Reaches(g, "check", "b", steps) {
      if Reaches(g, "check", "b", steps) {
        ClosedHoldsReachable(g, {"check", "a", "n"}, "check", "b", steps);
      }
    }
  }
}
