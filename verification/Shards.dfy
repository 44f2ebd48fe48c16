/** bench/cpu_unittest.py: which isolated test shard runs which test. */
module Shards {
  import opened Sorting
  import opened Texts
  import opened Balancing

  /** A saved timing: a number of seconds, or whatever else the history file held. */
  datatype Hint = Seconds(value: real) | Unusable

  const DAY := 86400.0

  predicate Usable(hints: map<string, Hint>, name: string) {
    name in hints && hints[name].Seconds? && 0.0 < hints[name].value <= DAY
  }

  function Known(ids: seq<string>, hints: map<string, Hint>): (known: seq<real>)
    ensures forall v :: v in known ==> v > 0.0
    ensures known != [] <==> exists name :: name in ids && Usable(hints, name)
  {
    if ids == [] then []
    else
      assert forall name :: name in ids <==> name == ids[0] || name in ids[1..];
      (if Usable(hints, ids[0]) then [hints[ids[0]].value] else []) + Known(ids[1..], hints)
  }

  predicate RealLeq(a: real, b: real) { a <= b }

  function Median(values: seq<real>): (m: real)
    requires values != []
    ensures (forall v :: v in values ==> v > 0.0) ==> m > 0.0
  {
    SortedKeepsElements(RealLeq, values);
    var s, h := Sorted(RealLeq, values), |values| / 2;
    SortedMembers(RealLeq, values);
    if |values| % 2 == 1 then s[h] else (s[h - 1] + s[h]) / 2.0
  }

  /** What a test is expected to cost: its usable hint, else the median of the usable ones. */
  function Weight(ids: seq<string>, hints: map<string, Hint>, name: string): (w: real)
    requires Known(ids, hints) != []
    ensures w > 0.0
  {
    if Usable(hints, name) then hints[name].value else Median(Known(ids, hints))
  }

  function Weights(ids: seq<string>, hints: map<string, Hint>): (weights: map<string, real>)
    requires Known(ids, hints) != []
    ensures forall name :: name in ids ==> name in weights && weights[name] > 0.0
  {
    map name | name in ids :: Weight(ids, hints, name)
  }

  // ---- what a test is expected to cost

  /** The usable timings of the tests, each test's as often as the test is given. */
  function Timings(ids: seq<string>, hints: map<string, Hint>): multiset<real> {
    if ids == [] then multiset{}
    else
      (if ids[0] in hints && hints[ids[0]].Seconds? && hints[ids[0]].value > 0.0 && hints[ids[0]].value <= 86400.0
       then multiset{hints[ids[0]].value} else multiset{})
      + Timings(ids[1..], hints)
  }

  lemma {:induction false} KnownTimings(ids: seq<string>, hints: map<string, Hint>)
    ensures multiset(Known(ids, hints)) == Timings(ids, hints)
  {
    if ids != [] {
      KnownTimings(ids[1..], hints);
    }
  }

  /** The middle of ascending values: the middle one, or the midpoint of the two middle ones. */
  ghost predicate MiddleOf(s: seq<real>, m: real) {
    && s != [] && (forall i, j :: 0 <= i < j < |s| ==> s[i] <= s[j])
    && (|s| % 2 == 1 ==> m == s[(|s| - 1) / 2])
    && (|s| % 2 == 0 ==> m + m == s[|s| / 2 - 1] + s[|s| / 2])
  }

  ghost predicate IsMiddle(values: multiset<real>, m: real) {
    exists s: seq<real> :: multiset(s) == values && MiddleOf(s, m)
  }

  lemma {:induction false} MedianIsMiddle(values: seq<real>)
    requires values != []
    ensures IsMiddle(multiset(values), Median(values))
  {
    hide MiddleOf;
    SortedKeepsElements(RealLeq, values);
    MedianOfSorted(values);
    assert multiset(Sorted(RealLeq, values)) == multiset(values);
  }

  lemma {:induction false} MedianOfSorted(values: seq<real>)
    requires values != []
    ensures MiddleOf(Sorted(RealLeq, values), Median(values))
  {
    hide Sorted;
    var s := Sorted(RealLeq, values);
    SortedKeepsElements(RealLeq, values);
    assert Comparison(RealLeq);
    SortedAscends(RealLeq, values);
    forall i, j | 0 <= i < j < |s| ensures s[i] <= s[j] {
      assert RealLeq(s[i], s[j]);
    }
  }

  /** A usable timing is its own test's weight; all other tests weigh the middle of the usable timings. */
  lemma {:induction false} WeightsAnswer(ids: seq<string>, hints: map<string, Hint>) returns (middle: real)
    requires Timings(ids, hints) != multiset{}
    ensures Known(ids, hints) != [] && IsMiddle(Timings(ids, hints), middle)
    ensures forall name :: name in Weights(ids, hints) <==> name in ids
    ensures forall name :: name in ids ==>
              Weights(ids, hints)[name] ==
                if name in hints && hints[name].Seconds? && 0.0 < hints[name].value <= 86400.0 then hints[name].value
                else middle
  {
    KnownTimings(ids, hints);
    middle := Median(Known(ids, hints));
    MedianIsMiddle(Known(ids, hints));
  }

  function Cost(weights: map<string, real>, name: string): real {
    if name in weights then weights[name] else 0.0
  }

  /** The sort key `(-weights[name], name)`. */
  predicate LongerFirst(weights: map<string, real>, a: string, b: string) {
    Cost(weights, a) > Cost(weights, b) || (Cost(weights, a) == Cost(weights, b) && LexLeq(a, b))
  }

  lemma {:induction false} LongerFirstIsTotal(weights: map<string, real>)
    ensures TotalOrder((a, b) => LongerFirst(weights, a, b))
  {
    LexIsTotalOrder();
  }

  function Costs(weights: map<string, real>, names: seq<string>): (w: seq<real>)
    ensures |w| == |names|
    ensures forall i :: 0 <= i < |names| ==> w[i] == Cost(weights, names[i])
  {
    seq(|names|, i requires 0 <= i < |names| => Cost(weights, names[i]))
  }

  function GroupLoad(weights: map<string, real>, group: seq<string>): real {
    if group == [] then 0.0 else Cost(weights, group[0]) + GroupLoad(weights, group[1..])
  }

  /** The duration of the longest shard. */
  function Busiest(weights: map<string, real>, groups: seq<seq<string>>): (busiest: real)
    ensures forall i :: 0 <= i < |groups| ==> GroupLoad(weights, groups[i]) <= busiest
    ensures busiest >= 0.0
    ensures busiest == 0.0 || exists i :: 0 <= i < |groups| && GroupLoad(weights, groups[i]) == busiest
  {
    if groups == [] then 0.0
    else
      var rest := Busiest(weights, groups[1..]);
      assert rest == 0.0 || exists i ::
          0 <= i < |groups| - 1 && GroupLoad(weights, groups[1..][i]) == GroupLoad(weights, groups[i + 1]) == rest;
      if GroupLoad(weights, groups[0]) > rest then GroupLoad(weights, groups[0]) else rest
  }

  function Flatten(groups: seq<seq<string>>): seq<string> {
    if groups == [] then [] else groups[0] + Flatten(groups[1..])
  }

  /** The names placed on shard `j`, in the order in which they were placed. */
  function Members(names: seq<string>, slot: seq<nat>, j: nat): seq<string>
    requires |names| == |slot|
  {
    if names == [] then []
    else
      var n := |names| - 1;
      Members(names[..n], slot[..n], j) + if slot[n] == j then [names[n]] else []
  }

  function AllMembers(names: seq<string>, slot: seq<nat>, m: nat): (groups: seq<seq<string>>)
    requires |names| == |slot|
    ensures |groups| == m && forall j :: 0 <= j < m ==> groups[j] == Members(names, slot, j)
  {
    if m == 0 then [] else AllMembers(names, slot, m - 1) + [Members(names, slot, m - 1)]
  }

  function RoundRobinSlots(n: nat, workers: nat): (slot: seq<nat>)
    requires workers > 0
    ensures |slot| == n && forall i :: 0 <= i < n ==> slot[i] == i % workers
  {
    seq(n, i => i % workers)
  }

  lemma {:induction false} FlattenConcat(a: seq<seq<string>>, b: seq<seq<string>>)
    ensures Flatten(a + b) == Flatten(a) + Flatten(b)
  {
    if a == [] {
      assert a + b == b;
    } else {
      assert (a + b)[1..] == a[1..] + b;
      FlattenConcat(a[1..], b);
    }
  }

  lemma {:induction false} FlattenLast(a: seq<seq<string>>, g: seq<string>)
    ensures Flatten(a + [g]) == Flatten(a) + g
  {
    FlattenConcat(a, [g]);
    assert Flatten([g]) == g + Flatten([]);
  }

  lemma {:induction false} FlattenSplit(groups: seq<seq<string>>, j: nat)
    requires j < |groups|
    ensures Flatten(groups) == Flatten(groups[..j]) + groups[j] + Flatten(groups[j + 1..])
  {
    assert groups == groups[..j] + ([groups[j]] + groups[j + 1..]);
    FlattenConcat(groups[..j], [groups[j]] + groups[j + 1..]);
  }

  /** Replacing one group changes the union by exactly that group's change. */
  lemma {:induction false} FlattenUpdate(groups: seq<seq<string>>, j: nat, g: seq<string>)
    requires j < |groups|
    ensures multiset(Flatten(groups[j := g])) + multiset(groups[j]) == multiset(Flatten(groups)) + multiset(g)
  {
    FlattenSplit(groups, j);
    FlattenSplit(groups[j := g], j);
    assert groups[j := g][..j] == groups[..j] && groups[j := g][j + 1..] == groups[j + 1..];
  }

  lemma {:induction false} GrowGroup(groups: seq<seq<string>>, j: nat, x: string)
    requires j < |groups|
    ensures multiset(Flatten(groups[j := groups[j] + [x]])) == multiset(Flatten(groups)) + multiset{x}
  {
    FlattenUpdate(groups, j, groups[j] + [x]);
    var a, b := multiset(Flatten(groups[j := groups[j] + [x]])), multiset(Flatten(groups));
    assert a + multiset(groups[j]) == b + multiset{x} + multiset(groups[j]);
    CancelSame(a, b + multiset{x}, multiset(groups[j]));
  }

  lemma {:induction false} ShrinkGroup(groups: seq<seq<string>>, j: nat, k: nat)
    requires j < |groups| && k < |groups[j]|
    ensures multiset(Flatten(groups[j := groups[j][..k] + groups[j][k + 1..]])) ==
              multiset(Flatten(groups)) - multiset{groups[j][k]}
    ensures groups[j][k] in Flatten(groups)
  {
    var g, x := groups[j][..k] + groups[j][k + 1..], groups[j][k];
    RemoveAt(groups[j], k);
    FlattenUpdate(groups, j, g);
    FlattenSplit(groups, j);
    var a, b := multiset(Flatten(groups[j := g])), multiset(Flatten(groups));
    CancelSame(a + multiset{x}, b, multiset(g));
  }

  lemma {:induction false} CancelSame(a: multiset<string>, b: multiset<string>, c: multiset<string>)
    requires a + c == b + c
    ensures a == b
  {
    forall x ensures a[x] == b[x] {
      assert (a + c)[x] == (b + c)[x];
    }
  }

  lemma {:induction false} MembersOfOneMore(names: seq<string>, slot: seq<nat>, m: nat)
    requires |names| == |slot| > 0 && slot[|names| - 1] < m
    ensures var n := |names| - 1;
            var before := AllMembers(names[..n], slot[..n], m);
            AllMembers(names, slot, m) == before[slot[n] := before[slot[n]] + [names[n]]]
  {
    var n := |names| - 1;
    var before, after := AllMembers(names[..n], slot[..n], m), AllMembers(names, slot, m);
    forall j | 0 <= j < m ensures after[j] == before[slot[n] := before[slot[n]] + [names[n]]][j] {
      assert after[j] == Members(names, slot, j) && before[j] == Members(names[..n], slot[..n], j);
    }
  }

  lemma {:induction false} NoMembers(m: nat)
    ensures Flatten(AllMembers([], [], m)) == []
  {
    if m > 0 {
      NoMembers(m - 1);
      FlattenLast(AllMembers([], [], m - 1), []);
    }
  }

  /** Placing every name on some shard partitions the names. */
  lemma {:induction false} MembersPartition(names: seq<string>, slot: seq<nat>, m: nat)
    requires |names| == |slot| && Placed(slot, m)
    ensures multiset(Flatten(AllMembers(names, slot, m))) == multiset(names)
  {
    hide AllMembers, Flatten;
    if names == [] {
      NoMembers(m);
    } else {
      var n := |names| - 1;
      var before := AllMembers(names[..n], slot[..n], m);
      MembersPartition(names[..n], slot[..n], m);
      MembersOfOneMore(names, slot, m);
      GrowGroup(before, slot[n], names[n]);
      assert names == names[..n] + [names[n]];
    }
  }

  function SortedGroups(groups: seq<seq<string>>): (result: seq<seq<string>>)
    ensures |result| == |groups| && forall i :: 0 <= i < |groups| ==> result[i] == Sorted(LexLeq, groups[i])
  {
    if groups == [] then [] else [Sorted(LexLeq, groups[0])] + SortedGroups(groups[1..])
  }

  lemma {:induction false} SortedGroupsPartition(groups: seq<seq<string>>)
    ensures multiset(Flatten(SortedGroups(groups))) == multiset(Flatten(groups))
  {
    if groups != [] {
      SortedKeepsElements(LexLeq, groups[0]);
      SortedGroupsPartition(groups[1..]);
      assert SortedGroups(groups)[1..] == SortedGroups(groups[1..]);
    }
  }

  lemma {:induction false} GroupLoadInsert(weights: map<string, real>, x: string, s: seq<string>)
    ensures GroupLoad(weights, Insert(LexLeq, x, s)) == Cost(weights, x) + GroupLoad(weights, s)
  {
    if s == [] || LexLeq(x, s[0]) {
    } else {
      GroupLoadInsert(weights, x, s[1..]);
    }
  }

  lemma {:induction false} GroupLoadSorted(weights: map<string, real>, s: seq<string>)
    ensures GroupLoad(weights, Sorted(LexLeq, s)) == GroupLoad(weights, s)
  {
    if s != [] {
      GroupLoadSorted(weights, s[1..]);
      GroupLoadInsert(weights, s[0], Sorted(LexLeq, s[1..]));
    }
  }

  lemma {:induction false} GroupLoadConcat(weights: map<string, real>, a: seq<string>, b: seq<string>)
    ensures GroupLoad(weights, a + b) == GroupLoad(weights, a) + GroupLoad(weights, b)
  {
    if a == [] {
      assert a + b == b;
    } else {
      assert (a + b)[1..] == a[1..] + b;
      GroupLoadConcat(weights, a[1..], b);
    }
  }

  lemma {:induction false} GroupLoadOne(weights: map<string, real>, x: string)
    ensures GroupLoad(weights, [x]) == Cost(weights, x)
  {
    assert GroupLoad(weights, [x]) == Cost(weights, x) + GroupLoad(weights, []);
  }

  lemma {:induction false} MembersLoad(weights: map<string, real>, names: seq<string>, slot: seq<nat>, j: nat)
    requires |names| == |slot|
    ensures GroupLoad(weights, Members(names, slot, j)) == Load(Costs(weights, names), slot, j)
  {
    if names != [] {
      var n := |names| - 1;
      MembersLoad(weights, names[..n], slot[..n], j);
      assert Costs(weights, names)[..n] == Costs(weights, names[..n]);
      if slot[n] == j {
        GroupLoadConcat(weights, Members(names[..n], slot[..n], j), [names[n]]);
        GroupLoadOne(weights, names[n]);
      } else {
        assert Members(names, slot, j) == Members(names[..n], slot[..n], j);
      }
    }
  }

  lemma {:induction false} FindInGroups(groups: seq<seq<string>>, x: string) returns (j: nat, k: nat)
    requires x in Flatten(groups)
    ensures j < |groups| && k < |groups[j]| && groups[j][k] == x
  {
    if x in groups[0] {
      j := 0;
      k :| 0 <= k < |groups[0]| && groups[0][k] == x;
    } else {
      j, k := FindInGroups(groups[1..], x);
      j := j + 1;
    }
  }

  /** Any partition of the names is some placement of them, shard by shard equally loaded. */
  lemma {:induction false} PartitionIsPlacement(weights: map<string, real>, names: seq<string>,
                                                groups: seq<seq<string>>)
    returns (slot: seq<nat>)
    requires multiset(Flatten(groups)) == multiset(names)
    ensures |slot| == |names| && Placed(slot, |groups|)
    ensures forall j :: 0 <= j < |groups| ==> Load(Costs(weights, names), slot, j) == GroupLoad(weights, groups[j])
  {
    if names == [] {
      slot := [];
      EmptyPartition(weights, groups);
    } else {
      var n := |names| - 1;
      var j, k := DropLastName(names, groups);
      var fewer := groups[j := groups[j][..k] + groups[j][k + 1..]];
      var before := PartitionIsPlacement(weights, names[..n], fewer);
      slot := before + [j];
      PlaceOneMore(weights, names, groups, before, j, k);
    }
  }

  lemma {:induction false} EmptyPartition(weights: map<string, real>, groups: seq<seq<string>>)
    requires multiset(Flatten(groups)) == multiset{}
    ensures forall j :: 0 <= j < |groups| ==> GroupLoad(weights, groups[j]) == 0.0
  {
    forall j | 0 <= j < |groups| ensures GroupLoad(weights, groups[j]) == 0.0 {
      FlattenSplit(groups, j);
      assert |multiset(Flatten(groups))| == 0;
    }
  }

  lemma {:induction false} DropLastName(names: seq<string>, groups: seq<seq<string>>) returns (j: nat, k: nat)
    requires names != [] && multiset(Flatten(groups)) == multiset(names)
    ensures j < |groups| && k < |groups[j]| && groups[j][k] == names[|names| - 1]
    ensures multiset(Flatten(groups[j := groups[j][..k] + groups[j][k + 1..]])) == multiset(names[..|names| - 1])
  {
    hide Flatten;
    var n := |names| - 1;
    assert names[n] in multiset(names);
    j, k := FindInGroups(groups, names[n]);
    ShrinkGroup(groups, j, k);
    assert names == names[..n] + [names[n]];
    assert multiset(names[..n]) == multiset(names) - multiset{names[n]};
  }

  lemma {:induction false} PlaceOneMore(weights: map<string, real>, names: seq<string>, groups: seq<seq<string>>,
                                        before: seq<nat>, j: nat, k: nat)
    requires names != [] && |before| == |names| - 1
    requires j < |groups| && k < |groups[j]| && groups[j][k] == names[|names| - 1]
    requires var n := |names| - 1;
             var fewer := groups[j := groups[j][..k] + groups[j][k + 1..]];
             forall i :: 0 <= i < |groups| ==>
                 Load(Costs(weights, names[..n]), before, i) == GroupLoad(weights, fewer[i])
    ensures forall i :: 0 <= i < |groups| ==>
              Load(Costs(weights, names), before + [j], i) == GroupLoad(weights, groups[i])
  {
    var n := |names| - 1;
    assert Costs(weights, names)[..n] == Costs(weights, names[..n]);
    assert (before + [j])[..n] == before;
    var a, b := groups[j][..k], groups[j][k + 1..];
    assert groups[j] == a + ([groups[j][k]] + b);
    GroupLoadConcat(weights, a, [groups[j][k]] + b);
    GroupLoadConcat(weights, [groups[j][k]], b);
    GroupLoadOne(weights, groups[j][k]);
    GroupLoadConcat(weights, a, b);
  }

  /** `a` is at most 4/3 - 1/(3 * workers) times `b`. */
  ghost predicate WithinFourThirds(workers: nat, a: real, b: real) {
    3.0 * workers as real * a <= (4.0 * workers as real - 1.0) * b
  }

  /** Scaled comparison of the greedy result with one rival partition. */
  lemma {:induction false} GreedyIsNearlyBest(weights: map<string, real>, names: seq<string>, slot: seq<nat>,
                                              groups: seq<seq<string>>, rival: seq<seq<string>>)
    requires |names| == |slot| && |groups| == |rival| > 0
    requires LongestFirst(Costs(weights, names)) && Greedy(Costs(weights, names), slot, |groups|)
    requires forall j :: 0 <= j < |groups| ==> GroupLoad(weights, groups[j]) == Load(Costs(weights, names), slot, j)
    requires multiset(Flatten(rival)) == multiset(names)
    ensures WithinFourThirds(|groups|, Busiest(weights, groups), Busiest(weights, rival))
  {
    var m, bound, w := |groups|, Busiest(weights, rival), Costs(weights, names);
    var other := PartitionIsPlacement(weights, names, rival);
    assert Within(w, other, m, bound);
    var load := Busiest(weights, groups);
    if load == 0.0 {
      RoomIsEnough(m, load, bound);
    } else {
      var i :| 0 <= i < m && GroupLoad(weights, groups[i]) == load;
      LongestFirstBound(w, slot, other, m, bound, i);
    }
    BoundIsFourThirds(m, load, bound);
  }

  lemma {:induction false} BoundIsFourThirds(m: nat, load: real, bound: real)
    requires GrahamBound(m, load, bound)
    ensures WithinFourThirds(m, load, bound)
  {
    TimesIsProduct(m, load);
    TimesIsProduct(m, bound);
    var r := m as real;
    assert 3.0 * r * load == 3.0 * (r * load);
    assert (4.0 * r - 1.0) * bound == 4.0 * (r * bound) - bound;
  }

  /** `min(range(workers), key=lambda i: (loads[i], len(groups[i]), i))` */
  method LeastLoaded(loads: array<real>, groups: array<seq<string>>) returns (index: nat)
    requires loads.Length == groups.Length > 0
    ensures index < loads.Length
    ensures forall j :: 0 <= j < loads.Length ==>
              loads[index] < loads[j] ||
              (loads[index] == loads[j]
               && (|groups[index]| < |groups[j]| || (|groups[index]| == |groups[j]| && index <= j)))
  {
    index := 0;
    for i := 1 to loads.Length
      invariant index < i
      invariant forall j :: 0 <= j < i ==>
                  loads[index] < loads[j] ||
                  (loads[index] == loads[j]
                   && (|groups[index]| < |groups[j]| || (|groups[index]| == |groups[j]| && index <= j)))
    {
      if loads[i] < loads[index] || (loads[i] == loads[index] && |groups[i]| < |groups[index]|) {
        index := i;
      }
    }
  }

  /**
   Every test id lands in a shard exactly as often as it was given. With usable timings the longest
   shard is at most 4/3 - 1/(3 * workers) times the longest shard of any other assignment.
   */
  method ShardAssignment(ids: seq<string>, workers: nat, hints: map<string, Hint>)
    returns (groups: seq<seq<string>>, balanced: bool)
    requires workers > 0
    ensures |groups| == workers && multiset(Flatten(groups)) == multiset(ids)
    ensures balanced <==> exists name :: name in ids && Usable(hints, name)
    ensures !balanced ==> groups == AllMembers(ids, RoundRobinSlots(|ids|, workers), workers)
    ensures balanced ==> forall i :: 0 <= i < workers ==> Ascending(LexLeq, groups[i])
    ensures balanced ==> Known(ids, hints) != [] && AssignedInTurn(Weights(ids, hints), ids, groups)
    ensures balanced ==> Known(ids, hints) != [] && forall rival: seq<seq<string>> ::
              |rival| == workers && multiset(Flatten(rival)) == multiset(ids) ==>
              WithinFourThirds(workers, Busiest(Weights(ids, hints), groups), Busiest(Weights(ids, hints), rival))
  {
    var known := Known(ids, hints);
    if known == [] {
      MembersPartition(ids, RoundRobinSlots(|ids|, workers), workers);
      return AllMembers(ids, RoundRobinSlots(|ids|, workers), workers), false;
    }
    var weights := Weights(ids, hints);
    var order := Sorted((a, b) => LongerFirst(weights, a, b), ids);
    ghost var w := Costs(weights, order);
    OrderIsLongestFirst(ids, weights, order);
    ghost var slot;
    groups, slot := PlaceEach(order, workers, weights);
    OrderIsByWeight(ids, weights, order);
    SortedInTurn(weights, ids, order, groups);
    groups, balanced := SortedGroups(groups), true;
    AssignmentIsGood(ids, weights, order, slot, groups);
  }

  /** The placement loop: each name in turn to the least loaded shard. */
  method PlaceEach(order: seq<string>, workers: nat, weights: map<string, real>)
    returns (groups: seq<seq<string>>, ghost slot: seq<nat>)
    requires workers > 0
    ensures |slot| == |order| && |groups| == workers
    ensures Greedy(Costs(weights, order), slot, workers) && groups == AllMembers(order, slot, workers)
    ensures PlacedInTurn(weights, order, groups)
  {
    hide GroupLoad, PlacedInTurn, LeastOf;
    hide Greedy, AllMembers, Costs, PlacedSoFar;
    var lists := new seq<string>[workers](_ => []);
    var loads := new real[workers](_ => 0.0);
    slot := [];
    NothingPlaced(weights, lists[..], loads[..]);
    for i := 0 to |order|
      invariant |slot| == i && PlacedSoFar(weights, order[..i], slot, lists[..], loads[..])
      invariant PlacedInTurn(weights, order[..i], lists[..]) && LoadsAre(weights, lists[..], loads[..])
    {
      var index := LeastLoaded(loads, lists);
      TurnPlaces(weights, order[..i], lists[..], loads[..], order[i], index);
      PlaceNext(weights, order[..i], slot, lists[..], loads[..], order[i], index);
      assert order[..i + 1] == order[..i] + [order[i]];
      PutOn(lists, loads, index, order[i], Cost(weights, order[i]));
      slot := slot + [index];
    }
    assert order[..|order|] == order;
    groups := lists[..];
    AllPlaced(weights, order, slot, groups, loads[..], workers);
  }

  lemma {:induction false} AllPlaced(weights: map<string, real>, names: seq<string>, slot: seq<nat>,
                                     lists: seq<seq<string>>, loads: seq<real>, workers: nat)
    requires PlacedSoFar(weights, names, slot, lists, loads) && |lists| == workers
    ensures |slot| == |names| && Greedy(Costs(weights, names), slot, workers)
    ensures lists == AllMembers(names, slot, workers)
  {
  }

  /** `groups[index].append(name)` and `loads[index] += weights[name]` */
  method PutOn(lists: array<seq<string>>, loads: array<real>, index: nat, name: string, cost: real)
    requires index < lists.Length == loads.Length
    modifies lists, loads
    ensures lists[..] == old(lists[..])[index := old(lists[index]) + [name]]
    ensures loads[..] == old(loads[..])[index := old(loads[index]) + cost]
  {
    lists[index] := lists[index] + [name];
    loads[index] := loads[index] + cost;
  }

  lemma {:induction false} NothingPlaced(weights: map<string, real>, lists: seq<seq<string>>, loads: seq<real>)
    requires |lists| == |loads|
    requires (forall j :: 0 <= j < |lists| ==> lists[j] == []) && forall j :: 0 <= j < |loads| ==> loads[j] == 0.0
    ensures PlacedSoFar(weights, [], [], lists, loads)
    ensures PlacedInTurn(weights, [], lists) && LoadsAre(weights, lists, loads)
  {
  }

  // ---- which shard each test goes to

  /** The shard with the least load, of those the one with the fewest tests, and of those the first. */
  ghost predicate LeastOf(weights: map<string, real>, groups: seq<seq<string>>, index: nat) {
    index < |groups| && forall j :: 0 <= j < |groups| ==>
      var a, b := GroupLoad(weights, groups[index]), GroupLoad(weights, groups[j]);
      a < b || (a == b && (|groups[index]| < |groups[j]| || (|groups[index]| == |groups[j]| && index <= j)))
  }

  /** Each test in turn has gone to the shard that was least then; at first all were empty. */
  ghost predicate PlacedInTurn(weights: map<string, real>, order: seq<string>, groups: seq<seq<string>>) {
    if order == [] then forall j :: 0 <= j < |groups| ==> groups[j] == []
    else exists before, index ::
      && PlacedInTurn(weights, order[..|order| - 1], before) && LeastOf(weights, before, index)
      && groups == before[index := before[index] + [order[|order| - 1]]]
  }

  /** The tests in descending weight, and those of one weight by name, placed in turn; each shard is listed by name. */
  ghost predicate AssignedInTurn(weights: map<string, real>, ids: seq<string>, groups: seq<seq<string>>) {
    exists order, placed ::
      && PlacedInTurn(weights, order, placed) && multiset(order) == multiset(ids) && ByWeight(weights, order)
      && |placed| == |groups| && forall i :: 0 <= i < |groups| ==> multiset(groups[i]) == multiset(placed[i])
  }

  ghost predicate ByWeight(weights: map<string, real>, order: seq<string>) {
    forall i, j :: 0 <= i < j < |order| ==>
      && order[i] in weights && order[j] in weights
      && (weights[order[i]] > weights[order[j]]
          || (weights[order[i]] == weights[order[j]] && LexLeq(order[i], order[j])))
  }

  ghost predicate LoadsAre(weights: map<string, real>, lists: seq<seq<string>>, loads: seq<real>) {
    |lists| == |loads| && forall j :: 0 <= j < |lists| ==> loads[j] == GroupLoad(weights, lists[j])
  }

  lemma {:induction false} TurnPlaces(weights: map<string, real>, order: seq<string>, lists: seq<seq<string>>,
                                      loads: seq<real>, name: string, index: nat)
    requires PlacedInTurn(weights, order, lists) && LoadsAre(weights, lists, loads) && index < |lists|
    requires forall j :: 0 <= j < |loads| ==>
               loads[index] < loads[j] ||
               (loads[index] == loads[j]
                && (|lists[index]| < |lists[j]| || (|lists[index]| == |lists[j]| && index <= j)))
    ensures PlacedInTurn(weights, order + [name], lists[index := lists[index] + [name]])
    ensures LoadsAre(weights, lists[index := lists[index] + [name]], loads[index := loads[index] + Cost(weights, name)])
  {
    hide GroupLoad;
    assert LeastOf(weights, lists, index);
    assert (order + [name])[..|order|] == order;
    GroupLoadConcat(weights, lists[index], [name]);
    GroupLoadOne(weights, name);
  }

  lemma {:induction false} OrderIsByWeight(ids: seq<string>, weights: map<string, real>, order: seq<string>)
    requires forall name :: name in ids ==> name in weights
    requires order == Sorted((a, b) => LongerFirst(weights, a, b), ids)
    ensures multiset(order) == multiset(ids) && ByWeight(weights, order)
  {
    var leq := (a, b) => LongerFirst(weights, a, b);
    LongerFirstIsTotal(weights);
    SortedAscends(leq, ids);
    SortedKeepsElements(leq, ids);
    assert forall i :: 0 <= i < |order| ==> order[i] in multiset(ids);
    forall i, j | 0 <= i < j < |order| ensures LongerFirst(weights, order[i], order[j]) {
      assert leq(order[i], order[j]);
    }
  }

  lemma {:induction false} SortedInTurn(weights: map<string, real>, ids: seq<string>, order: seq<string>,
                                        placed: seq<seq<string>>)
    requires PlacedInTurn(weights, order, placed) && multiset(order) == multiset(ids) && ByWeight(weights, order)
    ensures AssignedInTurn(weights, ids, SortedGroups(placed))
  {
    hide Sorted, PlacedInTurn, ByWeight;
    forall i | 0 <= i < |placed| ensures multiset(SortedGroups(placed)[i]) == multiset(placed[i]) {
      SortedKeepsElements(LexLeq, placed[i]);
    }
  }

  /** Round robin: shard `i` of `workers` gets the tests at i, i + workers, i + 2 * workers and so on, in that order. */
  lemma {:induction false} RoundRobinAnswer(ids: seq<string>, workers: nat, i: nat)
    requires i < workers
    ensures var group := Members(ids, RoundRobinSlots(|ids|, workers), i);
            && i + |group| * workers >= |ids|
            && forall k :: 0 <= k < |group| ==> i + k * workers < |ids| && group[k] == ids[i + k * workers]
  {
    if ids != [] {
      var n := |ids| - 1;
      var group, before := Members(ids, RoundRobinSlots(|ids|, workers), i),
          Members(ids[..n], RoundRobinSlots(n, workers), i);
      RoundRobinAnswer(ids[..n], workers, i);
      assert RoundRobinSlots(|ids|, workers)[..n] == RoundRobinSlots(n, workers);
      InTurn(n, workers, i, |before|);
      forall k | 0 <= k < |group| ensures i + k * workers < |ids| && group[k] == ids[i + k * workers] {
        if k < |before| {
          assert group[k] == before[k];
        }
      }
      Once(|before|, workers);
    }
  }

  lemma {:induction false} Once(k: nat, workers: nat)
    ensures (k + 1) * workers == k * workers + workers
  {
  }

  /** The next place of shard `i` is `n` exactly if `n` leaves the remainder `i`. */
  lemma {:induction false} InTurn(n: nat, workers: nat, i: nat, k: nat)
    requires i < workers && i + k * workers >= n
    requires k > 0 ==> i + (k - 1) * workers < n
    ensures n % workers == i <==> i + k * workers == n
  {
    Once(if k > 0 then k - 1 else 0, workers);
    var q := n / workers;
    Division(n, workers);
    if n % workers == i {
      if q < k {
        assert k > 0;
        Below(q, k - 1, workers);
      } else if q > k {
        Below(k, q, workers);
        Below(k + 1, q, workers);
        Once(k, workers);
      }
    }
    if i + k * workers == n {
      Remainder(n, workers, k, i);
    }
  }

  lemma {:induction false} Below(a: nat, b: nat, m: nat)
    requires a <= b
    ensures a * m <= b * m
  {
  }

  lemma {:induction false} Remainder(n: nat, m: nat, k: nat, i: nat)
    requires i < m && n == i + k * m
    ensures n % m == i
  {
    var q := n / m;
    Division(n, m);
    if q < k {
      Below(q + 1, k, m);
      Once(q, m);
    } else if q > k {
      Below(k + 1, q, m);
      Once(k, m);
    }
  }

  lemma {:induction false} Division(n: nat, m: nat)
    requires m > 0
    ensures n == (n / m) * m + n % m && n % m < m
  {
  }

  /** The loop's lists and loads are those of a greedy placement of the names placed so far. */
  ghost predicate PlacedSoFar(weights: map<string, real>, names: seq<string>, slot: seq<nat>,
                              lists: seq<seq<string>>, loads: seq<real>)
  {
    && |slot| == |names| && |lists| == |loads|
    && Greedy(Costs(weights, names), slot, |lists|)
    && lists == AllMembers(names, slot, |lists|)
    && forall j :: 0 <= j < |loads| ==> loads[j] == Load(Costs(weights, names), slot, j)
  }

  lemma {:induction false} PlaceNext(weights: map<string, real>, names: seq<string>, slot: seq<nat>,
                                     lists: seq<seq<string>>, loads: seq<real>, name: string, index: nat)
    requires PlacedSoFar(weights, names, slot, lists, loads) && index < |loads|
    requires forall j :: 0 <= j < |loads| ==> loads[index] <= loads[j]
    ensures PlacedSoFar(weights, names + [name], slot + [index],
                        lists[index := lists[index] + [name]], loads[index := loads[index] + Cost(weights, name)])
  {
    var names', slot', n := names + [name], slot + [index], |names|;
    assert names'[..n] == names && slot'[..n] == slot;
    assert Costs(weights, names')[..n] == Costs(weights, names);
    assert AtLeast(Costs(weights, names), slot, |lists|, loads[index]);
    MembersOfOneMore(names', slot', |lists|);
  }

  lemma {:induction false} OrderIsLongestFirst(ids: seq<string>, weights: map<string, real>, order: seq<string>)
    requires forall name :: name in ids ==> name in weights && weights[name] > 0.0
    requires order == Sorted((a, b) => LongerFirst(weights, a, b), ids)
    ensures multiset(order) == multiset(ids)
    ensures LongestFirst(Costs(weights, order))
  {
    var leq := (a, b) => LongerFirst(weights, a, b);
    LongerFirstIsTotal(weights);
    SortedAscends(leq, ids);
    assert forall i :: 0 <= i < |order| ==> order[i] in multiset(ids);
    forall i, j | 0 <= i < j < |order| ensures Cost(weights, order[i]) >= Cost(weights, order[j]) {
      assert leq(order[i], order[j]);
    }
  }

  lemma {:induction false} AssignmentIsGood(ids: seq<string>, weights: map<string, real>, order: seq<string>,
                                            slot: seq<nat>, groups: seq<seq<string>>)
    requires groups != [] && multiset(order) == multiset(ids) && |slot| == |order|
    requires LongestFirst(Costs(weights, order)) && Greedy(Costs(weights, order), slot, |groups|)
    requires groups == SortedGroups(AllMembers(order, slot, |groups|))
    ensures multiset(Flatten(groups)) == multiset(ids)
    ensures forall i :: 0 <= i < |groups| ==> Ascending(LexLeq, groups[i])
    ensures forall rival: seq<seq<string>> ::
              |rival| == |groups| && multiset(Flatten(rival)) == multiset(ids) ==>
              WithinFourThirds(|groups|, Busiest(weights, groups), Busiest(weights, rival))
  {
    var m := |groups|;
    MembersPartition(order, slot, m);
    SortedGroupsPartition(AllMembers(order, slot, m));
    forall j | 0 <= j < m
      ensures Ascending(LexLeq, groups[j])
      ensures GroupLoad(weights, groups[j]) == Load(Costs(weights, order), slot, j)
    {
      LexIsTotalOrder();
      SortedAscends(LexLeq, Members(order, slot, j));
      GroupLoadSorted(weights, Members(order, slot, j));
      MembersLoad(weights, order, slot, j);
    }
    forall rival: seq<seq<string>> | |rival| == m && multiset(Flatten(rival)) == multiset(ids)
      ensures WithinFourThirds(m, Busiest(weights, groups), Busiest(weights, rival))
    {
      GreedyIsNearlyBest(weights, order, slot, groups, rival);
    }
  }

  /** What a shard child accepts as the plan for `all`: as many groups as shards, every test once. */
  predicate PlanAccepted(groups: seq<seq<string>>, all: seq<string>, count: nat) {
    |groups| == count && multiset(Flatten(groups)) == multiset(all) && Distinct(Flatten(groups))
  }

  /** The tests of `all` that a shard with this group selects. */
  function Selected(all: seq<string>, group: seq<string>): seq<string> {
    if all == [] then []
    else (if all[0] in group then [all[0]] else []) + Selected(all[1..], group)
  }

  lemma {:induction false} SelectedCount(all: seq<string>, group: seq<string>, name: string)
    ensures multiset(Selected(all, group))[name] == if name in group then multiset(all)[name] else 0
  {
    if all != [] {
      SelectedCount(all[1..], group, name);
      assert all == [all[0]] + all[1..];
    }
  }

  lemma {:induction false} FlattenCount(groups: seq<seq<string>>, name: string, j: nat, k: nat)
    requires j < k < |groups| && name in groups[j] && name in groups[k]
    ensures !Distinct(Flatten(groups))
  {
    FlattenSplit(groups, k);
    FlattenSplit(groups[..k], j);
    var a, b := Flatten(groups[..k]), Flatten(groups);
    var x :| 0 <= x < |groups[j]| && groups[j][x] == name;
    var y :| 0 <= y < |groups[k]| && groups[k][y] == name;
    assert a[|Flatten(groups[..k][..j])| + x] == name;
    assert b[|Flatten(groups[..k][..j])| + x] == name && b[|a| + y] == name;
  }

  /** Under an accepted plan each test of the suite is selected by exactly one shard, and once there. */
  lemma {:induction false} AcceptedPlanRunsEachTestOnce(groups: seq<seq<string>>, all: seq<string>, name: string)
    requires PlanAccepted(groups, all, |groups|) && name in all
    ensures exists j ::
              && 0 <= j < |groups|
              && multiset(Selected(all, groups[j]))[name] == 1
              && forall k :: 0 <= k < |groups| && k != j ==> name !in Selected(all, groups[k])
  {
    assert name in multiset(all);
    var j, x := FindInGroups(groups, name);
    SelectedCount(all, groups[j], name);
    DistinctOccursOnce(Flatten(groups), name);
    forall k | 0 <= k < |groups| && k != j ensures name !in Selected(all, groups[k]) {
      if name in groups[k] {
        FlattenCount(groups, name, if j < k then j else k, if j < k then k else j);
      }
      SelectedCount(all, groups[k], name);
      assert multiset(Selected(all, groups[k]))[name] == 0;
    }
  }

  lemma {:induction false} DistinctOccursOnce(s: seq<string>, name: string)
    requires Distinct(s) && name in s
    ensures multiset(s)[name] == 1
  {
    assert s == [s[0]] + s[1..];
    if name in s[1..] {
      DistinctOccursOnce(s[1..], name);
    }
  }

  lemma {:induction false} RearrangedStaysDistinct(s: seq<string>, t: seq<string>)
    requires Distinct(s) && multiset(s) == multiset(t)
    ensures Distinct(t)
  {
    forall i, j | 0 <= i < j < |t| ensures t[i] != t[j] {
      if t[i] == t[j] {
        assert t == t[..i] + [t[i]] + t[i + 1..j] + [t[j]] + t[j + 1..];
        assert multiset(t)[t[i]] >= 2;
        assert t[i] in multiset(s);
        DistinctOccursOnce(s, t[i]);
      }
    }
  }

  /** The parent's plan for distinct test ids is one that its shard children accept. */
  method PlanShards(ids: seq<string>, workers: nat, hints: map<string, Hint>) returns (groups: seq<seq<string>>)
    requires workers > 0 && Distinct(ids)
    ensures PlanAccepted(groups, ids, workers)
  {
    var balanced;
    groups, balanced := ShardAssignment(ids, workers, hints);
    RearrangedStaysDistinct(ids, Flatten(groups));
  }
}
