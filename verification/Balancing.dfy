/**
 Greedy placement of jobs on identical machines, and Graham's bounds for it.
 `slot[i]` is the machine that job `i` of weight `w[i]` was placed on.
 */
module Balancing {
  function Total(w: seq<real>): real {
    if w == [] then 0.0 else Total(w[..|w| - 1]) + w[|w| - 1]
  }

  /** What machine `j` carries. */
  function Load(w: seq<real>, slot: seq<nat>, j: nat): real
    requires |w| == |slot|
  {
    if w == [] then 0.0
    else Load(w[..|w| - 1], slot[..|w| - 1], j) + if slot[|w| - 1] == j then w[|w| - 1] else 0.0
  }

  /** `m` copies of `x`. */
  function Times(m: nat, x: real): real {
    if m == 0 then 0.0 else Times(m - 1, x) + x
  }

  lemma {:induction false} TimesIsProduct(m: nat, x: real)
    ensures Times(m, x) == m as real * x
  {
    if m > 0 {
      TimesIsProduct(m - 1, x);
      var k := (m - 1) as real;
      assert m as real == k + 1.0;
      assert (k + 1.0) * x == k * x + x;
    }
  }

  lemma {:induction false} TimesAdds(m: nat, x: real, y: real)
    ensures Times(m, x + y) == Times(m, x) + Times(m, y)
  {
    if m > 0 {
      TimesAdds(m - 1, x, y);
    }
  }

  lemma {:induction false} TripleTimes(m: nat, x: real, y: real)
    requires 3.0 * x <= y
    ensures 3.0 * Times(m, x) <= Times(m, y)
  {
    if m > 0 {
      TripleTimes(m - 1, x, y);
    }
  }

  lemma {:induction false} TimesGrows(m: nat, x: real, y: real)
    requires x <= y
    ensures Times(m, x) <= Times(m, y)
  {
    if m > 0 {
      TimesGrows(m - 1, x, y);
    }
  }

  function LoadsOf(w: seq<real>, slot: seq<nat>, machines: nat): real
    requires |w| == |slot|
  {
    if machines == 0 then 0.0 else LoadsOf(w, slot, machines - 1) + Load(w, slot, machines - 1)
  }

  ghost predicate Placed(slot: seq<nat>, machines: nat) {
    forall i :: 0 <= i < |slot| ==> slot[i] < machines
  }

  ghost predicate Within(w: seq<real>, slot: seq<nat>, machines: nat, bound: real)
    requires |w| == |slot|
  {
    forall j: nat :: j < machines ==> Load(w, slot, j) <= bound
  }

  ghost predicate AtLeast(w: seq<real>, slot: seq<nat>, machines: nat, bound: real)
    requires |w| == |slot|
  {
    forall j: nat :: j < machines ==> Load(w, slot, j) >= bound
  }

  ghost predicate NoRoom(w: seq<real>, slot: seq<nat>, machines: nat, p: real, bound: real)
    requires |w| == |slot|
  {
    forall j: nat :: j < machines ==> Load(w, slot, j) + p > bound
  }

  /** Every job went to a machine that was least loaded when it was placed. */
  ghost predicate Greedy(w: seq<real>, slot: seq<nat>, machines: nat)
    requires |w| == |slot|
  {
    Placed(slot, machines) &&
    (w == [] || (
      && Greedy(w[..|w| - 1], slot[..|w| - 1], machines)
      && AtLeast(w[..|w| - 1], slot[..|w| - 1], machines, Load(w[..|w| - 1], slot[..|w| - 1], slot[|w| - 1]))))
  }

  /** Jobs in longest-first order, all of positive weight. */
  ghost predicate LongestFirst(w: seq<real>) {
    && (forall i :: 0 <= i < |w| ==> w[i] > 0.0)
    && (forall i, j :: 0 <= i < j < |w| ==> w[i] >= w[j])
  }

  lemma {:induction false} LoadsWithOneMore(w: seq<real>, slot: seq<nat>, machines: nat)
    requires |w| == |slot| > 0
    ensures LoadsOf(w, slot, machines) ==
            LoadsOf(w[..|w| - 1], slot[..|w| - 1], machines) + if slot[|w| - 1] < machines then w[|w| - 1] else 0.0
  {
    if machines > 0 {
      LoadsWithOneMore(w, slot, machines - 1);
    }
  }

  lemma {:induction false} NoLoads(machines: nat)
    ensures LoadsOf([], [], machines) == 0.0
  {
    if machines > 0 {
      NoLoads(machines - 1);
    }
  }

  /** Conservation: the machines together carry exactly the jobs. */
  lemma {:induction false} LoadsAddUp(w: seq<real>, slot: seq<nat>, machines: nat)
    requires |w| == |slot| && Placed(slot, machines)
    ensures LoadsOf(w, slot, machines) == Total(w)
  {
    if w == [] {
      NoLoads(machines);
    } else {
      LoadsWithOneMore(w, slot, machines);
      LoadsAddUp(w[..|w| - 1], slot[..|w| - 1], machines);
    }
  }

  lemma {:induction false} LoadsAtMost(w: seq<real>, slot: seq<nat>, machines: nat, bound: real)
    requires |w| == |slot| && Within(w, slot, machines, bound)
    ensures LoadsOf(w, slot, machines) <= Times(machines, bound)
  {
    if machines > 0 {
      LoadsAtMost(w, slot, machines - 1, bound);
    }
  }

  lemma {:induction false} LoadsAtLeast(w: seq<real>, slot: seq<nat>, machines: nat, bound: real)
    requires |w| == |slot| && AtLeast(w, slot, machines, bound)
    ensures LoadsOf(w, slot, machines) >= Times(machines, bound)
  {
    if machines > 0 {
      LoadsAtLeast(w, slot, machines - 1, bound);
    }
  }

  /** Dropping the last job cannot make a machine busier. */
  lemma {:induction false} WithinPrefix(w: seq<real>, slot: seq<nat>, machines: nat, bound: real)
    requires |w| == |slot| > 0 && w[|w| - 1] >= 0.0 && Within(w, slot, machines, bound)
    ensures Within(w[..|w| - 1], slot[..|w| - 1], machines, bound)
  {
    var w', slot' := w[..|w| - 1], slot[..|w| - 1];
    forall j: nat | j < machines ensures Load(w', slot', j) <= bound {
      assert Load(w, slot, j) <= bound;
    }
  }

  lemma {:induction false} LoadIsAtLeastItsLastJob(w: seq<real>, slot: seq<nat>, j: nat)
    requires |w| == |slot| && forall i :: 0 <= i < |w| ==> w[i] >= 0.0
    ensures Load(w, slot, j) >= 0.0
    ensures w != [] && slot[|w| - 1] == j ==> Load(w, slot, j) >= w[|w| - 1]
  {
    if w != [] {
      LoadIsAtLeastItsLastJob(w[..|w| - 1], slot[..|w| - 1], j);
    }
  }

  /** A job's share of a machine of capacity `bound` when the smallest job weighs `p`: a job that
      leaves no room for another one takes both places, any other job takes one of the two. */
  function Places(w: seq<real>, p: real, bound: real): seq<real> {
    if w == [] then []
    else Places(w[..|w| - 1], p, bound) + [if w[|w| - 1] + p > bound then 2.0 else 1.0]
  }

  lemma {:induction false} PlacesLength(w: seq<real>, p: real, bound: real)
    ensures |Places(w, p, bound)| == |w|
    ensures w != [] ==> Places(w, p, bound)[..|w| - 1] == Places(w[..|w| - 1], p, bound)
  {
    if w != [] {
      PlacesLength(w[..|w| - 1], p, bound);
    }
  }

  /** When all jobs weigh more than a third of the bound, a machine within the bound has at most
      two places taken, and a machine with no room for one more smallest job has at least two. */
  lemma {:induction false} TwoPlaces(w: seq<real>, slot: seq<nat>, j: nat, p: real, bound: real)
    requires |w| == |slot| && 0.0 < p <= bound && 3.0 * p > bound
    requires forall i :: 0 <= i < |w| ==> w[i] >= p
    ensures |Places(w, p, bound)| == |w|
    ensures var load, taken := Load(w, slot, j), Load(Places(w, p, bound), slot, j);
            && (load + p > bound ==> taken >= 2.0)
            && (load <= bound ==> taken <= 2.0)
            && load >= 0.0
            && (taken == 0.0 ==> load == 0.0)
            && (load <= bound && taken > 0.0 ==> load >= p && (taken == 1.0 || (taken == 2.0 && load + p > bound)))
            && (taken == 0.0 || taken == 1.0 || taken >= 2.0)
  {
    PlacesLength(w, p, bound);
    if w != [] {
      TwoPlaces(w[..|w| - 1], slot[..|w| - 1], j, p, bound);
    }
  }

  /** The last job of a longest-first list, when it exceeds a third of what some schedule achieves,
      still finds a machine with room: otherwise that schedule would need more places than it has. */
  lemma {:induction false} RoomForLargeJob(w: seq<real>, slot: seq<nat>, rival: seq<nat>, machines: nat,
                                           bound: real) returns (j: nat)
    requires |w| == |slot| == |rival| > 0 && machines > 0
    requires LongestFirst(w) && Placed(slot, machines) && Placed(rival, machines)
    requires Within(w, rival, machines, bound) && 3.0 * w[|w| - 1] > bound
    ensures j < machines && Load(w[..|w| - 1], slot[..|w| - 1], j) + w[|w| - 1] <= bound
  {
    var n := |w|;
    var p := w[n - 1];
    var w', slot' := w[..n - 1], slot[..n - 1];
    LoadIsAtLeastItsLastJob(w, rival, rival[n - 1]);
    PlacesOverflow(w, slot, rival, machines, bound);
    j :| j < machines && Load(w', slot', j) + p <= bound;
  }

  lemma {:induction false} PlacesOverflow(w: seq<real>, slot: seq<nat>, rival: seq<nat>, machines: nat, bound: real)
    requires |w| == |slot| == |rival| > 0 && machines > 0
    requires LongestFirst(w) && Placed(slot, machines) && Placed(rival, machines)
    requires Within(w, rival, machines, bound) && w[|w| - 1] <= bound < 3.0 * w[|w| - 1]
    ensures !NoRoom(w[..|w| - 1], slot[..|w| - 1], machines, w[|w| - 1], bound)
  {
    var n := |w|;
    var p := w[n - 1];
    var w', slot' := w[..n - 1], slot[..n - 1];
    if NoRoom(w', slot', machines, p, bound) {
      var places, places' := Places(w, p, bound), Places(w', p, bound);
      PlacesLength(w, p, bound);
      forall j: nat | j < machines ensures Load(places, rival, j) <= 2.0 {
        TwoPlaces(w, rival, j, p, bound);
      }
      PlacesLength(w', p, bound);
      forall j: nat | j < machines ensures Load(places', slot', j) >= 2.0 {
        TwoPlaces(w', slot', j, p, bound);
      }
      LoadsAtMost(places, rival, machines, 2.0);
      LoadsAtLeast(places', slot', machines, 2.0);
      LoadsAddUp(places, rival, machines);
      LoadsAddUp(places', slot', machines);
    }
  }

  /** `load` is at most 4/3 - 1/(3m) times `bound`. */
  ghost predicate GrahamBound(m: nat, load: real, bound: real) {
    3.0 * Times(m, load) <= 4.0 * Times(m, bound) - bound
  }

  lemma {:induction false} AverageStep(m: nat, least: real, p: real, bound: real)
    requires m > 0 && 3.0 * p <= bound
    requires Times(m, least) + p <= Times(m, bound)
    ensures GrahamBound(m, least + p, bound)
  {
    TimesAdds(m, least, p);
    TripleTimes(m - 1, p, bound);
  }

  lemma {:induction false} RoomIsEnough(m: nat, load: real, bound: real)
    requires m > 0 && bound >= 0.0 && load <= bound
    ensures GrahamBound(m, load, bound)
  {
    TimesGrows(m, load, bound);
    TimesGrows(m - 1, 0.0, bound);
    TimesIsProduct(m - 1, 0.0);
  }

  lemma {:induction false} SmallLastJob(w: seq<real>, slot: seq<nat>, rival: seq<nat>, machines: nat, bound: real)
    requires |w| == |slot| == |rival| > 0 && machines > 0
    requires LongestFirst(w) && Greedy(w, slot, machines)
    requires Placed(rival, machines) && Within(w, rival, machines, bound) && 3.0 * w[|w| - 1] <= bound
    ensures GrahamBound(machines, Load(w, slot, slot[|w| - 1]), bound)
  {
    var n, m := |w|, machines;
    var w', slot' := w[..n - 1], slot[..n - 1];
    var least := Load(w', slot', slot[n - 1]);
    LoadsAtLeast(w', slot', machines, least);
    LoadsAddUp(w', slot', machines);
    LoadsAtMost(w, rival, machines, bound);
    LoadsAddUp(w, rival, machines);
    AverageStep(m, least, w[n - 1], bound);
  }

  /**
   Graham's longest-processing-time bound: greedy placement in longest-first order makes no machine
   busier than 4/3 - 1/(3m) times the busiest machine of any other placement of the same jobs.
   */
  lemma {:induction false} LongestFirstBound(w: seq<real>, slot: seq<nat>, rival: seq<nat>, machines: nat, bound: real,
                                             j: nat)
    requires |w| == |slot| == |rival| && j < machines
    requires LongestFirst(w) && Greedy(w, slot, machines)
    requires Placed(rival, machines) && Within(w, rival, machines, bound) && bound >= 0.0
    ensures GrahamBound(machines, Load(w, slot, j), bound)
  {
    var m := machines;
    if w == [] {
      RoomIsEnough(m, 0.0, bound);
    } else {
      var n := |w|;
      WithinPrefix(w, rival, machines, bound);
      if slot[n - 1] != j {
        LongestFirstBound(w[..n - 1], slot[..n - 1], rival[..n - 1], machines, bound, j);
      } else if 3.0 * w[n - 1] <= bound {
        SmallLastJob(w, slot, rival, machines, bound);
      } else {
        var k := RoomForLargeJob(w, slot, rival, machines, bound);
        RoomIsEnough(m, Load(w, slot, j), bound);
      }
    }
  }
}
