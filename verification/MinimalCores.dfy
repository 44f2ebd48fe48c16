/** bench/onepass_quality.py, `_logic`: which sets of rules cannot hold together, smallest first. */
module MinimalCores {
  import opened Sorting

  /** `itertools.combinations(range(lo, n), size)`, in its lexicographic order. */
  function Combinations(lo: nat, n: nat, size: nat): seq<seq<nat>>
    decreases n - lo
  {
    if size == 0 then [[]]
    else if lo >= n then []
    else Prepend(lo, Combinations(lo + 1, n, size - 1)) + Combinations(lo + 1, n, size)
  }

  function Prepend(x: nat, lists: seq<seq<nat>>): (r: seq<seq<nat>>)
    ensures |r| == |lists| && forall i :: 0 <= i < |r| ==> r[i] == [x] + lists[i]
  {
    seq(|lists|, i requires 0 <= i < |lists| => [x] + lists[i])
  }

  /** Indices in increasing order, all in `lo..n`. */
  predicate Increasing(c: seq<nat>, lo: nat, n: nat) {
    c == [] || (lo <= c[0] < n && Increasing(c[1..], c[0] + 1, n))
  }

  lemma {:induction false} PrependMember(x: nat, lists: seq<seq<nat>>, c: seq<nat>)
    ensures c in Prepend(x, lists) <==> c != [] && c[0] == x && c[1..] in lists
  {
    var r := Prepend(x, lists);
    if c in r {
      var i :| 0 <= i < |r| && r[i] == c;
      assert c[1..] == lists[i];
    }
    if c != [] && c[0] == x && c[1..] in lists {
      var i :| 0 <= i < |lists| && lists[i] == c[1..];
      assert r[i] == c;
    }
  }

  /** `combinations` lists exactly the increasing index tuples of that size, each once. */
  lemma {:induction false} CombinationMember(lo: nat, n: nat, size: nat, c: seq<nat>)
    ensures c in Combinations(lo, n, size) <==> |c| == size && Increasing(c, lo, n)
    decreases n - lo
  {
    if size > 0 && lo < n {
      var first, rest := Combinations(lo + 1, n, size - 1), Combinations(lo + 1, n, size);
      PrependMember(lo, first, c);
      CombinationMember(lo + 1, n, size, c);
      assert c in Combinations(lo, n, size) <==> c in Prepend(lo, first) || c in rest;
      if c != [] {
        CombinationMember(lo + 1, n, size - 1, c[1..]);
      }
    }
  }

  lemma {:induction false} CombinationsDiffer(lo: nat, n: nat, size: nat)
    ensures Distinct(Combinations(lo, n, size))
    decreases n - lo
  {
    if size > 0 && lo < n {
      var head, rest := Prepend(lo, Combinations(lo + 1, n, size - 1)), Combinations(lo + 1, n, size);
      CombinationsDiffer(lo + 1, n, size - 1);
      CombinationsDiffer(lo + 1, n, size);
      PrependDiffers(lo, Combinations(lo + 1, n, size - 1));
      forall c | c in head ensures c !in rest {
        PrependMember(lo, Combinations(lo + 1, n, size - 1), c);
        CombinationMember(lo + 1, n, size, c);
      }
      ConcatDistinct(head, rest);
    }
  }

  lemma {:induction false} ConcatDistinct(a: seq<seq<nat>>, b: seq<seq<nat>>)
    requires Distinct(a) && Distinct(b) && forall x :: x in a ==> x !in b
    ensures Distinct(a + b)
  {
    forall i, j | 0 <= i < j < |a + b| ensures (a + b)[i] != (a + b)[j] {
      if i < |a| <= j {
        assert (a + b)[i] in a && (a + b)[j] in b;
      }
    }
  }

  lemma {:induction false} PrependDiffers(x: nat, lists: seq<seq<nat>>)
    requires Distinct(lists)
    ensures Distinct(Prepend(x, lists))
  {
    var r := Prepend(x, lists);
    forall i, j | 0 <= i < j < |r| ensures r[i] != r[j] {
      assert r[i][1..] == lists[i] && r[j][1..] == lists[j];
    }
  }

  /** Do the chosen rules all hold in this world? */
  predicate Holds<W>(rules: seq<W -> bool>, c: seq<nat>, w: W) {
    forall i :: 0 <= i < |c| && c[i] < |rules| ==> rules[c[i]](w)
  }

  /** No world of the universe satisfies every chosen rule. */
  predicate Contradictory<W(==)>(rules: seq<W -> bool>, universe: seq<W>, c: seq<nat>) {
    forall k :: 0 <= k < |universe| ==> !Holds(rules, c, universe[k])
  }

  predicate Includes(c: seq<nat>, core: seq<nat>) {
    forall i :: 0 <= i < |core| ==> core[i] in c
  }

  /** A contradictory set of rules that stops being one when any rule is left out. */
  ghost predicate MinimalCore<W>(rules: seq<W -> bool>, universe: seq<W>, c: seq<nat>) {
    && Increasing(c, 0, |rules|)
    && Contradictory(rules, universe, c)
    && forall d: seq<nat> :: Increasing(d, 0, |rules|) && Includes(c, d) && d != c ==>
       !Contradictory(rules, universe, d)
  }

  lemma {:induction false} FewerRulesHoldMore<W>(rules: seq<W -> bool>, universe: seq<W>, c: seq<nat>, d: seq<nat>)
    requires Includes(c, d) && Contradictory(rules, universe, d)
    ensures Contradictory(rules, universe, c)
  {
    forall k | 0 <= k < |universe| ensures !Holds(rules, c, universe[k]) {
      var i :| 0 <= i < |d| && d[i] < |rules| && !rules[d[i]](universe[k]);
      var j :| 0 <= j < |c| && c[j] == d[i];
    }
  }

  lemma {:induction false} LaterIndicesAreLarger(c: seq<nat>, lo: nat, n: nat)
    requires Increasing(c, lo, n)
    ensures forall i :: 0 <= i < |c| ==> lo <= c[i] < n
    ensures Distinct(c)
  {
    if c != [] {
      LaterIndicesAreLarger(c[1..], c[0] + 1, n);
    }
  }

  lemma {:induction false} SameElementsSameTuple(c: seq<nat>, d: seq<nat>, lo: nat, n: nat)
    requires Increasing(c, lo, n) && Increasing(d, lo, n)
    requires forall x :: x in c <==> x in d
    ensures c == d
  {
    if c != [] {
      assert c[0] in d;
    }
    if d != [] {
      assert d[0] in c;
    }
    if c != [] && d != [] {
      LaterIndicesAreLarger(c[1..], c[0] + 1, n);
      LaterIndicesAreLarger(d[1..], d[0] + 1, n);
      assert c[0] in d && d[0] in c;
      assert c == [c[0]] + c[1..] && d == [d[0]] + d[1..];
      forall x ensures x in c[1..] <==> x in d[1..] {
        assert x in c <==> x == c[0] || x in c[1..];
        assert x in d <==> x == d[0] || x in d[1..];
      }
      SameElementsSameTuple(c[1..], d[1..], c[0] + 1, n);
    }
  }

  /** Included index tuples are no longer, and of the same length only when equal. */
  lemma {:induction false} IncludedIsShorter(c: seq<nat>, d: seq<nat>, n: nat)
    requires Increasing(c, 0, n) && Increasing(d, 0, n) && Includes(c, d)
    ensures |d| <= |c|
    ensures |d| == |c| ==> d == c
  {
    LaterIndicesAreLarger(c, 0, n);
    LaterIndicesAreLarger(d, 0, n);
    DistinctSize(c);
    DistinctSize(d);
    SubsetSize(ElementsOf(d), ElementsOf(c));
    if |d| == |c| {
      forall x | x in c ensures x in d {
        if x !in d {
          SubsetSize(ElementsOf(d), ElementsOf(c) - {x});
        }
      }
      SameElementsSameTuple(c, d, 0, n);
    }
  }

  lemma {:induction false} IncludesTransitive(c: seq<nat>, d: seq<nat>, e: seq<nat>)
    requires Includes(c, d) && Includes(d, e)
    ensures Includes(c, e)
  {
    forall i | 0 <= i < |e| ensures e[i] in c {
      var j :| 0 <= j < |d| && d[j] == e[i];
      assert d[j] in c;
    }
  }

  /** What has been found so far: all minimal cores below `size`, and of that size those already met. */
  ghost predicate FoundSoFar<W>(rules: seq<W -> bool>, universe: seq<W>, cores: seq<seq<nat>>, size: nat,
                                met: seq<seq<nat>>) {
    && Distinct(cores)
    && forall c :: c in cores <==> c != [] && MinimalCore(rules, universe, c) && (|c| < size || c in met)
  }

  /** Pruning: among the tuples of one size, those that include no smaller core are the candidates. */
  lemma {:induction false} CandidateIsMinimal<W>(rules: seq<W -> bool>, universe: seq<W>, cores: seq<seq<nat>>,
                                                 size: nat, met: seq<seq<nat>>, c: seq<nat>)
    requires universe != [] && FoundSoFar(rules, universe, cores, size, met)
    requires |c| == size > 0 && Increasing(c, 0, |rules|) && c !in met
    requires forall m :: m in met ==> |m| == size
    ensures (exists core :: core in cores && Includes(c, core)) ==> !MinimalCore(rules, universe, c)
    ensures (forall core :: core in cores ==> !Includes(c, core)) ==>
              (MinimalCore(rules, universe, c) <==> Contradictory(rules, universe, c))
  {
    if core :| core in cores && Includes(c, core) {
      IncludedIsShorter(c, core, |rules|);
      assert core != c;
    }
    if (forall core :: core in cores ==> !Includes(c, core)) && Contradictory(rules, universe, c) {
      var core := SmallestCore(rules, universe, c);
      IncludedIsShorter(c, core, |rules|);
    }
  }

  /** In a nonempty universe every contradictory set of rules includes a minimal core. */
  lemma {:induction false} SmallestCore<W>(rules: seq<W -> bool>, universe: seq<W>,
                                           c: seq<nat>) returns (core: seq<nat>)
    requires universe != [] && Increasing(c, 0, |rules|) && Contradictory(rules, universe, c)
    ensures core != [] && MinimalCore(rules, universe, core) && Includes(c, core)
    decreases |c|
  {
    assert Holds(rules, [], universe[0]);
    assert Includes(c, c);
    if MinimalCore(rules, universe, c) {
      core := c;
    } else {
      var d: seq<nat> :| Increasing(d, 0, |rules|) && Includes(c, d) && d != c && Contradictory(rules, universe, d);
      IncludedIsShorter(c, d, |rules|);
      core := SmallestCore(rules, universe, d);
      IncludesTransitive(c, d, core);
    }
  }

  lemma {:induction false} NextSize<W>(rules: seq<W -> bool>, universe: seq<W>, cores: seq<seq<nat>>, size: nat)
    requires FoundSoFar(rules, universe, cores, size, Combinations(0, |rules|, size))
    ensures FoundSoFar(rules, universe, cores, size + 1, [])
  {
    forall c ensures c in cores <==> c != [] && MinimalCore(rules, universe, c) && |c| < size + 1 {
      CombinationMember(0, |rules|, size, c);
    }
  }

  lemma {:induction false} IncreasingIsShort(c: seq<nat>, lo: nat, n: nat)
    requires Increasing(c, lo, n) && lo <= n
    ensures |c| <= n - lo
  {
    if c != [] {
      IncreasingIsShort(c[1..], c[0] + 1, n);
    }
  }

  /** Meeting one more tuple of the current size, pruned or tested as the search does. */
  lemma {:induction false} MeetOne<W>(rules: seq<W -> bool>, universe: seq<W>, cores: seq<seq<nat>>, size: nat, t: nat)
    requires universe != [] && size > 0 && t < |Combinations(0, |rules|, size)|
    requires FoundSoFar(rules, universe, cores, size, Combinations(0, |rules|, size)[..t])
    ensures var tuples := Combinations(0, |rules|, size);
            var found := (forall core :: core in cores ==> !Includes(tuples[t], core))
                && Contradictory(rules, universe, tuples[t]);
            FoundSoFar(rules, universe, if found then cores + [tuples[t]] else cores, size, tuples[..t + 1])
  {
    var tuples := Combinations(0, |rules|, size);
    var c := tuples[t];
    CombinationMember(0, |rules|, size, c);
    CombinationsDiffer(0, |rules|, size);
    hide Contradictory, Combinations;
    assert c in tuples && c !in tuples[..t];
    forall m | m in tuples[..t] ensures |m| == size {
      CombinationMember(0, |rules|, size, m);
    }
    assert forall m :: m in tuples[..t + 1] <==> m in tuples[..t] || m == c;
    CandidateIsMinimal(rules, universe, cores, size, tuples[..t], c);
    assert c !in cores;
    ConcatDistinct(cores, [c]);
  }

  lemma {:induction false} AllSizesMet<W>(rules: seq<W -> bool>, universe: seq<W>, cores: seq<seq<nat>>)
    requires universe != [] && FoundSoFar(rules, universe, cores, |rules| + 1, [])
    ensures forall c :: c in cores <==> MinimalCore(rules, universe, c)
  {
    assert Holds(rules, [], universe[0]);
    forall c | MinimalCore(rules, universe, c) ensures c in cores {
      IncreasingIsShort(c, 0, |rules|);
    }
  }

  lemma {:induction false} NothingFound<W>(rules: seq<W -> bool>, universe: seq<W>)
    ensures FoundSoFar(rules, universe, [], 1, [])
  {
  }

  lemma {:induction false} FoundAreDistinct<W>(rules: seq<W -> bool>, universe: seq<W>, cores: seq<seq<nat>>, size: nat)
    requires FoundSoFar(rules, universe, cores, size, [])
    ensures Distinct(cores)
  {
  }

  /** The pruned, size-ordered search finds exactly the minimal contradictory sets, each once. */
  method FindCores<W(==)>(rules: seq<W -> bool>, universe: seq<W>) returns (cores: seq<seq<nat>>)
    requires universe != []
    ensures Distinct(cores)
    ensures forall c :: c in cores <==> MinimalCore(rules, universe, c)
  {
    hide MinimalCore, FoundSoFar, Contradictory;
    cores := [];
    NothingFound(rules, universe);
    for size := 1 to |rules| + 1
      invariant FoundSoFar(rules, universe, cores, size, [])
    {
      var tuples := Combinations(0, |rules|, size);
      assert tuples[..0] == [];
      for t := 0 to |tuples|
        invariant FoundSoFar(rules, universe, cores, size, tuples[..t])
      {
        MeetOne(rules, universe, cores, size, t);
        if exists k :: 0 <= k < |cores| && Includes(tuples[t], cores[k]) {
          continue;
        }
        assert forall core :: core in cores ==> !Includes(tuples[t], core);
        if Contradictory(rules, universe, tuples[t]) {
          cores := cores + [tuples[t]];
        }
      }
      assert tuples[..|tuples|] == tuples;
      NextSize(rules, universe, cores, size);
    }
    FoundAreDistinct(rules, universe, cores, |rules| + 1);
    AllSizesMet(rules, universe, cores);
  }

  /** A set of rules is contradictory exactly when it includes one of the cores found. */
  lemma {:induction false} ContradictoryIffCoreIncluded<W>(rules: seq<W -> bool>, universe: seq<W>,
                                                           cores: seq<seq<nat>>, c: seq<nat>)
    requires universe != [] && Increasing(c, 0, |rules|)
    requires forall core :: core in cores <==> MinimalCore(rules, universe, core)
    ensures Contradictory(rules, universe, c) <==> exists core :: core in cores && Includes(c, core)
  {
    if Contradictory(rules, universe, c) {
      var core := SmallestCore(rules, universe, c);
    }
    if core :| core in cores && Includes(c, core) {
      FewerRulesHoldMore(rules, universe, c, core);
    }
  }

  /** `itertools.product((0, 1), repeat=n)` */
  function BitStrings(n: nat): seq<seq<nat>> {
    if n == 0 then [[]] else Prepend(0, BitStrings(n - 1)) + Prepend(1, BitStrings(n - 1))
  }

  predicate Bits(w: seq<nat>, n: nat) {
    |w| == n && forall i :: 0 <= i < n ==> w[i] <= 1
  }

  lemma {:induction false} BitStringMember(n: nat, w: seq<nat>)
    ensures w in BitStrings(n) <==> Bits(w, n)
  {
    if n > 0 {
      PrependMember(0, BitStrings(n - 1), w);
      PrependMember(1, BitStrings(n - 1), w);
      if w != [] {
        BitStringMember(n - 1, w[1..]);
        assert Bits(w, n) <==> w[0] <= 1 && Bits(w[1..], n - 1);
      }
    } else {
      assert Bits(w, 0) <==> w == [];
    }
  }

  function Bit(w: seq<nat>, i: nat): nat {
    if i < |w| then w[i] else 0
  }

  /** `_rules`: U1 to U5, and U6 as the added sixth rule. */
  function LogicRules(): (rules: seq<seq<nat> -> bool>)
    ensures |rules| == 6
  {
    [ (w: seq<nat>) => Bit(w, 0) != 0 || Bit(w, 1) != 0,
      (w: seq<nat>) => Bit(w, 1) == Bit(w, 2),
      (w: seq<nat>) => !(Bit(w, 2) != 0 && Bit(w, 3) != 0),
      (w: seq<nat>) => Bit(w, 0) + Bit(w, 3) + Bit(w, 4) >= 2,
      (w: seq<nat>) => Bit(w, 4) != Bit(w, 5),
      (w: seq<nat>) => Bit(w, 0) == 0 ]
  }

  /** A world that breaks rule `i` alone, for each rule except U5. */
  function Breaks(i: nat): seq<nat> {
    match i
    case 0 => [0, 0, 0, 1, 1, 0]
    case 1 => [0, 1, 0, 1, 1, 0]
    case 2 => [0, 1, 1, 1, 1, 0]
    case 3 => [0, 1, 1, 0, 1, 0]
    case _ => [1, 0, 0, 1, 1, 0]
  }

  /** All assignments to the six variables. */
  ghost predicate AllWorlds(universe: seq<seq<nat>>) {
    forall w :: w in universe <==> Bits(w, 6)
  }

  /** The worlds that the first five rules allow, and none of them satisfies the sixth. */
  lemma {:induction false} FourWorlds(w: seq<nat>)
    requires Bits(w, 6)
    ensures (forall i :: 0 <= i < 5 ==> LogicRules()[i](w)) <==>
            w in [[1, 1, 1, 0, 1, 0], [1, 0, 0, 1, 0, 1], [1, 0, 0, 1, 1, 0], [1, 0, 0, 0, 1, 0]]
    ensures LogicRules()[5](w) <==> w[0] == 0
  {
    var rules := LogicRules();
    assert w == [w[0], w[1], w[2], w[3], w[4], w[5]];
    assert (forall i :: 0 <= i < 5 ==> rules[i](w)) <==>
           rules[0](w) && rules[1](w) && rules[2](w) && rules[3](w) && rules[4](w);
  }

  lemma {:induction false} OnlyRuleBroken(universe: seq<seq<nat>>, i: nat, c: seq<nat>)
    requires AllWorlds(universe) && i in [0, 1, 2, 3, 5] && Increasing(c, 0, 6) && i !in c
    ensures !Contradictory(LogicRules(), universe, c)
  {
    var w := Breaks(i);
    assert Bits(w, 6);
    var k :| 0 <= k < |universe| && universe[k] == w;
    LaterIndicesAreLarger(c, 0, 6);
    forall j | 0 <= j < |c| ensures LogicRules()[c[j]](w) {
      assert c[j] in c && c[j] != i;
    }
    assert Holds(LogicRules(), c, w);
  }

  lemma {:induction false} CoreIsContradictory(universe: seq<seq<nat>>)
    requires AllWorlds(universe)
    ensures Contradictory(LogicRules(), universe, [0, 1, 2, 3, 5])
  {
    var c := [0, 1, 2, 3, 5];
    forall k | 0 <= k < |universe| ensures !Holds(LogicRules(), c, universe[k]) {
      var w := universe[k];
      assert w in universe && Bits(w, 6);
      var i := if w[0] == 1 then 4 else if w[1] == 0 then 0 else if w[2] == 0 then 1 else if w[3] == 1 then 2 else 3;
      assert !LogicRules()[c[i]](w);
    }
  }

  /** The answer key of every generated case: U1, U2, U3, U4 and U6 form the one minimal core. */
  lemma {:induction false} LogicCore(universe: seq<seq<nat>>, c: seq<nat>)
    requires AllWorlds(universe)
    ensures MinimalCore(LogicRules(), universe, c) <==> c == [0, 1, 2, 3, 5]
  {
    var core := [0, 1, 2, 3, 5];
    CoreIsContradictory(universe);
    assert Increasing(core, 0, 6);
    forall d: seq<nat> | Increasing(d, 0, 6) && Includes(core, d) && d != core
      ensures !Contradictory(LogicRules(), universe, d)
    {
      if forall i :: i in core ==> i in d {
        assert Includes(d, core);
        IncludedIsShorter(core, d, 6);
        IncludedIsShorter(d, core, 6);
      } else {
        var i :| i in core && i !in d;
        OnlyRuleBroken(universe, i, d);
      }
    }
    if MinimalCore(LogicRules(), universe, c) {
      forall i | i in core ensures i in c {
        if i !in c {
          OnlyRuleBroken(universe, i, c);
        }
      }
      assert Includes(c, core);
    }
  }

  /** `minimal_cores` as the answer key computes it. */
  method LogicCores(universe: seq<seq<nat>>) returns (cores: seq<seq<nat>>)
    requires universe == BitStrings(6)
    ensures cores == [[0, 1, 2, 3, 5]]
  {
    forall w ensures w in universe <==> Bits(w, 6) {
      BitStringMember(6, w);
    }
    assert Bits(Breaks(0), 6);
    cores := FindCores(LogicRules(), universe);
    LogicCore(universe, [0, 1, 2, 3, 5]);
    forall i | 0 <= i < |cores| ensures cores[i] == [0, 1, 2, 3, 5] {
      assert cores[i] in cores;
      LogicCore(universe, cores[i]);
    }
    DistinctSize(cores);
    assert ElementsOf(cores) == {[0, 1, 2, 3, 5]};
  }
}
