/** bench/step_acceptance.py: accepted-token histograms between counter scrapes, and their profile. */
module Acceptance {
  import opened Wrappers

  type Labels = map<string, string>

  /** The `spec_k` label of a lane: its text, and what Python's `int` makes of it. */
  datatype SpecK = SpecK(text: string, value: Option<int>)

  /** One scrape: lane series, histogram groups with their bins, and the two aggregate counters. */
  datatype Scrape = Scrape(lanes: map<Labels, nat>, ks: set<SpecK>, groups: map<Labels, map<nat, nat>>,
                           accepted: map<Labels, nat>, drafted: map<Labels, nat>)

  datatype Histogram = Histogram(k: Option<int>, bins: seq<nat>)

  /** The `spec_k` labels belong to the lane labels, and a group exists because a bin named it. */
  ghost predicate Parsed(a: Scrape, b: Scrape) {
    && (a.lanes == b.lanes ==> a.ks == b.ks)
    && (forall g :: g in a.groups ==> a.groups[g] != map[])
    && (forall g :: g in b.groups ==> b.groups[g] != map[])
  }

  function Get(bins: map<nat, nat>, i: nat): nat {
    if i in bins then bins[i] else 0
  }

  function TheLabel(ks: set<SpecK>): SpecK
    requires |ks| == 1
  {
    OneLabel(ks);
    var x :| x in ks;
    x
  }

  /** Which draft length applies: the recorded one, which a given one must equal, else the given one. */
  function ResolveK(ks: set<SpecK>, k: Option<int>): Result<Option<int>, string> {
    if |ks| > 1 then Err("mixed spec_k values")
    else if ks == {} then Positive(k)
    else
      var recorded := TheLabel(ks).value;
      if recorded.None? then Err("spec_k is not an integer")
      else if k.Some? && k != recorded then Err("--k disagrees with recorded spec_k")
      else Positive(recorded)
  }

  function Positive(k: Option<int>): Result<Option<int>, string> {
    if k.Some? && k.value < 1 then Err("spec_k must be positive") else Ok(k)
  }

  /** The scrapes must agree on one draft length, a given one with theirs, and it must be positive. */
  lemma {:induction false} LengthAnswer(ks: set<SpecK>, k: Option<int>)
    ensures ResolveK(ks, k).Ok? <==>
            && (forall x, y :: x in ks && y in ks ==> x == y)
            && (forall x :: x in ks ==> x.value.Some? && x.value.value >= 1 && (k.Some? ==> k.value == x.value.value))
            && (ks == {} && k.Some? ==> k.value >= 1)
    ensures ResolveK(ks, k).Ok? ==>
              (forall x :: x in ks ==> ResolveK(ks, k).value == x.value) && (ks == {} ==> ResolveK(ks, k).value == k)
  {
    if |ks| > 1 {
      var x :| x in ks;
      assert |ks - {x}| > 0;
      var y :| y in ks - {x};
    } else if ks != {} {
      OneLabel(ks);
    }
  }

  /** A counter family that is absent from both scrapes counts nothing; else a group's count is its change. */
  lemma {:induction false} CountedAnswer(left: map<Labels, nat>, right: map<Labels, nat>, groups: set<Labels>,
                                         g: Labels)
    requires FamilyOk(left, right, groups) && g in groups
    ensures Counted(left, right, g) ==
              if left == map[] && right == map[] then None else Some(right[g] as int - left[g] as int)
    ensures Counted(left, right, g).Some? ==> Counted(left, right, g).value >= 0
  {
  }

  lemma {:induction false} OneLabel(ks: set<SpecK>)
    requires 0 < |ks| <= 1
    ensures forall x, y :: x in ks && y in ks ==> x == y
  {
    var x :| x in ks;
    assert |ks - {x}| == 0;
    forall y | y in ks ensures y == x {
      assert y in ks - {x} || y == x;
    }
  }

  /** The first position that no bin of the group reaches. */
  function Top(bins: map<nat, nat>): (top: nat)
    ensures forall i :: i in bins ==> i < top
    ensures bins != map[] ==> top > 0 && top - 1 in bins
  {
    TopExists(bins.Keys);
    if bins == map[] then 0
    else
      var m :| m in bins && forall i :: i in bins ==> i <= m;
      m + 1
  }

  lemma {:induction false} TopExists(s: set<nat>)
    ensures s != {} ==> exists m :: m in s && forall i :: i in s ==> i <= m
  {
    if s != {} {
      var m := Greatest(s);
    }
  }

  lemma {:induction false} Greatest(s: set<nat>) returns (m: nat)
    requires s != {}
    ensures m in s && forall i :: i in s ==> i <= m
  {
    m :| m in s;
    var rest := s - {m};
    assert forall i :: i in s <==> i == m || i in rest;
    if rest != {} {
      var n := Greatest(rest);
      m := Larger(m, n);
    }
  }

  function Larger(a: nat, b: nat): nat { if a < b then b else a }

  /** The change of one bin. */
  function Change(before: map<nat, nat>, after: map<nat, nat>, i: nat): int {
    Get(after, i) - Get(before, i)
  }

  /** Rows and accepted tokens counted by the first `n` bins of a group between the scrapes. */
  function RowsBelow(before: map<nat, nat>, after: map<nat, nat>, n: nat): int {
    if n == 0 then 0 else RowsBelow(before, after, n - 1) + Change(before, after, n - 1)
  }

  function TokensBelow(before: map<nat, nat>, after: map<nat, nat>, n: nat): int {
    if n == 0 then 0 else TokensBelow(before, after, n - 1) + (n - 1) * Change(before, after, n - 1)
  }

  /** The rows of the first `n` bins that accepted `i` tokens or more, summed over the positions `i` from 1 to `m`. */
  function RowsReaching(before: map<nat, nat>, after: map<nat, nat>, n: nat, m: nat): int {
    if m == 0 then 0
    else RowsReaching(before, after, n, m - 1) + (RowsBelow(before, after, n) - RowsBelow(before, after, m))
  }

  /** The accepted tokens are the rows that reached each position, added up. */
  lemma {:induction false} TokensAreReached(before: map<nat, nat>, after: map<nat, nat>, n: nat)
    ensures TokensBelow(before, after, n) == RowsReaching(before, after, n, n)
  {
    if n > 0 {
      TokensAreReached(before, after, n - 1);
      ReachingGrows(before, after, n, n - 1);
    }
  }

  lemma {:induction false} ReachingGrows(before: map<nat, nat>, after: map<nat, nat>, n: nat, m: nat)
    requires n > 0
    ensures RowsReaching(before, after, n, m) ==
            RowsReaching(before, after, n - 1, m) + m * Change(before, after, n - 1)
  {
    if m > 0 {
      ReachingGrows(before, after, n, m - 1);
      assert m * Change(before, after, n - 1) == (m - 1) * Change(before, after, n - 1) + Change(before, after, n - 1);
    }
  }

  function Span(before: map<nat, nat>, after: map<nat, nat>): nat {
    Larger(Top(before), Top(after))
  }

  /** No bin lost counts, none lies beyond the draft length, and the bins agree with the counters. */
  ghost predicate GroupOk(before: map<nat, nat>, after: map<nat, nat>, k: Option<int>, accepted: Option<int>,
                          drafted: Option<int>) {
    && (forall i :: Get(before, i) <= Get(after, i))
    && (k.Some? ==> forall i: nat :: i > k.value ==> Get(before, i) == 0 && Get(after, i) == 0)
    && (accepted.Some? ==> TokensBelow(before, after, Span(before, after)) == accepted.value)
    && (drafted.Some? && k.Some? ==> RowsBelow(before, after, Span(before, after)) * k.value == drafted.value)
  }

  /** A counter family that is absent from both scrapes, or present for every group and not reset. */
  ghost predicate FamilyOk(left: map<Labels, nat>, right: map<Labels, nat>, groups: set<Labels>) {
    (left == map[] && right == map[]) ||
    (left.Keys == groups && right.Keys == groups && forall g :: g in left ==> left[g] <= right[g])
  }

  function Counted(left: map<Labels, nat>, right: map<Labels, nat>, g: Labels): Option<int> {
    if g in left && g in right then
      Some(right[g] as int - left[g] as int)
    else None
  }

  /** The complete interval is valid. */
  ghost predicate IntervalOk(a: Scrape, b: Scrape, given: Option<int>) {
    var k := ResolveK(a.ks, given);
    && HeaderOk(a, b, given)
    && GroupsOk(a, b, k.value, a.groups.Keys)
  }

  ghost predicate GroupsOk(a: Scrape, b: Scrape, k: Option<int>, groups: set<Labels>)
    requires groups <= a.groups.Keys && groups <= b.groups.Keys
  {
    forall g :: g in groups ==> OneGroupOk(a, b, k, g)
  }

  ghost predicate OneGroupOk(a: Scrape, b: Scrape, k: Option<int>, g: Labels)
    requires g in a.groups && g in b.groups
  {
    GroupOk(a.groups[g], b.groups[g], k, Counted(a.accepted, b.accepted, g), Counted(a.drafted, b.drafted, g))
  }

  /** The change of one bin over all these groups. */
  ghost function Combined(groups: set<Labels>, a: Scrape, b: Scrape, i: nat): int
    requires groups <= a.groups.Keys && groups <= b.groups.Keys
  {
    if groups == {} then 0
    else
      var g :| g in groups;
      Change(a.groups[g], b.groups[g], i) + Combined(groups - {g}, a, b, i)
  }

  lemma {:induction false} CombinedSplit(groups: set<Labels>, a: Scrape, b: Scrape, i: nat, g: Labels)
    requires groups <= a.groups.Keys && groups <= b.groups.Keys && g in groups
    ensures Combined(groups, a, b, i) == Change(a.groups[g], b.groups[g], i) + Combined(groups - {g}, a, b, i)
  {
    var h :| h in groups && Combined(groups, a, b, i) == Change(a.groups[h], b.groups[h], i)
        + Combined(groups - {h}, a, b, i);
    if h != g {
      CombinedSplit(groups - {h}, a, b, i, g);
      CombinedSplit(groups - {g}, a, b, i, h);
      assert groups - {h} - {g} == groups - {g} - {h};
    }
  }

  /** Telescoping: changes over adjacent intervals add up. */
  lemma {:induction false} CombinedTelescopes(groups: set<Labels>, a: Scrape, b: Scrape, c: Scrape, i: nat)
    requires groups <= a.groups.Keys && groups <= b.groups.Keys && groups <= c.groups.Keys
    ensures Combined(groups, a, c, i) == Combined(groups, a, b, i) + Combined(groups, b, c, i)
  {
    if groups != {} {
      var g :| g in groups;
      CombinedSplit(groups, a, b, i, g);
      CombinedSplit(groups, b, c, i, g);
      CombinedSplit(groups, a, c, i, g);
      CombinedTelescopes(groups - {g}, a, b, c, i);
    }
  }

  lemma {:induction false} BelowTelescopes(x: map<nat, nat>, y: map<nat, nat>, z: map<nat, nat>, n: nat)
    ensures RowsBelow(x, z, n) == RowsBelow(x, y, n) + RowsBelow(y, z, n)
    ensures TokensBelow(x, z, n) == TokensBelow(x, y, n) + TokensBelow(y, z, n)
  {
    if n > 0 {
      BelowTelescopes(x, y, z, n - 1);
      TokensTelescope(n - 1, Change(x, y, n - 1), Change(y, z, n - 1), Change(x, z, n - 1));
    }
  }

  lemma {:induction false} TokensTelescope(m: nat, p: int, q: int, r: int)
    requires r == p + q
    ensures m * r == m * p + m * q
  {
  }

  lemma {:induction false} BeyondSpan(x: map<nat, nat>, y: map<nat, nat>, n: nat)
    requires n >= Span(x, y)
    ensures RowsBelow(x, y, n) == RowsBelow(x, y, Span(x, y)) && TokensBelow(x, y, n) == TokensBelow(x, y, Span(x, y))
  {
    if n > Span(x, y) {
      BeyondSpan(x, y, n - 1);
      assert Change(x, y, n - 1) == 0;
    }
  }

  lemma {:induction false} GroupTelescopes(x: map<nat, nat>, y: map<nat, nat>, z: map<nat, nat>, k: Option<int>,
                                           a1: Option<int>, a2: Option<int>, d1: Option<int>, d2: Option<int>)
    requires GroupOk(x, y, k, a1, d1) && GroupOk(y, z, k, a2, d2)
    requires a1.Some? == a2.Some? && d1.Some? == d2.Some?
    ensures GroupOk(x, z, k, if a1.Some? then Some(a1.value + a2.value) else None,
                    if d1.Some? then Some(d1.value + d2.value) else None)
  {
    hide RowsBelow, TokensBelow, Span, Get;
    TotalsTelescope(x, y, z);
    forall i ensures Get(x, i) <= Get(z, i) {
      assert Get(x, i) <= Get(y, i) && Get(y, i) <= Get(z, i);
    }
    if k.Some? && d1.Some? {
      var p, q := RowsBelow(x, y, Span(x, y)), RowsBelow(y, z, Span(y, z));
      ProductAdds(p, q, k.value);
    }
  }

  /** The totals of a group over the joined interval are the sums of its totals. */
  lemma {:induction false} TotalsTelescope(x: map<nat, nat>, y: map<nat, nat>, z: map<nat, nat>)
    ensures RowsBelow(x, z, Span(x, z)) == RowsBelow(x, y, Span(x, y)) + RowsBelow(y, z, Span(y, z))
    ensures TokensBelow(x, z, Span(x, z)) == TokensBelow(x, y, Span(x, y)) + TokensBelow(y, z, Span(y, z))
  {
    hide RowsBelow, TokensBelow, Span;
    var n := Larger(Span(x, y), Larger(Span(y, z), Span(x, z)));
    BeyondSpan(x, y, n);
    BeyondSpan(y, z, n);
    BeyondSpan(x, z, n);
    BelowTelescopes(x, y, z, n);
  }

  lemma {:induction false} ProductAdds(p: int, q: int, k: int)
    ensures (p + q) * k == p * k + q * k
  {
  }

  /** Two valid adjacent intervals make one valid interval: endpoint subtraction hides nothing. */
  lemma {:induction false} IntervalsJoin(a: Scrape, b: Scrape, c: Scrape, k: Option<int>)
    requires Parsed(a, b) && Parsed(b, c) && IntervalOk(a, b, k) && IntervalOk(b, c, k)
    ensures IntervalOk(a, c, k)
  {
    FamiliesJoin(a.accepted, b.accepted, c.accepted, a.groups.Keys);
    FamiliesJoin(a.drafted, b.drafted, c.drafted, a.groups.Keys);
    forall g | g in a.groups.Keys ensures OneGroupOk(a, c, ResolveK(a.ks, k).value, g) {
      OneGroupJoins(a, b, c, ResolveK(a.ks, k).value, g);
    }
  }

  lemma {:induction false} OneGroupJoins(a: Scrape, b: Scrape, c: Scrape, k: Option<int>, g: Labels)
    requires g in a.groups && g in b.groups && g in c.groups
    requires OneGroupOk(a, b, k, g) && OneGroupOk(b, c, k, g)
    requires CountsAdd(a.accepted, b.accepted, c.accepted, g) && CountsAdd(a.drafted, b.drafted, c.drafted, g)
    ensures OneGroupOk(a, c, k, g)
  {
    GroupTelescopes(a.groups[g], b.groups[g], c.groups[g], k,
                    Counted(a.accepted, b.accepted, g), Counted(b.accepted, c.accepted, g),
                    Counted(a.drafted, b.drafted, g), Counted(b.drafted, c.drafted, g));
  }

  /** A counter's change over the joined interval is the sum of its changes, or it is absent throughout. */
  ghost predicate CountsAdd(x: map<Labels, nat>, y: map<Labels, nat>, z: map<Labels, nat>, g: Labels) {
    var p, q, r := Counted(x, y, g), Counted(y, z, g), Counted(x, z, g);
    p.Some? == q.Some? == r.Some? && (p.Some? ==> r.value == p.value + q.value)
  }

  lemma {:induction false} IntervalChangesAdd(a: Scrape, b: Scrape, c: Scrape, i: nat)
    requires a.groups.Keys == b.groups.Keys == c.groups.Keys
    ensures Combined(a.groups.Keys, a, c, i) == Combined(a.groups.Keys, a, b, i) + Combined(b.groups.Keys, b, c, i)
  {
    CombinedTelescopes(a.groups.Keys, a, b, c, i);
  }

  lemma {:induction false} FamiliesJoin(x: map<Labels, nat>, y: map<Labels, nat>, z: map<Labels, nat>,
                                        groups: set<Labels>)
    requires FamilyOk(x, y, groups) && FamilyOk(y, z, groups) && groups != {}
    ensures FamilyOk(x, z, groups)
    ensures forall g :: g in groups ==> CountsAdd(x, y, z, g)
  {
    if x == map[] || z == map[] {
      var g :| g in groups;
      assert x.Keys == {} || z.Keys == {};
      assert g !in x.Keys || g !in z.Keys;
    }
    forall g | g in groups ensures x.Keys == groups ==> g in y && g in z && x[g] <= z[g] {
      assert x.Keys == groups ==> x[g] <= y[g] <= z[g];
    }
  }

  // ---- the histogram loop

  function Sum(combined: map<nat, int>, i: nat): int {
    if i in combined then combined[i] else 0
  }

  /** The first `n` bins kept their counts and do not exceed the draft length. */
  ghost predicate BinsOk(before: map<nat, nat>, after: map<nat, nat>, k: Option<int>, n: nat) {
    forall j: nat :: j < n ==> BinOk(before, after, k, j)
  }

  predicate BinOk(before: map<nat, nat>, after: map<nat, nat>, k: Option<int>, j: nat) {
    Get(before, j) <= Get(after, j) && (k.Some? && j > k.value ==> Get(before, j) == 0 && Get(after, j) == 0)
  }

  lemma {:induction false} BinsBeyond(before: map<nat, nat>, after: map<nat, nat>, k: Option<int>)
    ensures BinsOk(before, after, k, Span(before, after)) <==> GroupOk(before, after, k, None, None)
  {
    if BinsOk(before, after, k, Span(before, after)) {
      forall j: nat
        ensures Get(before, j) <= Get(after, j)
        ensures k.Some? && j > k.value ==> Get(before, j) == 0 && Get(after, j) == 0
      {
        if j >= Span(before, after) {
          assert j !in before && j !in after;
        } else {
          assert BinOk(before, after, k, j);
        }
      }
    }
    if GroupOk(before, after, k, None, None) {
      forall j: nat | j < Span(before, after) ensures BinOk(before, after, k, j) {
        assert Get(before, j) <= Get(after, j);
      }
    }
  }

  /** The changes of the bins below `n` have been added. */
  ghost predicate Added(combined0: map<nat, int>, combined: map<nat, int>, before: map<nat, nat>, after: map<nat, nat>,
                        n: nat) {
    && (forall j: nat :: Sum(combined, j) == Sum(combined0, j) + if j < n then Change(before, after, j) else 0)
    && (forall j: nat :: j in combined <==> j in combined0 || (j < n && (j in before || j in after)))
  }

  lemma {:induction false} AddBin(combined0: map<nat, int>, combined: map<nat, int>, before: map<nat, nat>,
                                  after: map<nat, nat>, n: nat)
    requires Added(combined0, combined, before, after, n)
    ensures Added(combined0,
                  if n in before || n in after then combined[n := Sum(combined, n) + Change(before, after, n)]
                    else combined,
                  before, after, n + 1)
  {
  }

  datatype Totals = Totals(combined: map<nat, int>, rows: int, tokens: int)

  /** The bins of one group: each is checked and added to the combined ones. */
  method AddBins(before: map<nat, nat>, after: map<nat, nat>, k: Option<int>, combined0: map<nat, int>)
    returns (r: Result<Totals, string>)
    ensures r.Ok? <==> BinsOk(before, after, k, Span(before, after))
    ensures r.Ok? ==> Added(combined0, r.value.combined, before, after, Span(before, after))
    ensures r.Ok? ==> r.value.rows == RowsBelow(before, after, Span(before, after))
    ensures r.Ok? ==> r.value.tokens == TokensBelow(before, after, Span(before, after))
  {
    var combined: map<nat, int> := combined0;
    var rows, tokens := 0, 0;
    for i := 0 to Span(before, after)
      invariant rows == RowsBelow(before, after, i) && tokens == TokensBelow(before, after, i)
      invariant BinsOk(before, after, k, i) && Added(combined0, combined, before, after, i)
    {
      AddBin(combined0, combined, before, after, i);
      if i in before || i in after {
        var v0, v1 := Get(before, i), Get(after, i);
        if v1 < v0 {
          assert !BinOk(before, after, k, i);
          return Err("acceptance bucket reset/disappeared between scrapes");
        }
        if k.Some? && i > k.value && (v0 != 0 || v1 != 0) {
          assert !BinOk(before, after, k, i);
          return Err("accepted position exceeds spec_k");
        }
        combined := combined[i := Sum(combined, i) + (v1 - v0)];
        rows := rows + (v1 - v0);
        tokens := tokens + i * (v1 - v0);
      } else {
        assert i * Change(before, after, i) == 0;
      }
    }
    r := Ok(Totals(combined, rows, tokens));
  }

  lemma {:induction false} GroupParts(before: map<nat, nat>, after: map<nat, nat>, k: Option<int>,
                                      accepted: Option<int>, drafted: Option<int>)
    ensures GroupOk(before, after, k, accepted, drafted) <==>
              && GroupOk(before, after, k, None, None)
              && (accepted.Some? ==> TokensBelow(before, after, Span(before, after)) == accepted.value)
              && (drafted.Some? && k.Some? ==> RowsBelow(before, after, Span(before, after)) * k.value == drafted.value)
  {
  }

  /** One group: its bins, then its totals against the counters. */
  method CheckGroup(before: map<nat, nat>, after: map<nat, nat>, k: Option<int>, accepted: Option<int>,
                    drafted: Option<int>,
                    combined0: map<nat, int>) returns (r: Result<map<nat, int>, string>)
    ensures r.Ok? <==> GroupOk(before, after, k, accepted, drafted)
    ensures r.Ok? ==> Added(combined0, r.value, before, after, Span(before, after))
  {
    hide Span, RowsBelow, TokensBelow, Added, BinsOk, GroupOk;
    BinsBeyond(before, after, k);
    GroupParts(before, after, k, accepted, drafted);
    var sums := AddBins(before, after, k, combined0);
    if sums.Err? {
      return Err(sums.error);
    }
    if accepted.Some? && sums.value.tokens != accepted.value {
      return Err("histogram does not cover accepted-token counter delta");
    }
    if drafted.Some? && k.Some? && sums.value.rows * k.value != drafted.value {
      return Err("histogram does not cover drafted-token counter delta");
    }
    r := Ok(sums.value.combined);
  }

  method CheckFamily(left: map<Labels, nat>, right: map<Labels, nat>, groups: set<Labels>) returns (ok: bool)
    ensures ok <==> FamilyOk(left, right, groups)
  {
    if left == map[] && right == map[] {
      return true;
    }
    return left.Keys == groups && right.Keys == groups && forall g :: g in left ==> left[g] <= right[g];
  }

  /** The position just past every bin named in either scrape. */
  ghost predicate IsLength(a: Scrape, b: Scrape, n: nat)
    requires a.groups.Keys == b.groups.Keys
  {
    n > 0 && Named(a, b, a.groups.Keys, n - 1) && forall i: nat :: Named(a, b, a.groups.Keys, i) ==> i < n
  }

  /** The positions 0..k of the draft length, or else up to the last bin that either scrape names. */
  ghost predicate HasLength(a: Scrape, b: Scrape, h: Histogram)
    requires a.groups.Keys == b.groups.Keys
  {
    if h.k.Some? then |h.bins| == h.k.value + 1 else IsLength(a, b, |h.bins|)
  }

  /** Bin by bin the change over all groups; with a draft length k, exactly the positions 0..k. */
  ghost predicate IsHistogram(a: Scrape, b: Scrape, given: Option<int>, h: Histogram)
    requires a.groups.Keys == b.groups.Keys
  {
    && ResolveK(a.ks, given) == Ok(h.k)
    && HasLength(a, b, h)
    && forall i :: 0 <= i < |h.bins| ==> h.bins[i] as int == Combined(a.groups.Keys, a, b, i)
  }

  lemma {:induction false} ChangesAreNatural(groups: set<Labels>, a: Scrape, b: Scrape, i: nat)
    requires groups <= a.groups.Keys && groups <= b.groups.Keys
    requires forall g :: g in groups ==> Get(a.groups[g], i) <= Get(b.groups[g], i)
    ensures Combined(groups, a, b, i) >= 0
  {
    if groups != {} {
      var g :| g in groups;
      CombinedSplit(groups, a, b, i, g);
      ChangesAreNatural(groups - {g}, a, b, i);
    }
  }

  /** The combined bins after these groups: their changes, at the positions that they name. */
  ghost predicate CombinedOk(combined: map<nat, int>, a: Scrape, b: Scrape, groups: set<Labels>)
    requires groups <= a.groups.Keys && groups <= b.groups.Keys
  {
    && (forall i: nat :: Sum(combined, i) == Combined(groups, a, b, i))
    && (forall i: nat :: i in combined <==> Named(a, b, groups, i))
  }

  ghost predicate Named(a: Scrape, b: Scrape, groups: set<Labels>, i: nat)
    requires groups <= a.groups.Keys && groups <= b.groups.Keys
  {
    exists g :: g in groups && (i in a.groups[g] || i in b.groups[g])
  }

  lemma {:induction false} CombineOne(a: Scrape, b: Scrape, done: set<Labels>, g: Labels, combined0: map<nat, int>,
                                      combined: map<nat, int>)
    requires done <= a.groups.Keys && done <= b.groups.Keys && g in a.groups && g in b.groups && g !in done
    requires CombinedOk(combined0, a, b, done)
    requires Added(combined0, combined, a.groups[g], b.groups[g], Span(a.groups[g], b.groups[g]))
    ensures CombinedOk(combined, a, b, done + {g})
  {
    var x, y := a.groups[g], b.groups[g];
    forall i: nat
      ensures Sum(combined, i) == Combined(done + {g}, a, b, i)
      ensures i in combined <==> Named(a, b, done + {g}, i)
    {
      CombinedSplit(done + {g}, a, b, i, g);
      assert done + {g} - {g} == done;
      if i >= Span(x, y) {
        assert i !in x && i !in y;
      }
      assert Named(a, b, done + {g}, i) <==> Named(a, b, done, i) || i in x || i in y;
    }
  }

  lemma {:induction false} NothingCombined(a: Scrape, b: Scrape)
    ensures CombinedOk(map[], a, b, {})
  {
  }

  method CombineGroups(a: Scrape, b: Scrape, k: Option<int>) returns (r: Result<map<nat, int>, string>)
    requires a.groups.Keys == b.groups.Keys
    ensures r.Ok? <==> GroupsOk(a, b, k, a.groups.Keys)
    ensures r.Ok? ==> CombinedOk(r.value, a, b, a.groups.Keys)
  {
    hide CombinedOk, Added, GroupOk;
    var combined: map<nat, int> := map[];
    NothingCombined(a, b);
    var todo := a.groups.Keys;
    ghost var done: set<Labels> := {};
    while todo != {}
      invariant todo <= a.groups.Keys && done == a.groups.Keys - todo
      invariant GroupsOk(a, b, k, done) && CombinedOk(combined, a, b, done)
      decreases |todo|
    {
      var g :| g in todo;
      var one := CheckGroup(a.groups[g], b.groups[g], k, Counted(a.accepted, b.accepted, g),
                            Counted(a.drafted, b.drafted, g), combined);
      if one.Err? {
        assert !OneGroupOk(a, b, k, g);
        return one;
      }
      assert OneGroupOk(a, b, k, g);
      CombineOne(a, b, done, g, combined, one.value);
      combined := one.value;
      todo, done := todo - {g}, done + {g};
    }
    assert done == a.groups.Keys;
    r := Ok(combined);
  }

  /** Everything about an interval but its bins. */
  ghost predicate HeaderOk(a: Scrape, b: Scrape, given: Option<int>) {
    && a.lanes == b.lanes && ResolveK(a.ks, given).Ok?
    && a.groups != map[] && a.groups.Keys == b.groups.Keys
    && FamilyOk(a.accepted, b.accepted, a.groups.Keys) && FamilyOk(a.drafted, b.drafted, a.groups.Keys)
  }

  method CheckHeader(a: Scrape, b: Scrape, given: Option<int>) returns (k: Result<Option<int>, string>)
    ensures k.Ok? <==> HeaderOk(a, b, given)
    ensures k.Ok? ==> k == ResolveK(a.ks, given)
  {
    if a.lanes != b.lanes {
      return Err("lane identity changed between scrapes");
    }
    k := ResolveK(a.ks, given);
    if k.Err? {
      return;
    }
    if a.groups == map[] || b.groups == map[] {
      if a.groups != map[] {
        assert a.groups.Keys != {} && b.groups.Keys == {};
      }
      return Err("acceptance histogram is missing");
    }
    if a.groups.Keys != b.groups.Keys {
      return Err("acceptance series groups changed between scrapes");
    }
    var accepted := CheckFamily(a.accepted, b.accepted, a.groups.Keys);
    var drafted := CheckFamily(a.drafted, b.drafted, a.groups.Keys);
    if !accepted || !drafted {
      return Err("counter groups do not match histogram, or reset");
    }
  }

  method ComputeHistogram(a: Scrape, b: Scrape, given: Option<int>) returns (r: Result<Histogram, string>)
    requires Parsed(a, b)
    ensures r.Ok? <==> IntervalOk(a, b, given)
    ensures r.Ok? ==> IsHistogram(a, b, given, r.value)
  {
    var k := CheckHeader(a, b, given);
    if k.Err? {
      return Err(k.error);
    }
    var combined := CombineGroups(a, b, k.value);
    if combined.Err? {
      return Err(combined.error);
    }
    PositiveLength(a.ks, given);
    r := Ok(Histogram(k.value, FillBins(a, b, k.value, combined.value)));
  }

  lemma {:induction false} PositiveLength(ks: set<SpecK>, given: Option<int>)
    ensures ResolveK(ks, given).Ok? && ResolveK(ks, given).value.Some? ==> ResolveK(ks, given).value.value >= 1
  {
  }

  /** The list of bins, from the combined ones of a valid interval. */
  function FillBins(a: Scrape, b: Scrape, k: Option<int>, combined: map<nat, int>): (bins: seq<nat>)
    requires Parsed(a, b) && a.groups != map[] && a.groups.Keys == b.groups.Keys && (k.Some? ==> k.value >= 1)
    requires GroupsOk(a, b, k, a.groups.Keys) && CombinedOk(combined, a, b, a.groups.Keys)
    ensures if k.Some? then |bins| == k.value + 1 else IsLength(a, b, |bins|)
    ensures forall i :: 0 <= i < |bins| ==> bins[i] as int == Combined(a.groups.Keys, a, b, i)
  {
    SumsAreNatural(a, b, k, combined);
    Filled(combined, if k.Some? then k.value + 1 else Length(a, b, combined))
  }

  function Filled(combined: map<nat, int>, n: nat): (bins: seq<nat>)
    requires forall i: nat :: Sum(combined, i) >= 0
    ensures |bins| == n && forall i :: 0 <= i < n ==> bins[i] as int == Sum(combined, i)
  {
    seq(n, i requires 0 <= i && Sum(combined, i) >= 0 => Sum(combined, i))
  }

  lemma {:induction false} SumsAreNatural(a: Scrape, b: Scrape, k: Option<int>, combined: map<nat, int>)
    requires a.groups.Keys == b.groups.Keys && GroupsOk(a, b, k, a.groups.Keys)
    requires CombinedOk(combined, a, b, a.groups.Keys)
    ensures forall i: nat :: Sum(combined, i) >= 0 && Sum(combined, i) == Combined(a.groups.Keys, a, b, i)
  {
    hide GroupsOk, Combined;
    AllNatural(a, b, k);
  }

  /** `max(combined) + 1` */
  function Length(a: Scrape, b: Scrape, combined: map<nat, int>): (n: nat)
    requires Parsed(a, b)
    requires a.groups != map[] && a.groups.Keys == b.groups.Keys && CombinedOk(combined, a, b, a.groups.Keys)
    ensures IsLength(a, b, n)
  {
    SomePosition(a, b, combined);
    TopExists(combined.Keys);
    var last :| last in combined && forall i :: i in combined ==> i <= last;
    last + 1
  }

  lemma {:induction false} AllNatural(a: Scrape, b: Scrape, k: Option<int>)
    requires a.groups.Keys == b.groups.Keys && GroupsOk(a, b, k, a.groups.Keys)
    ensures forall i: nat :: Combined(a.groups.Keys, a, b, i) >= 0
  {
    forall i: nat ensures Combined(a.groups.Keys, a, b, i) >= 0 {
      forall g | g in a.groups.Keys ensures Get(a.groups[g], i) <= Get(b.groups[g], i) {
        assert OneGroupOk(a, b, k, g);
      }
      ChangesAreNatural(a.groups.Keys, a, b, i);
    }
  }

  lemma {:induction false} SomePosition(a: Scrape, b: Scrape, combined: map<nat, int>)
    requires Parsed(a, b) && a.groups != map[] && a.groups.Keys == b.groups.Keys
    requires CombinedOk(combined, a, b, a.groups.Keys)
    ensures combined.Keys != {}
  {
    assert a.groups.Keys != {};
    var g :| g in a.groups;
    assert a.groups[g].Keys != {};
    var i :| i in a.groups[g];
    assert Named(a, b, a.groups.Keys, i);
  }

  // ---- several scrapes

  ghost predicate AllParsed(samples: seq<Scrape>) {
    forall i, j :: 0 <= i < |samples| && 0 <= j < |samples| ==> Parsed(samples[i], samples[j])
  }

  ghost predicate AdjacentOk(samples: seq<Scrape>, k: Option<int>) {
    forall i :: 0 < i < |samples| ==> IntervalOk(samples[i - 1], samples[i], k)
  }

  /** The changes of one bin over all adjacent intervals. */
  ghost function AdjacentChanges(samples: seq<Scrape>, i: nat): int {
    if |samples| < 2 || samples[|samples| - 2].groups.Keys != samples[|samples| - 1].groups.Keys then 0
    else
      var n := |samples| - 1;
      AdjacentChanges(samples[..n], i) + Combined(samples[n].groups.Keys, samples[n - 1], samples[n], i)
  }

  lemma {:induction false} IntervalGroups(a: Scrape, b: Scrape, k: Option<int>)
    requires Parsed(a, b) && IntervalOk(a, b, k)
    ensures a.groups.Keys == b.groups.Keys
  {
  }

  /** Valid adjacent intervals make the whole interval valid, and its histogram is their sum. */
  lemma {:induction false} EndpointsTelescope(samples: seq<Scrape>, k: Option<int>)
    requires |samples| >= 2 && AllParsed(samples) && AdjacentOk(samples, k)
    ensures IntervalOk(samples[0], samples[|samples| - 1], k)
    ensures forall i: nat ::
              AdjacentChanges(samples, i) == Combined(samples[0].groups.Keys, samples[0], samples[|samples| - 1], i)
  {
    hide IntervalOk, Parsed, Combined;
    var n := |samples| - 1;
    assert IntervalOk(samples[n - 1], samples[n], k);
    IntervalGroups(samples[n - 1], samples[n], k);
    if n == 1 {
      forall i: nat ensures AdjacentChanges(samples, i) == Combined(samples[0].groups.Keys, samples[0], samples[1], i) {
        assert AdjacentChanges(samples[..1], i) == 0;
      }
    } else {
      assert forall i :: 0 <= i < n ==> samples[..n][i] == samples[i];
      assert AdjacentOk(samples[..n], k);
      EndpointsTelescope(samples[..n], k);
      IntervalsJoin(samples[0], samples[n - 1], samples[n], k);
      IntervalGroups(samples[0], samples[n - 1], k);
      forall i: nat ensures AdjacentChanges(samples, i) == Combined(samples[0].groups.Keys, samples[0], samples[n], i) {
        IntervalChangesAdd(samples[0], samples[n - 1], samples[n], i);
      }
    }
  }

  /** The first and the last scrape have the same groups. */
  ghost predicate EndpointGroups(samples: seq<Scrape>) {
    |samples| >= 2 && samples[0].groups.Keys == samples[|samples| - 1].groups.Keys
  }

  /** Accepted exactly when every adjacent interval is, and then the histogram sums theirs. */
  method HistogramFromSamples(samples: seq<Scrape>, k: Option<int>) returns (r: Result<Histogram, string>)
    requires AllParsed(samples)
    ensures r.Ok? <==> |samples| >= 2 && AdjacentOk(samples, k)
    ensures r.Ok? ==> ResolveK(samples[0].ks, k) == Ok(r.value.k)
    ensures r.Ok? ==> EndpointGroups(samples) && HasLength(samples[0], samples[|samples| - 1], r.value)
    ensures r.Ok? ==> forall i :: 0 <= i < |r.value.bins| ==> r.value.bins[i] as int == AdjacentChanges(samples, i)
  {
    hide IntervalOk, Parsed, AdjacentOk, IsHistogram, Combined, HasLength;
    if |samples| < 2 {
      return Err("at least two scrapes are required");
    }
    var failure := CheckAdjacent(samples, k);
    if failure.Some? {
      return Err(failure.value);
    }
    EndpointsTelescope(samples, k);
    IntervalGroups(samples[0], samples[|samples| - 1], k);
    r := ComputeHistogram(samples[0], samples[|samples| - 1], k);
    if r.Ok? {
      HistogramBins(samples[0], samples[|samples| - 1], k, r.value);
    }
  }

  /** Adjacent intervals too: the loop before the endpoints are subtracted. */
  method CheckAdjacent(samples: seq<Scrape>, k: Option<int>) returns (failure: Option<string>)
    requires AllParsed(samples) && |samples| >= 2
    ensures failure.None? <==> AdjacentOk(samples, k)
  {
    hide IntervalOk, Parsed;
    for i := 1 to |samples|
      invariant forall j :: 0 < j < i ==> IntervalOk(samples[j - 1], samples[j], k)
    {
      var one := ComputeHistogram(samples[i - 1], samples[i], k);
      if one.Err? {
        return Some(one.error);
      }
    }
    failure := None;
  }

  lemma {:induction false} HistogramBins(a: Scrape, b: Scrape, k: Option<int>, h: Histogram)
    requires a.groups.Keys == b.groups.Keys && IsHistogram(a, b, k, h)
    ensures ResolveK(a.ks, k) == Ok(h.k) && HasLength(a, b, h)
    ensures forall i :: 0 <= i < |h.bins| ==> h.bins[i] as int == Combined(a.groups.Keys, a, b, i)
  {
  }

  // ---- the profile

  datatype Position = Position(position: nat, acceptedRows: int, reachedRows: int, cumulative: real,
                               conditional: Option<real>)

  datatype Profile = Profile(rows: nat, acceptedTokens: nat, rawAcceptance: real, positions: seq<Position>)

  function Total(hist: seq<nat>): nat {
    if hist == [] then 0 else Total(hist[..|hist| - 1]) + hist[|hist| - 1]
  }

  function Weighted(hist: seq<nat>): nat {
    if hist == [] then 0 else Weighted(hist[..|hist| - 1]) + (|hist| - 1) * hist[|hist| - 1]
  }

  /** Rows that accepted at least `i` tokens. */
  function Survivors(hist: seq<nat>, i: nat): nat
    requires i <= |hist|
    decreases |hist| - i
  {
    if i == |hist| then 0 else hist[i] + Survivors(hist, i + 1)
  }

  lemma {:induction false} TotalSurvives(hist: seq<nat>, i: nat)
    requires i <= |hist|
    ensures Total(hist) == Total(hist[..i]) + Survivors(hist, i)
    decreases |hist| - i
  {
    if i == |hist| {
      assert hist[..i] == hist;
    } else {
      TotalSurvives(hist, i + 1);
      assert hist[..i + 1][..i] == hist[..i];
    }
  }

  /** The survivors of positions `1..i`. */
  function SurvivorSum(hist: seq<nat>, i: nat): nat
    requires i <= |hist|
  {
    if i == 0 then 0 else SurvivorSum(hist, i - 1) + Survivors(hist, i)
  }

  /** Summation by parts. */
  lemma {:induction false} SurvivorsSum(hist: seq<nat>, i: nat)
    requires i < |hist|
    ensures SurvivorSum(hist, i) == Weighted(hist[..i + 1]) + i * Survivors(hist, i + 1)
  {
    assert hist[..i + 1][..i] == hist[..i];
    if i == 0 {
      assert Weighted(hist[..1]) == Weighted(hist[..0]) + 0 * hist[0];
    } else {
      SurvivorsSum(hist, i - 1);
      ByParts(i, hist[i], Survivors(hist, i + 1));
    }
  }

  lemma {:induction false} ByParts(i: nat, h: nat, s: nat)
    requires i > 0
    ensures i * h + i * s == (i - 1) * (h + s) + (h + s)
  {
    assert (i - 1) * (h + s) + (h + s) == i * (h + s);
  }

  function AcceptedRows(positions: seq<Position>): int {
    if positions == [] then 0 else AcceptedRows(positions[..|positions| - 1]) + positions[|positions| - 1].acceptedRows
  }

  /** The product of the conditional rates of the first positions. */
  function Chain(positions: seq<Position>): real {
    if positions == [] then 1.0
    else
      var last := positions[|positions| - 1];
      Chain(positions[..|positions| - 1]) * if last.conditional.Some? then last.conditional.value else 0.0
  }

  /** Position `i` counts the survivors, as a share of all rows and of those that reached it. */
  ghost predicate PositionOk(hist: seq<nat>, rows: nat, q: Position, i: nat) {
    && 1 <= i < |hist| && rows > 0
    && q.position == i && q.acceptedRows == Survivors(hist, i) && q.reachedRows == Survivors(hist, i - 1)
    && q.cumulative == q.acceptedRows as real / rows as real
    && q.conditional == if q.reachedRows != 0 then Some(q.acceptedRows as real / q.reachedRows as real) else None
  }

  ghost predicate IsProfile(hist: seq<nat>, p: Profile) {
    && p.rows == Total(hist) > 0 && |p.positions| == |hist| - 1
    && forall j :: 0 <= j < |p.positions| ==> PositionOk(hist, p.rows, p.positions[j], j + 1)
  }

  method ComputeProfile(h: Histogram) returns (r: Result<Profile, string>)
    requires h.k.Some? ==> h.k.value >= 1 && |h.bins| == h.k.value + 1
    ensures r.Ok? <==> h.k.Some? && Total(h.bins) > 0
    ensures r.Ok? ==> IsProfile(h.bins, r.value)
    ensures r.Ok? ==> r.value.acceptedTokens == Weighted(h.bins)
    ensures r.Ok? ==> IsShare(r.value.rawAcceptance, r.value.acceptedTokens, r.value.rows, h.k.value)
    ensures r.Ok? ==> AcceptedRows(r.value.positions) == r.value.acceptedTokens
  {
    hide PositionOk, RawShare, IsShare;
    if h.k.None? {
      return Err("spec_k is missing; supply --k for older scrapes");
    }
    var k, hist := h.k.value, h.bins;
    var n := Total(hist);
    if n == 0 {
      return Err("no observed decode rows in this interval");
    }
    var positions := FillPositions(hist, n, k);
    SurvivorsSum(hist, k);
    assert hist[..k + 1] == hist && Survivors(hist, k + 1) == 0;
    r := Ok(Profile(n, Weighted(hist), RawShare(Weighted(hist), n, k), positions));
  }

  predicate IsShare(share: real, accepted: nat, n: nat, k: int) {
    share * (n * k) as real == accepted as real
  }

  /** Accepted tokens per row and position. */
  function RawShare(accepted: nat, n: nat, k: int): (share: real)
    requires n > 0 && k >= 1
    ensures IsShare(share, accepted, n, k)
  {
    DividesBack(accepted, n, k);
    accepted as real / (n * k) as real
  }

  lemma {:induction false} DividesBack(x: nat, n: nat, k: int)
    requires n > 0 && k >= 1
    ensures n * k > 0 && x as real / (n * k) as real * (n * k) as real == x as real
  {
  }

  /** The cumulative rates of the positions, added up. */
  function RateSum(positions: seq<Position>): real {
    if positions == [] then 0.0 else RateSum(positions[..|positions| - 1]) + positions[|positions| - 1].cumulative
  }

  lemma {:induction false} RatesCountRows(positions: seq<Position>, rows: nat)
    requires rows > 0
    requires forall j :: 0 <= j < |positions| ==>
              positions[j].cumulative * rows as real == positions[j].acceptedRows as real
    ensures RateSum(positions) * rows as real == AcceptedRows(positions) as real
  {
    if positions != [] {
      var n := |positions| - 1;
      RatesCountRows(positions[..n], rows);
      TimesSum(RateSum(positions[..n]), positions[n].cumulative, rows as real);
    }
  }

  lemma {:induction false} TimesSum(x: real, y: real, r: real)
    ensures (x + y) * r == x * r + y * r
  {
  }

  /** The raw acceptance is the average of the positions' cumulative rates. */
  lemma {:induction false} RawIsAverage(hist: seq<nat>, p: Profile, k: nat)
    requires IsProfile(hist, p) && |hist| == k + 1 && k >= 1 && AcceptedRows(p.positions) == p.acceptedTokens
    requires IsShare(p.rawAcceptance, p.acceptedTokens, p.rows, k)
    ensures p.rawAcceptance * k as real == RateSum(p.positions)
  {
    hide PositionOk, RateSum, AcceptedRows, Total;
    var positions, r := p.positions, p.rows as real;
    forall j | 0 <= j < |positions| ensures positions[j].cumulative * r == positions[j].acceptedRows as real {
      assert PositionOk(hist, p.rows, positions[j], j + 1);
      PositionRate(hist, p.rows, positions[j], j + 1);
    }
    RatesCountRows(positions, p.rows);
    ScaledAlike(p.rawAcceptance, p.rows, k, RateSum(positions));
  }

  lemma {:induction false} PositionRate(hist: seq<nat>, rows: nat, q: Position, i: nat)
    requires PositionOk(hist, rows, q, i)
    ensures q.cumulative * rows as real == q.acceptedRows as real
  {
  }

  lemma {:induction false} ScaledAlike(x: real, n: nat, k: nat, y: real)
    requires n > 0 && x * (n * k) as real == y * n as real
    ensures x * k as real == y
  {
    var r, c := n as real, k as real;
    assert (n * k) as real == r * c;
    assert x * (r * c) == (x * c) * r;
    assert (x * c - y) * r == 0.0;
  }

  /** The loop over the positions, carrying how many rows reached each. */
  method FillPositions(hist: seq<nat>, n: nat, k: int) returns (positions: seq<Position>)
    requires k >= 1 && |hist| == k + 1 && n == Total(hist) > 0
    ensures |positions| == k && AcceptedRows(positions) == SurvivorSum(hist, k)
    ensures forall j :: 0 <= j < |positions| ==> PositionOk(hist, n, positions[j], j + 1)
  {
    positions := [];
    var reached: int := n;
    AtStart(hist, n);
    for i := 1 to k + 1
      invariant reached == Survivors(hist, i - 1) && |positions| == i - 1
      invariant AcceptedRows(positions) == SurvivorSum(hist, i - 1)
      invariant forall j :: 0 <= j < |positions| ==> PositionOk(hist, n, positions[j], j + 1)
    {
      var passed := reached - hist[i - 1];
      var one := Position(i, passed, reached, passed as real / n as real,
                          if reached != 0 then Some(passed as real / reached as real) else None);
      assert (positions + [one])[..|positions|] == positions;
      positions := positions + [one];
      reached := passed;
    }
  }

  /** One position's rate is the previous one times its conditional rate. */
  lemma {:induction false} CumulativeStep(hist: seq<nat>, rows: nat, q: Position, i: nat)
    requires PositionOk(hist, rows, q, i) && rows == Total(hist)
    ensures 0.0 <= q.cumulative <= Survivors(hist, i - 1) as real / rows as real
    ensures q.conditional.Some? ==>
              q.cumulative == (Survivors(hist, i - 1) as real / rows as real) * q.conditional.value
  {
    ShareShrinks(q.acceptedRows as real, q.reachedRows as real, rows as real);
    if q.reachedRows != 0 {
      ShareOfShare(q.acceptedRows as real, q.reachedRows as real, rows as real);
    }
  }

  /** The cumulative rate never rises. */
  lemma {:induction false} CumulativeFalls(hist: seq<nat>, p: Profile, j: nat)
    requires IsProfile(hist, p) && j < |p.positions|
    ensures 0.0 <= p.positions[j].cumulative <= if j == 0 then 1.0 else p.positions[j - 1].cumulative
  {
    assert PositionOk(hist, p.rows, p.positions[j], j + 1);
    CumulativeStep(hist, p.rows, p.positions[j], j + 1);
    AtStart(hist, p.rows);
    if j > 0 {
      assert PositionOk(hist, p.rows, p.positions[j - 1], j);
    }
  }

  lemma {:induction false} AtStart(hist: seq<nat>, rows: nat)
    requires rows == Total(hist) > 0
    ensures Survivors(hist, 0) == rows && rows as real / rows as real == 1.0
  {
    TotalSurvives(hist, 0);
    assert hist[..0] == [] && Total([]) == 0;
    OneWhole(rows as real);
  }

  lemma {:induction false} OneWhole(x: real)
    requires x > 0.0
    ensures x / x == 1.0
  {
  }

  /** The cumulative rate is the product of the conditional rates wherever those exist. */
  lemma {:induction false} CumulativeIsChain(hist: seq<nat>, p: Profile, j: nat)
    requires IsProfile(hist, p) && j < |p.positions| && p.positions[j].conditional.Some?
    ensures p.positions[j].cumulative == Chain(p.positions[..j + 1])
  {
    hide Chain, Survivors;
    var q := p.positions[j];
    assert PositionOk(hist, p.rows, q, j + 1);
    CumulativeStep(hist, p.rows, q, j + 1);
    ChainSplits(p.positions, j);
    if j == 0 {
      AtStart(hist, p.rows);
    } else {
      EarlierReached(hist, p, j);
      CumulativeIsChain(hist, p, j - 1);
    }
  }

  lemma {:induction false} EarlierReached(hist: seq<nat>, p: Profile, j: nat)
    requires IsProfile(hist, p) && 0 < j < |p.positions| && p.positions[j].conditional.Some?
    ensures p.positions[j - 1].conditional.Some?
    ensures p.positions[j - 1].cumulative == Survivors(hist, j) as real / p.rows as real
  {
    assert PositionOk(hist, p.rows, p.positions[j], j + 1);
    assert PositionOk(hist, p.rows, p.positions[j - 1], j);
    assert Survivors(hist, j - 1) >= Survivors(hist, j);
  }

  lemma {:induction false} ChainSplits(positions: seq<Position>, j: nat)
    requires j < |positions|
    ensures Chain(positions[..0]) == 1.0
    ensures positions[j].conditional.Some? ==>
              Chain(positions[..j + 1]) == Chain(positions[..j]) * positions[j].conditional.value
  {
    assert positions[..j + 1][..j] == positions[..j];
  }

  lemma {:induction false} ShareShrinks(a: real, b: real, n: real)
    requires 0.0 <= a <= b && n > 0.0
    ensures 0.0 <= a / n <= b / n
  {
  }

  lemma {:induction false} ShareOfShare(a: real, b: real, n: real)
    requires b > 0.0 && n > 0.0
    ensures (b / n) * (a / b) == a / n
  {
    var x := a / b;
    assert x * b == a;
    assert (b / n) * x == (b * x) / n;
  }
}
