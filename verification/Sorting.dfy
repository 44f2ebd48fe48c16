/** The meaning of Python's `sorted`, which is stable, for any key. */
module Sorting {
  /** Any two elements compare; different ones may tie. */
  ghost predicate Comparison<T(!new)>(leq: (T, T) -> bool) {
    && (forall a, b :: leq(a, b) || leq(b, a))
    && (forall a, b, c :: leq(a, b) && leq(b, c) ==> leq(a, c))
  }

  ghost predicate TotalOrder<T(!new)>(leq: (T, T) -> bool) {
    Comparison(leq) && forall a, b :: leq(a, b) && leq(b, a) ==> a == b
  }

  ghost predicate Ascending<T>(leq: (T, T) -> bool, s: seq<T>) {
    forall i, j :: 0 <= i < j < |s| ==> leq(s[i], s[j])
  }

  function Insert<T>(leq: (T, T) -> bool, x: T, s: seq<T>): seq<T> {
    if s == [] || leq(x, s[0]) then [x] + s else [s[0]] + Insert(leq, x, s[1..])
  }

  function Sorted<T>(leq: (T, T) -> bool, s: seq<T>): seq<T> {
    if s == [] then [] else Insert(leq, s[0], Sorted(leq, s[1..]))
  }

  lemma {:induction false} InsertKeepsElements<T>(leq: (T, T) -> bool, x: T, s: seq<T>)
    ensures multiset(Insert(leq, x, s)) == multiset{x} + multiset(s)
  {
    if s == [] || leq(x, s[0]) {
    } else {
      InsertKeepsElements(leq, x, s[1..]);
      assert s == [s[0]] + s[1..];
    }
  }

  lemma {:induction false} SortedKeepsElements<T>(leq: (T, T) -> bool, s: seq<T>)
    ensures multiset(Sorted(leq, s)) == multiset(s)
    ensures |Sorted(leq, s)| == |s|
  {
    if s == [] {
    } else {
      SortedKeepsElements(leq, s[1..]);
      InsertKeepsElements(leq, s[0], Sorted(leq, s[1..]));
      assert s == [s[0]] + s[1..];
      assert |multiset(Sorted(leq, s))| == |multiset(s)|;
    }
  }

  lemma {:induction false} InsertAscends<T(!new)>(leq: (T, T) -> bool, x: T, s: seq<T>)
    requires Comparison(leq) && Ascending(leq, s)
    ensures Ascending(leq, Insert(leq, x, s))
  {
    if s == [] || leq(x, s[0]) {
    } else {
      var rest := Insert(leq, x, s[1..]);
      InsertAscends(leq, x, s[1..]);
      InsertKeepsElements(leq, x, s[1..]);
      forall j | 0 <= j < |rest| ensures leq(s[0], rest[j]) {
        assert rest[j] in multiset(rest);
        assert rest[j] == x || rest[j] in s[1..];
      }
    }
  }

  /** `sorted` returns an ascending rearrangement of its argument. */
  lemma {:induction false} SortedAscends<T(!new)>(leq: (T, T) -> bool, s: seq<T>)
    requires Comparison(leq)
    ensures Ascending(leq, Sorted(leq, s))
    ensures multiset(Sorted(leq, s)) == multiset(s)
  {
    SortedKeepsElements(leq, s);
    if s != [] {
      SortedAscends(leq, s[1..]);
      InsertAscends(leq, s[0], Sorted(leq, s[1..]));
    }
  }

  lemma {:induction false} SortedMembers<T>(leq: (T, T) -> bool, s: seq<T>)
    ensures forall i :: 0 <= i < |Sorted(leq, s)| ==> Sorted(leq, s)[i] in s
  {
    SortedKeepsElements(leq, s);
    var t := Sorted(leq, s);
    forall i | 0 <= i < |t| ensures t[i] in s {
      assert t[i] in multiset(t);
    }
  }

  /** Only one ascending arrangement of a collection exists when the order is total. */
  lemma {:induction false} AscendingIsUnique<T(!new)>(leq: (T, T) -> bool, s: seq<T>, t: seq<T>)
    requires TotalOrder(leq) && Ascending(leq, s) && Ascending(leq, t)
    requires multiset(s) == multiset(t)
    ensures s == t
  {
    assert |s| == |multiset(s)| == |multiset(t)| == |t|;
    if s != [] {
      FirstIsLeast(leq, s, t[0]);
      FirstIsLeast(leq, t, s[0]);
      TailElements(s);
      TailElements(t);
      AscendingIsUnique(leq, s[1..], t[1..]);
    }
  }

  lemma {:induction false} FirstIsLeast<T(!new)>(leq: (T, T) -> bool, s: seq<T>, x: T)
    requires TotalOrder(leq) && Ascending(leq, s) && s != [] && x in multiset(s)
    ensures leq(s[0], x)
  {
    assert x in s;
  }

  lemma {:induction false} TailElements<T>(s: seq<T>)
    requires s != []
    ensures s == [s[0]] + s[1..] && multiset(s[1..]) == multiset(s) - multiset{s[0]}
  {
    assert s == [s[0]] + s[1..];
  }

  lemma {:induction false} RearrangedSortsAlike<T(!new)>(leq: (T, T) -> bool, s: seq<T>, t: seq<T>)
    requires TotalOrder(leq) && multiset(s) == multiset(t)
    ensures Sorted(leq, s) == Sorted(leq, t)
  {
    SortedAscends(leq, s);
    SortedAscends(leq, t);
    AscendingIsUnique(leq, Sorted(leq, s), Sorted(leq, t));
  }

  /** `p` names every position below `n` once. */
  ghost predicate IsPermutation(p: seq<nat>, n: nat) {
    && |p| == n
    && (forall i :: 0 <= i < n ==> p[i] < n)
    && Distinct(p)
  }

  function Below(n: nat): (s: set<nat>)
    ensures |s| == n
    ensures forall k: nat :: k in s <==> k < n
  {
    if n == 0 then {} else Below(n - 1) + {n - 1}
  }

  function ElementsOf<T(==,!new)>(s: seq<T>): (elements: set<T>)
    ensures forall x :: x in elements <==> x in s
  {
    if s == [] then {} else {s[0]} + ElementsOf(s[1..])
  }

  predicate Distinct<T(==)>(s: seq<T>) {
    forall i, j :: 0 <= i < j < |s| ==> s[i] != s[j]
  }

  lemma {:induction false} DistinctSize<T(!new)>(s: seq<T>)
    requires Distinct(s)
    ensures |ElementsOf(s)| == |s|
  {
    if s != [] {
      DistinctSize(s[1..]);
      assert s[0] !in s[1..];
    }
  }

  /** Pigeonhole: n different positions below n are all of them. */
  lemma {:induction false} DistinctFillsRange(p: seq<nat>, n: nat)
    requires Distinct(p) && |p| == n && forall i :: 0 <= i < n ==> p[i] < n
    ensures forall k: nat :: k < n ==> k in p
  {
    DistinctSize(p);
    forall k: nat | k < n ensures k in p {
      if k !in p {
        SubsetSize(ElementsOf(p), Below(n) - {k});
      }
    }
  }

  lemma {:induction false} SubsetSize<T>(s: set<T>, t: set<T>)
    requires s <= t
    ensures |s| <= |t|
  {
    if s != {} {
      var x :| x in s;
      SubsetSize(s - {x}, t - {x});
    }
  }

  lemma {:induction false} RemoveAt<T>(s: seq<T>, k: nat)
    requires k < |s|
    ensures multiset(s) == multiset(s[..k] + s[k + 1..]) + multiset{s[k]}
  {
    assert s == s[..k] + [s[k]] + s[k + 1..];
  }

  /** Reading a sequence through a permutation keeps its elements. */
  lemma {:induction false} PermutationKeepsElements<T>(s: seq<T>, t: seq<T>, p: seq<nat>)
    requires IsPermutation(p, |s|) && |t| == |s|
    requires forall i :: 0 <= i < |s| ==> t[i] == s[p[i]]
    ensures multiset(t) == multiset(s)
  {
    var n := |s|;
    if n > 0 {
      DistinctFillsRange(p, n);
      assert n - 1 in p;
      var k :| 0 <= k < n && p[k] == n - 1;
      SkipReads(s, t, p, k);
      PermutationKeepsElements(s[..n - 1], t[..k] + t[k + 1..], p[..k] + p[k + 1..]);
      RemovedAlike(s, t, k);
    }
  }

  /** Without the place that reads the last element, the others are read as before. */
  lemma {:induction false} SkipReads<T>(s: seq<T>, t: seq<T>, p: seq<nat>, k: nat)
    requires IsPermutation(p, |s|) && |t| == |s| && k < |s| && p[k] == |s| - 1
    requires forall i :: 0 <= i < |s| ==> t[i] == s[p[i]]
    ensures var q := p[..k] + p[k + 1..];
            && IsPermutation(q, |s| - 1)
            && forall i :: 0 <= i < |s| - 1 ==> (t[..k] + t[k + 1..])[i] == s[..|s| - 1][q[i]]
  {
    var n, q, r := |s|, p[..k] + p[k + 1..], t[..k] + t[k + 1..];
    SkipKeepsPermutation(p, n, k);
    forall i | 0 <= i < n - 1 ensures r[i] == s[..n - 1][q[i]] {
      var j := if i < k then i else i + 1;
      assert r[i] == t[j] && q[i] == p[j];
    }
  }

  lemma {:induction false} RemovedAlike<T>(s: seq<T>, t: seq<T>, k: nat)
    requires s != [] && k < |t| && t[k] == s[|s| - 1]
    requires multiset(t[..k] + t[k + 1..]) == multiset(s[..|s| - 1])
    ensures multiset(t) == multiset(s)
  {
    RemoveAt(t, k);
    RemoveAt(s, |s| - 1);
    assert s[..|s| - 1] + s[|s|..] == s[..|s| - 1];
  }

  lemma {:induction false} SkipKeepsPermutation(p: seq<nat>, n: nat, k: nat)
    requires IsPermutation(p, n) && k < n && p[k] == n - 1
    ensures IsPermutation(p[..k] + p[k + 1..], n - 1)
  {
    var q := p[..k] + p[k + 1..];
    assert forall i :: 0 <= i < n - 1 ==> q[i] == p[if i < k then i else i + 1];
  }

  lemma {:induction false} InsertKeepsPermutation(p: seq<nat>, n: nat, k: nat)
    requires IsPermutation(p, n) && k <= n
    ensures IsPermutation(p[..k] + [n] + p[k..], n + 1)
  {
    var q := p[..k] + [n] + p[k..];
    assert forall i :: 0 <= i <= n ==> q[i] == if i < k then p[i] else if i == k then n else p[i - 1];
  }

  lemma {:induction false} DropMatching<T>(s: seq<T>, t: seq<T>) returns (k: nat)
    requires multiset(s) == multiset(t) && s != []
    ensures k < |t| && t[k] == s[|s| - 1]
    ensures multiset(s[..|s| - 1]) == multiset(t[..k] + t[k + 1..])
  {
    var n := |s|;
    assert s[n - 1] in multiset(t);
    k :| 0 <= k < |t| && t[k] == s[n - 1];
    RemoveAt(t, k);
    assert s == s[..n - 1] + [s[n - 1]];
    assert multiset(s[..n - 1]) == multiset(s) - multiset{s[n - 1]};
    assert multiset(t[..k] + t[k + 1..]) == multiset(t) - multiset{t[k]};
  }

  /** Rearranged sequences are related by some permutation of positions. */
  lemma {:induction false} PermutationBetween<T>(s: seq<T>, t: seq<T>) returns (p: seq<nat>)
    requires multiset(s) == multiset(t)
    ensures |s| == |t| && IsPermutation(p, |s|)
    ensures forall i :: 0 <= i < |t| ==> t[i] == s[p[i]]
  {
    assert |s| == |multiset(s)| == |multiset(t)| == |t|;
    var n := |s|;
    if n == 0 {
      p := [];
    } else {
      var k := DropMatching(s, t);
      var t' := t[..k] + t[k + 1..];
      var p' := PermutationBetween(s[..n - 1], t');
      InsertKeepsPermutation(p', n - 1, k);
      p := p'[..k] + [n - 1] + p'[k..];
      forall i | 0 <= i < n ensures t[i] == s[p[i]] {
        if i < k {
          assert t[i] == t'[i];
        } else if i > k {
          assert t[i] == t'[i - 1];
        }
      }
    }
  }

  /** Python's `list` of a set, whose order is not given. */
  method SetToSeq<T(==)>(s: set<T>) returns (list: seq<T>)
    ensures forall x :: x in list <==> x in s
    ensures Distinct(list)
  {
    list := [];
    var todo := s;
    while todo != {}
      invariant todo <= s && forall x :: x in list <==> x in s - todo
      invariant Distinct(list)
      decreases |todo|
    {
      var x :| x in todo;
      forall i | 0 <= i < |list| ensures list[i] != x {
        assert list[i] in list;
      }
      list := list + [x];
      todo := todo - {x};
    }
  }
}
