/** bench/onepass_quality.py, `_canonical`: comparing answers up to the order of their arrays. */
module Canonical {
  import opened Json
  import opened Sorting
  import opened Texts

  /** `type(value).__name__` */
  function TypeName(v: Json): string {
    match v
    case Null => "NoneType"
    case Bool(_) => "bool"
    case Int(_) => "int"
    case Float(_) => "float"
    case Str(_) => "str"
    case Arr(_) => "list"
    case Obj(_) => "dict"
  }

  /** The members whose arrays are answered in a given order. */
  predicate KeepsOrder(key: string) {
    key == "statuses" || key == "witnesses"
  }

  predicate TextLeq(a: Json, b: Json) {
    LexLeq(Dumps(a), Dumps(b))
  }

  function CanonicalForm(v: Json, ordered: bool): Json {
    match v
    case Obj(m) => Obj(map k | k in m :: CanonicalForm(m[k], KeepsOrder(k)))
    case Arr(xs) =>
      var values := seq(|xs|, i requires 0 <= i < |xs| => CanonicalForm(xs[i], false));
      Arr(if ordered then values else Sorted(TextLeq, values))
    case _ => Arr([Str(TypeName(v)), v])
  }

  function Forms(xs: seq<Json>): (forms: seq<Json>)
    ensures |forms| == |xs| && forall i :: 0 <= i < |xs| ==> forms[i] == CanonicalForm(xs[i], false)
  {
    seq(|xs|, i requires 0 <= i < |xs| => CanonicalForm(xs[i], false))
  }

  predicate IsNumber(v: Json) {
    v.Bool? || v.Int? || v.Float?
  }

  predicate SameKind(a: Json, b: Json) {
    (a.Bool? && b.Bool?) || (a.Int? && b.Int?) || (a.Float? && b.Float?)
  }

  predicate IsZero(repr: string) {
    repr == "0.0" || repr == "-0.0"
  }

  /** Python's `==`. Numbers of different types may be equal (`True == 1 == 1.0`): `conflate` is that comparison. */
  predicate PyEqual(conflate: (Json, Json) -> bool, a: Json, b: Json) {
    match (a, b)
    case (Obj(m), Obj(n)) => m.Keys == n.Keys && forall k :: k in m ==> PyEqual(conflate, m[k], n[k])
    case (Arr(xs), Arr(ys)) => |xs| == |ys| && forall i :: 0 <= i < |xs| ==> PyEqual(conflate, xs[i], ys[i])
    case (Float(x), Float(y)) => x == y || (IsZero(x) && IsZero(y))
    case _ => a == b || (IsNumber(a) && IsNumber(b) && !SameKind(a, b) && conflate(a, b))
  }

  /**
   The same answer: objects member by member, arrays in any order unless order is asked for, and
   scalars only with scalars of their own type. `zeros` says whether 0.0 and -0.0 are the same float.
   */
  ghost predicate Same(a: Json, b: Json, ordered: bool, zeros: bool) {
    match (a, b)
    case (Obj(m), Obj(n)) => m.Keys == n.Keys && forall k :: k in m ==> Same(m[k], n[k], KeepsOrder(k), zeros)
    case (Arr(xs), Arr(ys)) =>
      && |xs| == |ys|
      && if ordered then forall i :: 0 <= i < |xs| ==> Same(xs[i], ys[i], false, zeros)
         else exists p: seq<nat> :: IsPermutation(p, |xs|) && forall i :: 0 <= i < |p| && i < |ys| && p[i] < |xs| ==>
             Same(xs[p[i]], ys[i], false, zeros)
    case (Float(x), Float(y)) => x == y || (zeros && IsZero(x) && IsZero(y))
    case _ => a == b
  }

  lemma {:induction false} TextOrderIsTotal()
    ensures TotalOrder(TextLeq)
  {
    forall a, b
      ensures TextLeq(a, b) || TextLeq(b, a)
      ensures TextLeq(a, b) && TextLeq(b, a) ==> a == b
    {
      LexTotal(Dumps(a), Dumps(b));
      if TextLeq(a, b) && TextLeq(b, a) {
        DumpsIsInjective(a, b);
      }
    }
    forall a, b, c | TextLeq(a, b) && TextLeq(b, c) ensures TextLeq(a, c) {
      LexTransitive(Dumps(a), Dumps(b), Dumps(c));
    }
  }

  lemma {:induction false} PyEqualReflexive(conflate: (Json, Json) -> bool, a: Json)
    ensures PyEqual(conflate, a, a)
  {
    match a
    case Obj(m) =>
      forall k | k in m ensures PyEqual(conflate, m[k], m[k]) {
        PyEqualReflexive(conflate, m[k]);
      }
    case Arr(xs) =>
      forall i | 0 <= i < |xs| ensures PyEqual(conflate, xs[i], xs[i]) {
        PyEqualReflexive(conflate, xs[i]);
      }
    case _ =>
  }

  /** Reordering never changes the canonical form. */
  lemma {:induction false} SameHasOneForm(a: Json, b: Json, ordered: bool)
    requires Same(a, b, ordered, false)
    ensures CanonicalForm(a, ordered) == CanonicalForm(b, ordered)
    decreases a, 1
  {
    if a.Obj? {
      SameObjects(a, b, ordered);
    } else if a.Arr? && ordered {
      SameLists(a, b);
    } else if a.Arr? {
      SameShuffles(a, b);
    }
  }

  lemma {:induction false} SameObjects(a: Json, b: Json, ordered: bool)
    requires a.Obj? && Same(a, b, ordered, false)
    ensures CanonicalForm(a, ordered) == CanonicalForm(b, ordered)
    decreases a, 0
  {
    forall k | k in a.m ensures CanonicalForm(a.m[k], KeepsOrder(k)) == CanonicalForm(b.m[k], KeepsOrder(k)) {
      SameHasOneForm(a.m[k], b.m[k], KeepsOrder(k));
    }
  }

  lemma {:induction false} SameLists(a: Json, b: Json)
    requires a.Arr? && Same(a, b, true, false)
    ensures CanonicalForm(a, true) == CanonicalForm(b, true)
    decreases a, 0
  {
    hide Sorted, TextLeq;
    forall i | 0 <= i < |a.xs| ensures Forms(a.xs)[i] == Forms(b.xs)[i] {
      SameHasOneForm(a.xs[i], b.xs[i], false);
    }
    ArrayFormElements(a.xs, true);
    ArrayFormElements(b.xs, true);
    assert Forms(a.xs) == Forms(b.xs);
  }

  lemma {:induction false} SameShuffles(a: Json, b: Json)
    requires a.Arr? && Same(a, b, false, false)
    ensures CanonicalForm(a, false) == CanonicalForm(b, false)
    decreases a, 0
  {
    hide Sorted, TextLeq;
    var xs, ys := a.xs, b.xs;
    var p: seq<nat> :| IsPermutation(p, |xs|) && forall i :: 0 <= i < |p| && i < |ys| && p[i] < |xs| ==>
        Same(xs[p[i]], ys[i], false, false);
    forall i | 0 <= i < |xs| ensures Forms(ys)[i] == Forms(xs)[p[i]] {
      SameHasOneForm(xs[p[i]], ys[i], false);
    }
    RearrangedForms(xs, ys, p);
    ArrayFormElements(xs, false);
    ArrayFormElements(ys, false);
  }

  lemma {:induction false} RearrangedForms(xs: seq<Json>, ys: seq<Json>, p: seq<nat>)
    requires |xs| == |ys| && IsPermutation(p, |xs|) && forall i :: 0 <= i < |xs| ==> Forms(ys)[i] == Forms(xs)[p[i]]
    ensures Sorted(TextLeq, Forms(xs)) == Sorted(TextLeq, Forms(ys))
  {
    hide Sorted, TextLeq;
    PermutationKeepsElements(Forms(xs), Forms(ys), p);
    TextOrderIsTotal();
    RearrangedSortsAlike(TextLeq, Forms(xs), Forms(ys));
  }

  lemma {:induction false} ComposePermutations(p: seq<nat>, q: seq<nat>, n: nat) returns (r: seq<nat>)
    requires IsPermutation(p, n) && IsPermutation(q, n)
    ensures IsPermutation(r, n) && forall i :: 0 <= i < n ==> r[i] == p[q[i]]
  {
    r := seq(n, i requires 0 <= i < n => p[q[i]]);
    forall i, j | 0 <= i < j < n ensures r[i] != r[j] {
      assert q[i] != q[j];
      assert if q[i] < q[j] then p[q[i]] != p[q[j]] else p[q[j]] != p[q[i]];
    }
  }

  /** A tagged scalar and an array never have equal forms: only the tag is a bare string. */
  lemma {:induction false} FormsAreNotTags(conflate: (Json, Json) -> bool, a: Json, ordered: bool, name: string)
    ensures !PyEqual(conflate, CanonicalForm(a, ordered), Str(name))
    ensures !PyEqual(conflate, Str(name), CanonicalForm(a, ordered))
  {
  }

  ghost predicate IsForm(c: Json) {
    exists v :: c == CanonicalForm(v, false)
  }

  lemma {:induction false} ArrayFormElements(xs: seq<Json>, ordered: bool)
    ensures CanonicalForm(Arr(xs), ordered).Arr?
    ensures |CanonicalForm(Arr(xs), ordered).xs| == |xs|
    ensures ordered ==> CanonicalForm(Arr(xs), ordered).xs == Forms(xs)
    ensures !ordered ==> CanonicalForm(Arr(xs), ordered).xs == Sorted(TextLeq, Forms(xs))
    ensures forall i :: 0 <= i < |xs| ==> IsForm(CanonicalForm(Arr(xs), ordered).xs[i])
  {
    var form := CanonicalForm(Arr(xs), ordered).xs;
    assert form == if ordered then Forms(xs) else Sorted(TextLeq, Forms(xs));
    SortedKeepsElements(TextLeq, Forms(xs));
    SortedMembers(TextLeq, Forms(xs));
    forall i | 0 <= i < |xs| ensures IsForm(form[i]) {
      assert form[i] in Forms(xs);
      var j :| 0 <= j < |xs| && Forms(xs)[j] == form[i];
      assert form[i] == CanonicalForm(xs[j], false);
    }
  }

  lemma {:induction false} ArrayIsNotScalar(conflate: (Json, Json) -> bool, a: Json, b: Json, ordered: bool)
    requires a.Arr? != b.Arr?
    ensures !PyEqual(conflate, CanonicalForm(a, ordered), CanonicalForm(b, ordered))
  {
    if a.Arr? && !b.Obj? {
      ArrayIsNotTagged(conflate, a.xs, b, ordered);
    } else if b.Arr? && !a.Obj? {
      ArrayIsNotTagged(conflate, b.xs, a, ordered);
    }
  }

  lemma {:induction false} ArrayIsNotTagged(conflate: (Json, Json) -> bool, xs: seq<Json>, b: Json, ordered: bool)
    requires !b.Arr? && !b.Obj?
    ensures !PyEqual(conflate, CanonicalForm(Arr(xs), ordered), CanonicalForm(b, ordered))
    ensures !PyEqual(conflate, CanonicalForm(b, ordered), CanonicalForm(Arr(xs), ordered))
  {
    hide Sorted;
    ArrayFormElements(xs, ordered);
    var form := CanonicalForm(Arr(xs), ordered);
    assert CanonicalForm(b, ordered) == Arr([Str(TypeName(b)), b]);
    if |xs| == 2 {
      assert IsForm(form.xs[0]);
      var v :| form.xs[0] == CanonicalForm(v, false);
      FormsAreNotTags(conflate, v, false, TypeName(b));
    }
  }

  lemma {:induction false} ScalarFormsTell(conflate: (Json, Json) -> bool, a: Json, b: Json, ordered: bool)
    requires !a.Arr? && !b.Arr? && !(a.Obj? && b.Obj?)
    requires PyEqual(conflate, CanonicalForm(a, ordered), CanonicalForm(b, ordered))
    ensures Same(a, b, ordered, true)
  {
    assert !a.Obj? && !b.Obj?;
    var x, y := CanonicalForm(a, ordered).xs, CanonicalForm(b, ordered).xs;
    assert PyEqual(conflate, x[0], y[0]) && PyEqual(conflate, x[1], y[1]);
    assert TypeName(a) == TypeName(b);
  }

  /** Equal canonical forms come from the same answer, up to the sign of a float zero. */
  lemma {:induction false} EqualFormsAreSame(conflate: (Json, Json) -> bool, a: Json, b: Json, ordered: bool)
    requires PyEqual(conflate, CanonicalForm(a, ordered), CanonicalForm(b, ordered))
    ensures Same(a, b, ordered, true)
    decreases a, 1
  {
    if a.Arr? != b.Arr? {
      ArrayIsNotScalar(conflate, a, b, ordered);
    } else if a.Arr? {
      if ordered {
        EqualOrderedForms(conflate, a, b);
      } else {
        EqualSortedForms(conflate, a, b);
      }
    } else if a.Obj? && b.Obj? {
      assert CanonicalForm(a, ordered).m.Keys == a.m.Keys && CanonicalForm(b, ordered).m.Keys == b.m.Keys;
      forall k | k in a.m ensures k in b.m && Same(a.m[k], b.m[k], KeepsOrder(k), true) {
        EqualFormsAreSame(conflate, a.m[k], b.m[k], KeepsOrder(k));
      }
    } else {
      ScalarFormsTell(conflate, a, b, ordered);
    }
  }

  lemma {:induction false} EqualOrderedForms(conflate: (Json, Json) -> bool, a: Json, b: Json)
    requires a.Arr? && b.Arr? && PyEqual(conflate, CanonicalForm(a, true), CanonicalForm(b, true))
    ensures Same(a, b, true, true)
    decreases a, 0
  {
    ArrayFormElements(a.xs, true);
    ArrayFormElements(b.xs, true);
    forall i | 0 <= i < |a.xs| ensures Same(a.xs[i], b.xs[i], false, true) {
      assert PyEqual(conflate, Forms(a.xs)[i], Forms(b.xs)[i]);
      EqualFormsAreSame(conflate, a.xs[i], b.xs[i], false);
    }
  }

  lemma {:induction false} EqualSortedForms(conflate: (Json, Json) -> bool, a: Json, b: Json)
    requires a.Arr? && b.Arr? && PyEqual(conflate, CanonicalForm(a, false), CanonicalForm(b, false))
    ensures Same(a, b, false, true)
    decreases a, 0
  {
    ArrayFormElements(a.xs, false);
    ArrayFormElements(b.xs, false);
    var xs, ys, n := Forms(a.xs), Forms(b.xs), |a.xs|;
    var sx, sy := Sorted(TextLeq, xs), Sorted(TextLeq, ys);
    SortedKeepsElements(TextLeq, xs);
    SortedKeepsElements(TextLeq, ys);
    var r := PermutationBetween(xs, sx);
    var q := PermutationBetween(sy, ys);
    var p := ComposePermutations(r, q, n);
    forall i | 0 <= i < n ensures Same(a.xs[p[i]], b.xs[i], false, true) {
      assert PyEqual(conflate, sx[q[i]], sy[q[i]]);
      assert sx[q[i]] == xs[r[q[i]]] && sy[q[i]] == ys[i];
      EqualFormsAreSame(conflate, a.xs[p[i]], b.xs[i], false);
    }
  }

  /** The value holds no float with one of these texts. */
  predicate Free(v: Json, texts: set<string>) {
    match v
    case Obj(m) => forall k :: k in m ==> Free(m[k], texts)
    case Arr(xs) => forall i :: 0 <= i < |xs| ==> Free(xs[i], texts)
    case Float(x) => x !in texts
    case _ => true
  }

  /** The sign of zero cannot matter: one of the two zeros is on neither side, or no zero float is in the key. */
  predicate SignFree(a: Json, b: Json) {
    (Free(a, {"-0.0"}) && Free(b, {"-0.0"})) || (Free(a, {"0.0"}) && Free(b, {"0.0"})) || Free(b, {"0.0", "-0.0"})
  }

  lemma {:induction false} SignFreeIsExact(a: Json, b: Json, ordered: bool)
    requires SignFree(a, b) && Same(a, b, ordered, true)
    ensures Same(a, b, ordered, false)
  {
    match (a, b)
    case (Obj(m), Obj(n)) =>
      forall k | k in m ensures Same(m[k], n[k], KeepsOrder(k), false) {
        SignFreeIsExact(m[k], n[k], KeepsOrder(k));
      }
    case (Arr(xs), Arr(ys)) =>
      if ordered {
        forall i | 0 <= i < |xs| ensures Same(xs[i], ys[i], false, false) {
          SignFreeIsExact(xs[i], ys[i], false);
        }
      } else {
        var p: seq<nat> :| IsPermutation(p, |xs|) && forall i :: 0 <= i < |p| && i < |ys| && p[i] < |xs| ==>
            Same(xs[p[i]], ys[i], false, true);
        forall i | 0 <= i < |p| ensures Same(xs[p[i]], ys[i], false, false) {
          SignFreeIsExact(xs[p[i]], ys[i], false);
        }
      }
    case _ =>
  }

  /** Whatever Python's cross-type number comparison answers, a pair with no sign of zero at stake is decided. */
  lemma {:induction false} PairIsDecided(conflate: (Json, Json) -> bool, a: Json, b: Json, ordered: bool)
    requires SignFree(a, b)
    ensures PyEqual(conflate, CanonicalForm(a, ordered), CanonicalForm(b, ordered)) <==> Same(a, b, ordered, false)
    ensures Same(a, b, ordered, true) ==> Same(a, b, ordered, false)
  {
    if PyEqual(conflate, CanonicalForm(a, ordered), CanonicalForm(b, ordered)) {
      EqualFormsAreSame(conflate, a, b, ordered);
    }
    if Same(a, b, ordered, true) {
      SignFreeIsExact(a, b, ordered);
    }
    if Same(a, b, ordered, false) {
      SameHasOneForm(a, b, ordered);
      PyEqualReflexive(conflate, CanonicalForm(b, ordered));
    }
  }

  // ---- which floats the forms can tell apart

  /** Every float of the value has one of these texts. */
  predicate Over(v: Json, texts: set<string>) {
    match v
    case Obj(m) => forall k :: k in m ==> Over(m[k], texts)
    case Arr(xs) => forall i :: 0 <= i < |xs| ==> Over(xs[i], texts)
    case Float(x) => x in texts
    case _ => true
  }

  /** Canonical forms are equal exactly for the same answers, among all values with these floats. */
  ghost predicate DecidesOver(conflate: (Json, Json) -> bool, texts: set<string>, zeros: bool) {
    forall a, b, ordered :: Over(a, texts) && Over(b, texts) ==>
      (PyEqual(conflate, CanonicalForm(a, ordered), CanonicalForm(b, ordered)) <==> Same(a, b, ordered, zeros))
  }

  lemma {:induction false} OverIsFree(v: Json, texts: set<string>, x: string)
    requires Over(v, texts) && x !in texts
    ensures Free(v, {x})
  {
    match v
    case Obj(m) =>
      forall k | k in m ensures Free(m[k], {x}) {
        OverIsFree(m[k], texts, x);
      }
    case Arr(xs) =>
      forall i | 0 <= i < |xs| ensures Free(xs[i], {x}) {
        OverIsFree(xs[i], texts, x);
      }
    case _ =>
  }

  lemma {:induction false} SameUpToZeros(a: Json, b: Json, ordered: bool)
    requires Same(a, b, ordered, false)
    ensures Same(a, b, ordered, true)
  {
    match (a, b)
    case (Obj(m), Obj(n)) =>
      forall k | k in m ensures Same(m[k], n[k], KeepsOrder(k), true) {
        SameUpToZeros(m[k], n[k], KeepsOrder(k));
      }
    case (Arr(xs), Arr(ys)) =>
      if ordered {
        forall i | 0 <= i < |xs| ensures Same(xs[i], ys[i], false, true) {
          SameUpToZeros(xs[i], ys[i], false);
        }
      } else {
        var p: seq<nat> :| IsPermutation(p, |xs|) && forall i :: 0 <= i < |p| && i < |ys| && p[i] < |xs| ==>
            Same(xs[p[i]], ys[i], false, false);
        forall i | 0 <= i < |p| ensures Same(xs[p[i]], ys[i], false, true) {
          SameUpToZeros(xs[p[i]], ys[i], false);
        }
      }
    case _ =>
  }

  /**
   Whether the two float zeros count as the same or as different: canonical forms decide sameness
   among all values with these floats if and only if not both zeros are among them.
   */
  lemma {:induction false} CanonicalDecides(conflate: (Json, Json) -> bool, texts: set<string>, zeros: bool)
    ensures DecidesOver(conflate, texts, zeros) <==> !("0.0" in texts && "-0.0" in texts)
  {
    hide CanonicalForm, PyEqual, Over, Free, Same;
    if "0.0" in texts && "-0.0" in texts {
      MinusZeroIsFloat();
      ZerosUndecided(conflate, texts, zeros, "0.0", "-0.0");
    } else {
      var x := if "0.0" in texts then "-0.0" else "0.0";
      forall a, b, ordered | Over(a, texts) && Over(b, texts)
        ensures PyEqual(conflate, CanonicalForm(a, ordered), CanonicalForm(b, ordered)) <==> Same(a, b, ordered, zeros)
      {
        OverIsFree(a, texts, x);
        OverIsFree(b, texts, x);
        PairIsDecided(conflate, a, b, ordered);
        if Same(a, b, ordered, false) {
          SameUpToZeros(a, b, ordered);
        }
      }
    }
  }

  lemma {:induction false} ZerosUndecided(conflate: (Json, Json) -> bool, texts: set<string>, zeros: bool,
                                          zero: FloatText, minus: FloatText)
    requires zero == "0.0" && minus == "-0.0" && zero in texts && minus in texts
    ensures !DecidesOver(conflate, texts, zeros)
  {
    hide CanonicalForm, PyEqual, Same, Over;
    var a, b := Float(zero), Float(minus);
    if zeros {
      TiedPair(conflate, zero, minus);
      a, b := TiedPairs(zero, zero), TiedPairs(minus, zero);
    } else {
      LoneZeros(conflate, zero, minus);
    }
    OverZeros(zero, zero, texts);
    OverZeros(minus, zero, texts);
    assert Over(a, texts) && Over(b, texts);
    assert PyEqual(conflate, CanonicalForm(a, false), CanonicalForm(b, false)) != Same(a, b, false, zeros);
  }

  lemma {:induction false} OverZeros(first: FloatText, zero: FloatText, texts: set<string>)
    requires first in texts && zero in texts
    ensures Over(Float(first), texts) && Over(TiedPairs(first, zero), texts)
  {
  }

  lemma {:induction false} MinusZeroIsFloat()
    ensures IsFloatText("-0.0") && IsFloatText("0.0")
  {
    assert HasMark("-0.0"[1..][1..]);
    assert HasMark("-0.0"[1..]);
    assert HasMark("0.0"[1..]);
  }

  /** The two zeros themselves: equal forms, and different signs. */
  lemma {:induction false} LoneZeros(conflate: (Json, Json) -> bool, zero: FloatText, minus: FloatText)
    requires zero == "0.0" && minus == "-0.0"
    ensures PyEqual(conflate, CanonicalForm(Float(zero), false), CanonicalForm(Float(minus), false))
    ensures !Same(Float(zero), Float(minus), false, false)
  {
    var x, y := [Str("float"), Float(zero)], [Str("float"), Float(minus)];
    assert CanonicalForm(Float(zero), false) == Arr(x) && CanonicalForm(Float(minus), false) == Arr(y);
    forall i | 0 <= i < 2 ensures PyEqual(conflate, x[i], y[i]) {
    }
  }

  /** One graded dimension of `assess`, other than the witnesses. */
  predicate DimensionMatches(conflate: (Json, Json) -> bool, dimension: string, value: Json, expected: Json) {
    PyEqual(conflate, CanonicalForm(Obj(map[dimension := value]), false),
            CanonicalForm(Obj(map[dimension := expected]), false))
  }

  /** An answer key without zero floats is matched by exactly its reorderings, whatever was submitted. */
  lemma {:induction false} GradingIsExact(conflate: (Json, Json) -> bool, dimension: string, value: Json,
                                          expected: Json)
    requires Free(expected, {"0.0", "-0.0"})
    ensures DimensionMatches(conflate, dimension, value, expected) <==>
              Same(value, expected, dimension in {"statuses", "witnesses"}, false)
  {
    hide CanonicalForm, PyEqual;
    var a, b := Obj(map[dimension := value]), Obj(map[dimension := expected]);
    assert Free(b, {"0.0", "-0.0"});
    PairIsDecided(conflate, a, b, false);
    assert a.m[dimension] == value && b.m[dimension] == expected;
  }

  // ---- which arrays keep their order

  /** The arrays hold the same elements position by position. */
  ghost predicate SameInOrder(xs: seq<Json>, ys: seq<Json>) {
    |xs| == |ys| && forall i :: 0 <= i < |xs| ==> Same(xs[i], ys[i], false, false)
  }

  /** Some rearrangement of the one array holds the same elements as the other. */
  ghost predicate SameInSomeOrder(xs: seq<Json>, ys: seq<Json>) {
    |xs| == |ys| && exists p: seq<nat> ::
      IsPermutation(p, |xs|) && forall i :: 0 <= i < |p| && i < |ys| && p[i] < |xs| ==>
          Same(xs[p[i]], ys[i], false, false)
  }

  lemma {:induction false} KeyedArrays(conflate: (Json, Json) -> bool, key: string, xs: seq<Json>, ys: seq<Json>)
    requires Free(Arr(ys), {"0.0", "-0.0"})
    ensures Same(Arr(xs), Arr(ys), KeepsOrder(key), false) <==>
            PyEqual(conflate, CanonicalForm(Obj(map[key := Arr(xs)]), false),
                    CanonicalForm(Obj(map[key := Arr(ys)]), false))
  {
    hide CanonicalForm, PyEqual, KeepsOrder;
    var a, b := Obj(map[key := Arr(xs)]), Obj(map[key := Arr(ys)]);
    assert b.m[key] == Arr(ys);
    assert Free(b, {"0.0", "-0.0"});
    PairIsDecided(conflate, a, b, false);
    assert a.m.Keys == {key} && a.m[key] == Arr(xs);
  }

  /** The arrays answered under `statuses` and `witnesses` are graded in their order, position by position. */
  lemma {:induction false} OrderedKeys(conflate: (Json, Json) -> bool, xs: seq<Json>, ys: seq<Json>)
    requires Free(Arr(ys), {"0.0", "-0.0"})
    ensures forall key :: key in {"statuses", "witnesses"} ==>
              (SameInOrder(xs, ys) <==>
               PyEqual(conflate, CanonicalForm(Obj(map[key := Arr(xs)]), false),
                       CanonicalForm(Obj(map[key := Arr(ys)]), false)))
  {
    hide CanonicalForm, PyEqual, Free;
    forall key | key in {"statuses", "witnesses"}
      ensures SameInOrder(xs, ys) <==>
              PyEqual(conflate, CanonicalForm(Obj(map[key := Arr(xs)]), false),
                      CanonicalForm(Obj(map[key := Arr(ys)]), false))
    {
      KeyedArrays(conflate, key, xs, ys);
    }
  }

  /** Under every other key, and alone, they are graded in any order. */
  lemma {:induction false} UnorderedKeys(conflate: (Json, Json) -> bool, key: string, xs: seq<Json>, ys: seq<Json>)
    requires Free(Arr(ys), {"0.0", "-0.0"}) && key !in {"statuses", "witnesses"}
    ensures SameInSomeOrder(xs, ys) <==>
            PyEqual(conflate, CanonicalForm(Obj(map[key := Arr(xs)]), false),
                    CanonicalForm(Obj(map[key := Arr(ys)]), false))
    ensures SameInSomeOrder(xs, ys) <==> PyEqual(conflate, CanonicalForm(Arr(xs), false), CanonicalForm(Arr(ys), false))
  {
    hide CanonicalForm, PyEqual, Free;
    KeyedArrays(conflate, key, xs, ys);
    ZeroFreePair(Arr(xs), Arr(ys));
    PairIsDecided(conflate, Arr(xs), Arr(ys), false);
  }

  lemma {:induction false} ZeroFreePair(a: Json, b: Json)
    requires Free(b, {"0.0", "-0.0"})
    ensures SignFree(a, b)
  {
  }

  /**
   Values of two types are never the same answer, whatever Python's `==` says of them: true is not 1, and 1 is
   not 1.0.
   */
  lemma {:induction false} TypesStayApart(conflate: (Json, Json) -> bool, a: Json, b: Json, ordered: bool)
    requires (a.Null?, a.Bool?, a.Int?, a.Float?, a.Str?, a.Arr?) != (b.Null?, b.Bool?, b.Int?, b.Float?, b.Str?,
                                                                      b.Arr?)
    ensures !PyEqual(conflate, CanonicalForm(a, ordered), CanonicalForm(b, ordered))
  {
    hide CanonicalForm, PyEqual;
    if PyEqual(conflate, CanonicalForm(a, ordered), CanonicalForm(b, ordered)) {
      EqualFormsAreSame(conflate, a, b, ordered);
    }
  }

  lemma {:induction false} SharedPrefix(p: string, a: string, b: string)
    ensures LexLeq(p + a, p + b) <==> LexLeq(a, b)
  {
    if p == "" {
      assert p + a == a && p + b == b;
    } else {
      SharedPrefix(p[1..], a, b);
      assert (p + a)[1..] == p[1..] + a && (p + b)[1..] == p[1..] + b;
    }
  }

  lemma {:induction false} FloatText1(x: FloatText)
    ensures Dumps(CanonicalForm(Float(x), false)) == "[" + Quote("float") + ", " + (x + "]")
  {
    hide Quote;
    var c := CanonicalForm(Float(x), false);
    assert c == Arr([Str("float"), Float(x)]);
    assert c.xs[1..] == [Float(x)];
    assert Elements(c.xs[1..]) == Dumps(Float(x)) == x;
    assert Elements(c.xs) == Quote("float") + ", " + x;
    assert Dumps(c) == "[" + (Quote("float") + ", " + x) + "]";
  }

  lemma {:induction false} SortedPair(x: FloatText, y: FloatText)
    requires LexLeq(y + "]", x + "]") && !LexLeq(x + "]", y + "]")
    ensures CanonicalForm(Arr([Float(x), Float(y)]), false).xs == Forms([Float(y), Float(x)])
    ensures CanonicalForm(Arr([Float(y), Float(x)]), false).xs == Forms([Float(y), Float(x)])
  {
    var p := "[" + Quote("float") + ", ";
    FloatText1(x);
    FloatText1(y);
    SharedPrefix(p, x + "]", y + "]");
    SharedPrefix(p, y + "]", x + "]");
    var fx, fy := CanonicalForm(Float(x), false), CanonicalForm(Float(y), false);
    assert !TextLeq(fx, fy) && TextLeq(fy, fx);
    SortedForms(x, y, fx, fy);
  }

  lemma {:induction false} SortedForms(x: FloatText, y: FloatText, fx: Json, fy: Json)
    requires fx == CanonicalForm(Float(x), false) && fy == CanonicalForm(Float(y), false) && !TextLeq(fx, fy)
    requires TextLeq(fy, fx)
    ensures CanonicalForm(Arr([Float(x), Float(y)]), false).xs == Forms([Float(y), Float(x)])
    ensures CanonicalForm(Arr([Float(y), Float(x)]), false).xs == Forms([Float(y), Float(x)])
  {
    hide TextLeq, Sorted;
    SortsTwo(fx, fy);
    ArrayFormElements([Float(x), Float(y)], false);
    ArrayFormElements([Float(y), Float(x)], false);
    assert Forms([Float(x), Float(y)]) == [fx, fy] && Forms([Float(y), Float(x)]) == [fy, fx];
  }

  lemma {:induction false} SortsTwo(x: Json, y: Json)
    requires TextLeq(y, x) && !TextLeq(x, y)
    ensures Sorted(TextLeq, [x, y]) == [y, x] && Sorted(TextLeq, [y, x]) == [y, x]
  {
    assert Sorted(TextLeq, []) == [];
    assert [x, y][1..] == [y] && [y, x][1..] == [x];
    assert [y][1..] == [] && [x][1..] == [];
    assert Sorted(TextLeq, [y]) == [y] && Sorted(TextLeq, [x]) == [x];
    assert Insert(TextLeq, x, []) == [x];
  }

  lemma {:induction false} TextsInOrder()
    ensures LexLeq("-1.0" + "]", "0.0" + "]") && !LexLeq("0.0" + "]", "-1.0" + "]")
    ensures LexLeq("-0.0" + "]", "-1.0" + "]") && !LexLeq("-1.0" + "]", "-0.0" + "]")
  {
    SharedPrefix("-", "0.0]", "1.0]");
    SharedPrefix("-", "1.0]", "0.0]");
    assert "-" + "0.0]" == "-0.0" + "]" && "-" + "1.0]" == "-1.0" + "]";
  }

  lemma {:induction false} FirstElementsDiffer(conflate: (Json, Json) -> bool, a: seq<Json>, b: seq<Json>, x: FloatText,
                                               y: FloatText)
    requires a != [] && b != [] && a[0] == CanonicalForm(Float(x), false) && b[0] == CanonicalForm(Float(y), false)
    requires x != y && !(IsZero(x) && IsZero(y))
    ensures !PyEqual(conflate, Arr(a), Arr(b))
  {
    assert !PyEqual(conflate, a[0].xs[1], b[0].xs[1]);
    assert !PyEqual(conflate, a[0], b[0]);
  }

  lemma {:induction false} SortedApart(conflate: (Json, Json) -> bool, zero: FloatText, minus: FloatText,
                                       one: FloatText)
    requires !IsZero(one) && one != minus
    requires LexLeq(one + "]", zero + "]") && !LexLeq(zero + "]", one + "]")
    requires LexLeq(minus + "]", one + "]") && !LexLeq(one + "]", minus + "]")
    ensures !PyEqual(conflate, CanonicalForm(Arr([Float(zero), Float(one)]), false),
                     CanonicalForm(Arr([Float(minus), Float(one)]), false))
  {
    SortedPair(zero, one);
    SortedPair(one, minus);
    ArrayFormElements([Float(zero), Float(one)], false);
    ArrayFormElements([Float(minus), Float(one)], false);
    var x, y := CanonicalForm(Arr([Float(zero), Float(one)]), false),
        CanonicalForm(Arr([Float(minus), Float(one)]), false);
    FirstElementsDiffer(conflate, x.xs, y.xs, one, minus);
  }

  /** Where the sign of zero is at stake the forms can differ although Python calls the elements equal. */
  lemma {:induction false} SignedZeroSortsApart(conflate: (Json, Json) -> bool, zero: FloatText, minus: FloatText,
                                                one: FloatText)
    requires zero == "0.0" && minus == "-0.0" && one == "-1.0"
    ensures PyEqual(conflate, Arr([Float(zero), Float(one)]), Arr([Float(minus), Float(one)]))
    ensures !PyEqual(conflate, CanonicalForm(Arr([Float(zero), Float(one)]), false),
                     CanonicalForm(Arr([Float(minus), Float(one)]), false))
  {
    TextsInOrder();
    SortedApart(conflate, zero, minus, one);
  }

  // ---- two arrays that differ in one sign of zero

  /** A zero and a number. */
  function Tied(zero: FloatText, n: nat): Json {
    Arr([Float(zero), Int(n)])
  }

  /** A pair with the first zero and the number 2, and a pair with the other and the number 1. */
  function TiedPairs(first: FloatText, zero: FloatText): Json {
    Arr([Tied(first, 2), Tied(zero, 1)])
  }

  lemma {:induction false} IntText1(n: nat)
    requires n < 10
    ensures Dumps(CanonicalForm(Int(n), false)) == "[" + Quote("int") + ", " + ([Digit(n)] + "]")
  {
    hide Quote;
    var c := CanonicalForm(Int(n), false);
    assert c == Arr([Str("int"), Int(n)]);
    assert c.xs[1..] == [Int(n)];
    assert Elements(c.xs[1..]) == Dumps(Int(n)) == [Digit(n)];
    assert Elements(c.xs) == Quote("int") + ", " + [Digit(n)];
    assert Dumps(c) == "[" + (Quote("int") + ", " + [Digit(n)]) + "]";
  }

  lemma {:induction false} QuoteBegins(name: string)
    requires name != "" && 'a' <= name[0] <= 'z'
    ensures Quote(name) == "\"" + ([name[0]] + (EscapeAll(name[1..]) + "\""))
  {
    assert EscapeChar(name[0]) == [name[0]];
  }

  /** A float's form sorts before an integer's: "float" is before "int". */
  lemma {:induction false} FloatBeforeInt(zero: FloatText, n: nat)
    requires n < 10
    ensures var f, i := CanonicalForm(Float(zero), false), CanonicalForm(Int(n), false); TextLeq(f, i) && !TextLeq(i, f)
  {
    hide CanonicalForm, EscapeAll, Dumps;
    var f, i := CanonicalForm(Float(zero), false), CanonicalForm(Int(n), false);
    FloatText1(zero);
    IntText1(n);
    QuoteBegins("float");
    QuoteBegins("int");
    var x := ['f'] + (EscapeAll("float"[1..]) + "\"" + ", " + (zero + "]"));
    var y := ['i'] + (EscapeAll("int"[1..]) + "\"" + ", " + ([Digit(n)] + "]"));
    assert Dumps(f) == "[\"" + x && Dumps(i) == "[\"" + y;
    SharedPrefix("[\"", x, y);
    SharedPrefix("[\"", y, x);
  }

  lemma {:induction false} TiedForm(zero: FloatText, n: nat)
    requires n < 10
    ensures CanonicalForm(Tied(zero, n), false) ==
            Arr([CanonicalForm(Float(zero), false), CanonicalForm(Int(n), false)])
    ensures Dumps(CanonicalForm(Tied(zero, n), false)) ==
            "[[" + Quote("float") + ", " + (zero + "], [" + Quote("int") + ", " + ([Digit(n)] + "]]"))
  {
    hide CanonicalForm, Sorted, TextLeq, Quote, Dumps, Digit;
    var f, i := CanonicalForm(Float(zero), false), CanonicalForm(Int(n), false);
    FloatBeforeInt(zero, n);
    SortsTwo(i, f);
    TwoForms(Float(zero), Int(n), f, i);
    FloatText1(zero);
    IntText1(n);
    TwoDumps(f, i);
    TiedText(zero, [Digit(n)]);
  }

  lemma {:induction false} TiedText(zero: string, n: string)
    ensures "[" + (("[" + Quote("float") + ", " + (zero + "]"))
                   + ", " + ("[" + Quote("int") + ", " + (n + "]"))) + "]" ==
            "[[" + Quote("float") + ", " + (zero + "], [" + Quote("int") + ", " + (n + "]]"))
  {
    hide Quote;
    var q, r := Quote("float"), Quote("int");
    assert "[" + (("[" + q + ", " + (zero + "]")) + ", " + ("[" + r + ", " + (n + "]"))) + "]" ==
           "[[" + q + ", " + (zero + "], [" + r + ", " + (n + "]]"));
  }

  lemma {:induction false} TwoForms(x: Json, y: Json, f: Json, g: Json)
    requires f == CanonicalForm(x, false) && g == CanonicalForm(y, false) && Sorted(TextLeq, [f, g]) == [f, g]
    ensures CanonicalForm(Arr([x, y]), false) == Arr([f, g])
  {
    hide TextLeq, Sorted;
    ArrayFormElements([x, y], false);
    assert Forms([x, y]) == [f, g];
  }

  lemma {:induction false} TwoDumps(f: Json, g: Json)
    ensures Dumps(Arr([f, g])) == "[" + (Dumps(f) + ", " + Dumps(g)) + "]"
  {
    assert [f, g][1..] == [g];
    assert Elements([g]) == Dumps(g);
    assert Elements([f, g]) == Dumps(f) + ", " + Dumps(g);
  }

  /** With the same zero the number decides the order. */
  lemma {:induction false} NumbersInOrder(zero: FloatText)
    ensures var x, y := CanonicalForm(Tied(zero, 1), false), CanonicalForm(Tied(zero, 2), false);
            TextLeq(x, y) && !TextLeq(y, x)
  {
    hide CanonicalForm, Quote, Dumps;
    TiedForm(zero, 1);
    TiedForm(zero, 2);
    var p := "[[" + Quote("float") + ", " + (zero + "], [" + Quote("int") + ", ");
    assert Dumps(CanonicalForm(Tied(zero, 1), false)) == p + "1]]";
    assert Dumps(CanonicalForm(Tied(zero, 2), false)) == p + "2]]";
    SharedPrefix(p, "1]]", "2]]");
    SharedPrefix(p, "2]]", "1]]");
  }

  /** With different zeros the sign decides it, whatever the numbers. */
  lemma {:induction false} SignsInOrder(zero: FloatText, minus: FloatText, m: nat, n: nat)
    requires zero == "0.0" && minus == "-0.0" && m < 10 && n < 10
    ensures var x, y := CanonicalForm(Tied(minus, m), false), CanonicalForm(Tied(zero, n), false);
            TextLeq(x, y) && !TextLeq(y, x)
  {
    hide CanonicalForm, Quote, Dumps;
    TiedForm(minus, m);
    TiedForm(zero, n);
    var p := "[[" + Quote("float") + ", ";
    var x := minus + "], [" + Quote("int") + ", " + ([Digit(m)] + "]]");
    var y := zero + "], [" + Quote("int") + ", " + ([Digit(n)] + "]]");
    assert Dumps(CanonicalForm(Tied(minus, m), false)) == p + x && Dumps(CanonicalForm(Tied(zero, n), false)) == p + y;
    SharedPrefix(p, x, y);
    SharedPrefix(p, y, x);
  }

  /** Arrays whose elements match up to the sign of zero, and whose forms differ. */
  lemma {:induction false} TiedPair(conflate: (Json, Json) -> bool, zero: FloatText, minus: FloatText)
    requires zero == "0.0" && minus == "-0.0"
    ensures Same(TiedPairs(zero, zero), TiedPairs(minus, zero), false, true)
    ensures !PyEqual(conflate, CanonicalForm(TiedPairs(zero, zero), false),
                     CanonicalForm(TiedPairs(minus, zero), false))
  {
    hide CanonicalForm, Sorted, TextLeq, PyEqual, Same, Tied;
    TiedAreSame(zero, minus);
    var x, y := CanonicalForm(Tied(zero, 1), false), CanonicalForm(Tied(zero, 2), false);
    var z := CanonicalForm(Tied(minus, 2), false);
    NumbersInOrder(zero);
    SignsInOrder(zero, minus, 2, 1);
    SortsTwo(y, x);
    SortsTwo(x, z);
    TiedArrays(zero, minus, x, y, z);
    FirstNumbersDiffer(conflate, zero, minus);
    FirstFormsDiffer(conflate, [x, y], [z, x]);
  }

  lemma {:induction false} FirstFormsDiffer(conflate: (Json, Json) -> bool, a: seq<Json>, b: seq<Json>)
    requires a != [] && b != [] && !PyEqual(conflate, a[0], b[0])
    ensures !PyEqual(conflate, Arr(a), Arr(b))
  {
  }

  lemma {:induction false} TiedArrays(zero: FloatText, minus: FloatText, x: Json, y: Json, z: Json)
    requires x == CanonicalForm(Tied(zero, 1), false) && y == CanonicalForm(Tied(zero, 2), false)
    requires z == CanonicalForm(Tied(minus, 2), false)
    requires Sorted(TextLeq, [y, x]) == [x, y] && Sorted(TextLeq, [z, x]) == [z, x]
    ensures CanonicalForm(TiedPairs(zero, zero), false) == Arr([x, y])
    ensures CanonicalForm(TiedPairs(minus, zero), false) == Arr([z, x])
  {
    hide TextLeq, Sorted, Tied;
    var a, b := [Tied(zero, 2), Tied(zero, 1)], [Tied(minus, 2), Tied(zero, 1)];
    ArrayFormElements(a, false);
    ArrayFormElements(b, false);
    assert Forms(a) == [y, x] && Forms(b) == [z, x];
  }

  lemma {:induction false} TiedAreSame(zero: FloatText, minus: FloatText)
    requires IsZero(zero) && IsZero(minus)
    ensures Same(TiedPairs(zero, zero), TiedPairs(minus, zero), false, true)
  {
    hide Tied;
    ElementsSame(zero, minus, 2);
    ElementsSame(zero, zero, 1);
    TwoSame(Tied(zero, 2), Tied(zero, 1), Tied(minus, 2), Tied(zero, 1));
  }

  lemma {:induction false} TwoSame(a: Json, b: Json, c: Json, d: Json)
    requires Same(a, c, false, true) && Same(b, d, false, true)
    ensures Same(Arr([a, b]), Arr([c, d]), false, true)
  {
    var p: seq<nat> := [0, 1];
    assert IsPermutation(p, 2);
    assert forall i :: 0 <= i < 2 ==> Same([a, b][p[i]], [c, d][i], false, true);
  }

  lemma {:induction false} ElementsSame(x: FloatText, y: FloatText, n: nat)
    requires IsZero(x) && IsZero(y)
    ensures Same(Tied(x, n), Tied(y, n), false, true)
  {
    TwoSame(Float(x), Int(n), Float(y), Int(n));
  }

  lemma {:induction false} FirstNumbersDiffer(conflate: (Json, Json) -> bool, zero: FloatText, minus: FloatText)
    ensures !PyEqual(conflate, CanonicalForm(Tied(zero, 1), false), CanonicalForm(Tied(minus, 2), false))
  {
    hide Tied, Dumps;
    TiedForm(zero, 1);
    TiedForm(minus, 2);
    var f, g := CanonicalForm(Float(zero), false), CanonicalForm(Float(minus), false);
    var i, j := CanonicalForm(Int(1), false), CanonicalForm(Int(2), false);
    assert !PyEqual(conflate, i.xs[1], j.xs[1]);
    assert !PyEqual(conflate, i, j);
    assert [f, i][1] == i && [g, j][1] == j;
  }
}
