/** What an expanded matrix is, without the loops: which legs there are, in which order,
    and where each of their values comes from. */
module MatrixLaws {
  import opened Model
  import opened MatrixExpansion

  // ------------------------------------------------- The product by its digits

  /** One value index per dimension. */
  ghost predicate IsChoice(dims: seq<string>, vals: map<string, seq<Value>>, choice: seq<nat>)
    requires Evaluated(dims, vals)
  {
    |choice| == |dims| && forall j :: 0 <= j < |dims| ==> choice[j] < |vals[dims[j]]|
  }

  ghost function Pick(dims: seq<string>, vals: map<string, seq<Value>>, choice: seq<nat>): Combo
    requires Evaluated(dims, vals) && IsChoice(dims, vals, choice)
    decreases |dims|
  {
    if dims == [] then map[]
    else
      var n := |dims| - 1;
      PrefixIsEvaluated(dims, vals, choice);
      Pick(dims[..n], vals, choice[..n])[dims[n] := vals[dims[n]][choice[n]]]
  }

  /** The place of a choice when the last dimension varies fastest. */
  ghost function Rank(dims: seq<string>, vals: map<string, seq<Value>>, choice: seq<nat>): nat
    requires Evaluated(dims, vals) && IsChoice(dims, vals, choice)
    decreases |dims|
  {
    if dims == [] then 0
    else
      var n := |dims| - 1;
      PrefixIsEvaluated(dims, vals, choice);
      Rank(dims[..n], vals, choice[..n]) * |vals[dims[n]]| + choice[n]
  }

  lemma PrefixIsEvaluated(dims: seq<string>, vals: map<string, seq<Value>>, choice: seq<nat>)
    requires Evaluated(dims, vals) && IsChoice(dims, vals, choice) && dims != []
    ensures Evaluated(dims[..|dims| - 1], vals) && dims[|dims| - 1] in vals && vals[dims[|dims| - 1]] != []
    ensures IsChoice(dims[..|dims| - 1], vals, choice[..|dims| - 1])
  {
    assert dims[|dims| - 1] in dims;
    assert forall k :: k in dims[..|dims| - 1] ==> k in dims;
  }

  lemma {:induction false} ExtendLength(combos: seq<Combo>, k: string, vs: seq<Value>)
    ensures |Extend(combos, k, vs)| == |combos| * |vs|
    decreases |combos|
  {
    if combos != [] {
      ExtendLength(combos[..|combos| - 1], k, vs);
      assert |combos| * |vs| == (|combos| - 1) * |vs| + |vs|;
    }
  }

  lemma {:induction false} ExtendByDigits(combos: seq<Combo>, k: string, vs: seq<Value>, t: nat, v: nat)
    requires t < |combos| && v < |vs|
    ensures t * |vs| + v < |Extend(combos, k, vs)|
    ensures Extend(combos, k, vs)[t * |vs| + v] == combos[t][k := vs[v]]
    decreases |combos|
  {
    var n, rest := |combos| - 1, combos[..|combos| - 1];
    ExtendLength(combos, k, vs);
    ExtendLength(rest, k, vs);
    DigitsBelow(t, v, n, |vs|);
    if t < n {
      ExtendByDigits(rest, k, vs, t, v);
    }
  }

  lemma DigitsBelow(t: nat, v: nat, n: nat, size: nat)
    requires t <= n && v < size
    ensures t < n ==> t * size + v < n * size
    ensures t * size + v < (n + 1) * size
  {
    if t < n {
      assert t * size + size == (t + 1) * size <= n * size;
    }
    assert (n + 1) * size == n * size + size && t * size <= n * size;
  }

  /** Every choice of values is one combination, found at its rank. */
  lemma {:induction false} ChoiceIsAtItsRank(dims: seq<string>, vals: map<string, seq<Value>>, choice: seq<nat>)
    requires Evaluated(dims, vals) && IsChoice(dims, vals, choice)
    ensures Rank(dims, vals, choice) < |Product(dims, vals)|
    ensures Product(dims, vals)[Rank(dims, vals, choice)] == Pick(dims, vals, choice)
    decreases |dims|
  {
    if dims != [] {
      var n := |dims| - 1;
      PrefixIsEvaluated(dims, vals, choice);
      ChoiceIsAtItsRank(dims[..n], vals, choice[..n]);
      ExtendByDigits(Product(dims[..n], vals), dims[n], vals[dims[n]], Rank(dims[..n], vals, choice[..n]), choice[n]);
    }
  }

  /** And every combination is one choice's. */
  lemma {:induction false} EveryRankIsAChoice(dims: seq<string>, vals: map<string, seq<Value>>, t: nat) returns (choice: seq<nat>)
    requires Evaluated(dims, vals) && t < |Product(dims, vals)|
    ensures IsChoice(dims, vals, choice) && Rank(dims, vals, choice) == t
    decreases |dims|
  {
    if dims == [] {
      choice := [];
    } else {
      var n := |dims| - 1;
      var size := |vals[dims[n]]|;
      assert dims == dims[..n] + [dims[n]];
      ExtendLength(Product(dims[..n], vals), dims[n], vals[dims[n]]);
      QuotientBelow(t, |Product(dims[..n], vals)|, size);
      var prefix := EveryRankIsAChoice(dims[..n], vals, t / size);
      choice := prefix + [t % size];
      assert choice[..n] == prefix;
    }
  }

  lemma NotBelow(q: nat, n: nat, size: nat)
    requires q >= n
    ensures q * size >= n * size
  {
  }

  lemma QuotientBelow(t: nat, n: nat, size: nat)
    requires size > 0 && t < n * size
    ensures 0 <= t / size < n && t == (t / size) * size + t % size
  {
    var q := t / size;
    assert t == q * size + t % size;
    if q >= n {
      NotBelow(q, n, size);
    }
  }

  /** Choices that part earlier, or at a smaller index, come first: the legs are in the
      lexicographic order of the declaration, the last dimension varying fastest. */
  lemma {:induction false} RanksFollowDeclaration(dims: seq<string>, vals: map<string, seq<Value>>, a: seq<nat>, b: seq<nat>, p: nat)
    requires Evaluated(dims, vals) && IsChoice(dims, vals, a) && IsChoice(dims, vals, b)
    requires p < |dims| && a[..p] == b[..p] && a[p] < b[p]
    ensures Rank(dims, vals, a) < Rank(dims, vals, b)
    decreases |dims|
  {
    var n := |dims| - 1;
    var size := |vals[dims[n]]|;
    PrefixIsEvaluated(dims, vals, a);
    PrefixIsEvaluated(dims, vals, b);
    if p < n {
      assert a[..n][..p] == a[..p] && b[..n][..p] == b[..p];
      RanksFollowDeclaration(dims[..n], vals, a[..n], b[..n], p);
      var x, y := Rank(dims[..n], vals, a[..n]), Rank(dims[..n], vals, b[..n]);
      DigitsBelow(x, a[n], y, size);
    }
  }

  lemma {:induction false} PickedKeys(dims: seq<string>, vals: map<string, seq<Value>>, choice: seq<nat>)
    requires Evaluated(dims, vals) && IsChoice(dims, vals, choice)
    ensures forall k :: k in Pick(dims, vals, choice) <==> k in dims
    decreases |dims|
  {
    if dims != [] {
      var n := |dims| - 1;
      PrefixIsEvaluated(dims, vals, choice);
      PickedKeys(dims[..n], vals, choice[..n]);
      assert dims == dims[..n] + [dims[n]];
    }
  }

  lemma {:induction false} PickedValue(dims: seq<string>, vals: map<string, seq<Value>>, choice: seq<nat>, j: nat)
    requires Evaluated(dims, vals) && IsChoice(dims, vals, choice) && Distinct(dims) && j < |dims|
    ensures dims[j] in Pick(dims, vals, choice) && Pick(dims, vals, choice)[dims[j]] == vals[dims[j]][choice[j]]
    decreases |dims|
  {
    var n := |dims| - 1;
    PrefixIsEvaluated(dims, vals, choice);
    if j < n {
      PickedValue(dims[..n], vals, choice[..n], j);
    }
  }

  /** The combination of a choice holds exactly the dimensions, each with the chosen value. */
  lemma PickedValues(dims: seq<string>, vals: map<string, seq<Value>>, choice: seq<nat>)
    requires Evaluated(dims, vals) && IsChoice(dims, vals, choice) && Distinct(dims)
    ensures forall k :: k in Pick(dims, vals, choice) <==> k in dims
    ensures forall j :: 0 <= j < |dims| ==>
      dims[j] in Pick(dims, vals, choice) && Pick(dims, vals, choice)[dims[j]] == vals[dims[j]][choice[j]]
  {
    hide Pick;
    PickedKeys(dims, vals, choice);
    forall j | 0 <= j < |dims|
      ensures dims[j] in Pick(dims, vals, choice) && Pick(dims, vals, choice)[dims[j]] == vals[dims[j]][choice[j]]
    {
      PickedValue(dims, vals, choice, j);
    }
  }

  // ------------------------------------------------------------- What is kept

  ghost predicate Rising(ranks: seq<nat>) {
    forall i, j :: 0 <= i < j < |ranks| ==> ranks[i] < ranks[j]
  }

  /** The places where the flag is set. */
  ghost function Survivors(keep: seq<bool>): seq<nat>
    decreases |keep|
  {
    if keep == [] then []
    else Survivors(keep[..|keep| - 1]) + (if keep[|keep| - 1] then [|keep| - 1] else [])
  }

  lemma {:induction false} SurvivorsInOrder(keep: seq<bool>)
    ensures Rising(Survivors(keep)) && forall t :: t in Survivors(keep) <==> 0 <= t < |keep| && keep[t]
    decreases |keep|
  {
    if keep != [] {
      var before := Survivors(keep[..|keep| - 1]);
      SurvivorsInOrder(keep[..|keep| - 1]);
      forall i | 0 <= i < |before| ensures before[i] < |keep| - 1 {
        assert before[i] in before;
      }
    }
  }

  ghost function Unexcluded(combos: seq<Combo>, excludes: seq<Combo>): (keep: seq<bool>)
    ensures |keep| == |combos| && forall t :: 0 <= t < |combos| ==> keep[t] == !Excluded(combos[t], excludes)
  {
    seq(|combos|, t requires 0 <= t < |combos| => !Excluded(combos[t], excludes))
  }

  lemma {:induction false} KeptByRank(combos: seq<Combo>, excludes: seq<Combo>)
    ensures var ranks := Survivors(Unexcluded(combos, excludes));
      && |ranks| == |Kept(combos, excludes)|
      && (forall i :: 0 <= i < |ranks| ==> 0 <= ranks[i] < |combos| && Kept(combos, excludes)[i] == combos[ranks[i]])
    decreases |combos|
  {
    hide Excluded;
    if combos != [] {
      var rest := combos[..|combos| - 1];
      KeptByRank(rest, excludes);
      assert Unexcluded(combos, excludes)[..|combos| - 1] == Unexcluded(rest, excludes);
    }
  }

  /** The combination has every value the entry names. */
  predicate Agrees(c: Combo, entry: Combo) {
    forall k :: k in entry ==> k in c && SameValue(c[k], entry[k])
  }

  /** The values of the entry's dimensions are the combination's own. */
  predicate AgreesOn(c: Combo, entry: Combo, dims: set<string>) {
    forall k :: k in entry && k in dims ==> k in c && SameValue(c[k], entry[k])
  }

  /** An exclude removes what matches it and nothing else, and moves nothing. */
  lemma KeptAreTheUnexcluded(combos: seq<Combo>, excludes: seq<Combo>)
    ensures var ranks := Survivors(Unexcluded(combos, excludes));
      && Rising(ranks) && |ranks| == |Kept(combos, excludes)|
      && (forall t :: t in ranks <==> 0 <= t < |combos| && forall ex :: ex in excludes ==> !Agrees(combos[t], ex))
      && (forall i :: 0 <= i < |ranks| ==> 0 <= ranks[i] < |combos| && Kept(combos, excludes)[i] == combos[ranks[i]])
  {
    hide Kept;
    KeptByRank(combos, excludes);
    SurvivorsInOrder(Unexcluded(combos, excludes));
  }

  ghost function Strays(kept: seq<Combo>, includes: seq<Combo>, dims: set<string>): (keep: seq<bool>)
    ensures |keep| == |includes| && forall t :: 0 <= t < |includes| ==> keep[t] == FitsNone(includes[t], kept, dims)
  {
    seq(|includes|, t requires 0 <= t < |includes| => FitsNone(includes[t], kept, dims))
  }

  lemma {:induction false} UnmatchedByRank(kept: seq<Combo>, includes: seq<Combo>, dims: set<string>)
    ensures var ranks := Survivors(Strays(kept, includes, dims));
      && |ranks| == |Unmatched(kept, includes, dims)|
      && (forall i :: 0 <= i < |ranks| ==>
           0 <= ranks[i] < |includes| && Unmatched(kept, includes, dims)[i] == includes[ranks[i]])
    decreases |includes|
  {
    hide FitsNone;
    if includes != [] {
      var rest := includes[..|includes| - 1];
      UnmatchedByRank(kept, rest, dims);
      assert Strays(kept, includes, dims)[..|includes| - 1] == Strays(kept, rest, dims);
    }
  }

  /** The legs that follow are the includes that fit no kept combination, in order. */
  lemma UnmatchedAreTheStrays(kept: seq<Combo>, includes: seq<Combo>, dims: set<string>)
    ensures var ranks := Survivors(Strays(kept, includes, dims));
      && Rising(ranks) && |ranks| == |Unmatched(kept, includes, dims)|
      && (forall t :: t in ranks <==> 0 <= t < |includes| && forall c :: c in kept ==> !AgreesOn(c, includes[t], dims))
      && (forall i :: 0 <= i < |ranks| ==>
           0 <= ranks[i] < |includes| && Unmatched(kept, includes, dims)[i] == includes[ranks[i]])
  {
    hide Unmatched;
    UnmatchedByRank(kept, includes, dims);
    SurvivorsInOrder(Strays(kept, includes, dims));
  }

  // ----------------------------------------------------- Where values come from

  lemma FittingIsAgreeing(inc: Combo, base: Combo, dims: set<string>)
    ensures Fits(inc, base, dims) <==> AgreesOn(base, inc, dims)
  {
  }

  lemma ExcludedMeansAgreed(c: Combo, excludes: seq<Combo>)
    ensures Excluded(c, excludes) <==> exists ex :: ex in excludes && Agrees(c, ex)
  {
  }

  /** The include has something to say about this key of this combination. */
  predicate Sets(inc: Combo, base: Combo, dims: set<string>, k: string) {
    k in inc && AgreesOn(base, inc, dims)
  }

  /** A key has the value of the last include that sets it ... */
  lemma {:induction false} LastSetterWins(base: Combo, includes: seq<Combo>, dims: set<string>, k: string, i: nat)
    requires i < |includes| && Sets(includes[i], base, dims, k)
    requires forall j :: i < j < |includes| ==> !Sets(includes[j], base, dims, k)
    ensures k in Merged(base, includes, dims) && Merged(base, includes, dims)[k] == includes[i][k]
    decreases |includes|
  {
    hide Fits, AgreesOn;
    FittingIsAgreeing(includes[|includes| - 1], base, dims);
    if i < |includes| - 1 {
      LastSetterWins(base, includes[..|includes| - 1], dims, k, i);
    }
  }

  /** ... and the original one, if any, where no include sets it. */
  lemma {:induction false} UnsetKeysAreOriginal(base: Combo, includes: seq<Combo>, dims: set<string>, k: string)
    requires forall j :: 0 <= j < |includes| ==> !Sets(includes[j], base, dims, k)
    ensures k in Merged(base, includes, dims) <==> k in base
    ensures k in base ==> Merged(base, includes, dims)[k] == base[k]
    decreases |includes|
  {
    hide Fits, AgreesOn;
    if includes != [] {
      FittingIsAgreeing(includes[|includes| - 1], base, dims);
      UnsetKeysAreOriginal(base, includes[..|includes| - 1], dims, k);
    }
  }

  /** No include changes what a combination's own dimensions stand for. */
  lemma {:induction false} DimensionsKeepTheirValues(base: Combo, includes: seq<Combo>, dims: set<string>, k: string)
    requires k in base && k in dims
    ensures k in Merged(base, includes, dims) && SameValue(base[k], Merged(base, includes, dims)[k])
    decreases |includes|
  {
    if includes != [] {
      DimensionsKeepTheirValues(base, includes[..|includes| - 1], dims, k);
    }
  }

  /** Numbers are the same as numbers, whatever their type; everything else is only itself. */
  lemma NumbersCompareAsNumbers(a: Value, b: Value, m: int, n: int, x: real, y: real)
    ensures SameValue(Int(m), Int(n)) <==> m == n
    ensures SameValue(Int(m), Float(x)) <==> m as real == x
    ensures SameValue(Float(x), Int(m)) <==> m as real == x
    ensures SameValue(Float(x), Float(y)) <==> x == y
    ensures !(a.Int? || a.Float?) ==> (SameValue(a, b) <==> a == b)
    ensures (a.Int? || a.Float?) && !(b.Int? || b.Float?) ==> !SameValue(a, b)
  {
  }

  lemma SameValueIsAnEquivalence(a: Value, b: Value, c: Value)
    ensures SameValue(a, a)
    ensures SameValue(a, b) ==> SameValue(b, a)
    ensures SameValue(a, b) && SameValue(b, c) ==> SameValue(a, c)
  {
  }

  // ---------------------------------------------------------------- The legs

  lemma {:induction false} DistinctDims(m: Matrix)
    requires OrderFits(m)
    ensures Distinct(Dims(m)) && forall k :: k in Dims(m) <==> k in m.dimensions
  {
    if m.dimensions != map[] {
      DimsAreDistinct(m.dimensions, m.order);
    }
  }

  /** Every leg of the product comes from a choice of values no exclude matches: it agrees
      with that choice on every dimension, and the dimensions are what names it. */
  lemma ProductLegsAreChoices(m: Matrix, ev: Evaluator, literal: Value -> bool, legs: seq<Leg>, i: nat)
    returns (choice: seq<nat>)
    requires Expandable(m, ev, literal) && IsExpansion(m, ev, literal, legs) && i < |Combinations(m, ev, literal)|
    ensures var dims, vals := Dims(m), Values(m, ev, literal);
      && IsChoice(dims, vals, choice) && (forall ex :: ex in m.excludes ==> !Agrees(Pick(dims, vals, choice), ex))
      && legs[i].nameKeys == dims
      && forall j :: 0 <= j < |dims| ==>
           dims[j] in legs[i].values && SameValue(vals[dims[j]][choice[j]], legs[i].values[dims[j]])
  {
    hide IsLegOrder, Excluded, Agrees, Fits, OrderFits, Values;
    var dims, vals := Dims(m), Values(m, ev, literal);
    var product := Product(dims, vals);
    KeptAreTheUnexcluded(product, m.excludes);
    var ranks := Survivors(Unexcluded(product, m.excludes));
    assert ranks[i] in ranks;
    choice := EveryRankIsAChoice(dims, vals, ranks[i]);
    ChoiceIsAtItsRank(dims, vals, choice);
    DistinctDims(m);
    PickedValues(dims, vals, choice);
    var base := Kept(product, m.excludes)[i];
    forall j | 0 <= j < |dims|
      ensures dims[j] in legs[i].values && SameValue(vals[dims[j]][choice[j]], legs[i].values[dims[j]])
    {
      DimensionsKeepTheirValues(base, m.includes, DimSet(m), dims[j]);
    }
    AllPresent(legs[i].values, dims);
  }

  lemma {:induction false} AllPresent(values: Combo, keys: seq<string>)
    requires forall j :: 0 <= j < |keys| ==> keys[j] in values
    ensures PresentKeys(values, keys) == keys
    decreases |keys|
  {
    if keys != [] {
      AllPresent(values, keys[..|keys| - 1]);
      assert keys[|keys| - 1] in values;
    }
  }

  /** And every choice no exclude matches has its leg. */
  lemma ChoicesHaveLegs(m: Matrix, ev: Evaluator, literal: Value -> bool, choice: seq<nat>) returns (i: nat)
    requires Expandable(m, ev, literal) && Dims(m) != [] && IsChoice(Dims(m), Values(m, ev, literal), choice)
    requires forall ex :: ex in m.excludes ==> !Agrees(Pick(Dims(m), Values(m, ev, literal), choice), ex)
    ensures i < |Combinations(m, ev, literal)|
    ensures Combinations(m, ev, literal)[i] == Pick(Dims(m), Values(m, ev, literal), choice)
  {
    hide Excluded, Agrees, OrderFits, Values;
    var dims, vals := Dims(m), Values(m, ev, literal);
    ChoiceIsAtItsRank(dims, vals, choice);
    var product := Product(dims, vals);
    KeptAreTheUnexcluded(product, m.excludes);
    var ranks := Survivors(Unexcluded(product, m.excludes));
    assert Rank(dims, vals, choice) in ranks;
    i :| 0 <= i < |ranks| && ranks[i] == Rank(dims, vals, choice);
  }

  // --------------------------------------------------------------- Leg orders

  lemma {:induction false} PresentAreDistinct(values: Combo, keys: seq<string>)
    requires Distinct(keys)
    ensures Distinct(PresentKeys(values, keys))
    decreases |keys|
  {
    if keys != [] {
      PresentAreDistinct(values, keys[..|keys| - 1]);
    }
  }

  lemma {:induction false} DeclaredAreDistinct(values: Combo, dims: seq<string>, declared: seq<string>)
    requires Distinct(dims)
    ensures Distinct(DeclaredKeys(values, dims, declared))
    decreases |declared|
  {
    if declared == [] {
      PresentAreDistinct(values, dims);
    } else {
      DeclaredAreDistinct(values, dims, declared[..|declared| - 1]);
    }
  }

  /** A leg's order names each of its keys once. */
  lemma LegOrderIsAPermutation(order: seq<string>, values: Combo, dims: seq<string>, declared: seq<string>)
    requires Distinct(dims) && IsLegOrder(order, values, dims, declared)
    ensures Distinct(order) && forall k :: k in order <==> k in values
  {
    var first := DeclaredKeys(values, dims, declared);
    var rest := order[|first|..];
    DeclaredAreDistinct(values, dims, declared);
    assert order == first + rest;
    forall i, j | 0 <= i < j < |order| ensures order[i] != order[j] {
      if i < |first| {
        assert order[i] == first[i] && order[i] in first;
        if j >= |first| {
          assert order[j] in rest;
        }
      } else {
        assert order[i] == rest[i - |first|] && order[j] == rest[j - |first|];
        BeforeIsTotal(order[i], order[j]);
      }
    }
  }

  /** Only one order will do, however the map of values is walked. */
  lemma LegOrderIsDetermined(a: seq<string>, b: seq<string>, values: Combo, dims: seq<string>, declared: seq<string>)
    requires IsLegOrder(a, values, dims, declared) && IsLegOrder(b, values, dims, declared)
    ensures a == b
  {
    var n := |DeclaredKeys(values, dims, declared)|;
    AscendingIsUnique(a[n..], b[n..]);
    assert a == a[..n] + a[n..] && b == b[..n] + b[n..];
  }

  /** A matrix has one expansion. */
  lemma ExpansionIsDetermined(m: Matrix, ev: Evaluator, literal: Value -> bool, a: seq<Leg>, b: seq<Leg>)
    requires Evaluated(Dims(m), Values(m, ev, literal))
    requires IsExpansion(m, ev, literal, a) && IsExpansion(m, ev, literal, b)
    ensures a == b
  {
    hide IsProductLeg, IsIncludeLeg, Unmatched, Combinations, DimSet, Values;
    var kept := Combinations(m, ev, literal);
    var extra := Unmatched(kept, m.includes, DimSet(m));
    forall i | 0 <= i < |a| ensures a[i] == b[i] {
      if i < |kept| {
        SameProductLeg(a[i], b[i], kept[i], m);
      } else {
        assert a[|kept| + (i - |kept|)] == a[i] && b[|kept| + (i - |kept|)] == b[i];
        SameIncludeLeg(a[i], b[i], extra[i - |kept|], m);
      }
    }
  }

  lemma SameProductLeg(a: Leg, b: Leg, base: Combo, m: Matrix)
    requires IsProductLeg(a, base, m) && IsProductLeg(b, base, m)
    ensures a == b
  {
    hide IsLegOrder, Merged;
    LegOrderIsDetermined(a.order, b.order, a.values, Dims(m), m.order);
  }

  lemma SameIncludeLeg(a: Leg, b: Leg, inc: Combo, m: Matrix)
    requires IsIncludeLeg(a, inc, m) && IsIncludeLeg(b, inc, m)
    ensures a == b
  {
    hide IsLegOrder;
    LegOrderIsDetermined(a.order, b.order, inc, Dims(m), m.order);
  }

  lemma {:induction false} AscendingIsUnique(a: seq<string>, b: seq<string>)
    requires Ascending(a) && Ascending(b) && forall k :: k in a <==> k in b
    ensures a == b
    decreases |a|
  {
    if a == [] {
      SomethingIsIn(b);
    } else {
      assert a[0] in a && a[0] in b;
      assert b[0] in b && b[0] in a;
      SmallestIsFirst(a, b[0]);
      SmallestIsFirst(b, a[0]);
      BeforeIsTotal(a[0], b[0]);
      assert a == [a[0]] + a[1..] && b == [b[0]] + b[1..];
      FirstIsNotRepeated(a);
      FirstIsNotRepeated(b);
      assert a[0] == b[0] && forall k :: k in a <==> k == a[0] || k in a[1..];
      assert forall k :: k in b <==> k == b[0] || k in b[1..];
      AscendingIsUnique(a[1..], b[1..]);
    }
  }

  lemma SomethingIsIn(s: seq<string>)
    ensures s == [] || exists k :: k in s
  {
    if s != [] {
      assert s[0] in s;
    }
  }

  lemma SmallestIsFirst(s: seq<string>, k: string)
    requires Ascending(s) && k in s
    ensures k == s[0] || Before(s[0], k)
  {
  }

  lemma FirstIsNotRepeated(s: seq<string>)
    requires Ascending(s) && s != []
    ensures s[0] !in s[1..]
  {
    if s[0] in s[1..] {
      var i :| 0 < i < |s| && s[i] == s[0];
      BeforeIsTotal(s[0], s[i]);
    }
  }

  // --------------------------------------------------------- Leg identities

  function WithInclude(m: Matrix, inc: Combo): Matrix {
    m.(includes := m.includes + [inc])
  }

  /** Extra values from an include renumber no leg: the same
      combinations are kept, and each is named by the same keys with the same values. */
  lemma ExtraValuesKeepLegIdentity(m: Matrix, inc: Combo, ev: Evaluator, literal: Value -> bool, legs: seq<Leg>,
                                   legs': seq<Leg>, i: nat)
    requires Expandable(m, ev, literal) && IsExpansion(m, ev, literal, legs)
    requires Expandable(WithInclude(m, inc), ev, literal) && IsExpansion(WithInclude(m, inc), ev, literal, legs')
    requires (forall k :: k in inc ==> k !in Dims(m)) && i < |Combinations(m, ev, literal)|
    ensures |legs'| == |legs|
    ensures legs'[i].nameKeys == legs[i].nameKeys
    ensures forall k | k in legs[i].nameKeys
      :: k in legs[i].values && k in legs'[i].values && legs'[i].values[k] == legs[i].values[k]
  {
    hide IsLegOrder, Excluded, OrderFits, Values, Kept, PresentKeys;
    var m' := WithInclude(m, inc);
    var kept := Combinations(m, ev, literal);
    assert Dims(m') == Dims(m) && Values(m', ev, literal) == Values(m, ev, literal) by {
      SameDimensions(m, m', ev, literal);
    }
    assert m'.includes[..|m.includes|] == m.includes;
    assert kept[i] in kept && Fits(inc, kept[i], DimSet(m));
    assert Unmatched(kept, m'.includes, DimSet(m)) == Unmatched(kept, m.includes, DimSet(m));
    var choice := ProductLegsAreChoices(m, ev, literal, legs, i);
    var choice' := ProductLegsAreChoices(m', ev, literal, legs', i);
    assert legs'[i].values == legs[i].values + inc;
  }

  lemma SameDimensions(m: Matrix, m': Matrix, ev: Evaluator, literal: Value -> bool)
    requires m.dimensions == m'.dimensions && m.order == m'.order
    ensures Dims(m') == Dims(m) && Values(m', ev, literal) == Values(m, ev, literal)
  {
  }

  // -------------------------------------------------------- What a dimension is

  /** What one written value stands for: itself, what its expression gives, or every item of
      the list that its expression gives. */
  predicate StandsFor(v: Value, ev: Evaluator, literal: Value -> bool, piece: seq<Value>) {
    if !v.Text? || literal(v) then piece == [v]
    else ev(v) != None && piece == if ev(v).value.List? then ev(v).value.items else [ev(v).value]
  }

  function EndToEnd(pieces: seq<seq<Value>>): (all: seq<Value>)
    decreases |pieces|
  {
    if pieces == [] then [] else EndToEnd(pieces[..|pieces| - 1]) + pieces[|pieces| - 1]
  }

  predicate Fails(v: Value, ev: Evaluator, literal: Value -> bool) {
    v.Text? && !literal(v) && ev(v) == None
  }

  /** A dimension is refused exactly when an expression in it fails; otherwise its values are
      what its written values stand for, end to end. */
  lemma {:induction false} DimensionsAreSpliced(raw: seq<Value>, ev: Evaluator, literal: Value -> bool)
    returns (pieces: seq<seq<Value>>)
    ensures DimensionValues(raw, ev, literal).None? <==> exists i :: 0 <= i < |raw| && Fails(raw[i], ev, literal)
    ensures DimensionValues(raw, ev, literal).Some? ==>
      && |pieces| == |raw| && DimensionValues(raw, ev, literal).value == EndToEnd(pieces)
      && forall i :: 0 <= i < |raw| ==> StandsFor(raw[i], ev, literal, pieces[i])
    decreases |raw|
  {
    pieces := [];
    if raw != [] {
      var m := |raw| - 1;
      var before := DimensionsAreSpliced(raw[..m], ev, literal);
      var v := raw[m];
      if i :| 0 <= i < m && Fails(raw[..m][i], ev, literal) {
        assert Fails(raw[i], ev, literal);
      }
      assert forall i :: 0 <= i < m ==> raw[..m][i] == raw[i];
      if DimensionValues(raw, ev, literal).Some? {
        var piece := if !v.Text? || literal(v) then [v]
                     else if ev(v).value.List? then ev(v).value.items else [ev(v).value];
        pieces := before + [piece];
        assert pieces[..m] == before;
        assert StandsFor(v, ev, literal, piece);
      }
    }
  }

  // --------------------------------------------------- What is refused, in full

  /** A matrix is refused exactly when its key order repeats a key or misses a dimension, a
      dimension fails to evaluate or comes out empty, an exclude is empty or names what is no
      dimension, or an include is empty. */
  lemma RefusedExactlyWhen(m: Matrix, ev: Evaluator, literal: Value -> bool)
    ensures Expandable(m, ev, literal) <==>
      && (m.dimensions == map[]
          || ((forall i, j :: 0 <= i < j < |m.order| ==> m.order[i] != m.order[j]) && forall k :: k in m.dimensions ==> k in m.order))
      && (forall k :: k in m.dimensions ==> Full(m.dimensions[k], ev, literal))
      && (forall ex :: ex in m.excludes ==> ex != map[] && forall k :: k in ex ==> k in m.dimensions)
      && (forall inc :: inc in m.includes ==> inc != map[])
  {
    hide DimensionValues;
    if OrderFits(m) {
      DistinctDims(m);
    }
  }

  /** Every expression of the dimension evaluates, and some value comes out. */
  ghost predicate Full(raw: seq<Value>, ev: Evaluator, literal: Value -> bool) {
    DimensionValues(raw, ev, literal).Some? && DimensionValues(raw, ev, literal).value != []
  }

  /** The legs that includes add are the includes themselves, named by all their keys. */
  lemma AddedLegsAreTheIncludes(m: Matrix, ev: Evaluator, literal: Value -> bool, legs: seq<Leg>, i: nat)
    requires Expandable(m, ev, literal) && IsExpansion(m, ev, literal, legs)
    requires |Combinations(m, ev, literal)| <= i < |legs|
    ensures legs[i].values in m.includes && legs[i].nameKeys == legs[i].order
    ensures forall k :: k in legs[i].nameKeys <==> k in legs[i].values
  {
    hide Unmatched, Combinations, IsLegOrder, Dims, DimSet, Values, DeclaredKeys;
    var kept := Combinations(m, ev, literal);
    var extra := Unmatched(kept, m.includes, DimSet(m));
    var t := i - |kept|;
    assert legs[|kept| + t] == legs[i] && IsIncludeLeg(legs[i], extra[t], m);
    UnmatchedAreTheStrays(kept, m.includes, DimSet(m));
    DistinctDims(m);
    LegOrderIsAPermutation(legs[i].order, legs[i].values, Dims(m), m.order);
  }

  // ----------------------------------------------------------- A leg's order

  /** a comes before b where the two are listed. */
  predicate ListedBefore(s: seq<string>, a: string, b: string) {
    exists i, j :: 0 <= i < j < |s| && s[i] == a && s[j] == b
  }

  /** Where a leg puts one key before another: dimensions first, in their order, then other
      declared keys, in theirs, then the rest by name. */
  predicate Precedes(a: string, b: string, dims: seq<string>, declared: seq<string>) {
    if a in dims then b !in dims || ListedBefore(dims, a, b)
    else b !in dims && if a in declared then b !in declared || ListedBefore(declared, a, b) else b !in declared && Before(a, b)
  }

  lemma {:induction false} PresentInOrder(values: Combo, keys: seq<string>, i: nat, j: nat)
    requires i < j < |PresentKeys(values, keys)|
    ensures ListedBefore(keys, PresentKeys(values, keys)[i], PresentKeys(values, keys)[j])
    decreases |keys|
  {
    var n := |keys| - 1;
    var front := PresentKeys(values, keys[..n]);
    if j < |front| {
      PresentInOrder(values, keys[..n], i, j);
      var x, y :| 0 <= x < y < n && keys[..n][x] == front[i] && keys[..n][y] == front[j];
      assert keys[x] == front[i] && keys[y] == front[j];
    } else {
      assert front[i] in front;
      var x :| 0 <= x < n && keys[..n][x] == front[i];
      assert keys[x] == front[i] && keys[n] == PresentKeys(values, keys)[j];
    }
  }

  lemma ListedLonger(s: seq<string>, a: string, b: string)
    requires s != [] && ListedBefore(s[..|s| - 1], a, b)
    ensures ListedBefore(s, a, b)
  {
    var i, j :| 0 <= i < j < |s| - 1 && s[..|s| - 1][i] == a && s[..|s| - 1][j] == b;
    assert s[i] == a && s[j] == b;
  }

  lemma {:induction false} DeclaredInOrder(values: Combo, dims: seq<string>, declared: seq<string>, i: nat, j: nat)
    requires i < j < |DeclaredKeys(values, dims, declared)| && Distinct(dims)
    ensures Precedes(DeclaredKeys(values, dims, declared)[i], DeclaredKeys(values, dims, declared)[j], dims, declared)
    decreases |declared|
  {
    var all := DeclaredKeys(values, dims, declared);
    if declared == [] {
      PresentInOrder(values, dims, i, j);
      assert all[i] in all && all[j] in all;
    } else {
      var n := |declared| - 1;
      var less := declared[..n];
      assert declared == less + [declared[n]];
      var front := DeclaredKeys(values, dims, less);
      assert front[i] in front;
      if j < |front| {
        DeclaredInOrder(values, dims, less, i, j);
        assert front[j] in front;
        if front[i] !in dims && front[j] !in dims {
          ListedLonger(declared, front[i], front[j]);
        }
      } else {
        LastDeclared(declared, front, dims, i);
      }
    }
  }

  lemma LastDeclared(declared: seq<string>, front: seq<string>, dims: seq<string>, i: nat)
    requires declared != [] && i < |front| && (front[i] in dims || front[i] in declared[..|declared| - 1])
    ensures front[i] !in dims ==> ListedBefore(declared, front[i], declared[|declared| - 1])
  {
    var n := |declared| - 1;
    if front[i] !in dims {
      var x :| 0 <= x < n && declared[..n][x] == front[i];
      assert declared[x] == front[i] && declared[n] == declared[|declared| - 1];
    }
  }

  /** The keys of a leg stand in that order. */
  lemma LegsFollowTheDeclaration(order: seq<string>, values: Combo, dims: seq<string>, declared: seq<string>, i: nat, j: nat)
    requires Distinct(dims) && IsLegOrder(order, values, dims, declared) && i < j < |order|
    ensures Precedes(order[i], order[j], dims, declared)
  {
    hide DeclaredKeys;
    var first := DeclaredKeys(values, dims, declared);
    var rest := order[|first|..];
    assert i < |first| ==> order[i] == first[i] && first[i] in first;
    assert i >= |first| ==> order[i] == rest[i - |first|] && order[i] in rest;
    assert j >= |first| ==> order[j] == rest[j - |first|] && order[j] in rest;
    if j < |first| {
      assert order[j] == first[j];
      DeclaredInOrder(values, dims, declared, i, j);
    }
  }
}
