/** The expansion of a strategy matrix into legs: product, excludes, includes, and the
    order of each leg's keys. */
module MatrixExpansion {
  import opened Model

  datatype Value =
    | Int(n: int) | Float(x: real) | Text(s: string) | Bool(b: bool) | Null
    | List(items: seq<Value>) | Object(fields: map<string, Value>)

  type Combo = map<string, Value>

  /** order is the declaration order of the keys; keys that only includes bring may be in it too. */
  datatype Matrix = Matrix(
    dimensions: map<string, seq<Value>>,
    order: seq<string>,
    includes: seq<Combo>,
    excludes: seq<Combo>)

  datatype Leg = Leg(values: Combo, order: seq<string>, nameKeys: seq<string>)

  datatype Expansion = Failed | Expanded(legs: seq<Leg>)

  /** How a text value that holds an expression is evaluated; None when it fails. */
  type Evaluator = Value -> Option<Value>

  // ------------------------------------------------------------------ Values

  function AsFloat(v: Value): Option<real> {
    match v
    case Int(n) => Some(n as real)
    case Float(x) => Some(x)
    case _ => None
  }

  /** Numbers compare as numbers, whatever type the parser gave them. */
  predicate SameValue(a: Value, b: Value) {
    if AsFloat(a).Some? then AsFloat(b) == AsFloat(a) else a == b
  }

  /** The partial match of an exclude: what the entry names, the combination has alike. */
  predicate MatchesAll(c: Combo, entry: Combo) {
    forall k :: k in entry ==> k in c && SameValue(c[k], entry[k])
  }

  // -------------------------------------------------------------- Dimensions

  function DimsFrom(dimensions: map<string, seq<Value>>, order: seq<string>): (dims: seq<string>)
    ensures forall k :: k in dims <==> k in order && k in dimensions
    decreases |order|
  {
    if order == [] then []
    else
      var k := order[|order| - 1];
      assert order == order[..|order| - 1] + [k];
      DimsFrom(dimensions, order[..|order| - 1]) + (if k in dimensions then [k] else [])
  }

  predicate Distinct(s: seq<string>) {
    forall i, j :: 0 <= i < j < |s| ==> s[i] != s[j]
  }

  /** The declared order is complete and names nothing twice. */
  ghost predicate OrderFits(m: Matrix) {
    m.dimensions == map[] || (Distinct(m.order) && forall k :: k in m.dimensions ==> k in m.order)
  }

  function Dims(m: Matrix): seq<string> {
    if m.dimensions == map[] then [] else DimsFrom(m.dimensions, m.order)
  }

  /** The values of a dimension with every expression evaluated; one that gives a list is
      spliced in. None when an expression fails. */
  function DimensionValues(raw: seq<Value>, ev: Evaluator, literal: Value -> bool): Option<seq<Value>>
    decreases |raw|
  {
    if raw == [] then Some([])
    else
      var before := DimensionValues(raw[..|raw| - 1], ev, literal);
      var v := raw[|raw| - 1];
      if before.None? then None
      else if !v.Text? || literal(v) then Some(before.value + [v])
      else
        match ev(v)
        case None => None
        case Some(got) => Some(before.value + if got.List? then got.items else [got])
  }

  // ----------------------------------------------------------------- Product

  function Spread(c: Combo, k: string, vs: seq<Value>): (out: seq<Combo>)
    ensures |out| == |vs| && forall i :: 0 <= i < |vs| ==> out[i] == c[k := vs[i]]
  {
    seq(|vs|, i requires 0 <= i < |vs| => c[k := vs[i]])
  }

  function Extend(combos: seq<Combo>, k: string, vs: seq<Value>): seq<Combo>
    decreases |combos|
  {
    if combos == [] then []
    else Extend(combos[..|combos| - 1], k, vs) + Spread(combos[|combos| - 1], k, vs)
  }

  predicate Evaluated(dims: seq<string>, vals: map<string, seq<Value>>) {
    forall k :: k in dims ==> k in vals && vals[k] != []
  }

  /** Every combination of the dimensions' values, the first dimension outermost. */
  function Product(dims: seq<string>, vals: map<string, seq<Value>>): seq<Combo>
    requires Evaluated(dims, vals)
    decreases |dims|
  {
    if dims == [] then [map[]]
    else
      var k := dims[|dims| - 1];
      assert dims == dims[..|dims| - 1] + [k];
      Extend(Product(dims[..|dims| - 1], vals), k, vals[k])
  }

  // ---------------------------------------------------- Excludes and includes

  predicate Excluded(c: Combo, excludes: seq<Combo>) {
    exists ex :: ex in excludes && MatchesAll(c, ex)
  }

  function Kept(combos: seq<Combo>, excludes: seq<Combo>): seq<Combo>
    decreases |combos|
  {
    if combos == [] then []
    else
      var c := combos[|combos| - 1];
      Kept(combos[..|combos| - 1], excludes) + (if Excluded(c, excludes) then [] else [c])
  }

  /** The include agrees with the combination's own value of every dimension it names. */
  predicate Fits(inc: Combo, base: Combo, dims: set<string>) {
    forall k :: k in inc && k in dims ==> k in base && SameValue(base[k], inc[k])
  }

  function Merged(base: Combo, includes: seq<Combo>, dims: set<string>): Combo
    decreases |includes|
  {
    if includes == [] then base
    else
      var inc := includes[|includes| - 1];
      var c := Merged(base, includes[..|includes| - 1], dims);
      if Fits(inc, base, dims) then c + inc else c
  }

  predicate FitsNone(inc: Combo, kept: seq<Combo>, dims: set<string>) {
    forall c :: c in kept ==> !Fits(inc, c, dims)
  }

  function Unmatched(kept: seq<Combo>, includes: seq<Combo>, dims: set<string>): seq<Combo>
    decreases |includes|
  {
    if includes == [] then []
    else
      var inc := includes[|includes| - 1];
      Unmatched(kept, includes[..|includes| - 1], dims) + (if FitsNone(inc, kept, dims) then [inc] else [])
  }

  // ------------------------------------------------------------------- Legs

  function PresentKeys(values: Combo, keys: seq<string>): (out: seq<string>)
    ensures forall k :: k in out <==> k in keys && k in values
    decreases |keys|
  {
    if keys == [] then []
    else
      var k := keys[|keys| - 1];
      assert keys == keys[..|keys| - 1] + [k];
      PresentKeys(values, keys[..|keys| - 1]) + (if k in values then [k] else [])
  }

  /** The order before any of the rest is added: dimensions, then other declared keys. */
  function DeclaredKeys(values: Combo, dims: seq<string>, declared: seq<string>): (out: seq<string>)
    ensures forall k :: k in out <==> k in values && (k in dims || k in declared)
    decreases |declared|
  {
    if declared == [] then PresentKeys(values, dims)
    else
      var k := declared[|declared| - 1];
      assert declared == declared[..|declared| - 1] + [k];
      var out := DeclaredKeys(values, dims, declared[..|declared| - 1]);
      if k in values && k !in out then out + [k] else out
  }

  /** Lexicographic order of strings by character. */
  predicate Before(a: string, b: string) {
    if a == [] || b == [] then a == [] && b != []
    else if a[0] == b[0] then Before(a[1..], b[1..])
    else a[0] < b[0]
  }

  predicate Ascending(s: seq<string>) {
    forall i, j :: 0 <= i < j < |s| ==> Before(s[i], s[j])
  }

  /** What the sorted order of a leg's keys has to be. */
  ghost predicate IsLegOrder(order: seq<string>, values: Combo, dims: seq<string>, declared: seq<string>) {
    var first := DeclaredKeys(values, dims, declared);
    && |first| <= |order| && order[..|first|] == first
    && Ascending(order[|first|..])
    && (forall k :: k in order[|first|..] <==> k in values && k !in first)
  }

  // --------------------------------------------------------- The whole result

  function Values(m: Matrix, ev: Evaluator, literal: Value -> bool): map<string, seq<Value>> {
    map k | k in m.dimensions && DimensionValues(m.dimensions[k], ev, literal).Some?
      :: DimensionValues(m.dimensions[k], ev, literal).value
  }

  /** What the expansion refuses: an incomplete or repeated key order, a dimension that
      cannot be evaluated or is empty, an empty entry, an exclude of an unknown key. */
  ghost predicate Expandable(m: Matrix, ev: Evaluator, literal: Value -> bool) {
    && OrderFits(m)
    && Evaluated(Dims(m), Values(m, ev, literal))
    && (forall ex :: ex in m.excludes ==> ex != map[] && forall k :: k in ex ==> k in Dims(m))
    && (forall inc :: inc in m.includes ==> inc != map[])
  }

  function Combinations(m: Matrix, ev: Evaluator, literal: Value -> bool): seq<Combo>
    requires Evaluated(Dims(m), Values(m, ev, literal))
  {
    if Dims(m) == [] then [] else Kept(Product(Dims(m), Values(m, ev, literal)), m.excludes)
  }

  function DimSet(m: Matrix): set<string> {
    set k | k in Dims(m)
  }

  ghost predicate IsProductLeg(leg: Leg, base: Combo, m: Matrix) {
    && leg.values == Merged(base, m.includes, DimSet(m))
    && leg.nameKeys == PresentKeys(leg.values, Dims(m))
    && IsLegOrder(leg.order, leg.values, Dims(m), m.order)
  }

  ghost predicate IsIncludeLeg(leg: Leg, inc: Combo, m: Matrix) {
    && leg.values == inc
    && leg.nameKeys == leg.order
    && IsLegOrder(leg.order, leg.values, Dims(m), m.order)
  }

  /** First a leg for each combination that is kept, then one for each include that fits
      none of them. */
  ghost predicate IsExpansion(m: Matrix, ev: Evaluator, literal: Value -> bool, legs: seq<Leg>)
    requires Evaluated(Dims(m), Values(m, ev, literal))
  {
    var kept := Combinations(m, ev, literal);
    var extra := Unmatched(kept, m.includes, DimSet(m));
    && |legs| == |kept| + |extra|
    && (forall i :: 0 <= i < |kept| ==> IsProductLeg(legs[i], kept[i], m))
    && (forall i :: 0 <= i < |extra| ==> IsIncludeLeg(legs[|kept| + i], extra[i], m))
  }

  // -------------------------------------------------------------- The program

  method DimensionOrder(m: Matrix) returns (dims: Option<seq<string>>)
    ensures dims.Some? <==> OrderFits(m)
    ensures dims.Some? ==> dims.value == Dims(m)
  {
    if |m.dimensions| == 0 {
      return Some([]);
    }
    var seen: set<string> := {};
    var out := [];
    for i := 0 to |m.order|
      invariant seen == set k | k in m.order[..i]
      invariant Distinct(m.order[..i])
      invariant out == DimsFrom(m.dimensions, m.order[..i])
    {
      var k := m.order[i];
      assert m.order[..i + 1] == m.order[..i] + [k];
      assert m.order[..i + 1][..i] == m.order[..i];
      if k in seen {
        return None;
      }
      seen := seen + {k};
      if k in m.dimensions {
        out := out + [k];
      }
    }
    assert m.order[..|m.order|] == m.order;
    DimsAreDistinct(m.dimensions, m.order);
    CompleteWhenCounted(out, m.dimensions.Keys);
    if |out| != |m.dimensions| {
      return None;
    }
    dims := Some(out);
  }

  lemma {:induction false} DimsAreDistinct(dimensions: map<string, seq<Value>>, order: seq<string>)
    requires Distinct(order)
    ensures Distinct(DimsFrom(dimensions, order))
    decreases |order|
  {
    if order != [] {
      DimsAreDistinct(dimensions, order[..|order| - 1]);
    }
  }

  lemma {:induction false} CompleteWhenCounted(s: seq<string>, all: set<string>)
    requires Distinct(s) && forall k :: k in s ==> k in all
    ensures |s| == |all| <==> forall k :: k in all ==> k in s
    ensures |s| <= |all|
    decreases |s|
  {
    if s == [] {
      if all != {} {
        var k :| k in all;
      }
    } else {
      var last, rest := s[|s| - 1], s[..|s| - 1];
      assert s == rest + [last];
      CompleteWhenCounted(rest, all - {last});
    }
  }

  method EvaluateDimension(raw: seq<Value>, ev: Evaluator, literal: Value -> bool) returns (r: Option<seq<Value>>)
    ensures r == DimensionValues(raw, ev, literal)
  {
    var out := [];
    for i := 0 to |raw|
      invariant Some(out) == DimensionValues(raw[..i], ev, literal)
    {
      assert raw[..i + 1][..i] == raw[..i];
      var v := raw[i];
      if !v.Text? || literal(v) {
        out := out + [v];
        continue;
      }
      var got := ev(v);
      if got.None? {
        FailureSpreads(raw, i + 1, ev, literal);
        return None;
      }
      if got.value.List? {
        out := out + got.value.items;
        continue;
      }
      out := out + [got.value];
    }
    assert raw[..|raw|] == raw;
    r := Some(out);
  }

  lemma {:induction false} FailureSpreads(raw: seq<Value>, i: nat, ev: Evaluator, literal: Value -> bool)
    requires i <= |raw| && DimensionValues(raw[..i], ev, literal).None?
    ensures DimensionValues(raw, ev, literal).None?
    decreases |raw| - i
  {
    if i == |raw| {
      assert raw[..i] == raw;
    } else {
      assert raw[..i + 1][..i] == raw[..i];
      FailureSpreads(raw, i + 1, ev, literal);
    }
  }

  method CrossProduct(m: Matrix, dims: seq<string>, ev: Evaluator, literal: Value -> bool) returns (r: Option<seq<Combo>>)
    requires forall k :: k in dims ==> k in m.dimensions
    ensures r.Some? <==> Evaluated(dims, Values(m, ev, literal))
    ensures r.Some? ==> r.value == Product(dims, Values(m, ev, literal))
  {
    ghost var vals := Values(m, ev, literal);
    var combos: seq<Combo> := [map[]];
    for i := 0 to |dims|
      invariant Evaluated(dims[..i], vals)
      invariant combos == Product(dims[..i], vals)
    {
      assert dims[..i + 1] == dims[..i] + [dims[i]] && dims[..i + 1][..i] == dims[..i];
      var k := dims[i];
      var vs := EvaluateDimension(m.dimensions[k], ev, literal);
      if vs.None? || |vs.value| == 0 {
        assert k in dims;
        return None;
      }
      assert k in vals && vals[k] == vs.value;
      combos := ExtendAll(combos, k, vs.value);
    }
    assert dims[..|dims|] == dims;
    r := Some(combos);
  }

  method ExtendAll(combos: seq<Combo>, k: string, vs: seq<Value>) returns (next: seq<Combo>)
    ensures next == Extend(combos, k, vs)
  {
    next := [];
    for i := 0 to |combos|
      invariant next == Extend(combos[..i], k, vs)
    {
      assert combos[..i + 1][..i] == combos[..i];
      var c := combos[i];
      ghost var before := next;
      for j := 0 to |vs|
        invariant next == before + Spread(c, k, vs)[..j]
      {
        next := next + [c[k := vs[j]]];
      }
      assert Spread(c, k, vs)[..|vs|] == Spread(c, k, vs);
    }
    assert combos[..|combos|] == combos;
  }

  /** The filter of one exclude. */
  method ApplyExclude(combos: seq<Combo>, ex: Combo) returns (kept: seq<Combo>)
    ensures kept == Kept(combos, [ex])
  {
    kept := [];
    for i := 0 to |combos|
      invariant kept == Kept(combos[..i], [ex])
    {
      assert combos[..i + 1][..i] == combos[..i];
      assert Excluded(combos[i], [ex]) <==> MatchesAll(combos[i], ex) by {
        assert ex in [ex];
      }
      if !MatchesAll(combos[i], ex) {
        kept := kept + [combos[i]];
      }
    }
    assert combos[..|combos|] == combos;
  }

  lemma {:induction false} FilterAgain(combos: seq<Combo>, excludes: seq<Combo>, ex: Combo)
    ensures Kept(Kept(combos, excludes), [ex]) == Kept(combos, excludes + [ex])
    decreases |combos|
  {
    if combos != [] {
      var c, rest := combos[|combos| - 1], combos[..|combos| - 1];
      FilterAgain(rest, excludes, ex);
      assert Excluded(c, excludes + [ex]) <==> Excluded(c, excludes) || Excluded(c, [ex]) by {
        assert forall x :: x in excludes + [ex] <==> x in excludes || x in [ex];
      }
      if Excluded(c, excludes) {
        assert Kept(combos, excludes) == Kept(rest, excludes);
        assert Kept(combos, excludes + [ex]) == Kept(rest, excludes + [ex]);
      } else {
        assert (Kept(rest, excludes) + [c])[..|Kept(rest, excludes)|] == Kept(rest, excludes);
      }
    }
  }

  lemma {:induction false} NothingExcluded(combos: seq<Combo>)
    ensures Kept(combos, []) == combos
    decreases |combos|
  {
    if combos != [] {
      NothingExcluded(combos[..|combos| - 1]);
    }
  }

  method ApplyExcludes(product: seq<Combo>, dims: seq<string>, excludes: seq<Combo>) returns (r: Option<seq<Combo>>)
    ensures r.Some? <==> forall ex :: ex in excludes ==> ex != map[] && forall k :: k in ex ==> k in dims
    ensures r.Some? ==> r.value == Kept(product, excludes)
  {
    var combos := product;
    NothingExcluded(product);
    for i := 0 to |excludes|
      invariant forall j :: 0 <= j < i ==> excludes[j] != map[] && forall k :: k in excludes[j] ==> k in dims
      invariant combos == Kept(product, excludes[..i])
    {
      var ex := excludes[i];
      assert ex in excludes;
      if |ex| == 0 || exists k :: k in ex && k !in dims {
        return None;
      }
      combos := ApplyExclude(combos, ex);
      FilterAgain(product, excludes[..i], ex);
      assert excludes[..i + 1] == excludes[..i] + [ex];
    }
    assert excludes[..|excludes|] == excludes;
    r := Some(combos);
  }

  /** Includes are merged into the combinations they fit; the snapshot of the original
      values decides, never what an earlier include wrote. */
  method ApplyIncludes(base: seq<Combo>, dims: set<string>, includes: seq<Combo>)
    returns (ok: bool, combos: seq<Combo>, appended: seq<Combo>)
    ensures ok <==> forall inc :: inc in includes ==> inc != map[]
    ensures ok ==> |combos| == |base| && appended == Unmatched(base, includes, dims)
    ensures ok ==> forall i :: 0 <= i < |base| ==> combos[i] == Merged(base[i], includes, dims)
  {
    combos, appended := base, [];
    for n := 0 to |includes|
      invariant |combos| == |base| && appended == Unmatched(base, includes[..n], dims)
      invariant forall i :: 0 <= i < |base| ==> combos[i] == Merged(base[i], includes[..n], dims)
      invariant forall j :: 0 <= j < n ==> includes[j] != map[]
    {
      var inc := includes[n];
      assert inc in includes && includes[..n + 1][..n] == includes[..n];
      if |inc| == 0 {
        return false, combos, appended;
      }
      var matched;
      combos, matched := ApplyInclude(combos, base, dims, inc);
      if !matched {
        appended := appended + [inc];
      }
    }
    assert includes[..|includes|] == includes;
    ok := true;
  }

  method ApplyInclude(before: seq<Combo>, base: seq<Combo>, dims: set<string>, inc: Combo)
    returns (combos: seq<Combo>, matched: bool)
    requires |before| == |base|
    ensures |combos| == |base| && (matched <==> !FitsNone(inc, base, dims))
    ensures forall i :: 0 <= i < |base| ==> combos[i] == if Fits(inc, base[i], dims) then before[i] + inc else before[i]
  {
    combos, matched := before, false;
    for i := 0 to |base|
      invariant |combos| == |base| && (matched <==> exists j :: 0 <= j < i && Fits(inc, base[j], dims))
      invariant forall j :: 0 <= j < i ==> combos[j] == if Fits(inc, base[j], dims) then before[j] + inc else before[j]
      invariant forall j :: i <= j < |base| ==> combos[j] == before[j]
    {
      if exists k :: k in inc && k in dims && !(k in base[i] && SameValue(base[i][k], inc[k])) {
        assert !Fits(inc, base[i], dims);
        continue;
      }
      assert Fits(inc, base[i], dims);
      matched := true;
      combos := combos[i := combos[i] + inc];
    }
    if matched {
      var j :| 0 <= j < |base| && Fits(inc, base[j], dims);
      assert base[j] in base;
    }
  }

  // -------------------------------------------------------------- Leg orders

  lemma {:induction false} BeforeIsTotal(a: string, b: string)
    ensures Before(a, b) || a == b || Before(b, a)
    ensures !(Before(a, b) && Before(b, a)) && !Before(a, a)
    decreases |a|
  {
    if a != [] {
      BeforeIsTotal(a[1..], a[1..]);
      if b != [] && a[0] == b[0] {
        BeforeIsTotal(a[1..], b[1..]);
        assert a == [a[0]] + a[1..] && b == [b[0]] + b[1..];
      }
    }
  }

  lemma {:induction false} BeforeIsTransitive(a: string, b: string, c: string)
    requires Before(a, b) && Before(b, c)
    ensures Before(a, c)
    decreases |a|
  {
    if a != [] && a[0] == b[0] == c[0] {
      BeforeIsTransitive(a[1..], b[1..], c[1..]);
    }
  }

  method SortStrings(keys: set<string>) returns (s: seq<string>)
    ensures Ascending(s) && forall k :: k in s <==> k in keys
  {
    s := [];
    var rest := keys;
    while rest != {}
      invariant rest <= keys && Ascending(s)
      invariant forall k :: k in s <==> k in keys && k !in rest
      decreases rest
    {
      var k :| k in rest;
      rest := rest - {k};
      s := InsertString(s, k);
    }
  }

  method InsertString(s: seq<string>, k: string) returns (r: seq<string>)
    requires Ascending(s) && k !in s
    ensures Ascending(r) && forall x :: x in r <==> x in s || x == k
  {
    hide Before;
    var j := |s|;
    while j > 0 && Before(k, s[j - 1])
      invariant 0 <= j <= |s|
      invariant forall i :: j <= i < |s| ==> Before(k, s[i])
    {
      j := j - 1;
    }
    r := s[..j] + [k] + s[j..];
    assert s == s[..j] + s[j..];
    if j > 0 {
      BeforeIsTotal(k, s[j - 1]);
      forall i | 0 <= i < j ensures Before(s[i], k) {
        if i < j - 1 {
          BeforeIsTransitive(s[i], s[j - 1], k);
        }
      }
    }
  }

  method LegOrder(values: Combo, dims: seq<string>, declared: seq<string>) returns (order: seq<string>)
    ensures IsLegOrder(order, values, dims, declared)
  {
    order := PresentKeys(values, dims);
    var seen := set k | k in order;
    for i := 0 to |declared|
      invariant order == DeclaredKeys(values, dims, declared[..i])
      invariant seen == set k | k in order
    {
      assert declared[..i + 1][..i] == declared[..i];
      var k := declared[i];
      if k in values && k !in seen {
        order := order + [k];
        seen := seen + {k};
      }
    }
    assert declared[..|declared|] == declared;
    var extra := SortStrings(values.Keys - seen);
    ghost var first := order;
    order := order + extra;
    assert order[..|first|] == first && order[|first|..] == extra;
  }

  method ExpandMatrix(m: Matrix, ev: Evaluator, literal: Value -> bool) returns (r: Expansion)
    ensures r.Failed? <==> !Expandable(m, ev, literal)
    ensures r.Expanded? ==> IsExpansion(m, ev, literal, r.legs)
  {
    hide DimsFrom, DimensionValues, Product, Kept, Merged, Unmatched, PresentKeys, OrderFits, IsLegOrder;
    var dims := DimensionOrder(m);
    if dims.None? {
      return Failed;
    }
    var combos: seq<Combo> := [];
    if |dims.value| > 0 {
      var product := CrossProduct(m, dims.value, ev, literal);
      if product.None? {
        return Failed;
      }
      combos := product.value;
    }
    var kept := ApplyExcludes(combos, dims.value, m.excludes);
    if kept.None? {
      return Failed;
    }
    NothingToExclude(m.excludes);
    var isDim := set k | k in dims.value;
    var ok, merged, appended := ApplyIncludes(kept.value, isDim, m.includes);
    if !ok {
      return Failed;
    }
    var legs := BuildLegs(m, dims.value, merged, appended);
    r := Expanded(legs);
  }

  lemma NothingToExclude(excludes: seq<Combo>)
    ensures Kept([], excludes) == []
  {
  }

  method BuildLegs(m: Matrix, dims: seq<string>, merged: seq<Combo>, appended: seq<Combo>) returns (legs: seq<Leg>)
    ensures |legs| == |merged| + |appended|
    ensures forall i :: 0 <= i < |merged| ==>
      legs[i].values == merged[i] && legs[i].nameKeys == PresentKeys(merged[i], dims)
      && IsLegOrder(legs[i].order, merged[i], dims, m.order)
    ensures forall i :: 0 <= i < |appended| ==>
      legs[|merged| + i].values == appended[i] && legs[|merged| + i].nameKeys == legs[|merged| + i].order
      && IsLegOrder(legs[|merged| + i].order, appended[i], dims, m.order)
  {
    hide IsLegOrder, PresentKeys;
    legs := [];
    for i := 0 to |merged|
      invariant |legs| == i
      invariant forall j :: 0 <= j < i ==>
        legs[j].values == merged[j] && legs[j].nameKeys == PresentKeys(merged[j], dims)
        && IsLegOrder(legs[j].order, merged[j], dims, m.order)
    {
      var order := LegOrder(merged[i], dims, m.order);
      legs := legs + [Leg(merged[i], order, PresentKeys(merged[i], dims))];
    }
    ghost var before := legs;
    for i := 0 to |appended|
      invariant |legs| == |merged| + i && legs[..|merged|] == before
      invariant forall j :: 0 <= j < i ==>
        legs[|merged| + j].values == appended[j] && legs[|merged| + j].nameKeys == legs[|merged| + j].order
        && IsLegOrder(legs[|merged| + j].order, appended[j], dims, m.order)
    {
      var order := LegOrder(appended[i], dims, m.order);
      legs := legs + [Leg(appended[i], order, order)];
    }
    assert forall i :: 0 <= i < |merged| ==> legs[i] == before[i];
  }
}
