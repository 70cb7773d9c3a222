/** Pricing of queries: compute units of JSON-RPC methods and of batches
    (section 6 of the JSON-RPC 2.0 specification). */
module Manifest {
  import opened Outcomes
  import opened Products
  import opened Words

  datatype ComputeUnit = ComputeUnit(value: u64, overflow: u64)

  datatype ComputeUnitItem = ComputeUnitItem(name: string, value: u64)

  datatype ManifestItem = ManifestItem(
    denyList: seq<string>, allowList: seq<string>, computeUnits: seq<ComputeUnitItem>)

  datatype RpcManifest = RpcManifest(
    allowList: seq<string>, denyList: seq<string>, computeUnit: map<string, ComputeUnit>)

  // What a query costs: how many units, and how much it adds to the conflict counter.
  datatype Price = Price(units: u64, weight: u64)

  datatype ProjectType = Plain | Rpc(manifest: RpcManifest)

  // A request body, after parsing
  datatype Query = Call(name: string) | Calls(names: seq<string>) | Malformed

  const MAX_CALLS := 100
  const MAX_UNITS := 1000

  // Weights

  // A manifest value of zero counts as one.
  function UnitValue(item: ComputeUnitItem): (v: u64)
    ensures v >= 1
  {
    if item.value == 0 then 1 else item.value
  }

  function OverflowWeight(paygOverflow: u64, value: u64, maxUnitOverflow: u64): (w: u64)
    requires value >= 1
    ensures w <= Max(paygOverflow, 1)
  {
    if paygOverflow / value < maxUnitOverflow then SplitOverflow(paygOverflow, maxUnitOverflow) else paygOverflow
  }

  function SplitOverflow(paygOverflow: u64, maxUnitOverflow: u64): (w: u64)
    requires maxUnitOverflow > 0
    ensures 1 <= w <= Max(paygOverflow, 1)
  {
    if paygOverflow > maxUnitOverflow then
      QuotientBounds(paygOverflow, maxUnitOverflow);
      paygOverflow / maxUnitOverflow
    else 1
  }

  lemma QuotientBounds(a: nat, b: nat)
    requires a > b > 0
    ensures 1 <= a / b <= a
  {
    var q, r := a / b, a % b;
    assert a == b * q + r;
    Multiplied(b, q);
  }

  lemma Multiplied(b: nat, q: int)
    requires b > 0
    ensures q <= 0 ==> b * q <= 0
    ensures q > 0 ==> b * q >= q
  {
  }

  lemma QuotientZero(a: nat, b: nat)
    requires b > 0
    ensures a / b >= 1 ==> a >= 1
  {
  }

  /** Every method weighs at least one exactly when one of the two limits is positive. */
  lemma WeightsPositive(paygOverflow: u64, maxUnitOverflow: u64)
    ensures (forall value: u64 :: value >= 1 ==> OverflowWeight(paygOverflow, value, maxUnitOverflow) >= 1)
       <==> paygOverflow >= 1 || maxUnitOverflow >= 1
  {
    if paygOverflow == 0 && maxUnitOverflow == 0 {
      assert OverflowWeight(paygOverflow, 1, maxUnitOverflow) == 0;
    } else {
      forall value: u64 | value >= 1
        ensures OverflowWeight(paygOverflow, value, maxUnitOverflow) >= 1
      {
        QuotientZero(paygOverflow, value);
      }
    }
  }

  // The unit table: the last item of a name counts.
  function UnitTable(items: seq<ComputeUnitItem>, paygOverflow: u64, maxUnitOverflow: u64): map<string, ComputeUnit> {
    if items == [] then map[]
    else
      var last := items[|items| - 1];
      var value := UnitValue(last);
      UnitTable(items[..|items| - 1], paygOverflow, maxUnitOverflow)
        [last.name := ComputeUnit(value, OverflowWeight(paygOverflow, value, maxUnitOverflow))]
  }

  function FetchedManifest(item: Option<ManifestItem>, paygOverflow: u64, maxUnitOverflow: u64): RpcManifest {
    match item
    case None => RpcManifest([], [], map[])
    case Some(i) => RpcManifest(i.allowList, i.denyList, UnitTable(i.computeUnits, paygOverflow, maxUnitOverflow))
  }

  method Fetch(item: Option<ManifestItem>, paygOverflow: u64, maxUnitOverflow: u64) returns (m: RpcManifest)
    ensures m == FetchedManifest(item, paygOverflow, maxUnitOverflow)
  {
    if item.None? {
      return RpcManifest([], [], map[]);
    }
    var items := item.value.computeUnits;
    var computeUnit: map<string, ComputeUnit> := map[];
    for i := 0 to |items|
      invariant computeUnit == UnitTable(items[..i], paygOverflow, maxUnitOverflow)
    {
      var value := UnitValue(items[i]);
      var allowedTimes: int := paygOverflow / value;
      var overflow :=
        if allowedTimes < maxUnitOverflow then SplitOverflow(paygOverflow, maxUnitOverflow) else paygOverflow;
      assert items[..i + 1][..i] == items[..i];
      computeUnit := computeUnit[items[i].name := ComputeUnit(value, overflow)];
    }
    assert items[..|items|] == items;
    m := RpcManifest(item.value.allowList, item.value.denyList, computeUnit);
  }

  // The weight without a quotient: the payg overflow if it allows the most units of this
  // value, and otherwise its share among the most units, at least one.
  predicate WeighsAs(w: u64, paygOverflow: u64, value: u64, maxUnitOverflow: u64) {
    if value * maxUnitOverflow <= paygOverflow then w == paygOverflow
    else if paygOverflow <= maxUnitOverflow then w == 1
    else w * maxUnitOverflow <= paygOverflow < w * maxUnitOverflow + maxUnitOverflow
  }

  lemma QuotientMeans(a: nat, b: nat, c: nat)
    requires b > 0
    ensures a / b * b <= a < a / b * b + b
    ensures a / b < c <==> a < b * c
  {
    var q := a / b;
    assert a == b * q + a % b;
    if q < c {
      ProductMonotone(b, q + 1, c);
      Distribute(b, q, 1);
    } else {
      ProductMonotone(b, c, q);
    }
  }

  lemma WeightIsShare(paygOverflow: u64, value: u64, maxUnitOverflow: u64)
    requires value >= 1
    ensures WeighsAs(OverflowWeight(paygOverflow, value, maxUnitOverflow), paygOverflow, value, maxUnitOverflow)
  {
    QuotientMeans(paygOverflow, value, maxUnitOverflow);
    if maxUnitOverflow > 0 {
      QuotientMeans(paygOverflow, maxUnitOverflow, 1);
    }
  }

  // The item that counts for a name: its last one
  predicate LastNamed(items: seq<ComputeUnitItem>, name: string, i: nat) {
    i < |items| && items[i].name == name && forall j | i < j < |items| :: items[j].name != name
  }

  lemma TableOneMore(items: seq<ComputeUnitItem>, paygOverflow: u64, maxUnitOverflow: u64, name: string)
    requires items != []
    ensures var n, table := |items| - 1, UnitTable(items, paygOverflow, maxUnitOverflow);
      var before := UnitTable(items[..n], paygOverflow, maxUnitOverflow);
      if items[n].name == name then
        var value := if items[n].value == 0 then 1 else items[n].value;
        name in table && table[name] == ComputeUnit(value, OverflowWeight(paygOverflow, value, maxUnitOverflow))
      else (name in table <==> name in before) && (name in table ==> table[name] == before[name])
  {
  }

  lemma {:induction false} TableHoldsLast(
      items: seq<ComputeUnitItem>, paygOverflow: u64, maxUnitOverflow: u64, name: string, i: nat)
    requires LastNamed(items, name, i)
    ensures var table := UnitTable(items, paygOverflow, maxUnitOverflow);
      var value := if items[i].value == 0 then 1 else items[i].value;
      name in table && table[name] == ComputeUnit(value, OverflowWeight(paygOverflow, value, maxUnitOverflow))
  {
    var n := |items| - 1;
    TableOneMore(items, paygOverflow, maxUnitOverflow, name);
    if i < n {
      TableHoldsLast(items[..n], paygOverflow, maxUnitOverflow, name, i);
    }
  }

  lemma {:induction false} TableLacksUnnamed(
      items: seq<ComputeUnitItem>, paygOverflow: u64, maxUnitOverflow: u64, name: string)
    requires forall i | 0 <= i < |items| :: items[i].name != name
    ensures name !in UnitTable(items, paygOverflow, maxUnitOverflow)
  {
    if items != [] {
      TableOneMore(items, paygOverflow, maxUnitOverflow, name);
      TableLacksUnnamed(items[..|items| - 1], paygOverflow, maxUnitOverflow, name);
    }
  }

  /** A permitted method costs what the last item of its name says, at least one unit, and
      weighs its share. */
  lemma MethodCostsItsItem(item: ManifestItem, paygOverflow: u64, maxUnitOverflow: u64, name: string, i: nat)
    requires Permitted(FetchedManifest(Some(item), paygOverflow, maxUnitOverflow), name)
    requires LastNamed(item.computeUnits, name, i)
    ensures var r := UnitTimes(FetchedManifest(Some(item), paygOverflow, maxUnitOverflow), name);
      && r.Ok?
      && r.value.units == (if item.computeUnits[i].value == 0 then 1 else item.computeUnits[i].value)
      && WeighsAs(r.value.weight, paygOverflow, r.value.units, maxUnitOverflow)
  {
    var value := if item.computeUnits[i].value == 0 then 1 else item.computeUnits[i].value;
    TableHoldsLast(item.computeUnits, paygOverflow, maxUnitOverflow, name, i);
    WeightIsShare(paygOverflow, value, maxUnitOverflow);
  }

  /** A permitted method that no item names costs one unit and weighs one, as every method
      does without a manifest. */
  lemma UnnamedMethodsCostOne(item: Option<ManifestItem>, paygOverflow: u64, maxUnitOverflow: u64, name: string)
    requires Permitted(FetchedManifest(item, paygOverflow, maxUnitOverflow), name)
    requires item.Some? ==>
      forall i | 0 <= i < |item.value.computeUnits| :: item.value.computeUnits[i].name != name
    ensures UnitTimes(FetchedManifest(item, paygOverflow, maxUnitOverflow), name) == Ok(Price(1, 1))
  {
    if item.Some? {
      TableLacksUnnamed(item.value.computeUnits, paygOverflow, maxUnitOverflow, name);
    }
  }

  // Entries a manifest fetched under the given limits can hold
  predicate FetchedUnder(m: RpcManifest, paygOverflow: u64, maxUnitOverflow: u64) {
    forall name <- m.computeUnit ::
      && m.computeUnit[name].value >= 1
      && m.computeUnit[name].overflow == OverflowWeight(paygOverflow, m.computeUnit[name].value, maxUnitOverflow)
  }

  lemma {:induction false} TableFetchedUnder(items: seq<ComputeUnitItem>, paygOverflow: u64, maxUnitOverflow: u64)
    ensures var m := RpcManifest([], [], UnitTable(items, paygOverflow, maxUnitOverflow));
      FetchedUnder(m, paygOverflow, maxUnitOverflow)
  {
    if items != [] {
      TableFetchedUnder(items[..|items| - 1], paygOverflow, maxUnitOverflow);
    }
  }

  /** Every fetched manifest holds only units of at least one, weighted by the limits. */
  lemma FetchedManifestIsSound(item: Option<ManifestItem>, paygOverflow: u64, maxUnitOverflow: u64)
    ensures FetchedUnder(FetchedManifest(item, paygOverflow, maxUnitOverflow), paygOverflow, maxUnitOverflow)
  {
    if item.Some? {
      TableFetchedUnder(item.value.computeUnits, paygOverflow, maxUnitOverflow);
    }
  }

  // List rules

  predicate EndsWithUnderscore(s: string) {
    s != "" && s[|s| - 1] == '_'
  }

  // A rule ending in an underscore matches by prefix, any other by equality.
  predicate Matches(name: string, rule: string) {
    if EndsWithUnderscore(rule) then rule <= name else name == rule
  }

  predicate Permitted(m: RpcManifest, name: string) {
    && (forall rule <- m.denyList :: !Matches(name, rule))
    && (m.allowList == [] || exists rule <- m.allowList :: Matches(name, rule))
  }

  function MethodPrice(m: RpcManifest, name: string): Price {
    if name in m.computeUnit then Price(m.computeUnit[name].value, m.computeUnit[name].overflow) else Price(1, 1)
  }

  function UnitTimes(m: RpcManifest, name: string): Result<Price> {
    if Permitted(m, name) then Ok(MethodPrice(m, name)) else Err(InvalidRequest(1060))
  }

  // What a rule covers: the names it begins, without regard to what follows, if it ends in
  // an underscore, and itself if not.
  ghost predicate Covers(rule: string, name: string) {
    if exists stem :: rule == stem + "_" then exists rest :: name == rule + rest else name == rule
  }

  lemma MatchingIsCovering(name: string, rule: string)
    ensures Matches(name, rule) <==> Covers(rule, name)
  {
    if EndsWithUnderscore(rule) {
      assert rule == rule[..|rule| - 1] + "_";
      if rule <= name {
        assert name == rule + name[|rule|..];
      }
    }
  }

  /** A method is priced exactly when no deny rule covers it and, unless the allow list is
      empty, some allow rule does; any other is refused. */
  lemma ListsDecide(m: RpcManifest, name: string)
    ensures UnitTimes(m, name).Ok? <==>
      && (forall rule <- m.denyList :: !Covers(rule, name))
      && (m.allowList == [] || exists rule <- m.allowList :: Covers(rule, name))
    ensures UnitTimes(m, name).Err? ==> UnitTimes(m, name) == Err(InvalidRequest(1060))
  {
    forall rule ensures Matches(name, rule) <==> Covers(rule, name) {
      MatchingIsCovering(name, rule);
    }
  }

  /** A batch is refused for its length, then for a method of its own that is refused, then
      for its units. */
  lemma BatchRefusedWith(m: RpcManifest, names: seq<string>)
    requires BatchPrice(m, names).Err?
    ensures BatchPrice(m, names)
         == Err(InvalidRequest(if |names| > 100 then 1061
                               else if exists name <- names :: UnitTimes(m, name).Err? then 1060 else 1062))
  {
  }

  /** A batch of one call costs what the call costs, if that is accepted for a batch. */
  lemma BatchOfOne(m: RpcManifest, name: string)
    requires UnitTimes(m, name).Ok?
    ensures BatchPrice(m, [name])
         == if UnitTimes(m, name).value.units <= 1000 then UnitTimes(m, name) else Err(InvalidRequest(1062))
  {
    var names := [name];
    assert names[..|names| - 1] == [] && names[|names| - 1] == name && name in names;
    assert SumUnits(m, []) == SumWeights(m, []) == 0;
    assert SumUnits(m, names) == MethodPrice(m, name).units && SumWeights(m, names) == MethodPrice(m, name).weight;
    Unwrapped(m, names);
  }

  method ScanUnitTimes(m: RpcManifest, name: string) returns (r: Result<Price>)
    ensures r == UnitTimes(m, name)
  {
    for i := 0 to |m.denyList|
      invariant forall j | 0 <= j < i :: !Matches(name, m.denyList[j])
    {
      var rule := m.denyList[i];
      if EndsWithUnderscore(rule) {
        if rule <= name {
          assert rule in m.denyList && Matches(name, rule);
          return Err(InvalidRequest(1060));
        }
      } else {
        if name == rule {
          assert rule in m.denyList && Matches(name, rule);
          return Err(InvalidRequest(1060));
        }
      }
    }
    var notAllowed := m.allowList != [];
    for i := 0 to |m.allowList|
      invariant notAllowed == (m.allowList != [])
      invariant forall j | 0 <= j < i :: !Matches(name, m.allowList[j])
    {
      var rule := m.allowList[i];
      if EndsWithUnderscore(rule) {
        if rule <= name {
          assert rule in m.allowList && Matches(name, rule);
          notAllowed := false;
          break;
        }
      } else {
        if name == rule {
          assert rule in m.allowList && Matches(name, rule);
          notAllowed := false;
          break;
        }
      }
    }
    if notAllowed {
      return Err(InvalidRequest(1060));
    }
    if name in m.computeUnit {
      r := Ok(Price(m.computeUnit[name].value, m.computeUnit[name].overflow));
    } else {
      r := Ok(Price(1, 1));
    }
  }

  // Batches

  function SumUnits(m: RpcManifest, names: seq<string>): nat {
    if names == [] then 0 else SumUnits(m, names[..|names| - 1]) + MethodPrice(m, names[|names| - 1]).units
  }

  function SumWeights(m: RpcManifest, names: seq<string>): nat {
    if names == [] then 0 else SumWeights(m, names[..|names| - 1]) + MethodPrice(m, names[|names| - 1]).weight
  }

  predicate AllPermitted(m: RpcManifest, names: seq<string>) {
    forall name <- names :: Permitted(m, name)
  }

  // The stated rule for batches, in plain arithmetic
  predicate WithinLimits(m: RpcManifest, names: seq<string>) {
    |names| <= 100 && AllPermitted(m, names) && SumUnits(m, names) <= 1000
  }

  // What the release build computes: both sums wrap at 64 bits.
  function BatchPrice(m: RpcManifest, names: seq<string>): Result<Price> {
    if |names| > MAX_CALLS then Err(InvalidRequest(1061))
    else if !AllPermitted(m, names) then Err(InvalidRequest(1060))
    else if SumUnits(m, names) % U64_MODULUS > MAX_UNITS then Err(InvalidRequest(1062))
    else Ok(Price(SumUnits(m, names) % U64_MODULUS, SumWeights(m, names) % U64_MODULUS))
  }

  function QueryPrice(ptype: ProjectType, query: Query): Result<Price> {
    if ptype.Plain? then Ok(Price(1, 1))
    else match query
      case Call(name) => UnitTimes(ptype.manifest, name)
      case Calls(names) => BatchPrice(ptype.manifest, names)
      case Malformed => Err(Serialize(1141))
  }

  method ComputeQueryMethod(ptype: ProjectType, query: Query) returns (r: Result<Price>)
    ensures r == QueryPrice(ptype, query)
  {
    if ptype.Plain? {
      return Ok(Price(1, 1));
    }
    var m := ptype.manifest;
    match query {
      case Call(name) =>
        r := ScanUnitTimes(m, name);
      case Malformed =>
        r := Err(Serialize(1141));
      case Calls(names) =>
        r := ComputeBatch(m, names);
    }
  }

  method ComputeBatch(m: RpcManifest, names: seq<string>) returns (r: Result<Price>)
    ensures r == BatchPrice(m, names)
  {
    if |names| > 100 {
      return Err(InvalidRequest(1061));
    }
    var vv: u64, oo: u64 := 0, 0;
    for i := 0 to |names|
      invariant AllPermitted(m, names[..i])
      invariant vv == SumUnits(m, names[..i]) % U64_MODULUS
      invariant oo == SumWeights(m, names[..i]) % U64_MODULUS
    {
      var p := ScanUnitTimes(m, names[i]);
      if p.Err? {
        return p;
      }
      assert names[..i + 1][..i] == names[..i];
      vv := WrappingAdd(vv, p.value.units);
      oo := WrappingAdd(oo, p.value.weight);
      WrappedSum(SumUnits(m, names[..i]), p.value.units);
      WrappedSum(SumWeights(m, names[..i]), p.value.weight);
    }
    assert names[..|names|] == names;
    if vv > 1000 {
      return Err(InvalidRequest(1062));
    }
    r := Ok(Price(vv, oo));
  }

  lemma WrappedSum(a: nat, b: u64)
    ensures (a % U64_MODULUS + b) % U64_MODULUS == (a + b) % U64_MODULUS
  {
  }

  // An otherwise acceptable batch whose units wrap into the accepted range
  predicate WrapsIntoRange(m: RpcManifest, names: seq<string>) {
    && |names| <= 100 && AllPermitted(m, names)
    && SumUnits(m, names) >= U64_MODULUS && SumUnits(m, names) % U64_MODULUS <= 1000
  }

  /** A batch is decided by the stated rule, and then costs the sum of its calls and at
      least one unit a call, exactly when its units do not wrap into the accepted range. */
  lemma BatchPriceIsExact(m: RpcManifest, names: seq<string>, paygOverflow: u64, maxUnitOverflow: u64)
    requires FetchedUnder(m, paygOverflow, maxUnitOverflow)
    ensures (BatchPrice(m, names).Ok? <==> WithinLimits(m, names)) <==> !WrapsIntoRange(m, names)
    ensures BatchPrice(m, names).Ok? && SumUnits(m, names) < U64_MODULUS ==>
              |names| <= BatchPrice(m, names).value.units == SumUnits(m, names)
  {
    EveryCallCosts(m, names);
  }

  lemma {:induction false} EveryCallCosts(m: RpcManifest, names: seq<string>)
    requires forall name <- m.computeUnit :: m.computeUnit[name].value >= 1
    ensures SumUnits(m, names) >= |names|
  {
    if names != [] {
      EveryCallCosts(m, names[..|names| - 1]);
    }
  }

  // A hundredth of the largest u64
  const MODEST_UNITS := 184467440737095516

  lemma {:induction false} ModestSums(m: RpcManifest, names: seq<string>)
    requires forall name <- m.computeUnit :: m.computeUnit[name].value <= MODEST_UNITS
    ensures SumUnits(m, names) <= |names| * MODEST_UNITS
  {
    if names != [] {
      ModestSums(m, names[..|names| - 1]);
    }
  }

  /** When every unit value is at most a hundredth of the largest u64, the stated rule
      decides every batch. */
  lemma ModestUnitsNeverWrap(m: RpcManifest, names: seq<string>)
    requires forall name <- m.computeUnit :: m.computeUnit[name].value <= MODEST_UNITS
    ensures BatchPrice(m, names).Ok? <==> WithinLimits(m, names)
    ensures BatchPrice(m, names).Ok? ==> BatchPrice(m, names).value.units == SumUnits(m, names)
  {
    if |names| <= MAX_CALLS {
      ModestSums(m, names);
    }
  }

  const HALF_RANGE: u64 := 0x8000_0000_0000_0000

  /** Under any limits, two calls of 2^63 units each are accepted as a batch that costs
      nothing, although each call alone is priced in full; its weight wraps as well. */
  lemma WrappedBatch(paygOverflow: u64, maxUnitOverflow: u64) returns (m: RpcManifest, names: seq<string>)
    ensures FetchedUnder(m, paygOverflow, maxUnitOverflow)
    ensures SumUnits(m, names) == U64_MODULUS && !WithinLimits(m, names)
    ensures var weight := OverflowWeight(paygOverflow, HALF_RANGE, maxUnitOverflow);
      && |names| == 2 && (forall name <- names :: UnitTimes(m, name) == Ok(Price(HALF_RANGE, weight)))
      && BatchPrice(m, names) == Ok(Price(0, (weight + weight) % U64_MODULUS))
  {
    var weight := OverflowWeight(paygOverflow, HALF_RANGE, maxUnitOverflow);
    m := RpcManifest([], [], map["m" := ComputeUnit(HALF_RANGE, weight)]);
    names := ["m", "m"];
    assert names[..1] == ["m"] && names[..1][..0] == [];
    assert SumUnits(m, names[..1]) == HALF_RANGE;
    assert SumWeights(m, names[..1]) == weight;
  }

  lemma {:induction false} SumsConcatenate(m: RpcManifest, xs: seq<string>, ys: seq<string>)
    ensures SumUnits(m, xs + ys) == SumUnits(m, xs) + SumUnits(m, ys)
    ensures SumWeights(m, xs + ys) == SumWeights(m, xs) + SumWeights(m, ys)
  {
    if ys == [] {
      assert xs + ys == xs;
    } else {
      var n := |ys| - 1;
      SumsConcatenate(m, xs, ys[..n]);
      assert (xs + ys)[..|xs + ys| - 1] == xs + ys[..n];
    }
  }

  /** A batch made of two batches is accepted only if both are, and costs their sum. */
  lemma BatchesAdd(m: RpcManifest, xs: seq<string>, ys: seq<string>)
    requires BatchPrice(m, xs + ys).Ok? && SumUnits(m, xs + ys) < U64_MODULUS && SumWeights(m, xs + ys) < U64_MODULUS
    ensures BatchPrice(m, xs).Ok? && BatchPrice(m, ys).Ok?
    ensures BatchPrice(m, xs + ys).value.units == BatchPrice(m, xs).value.units + BatchPrice(m, ys).value.units
    ensures BatchPrice(m, xs + ys).value.weight == BatchPrice(m, xs).value.weight + BatchPrice(m, ys).value.weight
  {
    SumsConcatenate(m, xs, ys);
    assert AllPermitted(m, xs) by {
      forall name <- xs ensures Permitted(m, name) {
        assert name in xs + ys;
      }
    }
    assert AllPermitted(m, ys) by {
      forall name <- ys ensures Permitted(m, name) {
        assert name in xs + ys;
      }
    }
    Unwrapped(m, xs);
    Unwrapped(m, ys);
    Unwrapped(m, xs + ys);
  }

  lemma Unwrapped(m: RpcManifest, names: seq<string>)
    requires |names| <= MAX_CALLS && AllPermitted(m, names)
    requires SumUnits(m, names) < U64_MODULUS && SumWeights(m, names) < U64_MODULUS
    ensures BatchPrice(m, names) == if SumUnits(m, names) > MAX_UNITS then Err(InvalidRequest(1062))
                                    else Ok(Price(SumUnits(m, names), SumWeights(m, names)))
  {
  }
}
