/**
 Pricing of metered usage (internal/metering): rate tables, USD passthrough and hold amounts.
 Floating-point numbers are modelled as reals; rounding is half away from zero.
 */
module Pricing {
  import opened Base
  import opened Billing

  /** math.Round */
  function Round(x: real): (n: int)
    ensures -0.5 <= n as real - x <= 0.5
    ensures x >= 0.0 ==> n >= 0
  {
    if x >= 0.0 then (x + 0.5).Floor else -((0.5 - x).Floor)
  }

  datatype Value = Num(n: real) | Whole(i: int) | Text(s: string) | Other

  type Usage = map<string, Value>

  /** provider_configs.pricing_model; baseRates is None when the JSON object is absent, a nil Go map. */
  datatype Model = Model(passthroughUsd: bool, platformMargin: real, baseRates: Option<map<string, int>>,
                         overrides: map<string, map<string, int>>, minimum: int)

  /** The billable units and the usage field each is read from. */
  const UNIT_FIELDS := map["TOK_INPUT" := "input_tokens", "TOK_OUTPUT" := "output_tokens",
                           "COMPUTE_S" := "compute_seconds", "DB_READ" := "db_reads", "DB_WRITE" := "db_writes",
                           "VEC_QUERY" := "vec_queries", "API_CALL" := "api_calls"]

  /** A numeric usage field, as a float64 or an int. */
  function Quantity(raw: Usage, field: string): Option<real> {
    if field !in raw then None
    else
      match raw[field]
      case Num(n) => Some(n)
      case Whole(i) => Some(i as real)
      case _ => None
  }

  function Quantities(raw: Usage): map<string, real> {
    map unit | unit in UNIT_FIELDS && Quantity(raw, UNIT_FIELDS[unit]).Some? :: Quantity(raw, UNIT_FIELDS[unit]).value
  }

  /** The model's override table, empty when there is none for it. */
  function Override(pm: Model, raw: Usage): map<string, int> {
    if "model" in raw && raw["model"].Text? && raw["model"].s != "" && raw["model"].s in pm.overrides
    then pm.overrides[raw["model"].s]
    else map[]
  }

  /** Base rates with the model's rates written over them. */
  function Rates(pm: Model, raw: Usage): map<string, int> {
    (match pm.baseRates case None => map[] case Some(m) => m) + Override(pm, raw)
  }

  /** `rates[k] = v` on a nil map panics: a model with overrides needs a base table. */
  ghost predicate TableUsable(pm: Model, raw: Usage) {
    pm.baseRates.Some? || Override(pm, raw) == map[]
  }

  /** Products go through a name, so that proofs about them stay linear. */
  function Scale(x: real, factor: real): real { x * factor }

  // ----- the rate-table sum, whatever the iteration order -----

  function Term(quantities: map<string, real>, rates: map<string, int>, unit: string): int
    requires unit in quantities
  {
    if unit in rates then Round(Scale(quantities[unit], rates[unit] as real)) else 0
  }

  ghost function SumTerms(quantities: map<string, real>, rates: map<string, int>, units: set<string>): int
    requires units <= quantities.Keys
    decreases |units|
  {
    if units == {} then 0
    else
      var u :| u in units;
      Term(quantities, rates, u) + SumTerms(quantities, rates, units - {u})
  }

  /** Any unit can be taken out first. */
  lemma {:induction false} SumPick(quantities: map<string, real>, rates: map<string, int>, units: set<string>, u: string)
    requires units <= quantities.Keys && u in units
    ensures SumTerms(quantities, rates, units) == Term(quantities, rates, u) + SumTerms(quantities, rates, units - {u})
    decreases |units|
  {
    var v :| v in units && SumTerms(quantities, rates, units)
                           == Term(quantities, rates, v) + SumTerms(quantities, rates, units - {v});
    if u != v {
      SumPick(quantities, rates, units - {v}, u);
      SumPick(quantities, rates, units - {u}, v);
      assert units - {v} - {u} == units - {u} - {v};
    }
  }

  /** S: what the quantities cost at the effective rates. */
  ghost function TableSum(pm: Model, raw: Usage): int {
    SumTerms(Quantities(raw), Rates(pm, raw), Quantities(raw).Keys)
  }

  /** Nothing measured costs nothing; otherwise the sum, raised to the minimum charge. */
  ghost function TableCharge(pm: Model, raw: Usage): int {
    var s := TableSum(pm, raw);
    if Quantities(raw) == map[] then 0
    else if s > 0 || (s == 0 && pm.minimum > 0) then Max(s, pm.minimum)
    else s
  }

  // ----- NormalizeWithOptions -----

  function Margin(pm: Model, optionMargin: real): real {
    var m := if optionMargin > 0.0 then optionMargin else pm.platformMargin;
    if m == 0.0 then 0.05 else m
  }

  /** A passthrough provider that reported a positive cost_usd. */
  predicate PaysByCost(pm: Model, raw: Usage) {
    pm.passthroughUsd && "cost_usd" in raw && raw["cost_usd"].Num? && raw["cost_usd"].n > 0.0
  }

  /** Micro-dollars with the margin, as micro-credits. */
  function WithMargin(usdMicro: real, factor: real, creditUsdMicro: real): real {
    usdMicro * factor * creditUsdMicro / 1000000.0
  }

  /** The two rounding stages, before the minimum. */
  function CostMicro(cost: real, margin: real, creditUsdMicro: int): int {
    var usdMicro := Round(cost * 1000000.0);
    Round(WithMargin(usdMicro as real, 1.0 + margin, creditUsdMicro as real))
  }

  /** The model's rates written over the base table in place, in map iteration order: any order. */
  method WriteOver(base: map<string, int>, override: map<string, int>) returns (rates: map<string, int>)
    ensures rates == base + override
  {
    rates := base;
    var todo := override.Keys;
    while todo != {}
      invariant todo <= override.Keys
      invariant rates.Keys == base.Keys + (override.Keys - todo)
      invariant forall k | k in rates :: rates[k] == if k in override && k !in todo then override[k] else base[k]
      decreases |todo|
    {
      var k :| k in todo;
      todo := todo - {k};
      rates := rates[k := override[k]];
    }
  }

  /** The accumulation loop over the quantities, in map iteration order: any order. */
  method Accumulate(quantities: map<string, real>, rates: map<string, int>) returns (total: int)
    ensures total == SumTerms(quantities, rates, quantities.Keys)
  {
    total := 0;
    var left := quantities.Keys;
    while left != {}
      invariant left <= quantities.Keys
      invariant total + SumTerms(quantities, rates, left) == SumTerms(quantities, rates, quantities.Keys)
      decreases |left|
    {
      var unit :| unit in left;
      SumPick(quantities, rates, left, unit);
      left := left - {unit};
      if unit in rates {
        total := total + Round(quantities[unit] * rates[unit] as real);
      }
    }
  }

  /** The price of an event: None when the pricing JSON does not parse.  The partial flag changes nothing. */
  method Normalize(pricing: Option<Model>, raw: Usage, creditUsdMicro: int, optionMargin: real, partial: bool)
    returns (price: Option<int>)
    requires pricing.Some? ==> TableUsable(pricing.value, raw)
    ensures price.Some? <==> pricing.Some?
    ensures pricing.Some? && pricing.value.passthroughUsd && "cost_usd" in raw && raw["cost_usd"].Num? && raw["cost_usd"].n > 0.0 ==>
              price.value == Max(CostMicro(raw["cost_usd"].n, Margin(pricing.value, optionMargin), creditUsdMicro),
                                 pricing.value.minimum)
    ensures pricing.Some? && !PaysByCost(pricing.value, raw) ==> price.value == TableCharge(pricing.value, raw)
    ensures pricing.Some? && !(pricing.value.passthroughUsd && "cost_usd" in raw && raw["cost_usd"].Num? && raw["cost_usd"].n > 0.0) ==>
              price.value == AtLeast(ListPrice(pricing.value, raw), Measured(raw), pricing.value.minimum)
  {
    hide ListPrice, Measured;
    if pricing == None {
      return None;
    }
    var pm := pricing.value;
    var margin := Margin(pm, optionMargin);
    if pm.passthroughUsd && "cost_usd" in raw && raw["cost_usd"].Num? && raw["cost_usd"].n > 0.0 {
      var micro := CostMicro(raw["cost_usd"].n, margin, creditUsdMicro);
      if micro < pm.minimum {
        micro := pm.minimum;
      }
      return Some(micro);
    }
    var quantities := Quantities(raw);
    var base := match pm.baseRates case None => map[] case Some(m) => m;
    var rates := WriteOver(base, Override(pm, raw));
    var total := Accumulate(quantities, rates);
    if total < pm.minimum && total > 0 {
      total := pm.minimum;
    }
    if total == 0 && pm.minimum > 0 && |quantities| > 0 {
      total := pm.minimum;
    }
    if partial && total > 0 && pm.minimum > 0 && total < pm.minimum {
      total := pm.minimum;
    }
    ChargeIsListed(pm, raw);
    return Some(total);
  }

  // ----- the price, unit by unit -----

  predicate IsNumber(raw: Usage, field: string) {
    field in raw && (raw[field].Num? || raw[field].Whole?)
  }

  /** The usage names a model that has a rate table of its own. */
  predicate NamesModel(pm: Model, raw: Usage) {
    "model" in raw && raw["model"].Text? && raw["model"].s != "" && raw["model"].s in pm.overrides
  }

  /** What one unit costs: the quantity in its field, times the model's rate for the unit if the model has one, else
      times the base rate, rounded; nothing when it is not measured or has no rate. */
  function UnitPrice(pm: Model, raw: Usage, unit: string, field: string): int {
    if !IsNumber(raw, field) then 0
    else
      var quantity := match raw[field] case Num(n) => n case Whole(i) => i as real case _ => 0.0;
      if NamesModel(pm, raw) && unit in pm.overrides[raw["model"].s]
      then Round(Scale(quantity, pm.overrides[raw["model"].s][unit] as real))
      else if pm.baseRates.Some? && unit in pm.baseRates.value
      then Round(Scale(quantity, pm.baseRates.value[unit] as real))
      else 0
  }

  /** The seven units, each read from its own field. */
  function ListPrice(pm: Model, raw: Usage): int {
    UnitPrice(pm, raw, "TOK_INPUT", "input_tokens") + UnitPrice(pm, raw, "TOK_OUTPUT", "output_tokens")
    + UnitPrice(pm, raw, "COMPUTE_S", "compute_seconds") + UnitPrice(pm, raw, "DB_READ", "db_reads")
    + UnitPrice(pm, raw, "DB_WRITE", "db_writes") + UnitPrice(pm, raw, "VEC_QUERY", "vec_queries")
    + UnitPrice(pm, raw, "API_CALL", "api_calls")
  }

  predicate Measured(raw: Usage) {
    || IsNumber(raw, "input_tokens") || IsNumber(raw, "output_tokens") || IsNumber(raw, "compute_seconds")
    || IsNumber(raw, "db_reads") || IsNumber(raw, "db_writes") || IsNumber(raw, "vec_queries")
    || IsNumber(raw, "api_calls")
  }

  /** Nothing measured costs nothing; a list price that is not negative is raised to the minimum charge. */
  function AtLeast(list: int, measured: bool, minimum: int): int {
    if !measured then 0
    else if list > 0 || (list == 0 && minimum > 0) then Max(list, minimum)
    else list
  }

  lemma ChargeIsListed(pm: Model, raw: Usage)
    ensures TableCharge(pm, raw) == AtLeast(ListPrice(pm, raw), Measured(raw), pm.minimum)
  {
    hide ListPrice, Measured, SumTerms;
    SumIsListPrice(pm, raw);
  }

  /** One unit taken out of a sum, if it is there. */
  lemma TakeUnit(q: map<string, real>, rates: map<string, int>, units: set<string>, unit: string)
    requires units <= q.Keys
    ensures SumTerms(q, rates, units) == (if unit in units then Term(q, rates, unit) else 0) + SumTerms(q, rates, units - {unit})
  {
    if unit in units {
      SumPick(q, rates, units, unit);
    } else {
      assert units - {unit} == units;
    }
  }

  lemma UnitTerm(pm: Model, raw: Usage, unit: string)
    requires unit in UNIT_FIELDS
    ensures unit in Quantities(raw) <==> IsNumber(raw, UNIT_FIELDS[unit])
    ensures (if unit in Quantities(raw) then Term(Quantities(raw), Rates(pm, raw), unit) else 0)
         == UnitPrice(pm, raw, unit, UNIT_FIELDS[unit])
  {
    hide Round, Scale;
  }

  /** The sum over the quantities is the list price, and something was measured iff there are quantities. */
  lemma SumIsListPrice(pm: Model, raw: Usage)
    ensures TableSum(pm, raw) == ListPrice(pm, raw)
    ensures Quantities(raw) == map[] <==> !Measured(raw)
  {
    hide Term, UnitPrice, SumTerms, Rates, IsNumber;
    var q, rates := Quantities(raw), Rates(pm, raw);
    var s1 := q.Keys - {"TOK_INPUT"};
    var s2 := s1 - {"TOK_OUTPUT"};
    var s3 := s2 - {"COMPUTE_S"};
    var s4 := s3 - {"DB_READ"};
    var s5 := s4 - {"DB_WRITE"};
    var s6 := s5 - {"VEC_QUERY"};
    UnitTerm(pm, raw, "TOK_INPUT");
    UnitTerm(pm, raw, "TOK_OUTPUT");
    UnitTerm(pm, raw, "COMPUTE_S");
    UnitTerm(pm, raw, "DB_READ");
    UnitTerm(pm, raw, "DB_WRITE");
    UnitTerm(pm, raw, "VEC_QUERY");
    UnitTerm(pm, raw, "API_CALL");
    TakeUnit(q, rates, q.Keys, "TOK_INPUT");
    TakeUnit(q, rates, s1, "TOK_OUTPUT");
    TakeUnit(q, rates, s2, "COMPUTE_S");
    TakeUnit(q, rates, s3, "DB_READ");
    TakeUnit(q, rates, s4, "DB_WRITE");
    TakeUnit(q, rates, s5, "VEC_QUERY");
    TakeUnit(q, rates, s6, "API_CALL");
    assert s6 - {"API_CALL"} == {};
    NoTerms(q, rates);
    assert q == map[] <==> q.Keys == {};
  }

  lemma NoTerms(q: map<string, real>, rates: map<string, int>)
    ensures SumTerms(q, rates, {}) == 0
  {
  }

  /** The margin is the option's when positive, else the model's, else 5%. */
  lemma MarginLaw(pm: Model, optionMargin: real)
    ensures optionMargin > 0.0 ==> Margin(pm, optionMargin) == optionMargin
    ensures optionMargin <= 0.0 && pm.platformMargin != 0.0 ==> Margin(pm, optionMargin) == pm.platformMargin
    ensures optionMargin <= 0.0 && pm.platformMargin == 0.0 ==> Margin(pm, optionMargin) == 0.05
  {
  }

  // ----- properties of the rate table -----

  ghost predicate NonNegativeInputs(pm: Model, raw: Usage) {
    && (forall u | u in Quantities(raw) :: Quantities(raw)[u] >= 0.0)
    && (forall u | u in Rates(pm, raw) :: Rates(pm, raw)[u] >= 0)
  }

  lemma RoundMonotone(x: real, y: real)
    requires x <= y
    ensures Round(x) <= Round(y)
  {
  }

  lemma ScaleMonotone(x: real, y: real, r: real)
    requires 0.0 <= x <= y && r >= 0.0
    ensures 0.0 <= Scale(x, r) <= Scale(y, r)
  {
    NonNegativeProduct(x, r);
    NonNegativeProduct(y - x, r);
    Distribute(y, x, r);
  }

  lemma TermMonotone(q: map<string, real>, q': map<string, real>, rates: map<string, int>, unit: string)
    requires unit in q && unit in q' && 0.0 <= q[unit] <= q'[unit] && (unit in rates ==> rates[unit] >= 0)
    ensures 0 <= Term(q, rates, unit) <= Term(q', rates, unit)
  {
    hide Scale;
    if unit in rates {
      var r := rates[unit] as real;
      ScaleMonotone(q[unit], q'[unit], r);
      RoundMonotone(Scale(q[unit], r), Scale(q'[unit], r));
    }
  }

  /** More of anything never costs less. */
  lemma {:induction false} SumMonotone(q: map<string, real>, q': map<string, real>, rates: map<string, int>, units: set<string>)
    requires units <= q.Keys && q.Keys <= q'.Keys
    requires forall u | u in q :: 0.0 <= q[u] <= q'[u]
    requires forall u | u in rates :: rates[u] >= 0
    ensures 0 <= SumTerms(q, rates, units) <= SumTerms(q', rates, units)
    decreases |units|
  {
    if units != {} {
      var u :| u in units;
      SumPick(q, rates, units, u);
      SumPick(q', rates, units, u);
      TermMonotone(q, q', rates, u);
      SumMonotone(q, q', rates, units - {u});
    }
  }

  /** Adding units never costs less either. */
  lemma {:induction false} SumGrows(q: map<string, real>, rates: map<string, int>, some: set<string>, all: set<string>)
    requires some <= all <= q.Keys
    requires forall u | u in q :: q[u] >= 0.0
    requires forall u | u in rates :: rates[u] >= 0
    ensures SumTerms(q, rates, some) <= SumTerms(q, rates, all)
    decreases |all|
  {
    if some != all {
      var u :| u in all && u !in some;
      SumPick(q, rates, all, u);
      TermMonotone(q, q, rates, u);
      SumGrows(q, rates, some, all - {u});
    }
  }

  /** With non-negative rates and quantities the charge is max(S, minimum), monotone in every quantity, and a
      usage with more units or larger quantities under the same rates costs at least as much. */
  lemma TableChargeMonotone(pm: Model, raw: Usage, raw': Usage)
    requires NonNegativeInputs(pm, raw) && NonNegativeInputs(pm, raw') && pm.minimum >= 0
    requires Rates(pm, raw) == Rates(pm, raw') && Quantities(raw).Keys <= Quantities(raw').Keys
    requires forall u | u in Quantities(raw) :: Quantities(raw)[u] <= Quantities(raw')[u]
    ensures TableCharge(pm, raw) == if Quantities(raw) == map[] then 0 else Max(TableSum(pm, raw), pm.minimum)
    ensures 0 <= TableCharge(pm, raw) <= TableCharge(pm, raw')
  {
    var q, q', rates := Quantities(raw), Quantities(raw'), Rates(pm, raw);
    SumMonotone(q, q', rates, q.Keys);
    SumGrows(q', rates, q.Keys, q'.Keys);
    SumMonotone(q', q', rates, q'.Keys);
  }

  /** A sum of non-negative terms is zero exactly when each of them is. */
  lemma {:induction false} SumZero(q: map<string, real>, rates: map<string, int>, units: set<string>)
    requires units <= q.Keys
    requires forall u | u in q :: q[u] >= 0.0
    requires forall u | u in rates :: rates[u] >= 0
    ensures SumTerms(q, rates, units) >= 0
    ensures SumTerms(q, rates, units) == 0 <==> forall u | u in units :: Term(q, rates, u) == 0
    decreases |units|
  {
    hide Term;
    if units != {} {
      var u :| u in units;
      SumPick(q, rates, units, u);
      SumZero(q, rates, units - {u});
      TermMonotone(q, q, rates, u);
      assert forall v | v in units :: v == u || v in units - {u};
    }
  }

  /** Less than half a micro-credit: the unit has no rate, or quantity times rate rounds to nothing. */
  ghost predicate RoundsAway(q: map<string, real>, rates: map<string, int>, unit: string)
    requires unit in q
  {
    unit in rates ==> Scale(q[unit], rates[unit] as real) < 0.5
  }

  lemma TermZero(q: map<string, real>, rates: map<string, int>, unit: string)
    requires unit in q && q[unit] >= 0.0 && (unit in rates ==> rates[unit] >= 0)
    ensures Term(q, rates, unit) == 0 <==> RoundsAway(q, rates, unit)
  {
    hide Scale;
    if unit in rates {
      ScaleMonotone(q[unit], q[unit], rates[unit] as real);
    }
  }

  /** A settlement gives the whole hold back exactly when nothing was measured, or there is no minimum charge and
      every measured unit rounds away. */
  lemma WholeHoldReleased(pm: Model, raw: Usage, hold: int)
    requires hold > 0 && pm.minimum >= 0 && NonNegativeInputs(pm, raw)
    ensures CaptureRelease(hold, TableCharge(pm, raw)) == (0, hold) <==>
            || Quantities(raw) == map[]
            || (pm.minimum == 0 && forall u | u in Quantities(raw) :: RoundsAway(Quantities(raw), Rates(pm, raw), u))
  {
    hide Quantities, Rates, RoundsAway;
    var q, rates := Quantities(raw), Rates(pm, raw);
    SumZero(q, rates, q.Keys);
    forall u | u in q ensures Term(q, rates, u) == 0 <==> RoundsAway(q, rates, u) {
      TermZero(q, rates, u);
    }
  }

  /** Drivers that report one API call even for a failed run make it cost the call's rate or the minimum. */
  lemma OneApiCallCosts(pm: Model, raw: Usage, hold: int)
    requires Quantities(raw) == map["API_CALL" := 1.0] && NonNegativeInputs(pm, raw)
    requires pm.minimum > 0 && hold > 0
    ensures var rate := if "API_CALL" in Rates(pm, raw) then Rates(pm, raw)["API_CALL"] else 0;
            CaptureRelease(hold, TableCharge(pm, raw)).0 == Min(hold, Max(rate, pm.minimum)) > 0
  {
    var q, rates := Quantities(raw), Rates(pm, raw);
    SumPick(q, rates, q.Keys, "API_CALL");
    assert q.Keys - {"API_CALL"} == {};
    if "API_CALL" in rates {
      RoundWhole(rates["API_CALL"]);
      assert 1.0 * rates["API_CALL"] as real == rates["API_CALL"] as real;
    }
  }

  lemma RoundWhole(n: int)
    ensures Round(n as real) == n
  {
  }

  // ----- passthrough -----

  function Abs(x: real): real { if x >= 0.0 then x else -x }

  lemma NonNegativeProduct(x: real, y: real)
    requires x >= 0.0 && y >= 0.0
    ensures x * y >= 0.0
  {
  }

  lemma ScaledError(d: real, a: real)
    requires -0.5 <= d <= 0.5
    ensures -0.5 * Abs(a) <= d * a <= 0.5 * Abs(a)
  {
    NonNegativeProduct(0.5 - d, Abs(a));
    NonNegativeProduct(0.5 + d, Abs(a));
    assert (0.5 - d) * Abs(a) == 0.5 * Abs(a) - d * Abs(a);
    assert (0.5 + d) * Abs(a) == 0.5 * Abs(a) + d * Abs(a);
  }

  lemma Reassociate(x: real, f: real, k: real)
    ensures WithMargin(x, f, k) == Scale(x, PerMillion(f, k))
  {
    assert x * f * k == x * (f * k);
  }

  lemma Distribute(n: real, x: real, a: real)
    ensures (n - x) * a == n * a - x * a
  {
  }

  lemma RoundError(x: real)
    ensures -0.5 <= Round(x) as real - x <= 0.5
  {
  }

  /** A value off by at most half a unit, scaled and rounded again: half a unit plus half the scale. */
  lemma ScaleAndRound(n: real, x: real, a: real)
    requires -0.5 <= n - x <= 0.5
    ensures -0.5 - 0.5 * Abs(a) <= Round(Scale(n, a)) as real - Scale(x, a) <= 0.5 + 0.5 * Abs(a)
  {
    hide Round, Abs;
    RoundError(Scale(n, a));
    ScaledError(n - x, a);
    Distribute(n, x, a);
  }

  /** The factor from micro-dollars to micro-credits. */
  function Factor(margin: real, k: int): real {
    PerMillion(1.0 + margin, k as real)
  }

  function PerMillion(f: real, k: real): real { f * k / 1000000.0 }

  /** The documented formula: cost * 1e6 * (1 + margin) * k / 1e6. */
  function Documented(cost: real, margin: real, k: int): real {
    Scale(cost * 1000000.0, Factor(margin, k))
  }

  lemma CostMicroFactor(cost: real, margin: real, k: int)
    ensures CostMicro(cost, margin, k) == Round(Scale(Round(cost * 1000000.0) as real, Factor(margin, k)))
  {
    hide Round, Scale, WithMargin, PerMillion;
    Reassociate(Round(cost * 1000000.0) as real, 1.0 + margin, k as real);
  }

  /** The two rounding stages stay within 1/2 + 1/2*(1+margin)*k/10^6 of the documented formula, for every
      cost, margin and k. */
  lemma PassthroughError(cost: real, margin: real, k: int)
    ensures Abs(CostMicro(cost, margin, k) as real - Documented(cost, margin, k)) <= 0.5 + 0.5 * Abs(Factor(margin, k))
  {
    hide Round, Scale, Factor, CostMicro;
    RoundError(cost * 1000000.0);
    CostMicroFactor(cost, margin, k);
    ScaleAndRound(Round(cost * 1000000.0) as real, cost * 1000000.0, Factor(margin, k));
  }

  /** Non-negative quantities, rates and minimum give a price that settles within any hold. */
  lemma PriceSettlesWithin(pm: Model, raw: Usage, optionMargin: real, creditUsdMicro: int, hold: nat)
    requires NonNegativeInputs(pm, raw) && pm.minimum >= 0
    ensures var price := if PaysByCost(pm, raw)
                         then Max(CostMicro(raw["cost_usd"].n, Margin(pm, optionMargin), creditUsdMicro), pm.minimum)
                         else TableCharge(pm, raw);
            var (capture, release) := CaptureRelease(hold, price);
            price >= 0 && 0 <= capture <= hold && 0 <= release <= hold
  {
    hide CostMicro, Quantities, Rates;
    TableChargeMonotone(pm, raw, raw);
  }

  // ----- how much is held -----

  const DEFAULT_HOLD := 10_000_000

  function EstimateMax(pricing: Option<Model>, hints: int, defaultEstimate: int): int {
    if hints > 0 then hints * 1_000_000
    else if pricing.Some? && pricing.value.minimum > 0 && defaultEstimate < pricing.value.minimum
    then pricing.value.minimum * 100
    else if defaultEstimate == 0 then DEFAULT_HOLD
    else defaultEstimate
  }

  /** Route and solvency middleware: the driver's estimate, overridden by the client's hint, with defaults. */
  function HoldAmount(estimate: int, hint: Option<int>, pricing: Option<Model>): int {
    var hinted := if hint.Some? && hint.value > 0 then hint.value * 1_000_000 else estimate;
    var hold := if hinted == 0 then EstimateMax(pricing, 0, DEFAULT_HOLD) else hinted;
    if hold == 0 then DEFAULT_HOLD else hold
  }

  /** A positive client hint decides the hold, then a positive driver estimate, then a default that covers the minimum
      charge.  A hold is positive exactly when the hint is or the driver's estimate is not negative. */
  lemma HoldIsPositive(estimate: int, hint: Option<int>, pricing: Option<Model>)
    ensures HoldAmount(estimate, hint, pricing) > 0 <==> estimate >= 0 || (hint.Some? && hint.value > 0)
    ensures hint.Some? && hint.value > 0 ==> HoldAmount(estimate, hint, pricing) == hint.value * 1_000_000
    ensures !(hint.Some? && hint.value > 0) && estimate != 0 ==> HoldAmount(estimate, hint, pricing) == estimate
    ensures estimate == 0 && hint == None && pricing.Some? ==> HoldAmount(estimate, hint, pricing) >= pricing.value.minimum
  {
  }

  /** estimateMaxCost of the OpenRouter driver; JavaScript takes a zero hint or zero max_tokens as absent. */
  function EstimateMaxCost(hint: Option<int>, maxTokens: Option<int>): int {
    if hint.Some? && hint.value != 0 then hint.value * 1_000_000
    else (if maxTokens.Some? && maxTokens.value != 0 then maxTokens.value else 1024) * 900 + 500_000
  }

  /** With neither estimate nor hint the hold is ten credits, or a hundred times a minimum charge above that. */
  lemma DefaultHold(pricing: Option<Model>)
    ensures HoldAmount(0, None, pricing)
         == if pricing.Some? && pricing.value.minimum > 10_000_000 then 100 * pricing.value.minimum else 10_000_000
  {
  }

  /** A positive hint decides, then a minimum charge above the default, then the default, which is ten credits when
      it is zero. */
  lemma EstimateMaxLaw(pricing: Option<Model>, hints: int, defaultEstimate: int)
    ensures var most := EstimateMax(pricing, hints, defaultEstimate);
            && (hints > 0 ==> most == hints * 1_000_000)
            && (hints <= 0 && pricing.Some? && pricing.value.minimum > Max(defaultEstimate, 0) ==>
                  most == 100 * pricing.value.minimum)
            && (hints <= 0 && (pricing == None || pricing.value.minimum <= Max(defaultEstimate, 0)) ==>
                  most == if defaultEstimate == 0 then 10_000_000 else defaultEstimate)
  {
  }

  /** Half a credit and 900 per token for the OpenRouter driver, with 1024 tokens when none are given. */
  lemma OpenRouterEstimate(maxTokens: int)
    requires maxTokens != 0
    ensures EstimateMaxCost(None, None) == EstimateMaxCost(Some(0), Some(0)) == EstimateMaxCost(None, Some(1024)) == 1_421_600
    ensures EstimateMaxCost(None, Some(maxTokens)) - EstimateMaxCost(None, Some(1)) == 900 * (maxTokens - 1)
  {
  }

  /** An OpenRouter request holds a positive amount exactly when its hint is positive, or absent with max_tokens at
      least -555: nothing checks the request's max_tokens, and a negative hold would credit the user. */
  lemma OpenRouterHold(hint: Option<int>, maxTokens: Option<int>, pricing: Option<Model>)
    ensures HoldAmount(EstimateMaxCost(hint, maxTokens), hint, pricing) > 0 <==>
            if hint.Some? && hint.value != 0 then hint.value > 0 else maxTokens == None || maxTokens.value >= -555
  {
    HoldIsPositive(EstimateMaxCost(hint, maxTokens), hint, pricing);
  }

  /** estimateMaxCost of the Apify driver; a zero timeout counts as absent. */
  function ApifyEstimate(timeout: Option<int>): int {
    (if timeout.Some? && timeout.value != 0 then timeout.value else 300) * 50_000 + 1_000_000
  }

  /** One credit and 50 000 per second, with 300 seconds when none are given. */
  lemma ApifyLaw(timeout: int)
    requires timeout != 0
    ensures ApifyEstimate(None) == ApifyEstimate(Some(0)) == ApifyEstimate(Some(300)) == 16_000_000
    ensures ApifyEstimate(Some(timeout)) - ApifyEstimate(Some(1)) == 50_000 * (timeout - 1)
  {
  }

  /** An Apify request holds a positive amount exactly when its hint is positive or its timeout is at least -20. */
  lemma ApifyHold(hint: Option<int>, timeout: Option<int>, pricing: Option<Model>)
    ensures HoldAmount(ApifyEstimate(timeout), hint, pricing) > 0 <==>
            (hint.Some? && hint.value > 0) || timeout == None || timeout.value >= -20
  {
    HoldIsPositive(ApifyEstimate(timeout), hint, pricing);
  }
}
