/** The model-level aggregation equations: each reduces the live firms of a
    group (or the whole schedule) to one scalar, or revises a scalar. */
module Aggregation {
  import opened Firms

  // Per-firm quantities summed by the aggregation functions.
  function Price(f: Firm): real { f.books.price }
  function ShareWeightedPrice(f: Firm): real { f.marketShare * f.books.price }
  function UnitLabourCost(f: Firm): real { f.machine.unitLabourCost }
  function MachineProductivity(f: Firm): real { f.machine.labourProductivity }
  function ShareWeightedCompetitiveness(f: Firm): real { f.books.competitiveness * f.marketShare }
  function ExpansionInvestment(f: Firm): real { f.books.expansionInvestment }
  function ReplacementInvestment(f: Firm): real { f.books.replacementInvestment }
  function FirmInvestment(f: Firm): real { f.books.expansionInvestment + f.books.replacementInvestment }
  function LabourDemand(f: Firm): real { f.books.labourDemand }
  function Production(f: Firm): real { f.books.production }
  function Inventory(f: Firm): real { f.books.inventory }
  function SalesValue(f: Firm): real { f.books.sales * f.books.price }
  function OutputValue(f: Firm): real { f.books.output * f.books.price }

  /** The average price of the live firms of a group: the plain mean, which
      fails on an empty group, or the market-share-weighted sum. */
  function AveragePrice(pop: seq<Firm>, g: Sector, weighted: bool): (r: Result<real>)
    ensures !weighted ==> (r.Ok? <==> Group(pop, g, false) != [])
    ensures !weighted && r.Ok? ==> r.value * |Group(pop, g, false)| as real == Total(Group(pop, g, false), Price)
    ensures weighted ==> r.Ok?
  {
    var firms := Group(pop, g, false);
    if !weighted then Mean(firms, Price) else Ok(Total(firms, ShareWeightedPrice))
  }

  /** The plain average price lies between the lowest and highest live price. */
  lemma AveragePriceBetween(pop: seq<Firm>, g: Sector, lo: real, hi: real)
    requires Group(pop, g, false) != []
    requires forall f :: f in pop && f.group == g && !f.bankrupt ==> lo <= f.books.price <= hi
    ensures lo <= AveragePrice(pop, g, false).value <= hi
  {
    GroupMembers(pop, g, false);
    MeanBetween(Group(pop, g, false), Price, lo, hi);
  }

  /** When every live firm of the group holds the share 1/n, the weighted and
      the plain average price agree. */
  lemma EqualSharesWeightedIsPlain(pop: seq<Firm>, g: Sector)
    requires Group(pop, g, false) != []
    requires forall f :: f in Group(pop, g, false) ==> f.marketShare == 1.0 / |Group(pop, g, false)| as real
    ensures AveragePrice(pop, g, true).value == AveragePrice(pop, g, false).value
  {
    EqualSharesMean(Group(pop, g, false));
  }

  lemma EqualSharesMean(firms: seq<Firm>)
    requires firms != []
    requires forall f :: f in firms ==> f.marketShare == 1.0 / |firms| as real
    ensures Total(firms, ShareWeightedPrice) == Mean(firms, Price).value
  {
    var n := |firms| as real;
    EqualSharesScale(firms, 1.0 / n);
    MeanOfShare(Total(firms, Price), n);
  }

  lemma EqualSharesScale(firms: seq<Firm>, c: real)
    requires forall f :: f in firms ==> f.marketShare == c
    ensures Total(firms, ShareWeightedPrice) == c * Total(firms, Price)
  {
    forall f | f in firms ensures ShareWeightedPrice(f) == c * Price(f) {
    }
    TotalScale(firms, Price, ShareWeightedPrice, c);
  }

  lemma MeanOfShare(t: real, n: real)
    requires n > 0.0
    ensures (1.0 / n) * t == t / n
  {
  }

  /** The change from prev to now relative to prev, which fails when prev is zero. */
  function RelativeChange(now: real, prev: real): (r: Result<real>)
    ensures r.Ok? <==> prev != 0.0
    ensures r.Err? ==> r.error == DivisionByZero
    ensures r.Ok? ==> prev * (1.0 + r.value) == now
  {
    if prev == 0.0 then Err(DivisionByZero) else Ok((now - prev) / prev)
  }

  /** Rounding a decimal to two places, counted in hundredths: the nearest whole number of
      hundredths, ties going to the even one. */
  function RoundedCents(x: real): (k: int)
    ensures -0.5 <= k as real - 100.0 * x <= 0.5
    ensures (k as real - 100.0 * x == 0.5 || k as real - 100.0 * x == -0.5) ==> k % 2 == 0
  {
    var y := 100.0 * x;
    var f := y.Floor;
    var frac := y - f as real;
    if frac < 0.5 then f
    else if frac > 0.5 then f + 1
    else if f % 2 == 0 then f
    else f + 1
  }

  /** No whole number of hundredths is nearer to x than the rounded one. */
  lemma RoundedCentsNearest(x: real, j: int)
    ensures var d := RoundedCents(x) as real - 100.0 * x;
            var e := j as real - 100.0 * x;
            (if d < 0.0 then -d else d) <= (if e < 0.0 then -e else e)
  {
    var k := RoundedCents(x);
    if j < k {
      assert j as real <= k as real - 1.0;
    } else if j > k {
      assert j as real >= k as real + 1.0;
    }
  }

  /** The two properties of RoundedCents fix it: any other whole number with
      them is the same. */
  lemma RoundedCentsUnique(x: real, j: int)
    requires -0.5 <= j as real - 100.0 * x <= 0.5
    requires (j as real - 100.0 * x == 0.5 || j as real - 100.0 * x == -0.5) ==> j % 2 == 0
    ensures j == RoundedCents(x)
  {
  }

  /** Rounding to two places: a whole number of hundredths within half a hundredth of x. */
  function Round2(x: real): (r: real)
    ensures (100.0 * r).Floor as real == 100.0 * r
    ensures -0.005 <= r - x <= 0.005
  {
    var k := RoundedCents(x);
    var r := k as real / 100.0;
    assert 100.0 * r == k as real;
    assert (k as real).Floor == k;
    r
  }

  /** The market-share-weighted competitiveness of a group's live firms,
      rounded to two decimals. */
  function SectorCompetitiveness(pop: seq<Firm>, g: Sector): (r: real)
    ensures (100.0 * r).Floor as real == 100.0 * r
    ensures -0.005 <= r - Total(Group(pop, g, false), ShareWeightedCompetitiveness) <= 0.005
  {
    Round2(Total(Group(pop, g, false), ShareWeightedCompetitiveness))
  }

  /** The expansion and replacement totals add up to the total investment of
      the firms. */
  lemma InvestmentAddsUp(firms: seq<Firm>)
    ensures Total(firms, ExpansionInvestment) + Total(firms, ReplacementInvestment)
         == Total(firms, FirmInvestment)
  {
    TotalAdd(firms, ExpansionInvestment, ReplacementInvestment, FirmInvestment);
  }

  /** Labour demand over the whole schedule splits into the two groups' demand,
      bankrupt firms included. */
  lemma {:induction false} LabourDemandBySector(pop: seq<Firm>)
    ensures Total(pop, LabourDemand)
         == Total(Group(pop, ConsumptionFirm, true), LabourDemand)
          + Total(Group(pop, CapitalFirm, true), LabourDemand)
    decreases |pop|
  {
    if pop != [] {
      var p := pop[..|pop| - 1];
      var f := pop[|pop| - 1];
      assert pop == p + [f];
      LabourDemandBySector(p);
      GroupAppend(p, [f], ConsumptionFirm, true);
      GroupAppend(p, [f], CapitalFirm, true);
      GroupSingleton(f, ConsumptionFirm, true);
      GroupSingleton(f, CapitalFirm, true);
      TotalAppend(Group(p, ConsumptionFirm, true), Group([f], ConsumptionFirm, true), LabourDemand);
      TotalAppend(Group(p, CapitalFirm, true), Group([f], CapitalFirm, true), LabourDemand);
      assert [f][..0] == [];
    }
  }

  /** Labour demand of the live capital firms. */
  function CapitalLabourDemand(pop: seq<Firm>): real
  {
    Total(Group(pop, CapitalFirm, false), LabourDemand)
  }

  /** Capital labour demand is additive over a split of the schedule. */
  lemma CapitalLabourDemandAppend(a: seq<Firm>, b: seq<Firm>)
    ensures CapitalLabourDemand(a + b) == CapitalLabourDemand(a) + CapitalLabourDemand(b)
  {
    GroupAppend(a, b, CapitalFirm, false);
    TotalAppend(Group(a, CapitalFirm, false), Group(b, CapitalFirm, false), LabourDemand);
  }

  /** With no firm demanding negative labour, the live capital firms' demand
      is non-negative and at most the labour demand of the whole schedule. */
  lemma {:induction false} CapitalLabourDemandWithinTotal(pop: seq<Firm>)
    requires forall i :: 0 <= i < |pop| ==> pop[i].books.labourDemand >= 0.0
    ensures 0.0 <= CapitalLabourDemand(pop) <= Total(pop, LabourDemand)
    decreases |pop|
  {
    if pop != [] {
      var p := pop[..|pop| - 1];
      var f := pop[|pop| - 1];
      assert pop == p + [f];
      CapitalLabourDemandWithinTotal(p);
      CapitalLabourDemandAppend(p, [f]);
      GroupSingleton(f, CapitalFirm, false);
      assert [f][..0] == [];
    }
  }

  /** The capital sector's share of the labour supply. */
  function MaxCapitalLabour(maxCapitalLabourShare: real, labourSupply: real): real
  {
    maxCapitalLabourShare * labourSupply
  }

  /** With the share n_capital / (n_consumption + n_capital), the capital
      sector's cap lies between zero and the labour supply. */
  lemma MaxCapitalLabourWithinSupply(nConsumption: nat, nCapital: nat, labourSupply: real)
    requires nConsumption + nCapital > 0 && labourSupply >= 0.0
    ensures var share := nCapital as real / (nConsumption + nCapital) as real;
            0.0 <= MaxCapitalLabour(share, labourSupply) <= labourSupply
  {
    var share := nCapital as real / (nConsumption + nCapital) as real;
    assert 0.0 <= share <= 1.0;
    ProductNonNegative(share, labourSupply);
    ProductNonNegative(1.0 - share, labourSupply);
  }

  lemma ProductNonNegative(a: real, b: real)
    requires a >= 0.0 && b >= 0.0
    ensures a * b >= 0.0
  {
  }

  /** A positive factor keeps the sign of the other. */
  lemma ProductSign(a: real, b: real)
    requires a > 0.0
    ensures (a * b > 0.0 <==> b > 0.0) && (a * b == 0.0 <==> b == 0.0)
  {
    if b > 0.0 {
      ProductNonNegative(a, b);
      assert a * b != 0.0;
    } else if b < 0.0 {
      ProductNonNegative(a, -b);
      assert a * (-b) == -(a * b);
      assert a * b != 0.0;
    }
  }

  /** The labour supply after one period of growth at the given rate. */
  function GrownLabourSupply(labourSupply: real, growth: real): real
  {
    labourSupply * (1.0 + growth)
  }

  /** A positive labour supply grows exactly when the growth rate is
      positive and stays positive while the rate exceeds -1. */
  lemma SupplyFollowsGrowth(labourSupply: real, growth: real)
    requires labourSupply > 0.0
    ensures var s := GrownLabourSupply(labourSupply, growth);
            (s > labourSupply <==> growth > 0.0) && (s == labourSupply <==> growth == 0.0)
            && (s > 0.0 <==> growth > -1.0)
  {
    var s := GrownLabourSupply(labourSupply, growth);
    assert s == labourSupply + labourSupply * growth;
    ProductSign(labourSupply, growth);
    ProductSign(labourSupply, 1.0 + growth);
  }

  /** Employment: the lesser of labour demand and labour supply. */
  function Employed(labourDemand: real, labourSupply: real): (e: real)
    ensures e <= labourDemand && e <= labourSupply
    ensures e == labourDemand || e == labourSupply
  {
    if labourSupply < labourDemand then labourSupply else labourDemand
  }

  /** Unemployment: the labour supply not employed, never below zero. */
  function Unemployed(labourSupply: real, employment: real): (u: real)
    ensures u >= 0.0 && u >= labourSupply - employment
    ensures u == 0.0 || u == labourSupply - employment
  {
    if 0.0 < labourSupply - employment then labourSupply - employment else 0.0
  }

  /** The unemployment rate: unemployment as a fraction of the labour supply, which fails on a zero labour supply. */
  function UnemploymentRate(unemployment: real, labourSupply: real): (r: Result<real>)
    ensures r.Ok? <==> labourSupply != 0.0
    ensures r.Err? ==> r.error == DivisionByZero
    ensures r.Ok? ==> r.value * labourSupply == unemployment
  {
    if labourSupply == 0.0 then Err(DivisionByZero) else Ok(unemployment / labourSupply)
  }

  /** Employment never exceeds the supply, so the clamp at zero never bites:
      unemployment is the supply not employed; with a positive supply and a
      non-negative demand the rate is a fraction. */
  lemma EmploymentRule(labourDemand: real, labourSupply: real)
    ensures var e := Employed(labourDemand, labourSupply);
            Unemployed(labourSupply, e) == labourSupply - e
    ensures labourSupply > 0.0 && labourDemand >= 0.0 ==>
            var u := Unemployed(labourSupply, Employed(labourDemand, labourSupply));
            0.0 <= UnemploymentRate(u, labourSupply).value <= 1.0
  {
    var e := Employed(labourDemand, labourSupply);
    var u := Unemployed(labourSupply, e);
    if labourSupply > 0.0 && labourDemand >= 0.0 {
      var r := UnemploymentRate(u, labourSupply).value;
      assert r * labourSupply == u;
      assert 0.0 <= u <= labourSupply;
    }
  }

  /** The wage-setting weights. */
  datatype WageSetting = WageSetting(cpiWeight: real, avgLpWeight: real, unemploymentWeight: real)

  /** The weighted index the wage is revised by. */
  function WageIndex(w: WageSetting, deltaCpi: real, deltaProductivity: real, deltaUnemployment: real): real
  {
    w.cpiWeight * deltaCpi + w.avgLpWeight * deltaProductivity + w.unemploymentWeight * deltaUnemployment
  }

  /** The revised wage: the wage scaled by one plus the weighted index. */
  function RevisedWage(wage: real, w: WageSetting, deltaCpi: real, deltaProductivity: real, deltaUnemployment: real): real
  {
    wage * (1.0 + WageIndex(w, deltaCpi, deltaProductivity, deltaUnemployment))
  }

  /** A positive wage rises, stays or falls exactly as the index is positive,
      zero or negative, and the revised wage stays positive while the index
      exceeds -1. */
  lemma WageFollowsIndex(wage: real, w: WageSetting, deltaCpi: real, deltaProductivity: real, deltaUnemployment: real)
    requires wage > 0.0
    ensures var i := WageIndex(w, deltaCpi, deltaProductivity, deltaUnemployment);
            var r := RevisedWage(wage, w, deltaCpi, deltaProductivity, deltaUnemployment);
            (r > wage <==> i > 0.0) && (r == wage <==> i == 0.0) && (r > 0.0 <==> i > -1.0)
  {
    var i := WageIndex(w, deltaCpi, deltaProductivity, deltaUnemployment);
    var r := RevisedWage(wage, w, deltaCpi, deltaProductivity, deltaUnemployment);
    assert r == wage + wage * i;
    ProductSign(wage, i);
    ProductSign(wage, 1.0 + i);
  }

  const WELFARE: string := "welfare"

  /** Household consumption (wage times employment) plus government
      consumption, which depends on the social-policy mode. */
  function Consumption(wage: real, employment: real, unemployment: real, labourSupply: real,
                       wageShare: real, socialPolicy: string): real
  {
    var household := wage * employment;
    var government := if socialPolicy == WELFARE then wageShare * unemployment
                      else wageShare * wage * labourSupply;
    household + government
  }

  /** After the employment rule: in the welfare mode the employed are paid the
      wage and the unemployed the wage share; otherwise the government adds the
      wage share of the whole labour supply at the wage. At full employment the
      welfare mode spends exactly the wage bill of the labour supply. */
  lemma ConsumptionAfterEmployment(labourDemand: real, labourSupply: real, wage: real,
                                   wageShare: real, socialPolicy: string)
    ensures var e := Employed(labourDemand, labourSupply);
            var c := Consumption(wage, e, Unemployed(labourSupply, e), labourSupply, wageShare, socialPolicy);
            (socialPolicy == WELFARE ==> c == wage * e + wageShare * (labourSupply - e))
            && (socialPolicy != WELFARE ==> c == wage * (e + wageShare * labourSupply))
    ensures socialPolicy == WELFARE && labourDemand >= labourSupply ==>
            var e := Employed(labourDemand, labourSupply);
            Consumption(wage, e, Unemployed(labourSupply, e), labourSupply, wageShare, socialPolicy)
              == wage * labourSupply
  {
    EmploymentRule(labourDemand, labourSupply);
    var e := Employed(labourDemand, labourSupply);
    assert wage * e + wageShare * wage * labourSupply == wage * (e + wageShare * labourSupply);
  }

  /** GDP: sales value of the live consumption firms plus output value of the
      live capital firms. */
  function Gdp(pop: seq<Firm>): real
  {
    Total(Group(pop, ConsumptionFirm, false), SalesValue)
      + Total(Group(pop, CapitalFirm, false), OutputValue)
  }

  /** GDP is additive over a split of the schedule, so it does not depend on
      the order of the firms. */
  lemma GdpAppend(a: seq<Firm>, b: seq<Firm>)
    ensures Gdp(a + b) == Gdp(a) + Gdp(b)
    ensures Gdp(a + b) == Gdp(b + a)
  {
    GroupAppend(a, b, ConsumptionFirm, false);
    GroupAppend(a, b, CapitalFirm, false);
    GroupAppend(b, a, ConsumptionFirm, false);
    GroupAppend(b, a, CapitalFirm, false);
    TotalAppend(Group(a, ConsumptionFirm, false), Group(b, ConsumptionFirm, false), SalesValue);
    TotalAppend(Group(a, CapitalFirm, false), Group(b, CapitalFirm, false), OutputValue);
    TotalAppend(Group(b, ConsumptionFirm, false), Group(a, ConsumptionFirm, false), SalesValue);
    TotalAppend(Group(b, CapitalFirm, false), Group(a, CapitalFirm, false), OutputValue);
  }
}
