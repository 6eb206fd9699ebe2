/** The economy object: the model-level scalars and the firm schedule, and the
    model-level stage functions that revise them in place. */
module Model {
  import opened Firms
  import opened Aggregation
  import opened ExitEntry
  import opened Setup

  /** The parameters the model-level stage functions read. */
  datatype Parameters = Parameters(
    labourSupplyGrowth: real,
    wageSetting: WageSetting,
    wageShare: real,
    socialPolicy: string)

  /** A snapshot of every model-level scalar. */
  datatype Aggregates = Aggregates(
    marketWage: real,
    cpi: real,
    avgLabourProd: real,
    labourSupply: real,
    avgCapPrice: real,
    avgCompCompetitiveness: real,
    avgCapCompetitiveness: real,
    averageUnitLabourCost: real,
    labourDemand: real,
    employment: real,
    unemployment: real,
    unemploymentRate: real,
    deltaCpi: real,
    deltaProductivity: real,
    deltaUnemployment: real,
    expansionInvestment: real,
    replacementInvestment: real,
    aggInventories: real,
    aggProduction: real,
    consumption: real)

  class Economy {
    const params: Parameters
    const maxCapitalLabourShare: real
    var population: seq<Firm>

    var marketWage: real
    var cpi: real
    var avgLabourProd: real
    var labourSupply: real
    var avgCapPrice: real
    var avgCompCompetitiveness: real
    var avgCapCompetitiveness: real
    var averageUnitLabourCost: real
    var labourDemand: real
    var employment: real
    var unemployment: real
    var unemploymentRate: real
    var deltaCpi: real
    var deltaProductivity: real
    var deltaUnemployment: real
    var expansionInvestment: real
    var replacementInvestment: real
    var aggInventories: real
    var aggProduction: real
    var consumption: real

    function State(): Aggregates
      reads this
    {
      Aggregates(marketWage, cpi, avgLabourProd, labourSupply, avgCapPrice, avgCompCompetitiveness,
                 avgCapCompetitiveness, averageUnitLabourCost, labourDemand, employment, unemployment,
                 unemploymentRate, deltaCpi, deltaProductivity, deltaUnemployment, expansionInvestment,
                 replacementInvestment, aggInventories, aggProduction, consumption)
    }

    /** The constructor, once the divisions it performs are known to succeed:
        the given initial conditions, full employment, the consumption they
        imply, every other scalar zero, and the initial schedule. */
    constructor (p: Parameters, founding: Founding, wage: real, initialCpi: real, avgLp: real,
                 supply: real, pop: seq<Firm>)
      requires founding.nConsumption > 0 && founding.nCapital > 0 && supply != 0.0
      ensures params == p && population == pop
      ensures maxCapitalLabourShare
           == founding.nCapital as real / (founding.nConsumption + founding.nCapital) as real
      ensures State() == Aggregates(wage, initialCpi, avgLp, supply, 0.0, 0.0, 0.0, 0.0, 0.0, supply, 0.0, 0.0,
                                    0.0, 0.0, 0.0, 0.0, 0.0, 0.0, 0.0,
                                    Consumption(wage, supply, 0.0, supply, p.wageShare, p.socialPolicy))
    {
      params := p;
      maxCapitalLabourShare := founding.nCapital as real / (founding.nConsumption + founding.nCapital) as real;
      marketWage, cpi, avgLabourProd, labourSupply := wage, initialCpi, avgLp, supply;
      avgCapPrice, avgCompCompetitiveness, avgCapCompetitiveness, averageUnitLabourCost := 0.0, 0.0, 0.0, 0.0;
      labourDemand, unemployment := 0.0, 0.0;
      deltaCpi, deltaProductivity, deltaUnemployment := 0.0, 0.0, 0.0;
      expansionInvestment, replacementInvestment, aggInventories, aggProduction := 0.0, 0.0, 0.0, 0.0;
      employment := supply;
      consumption := Consumption(wage, supply, 0.0, supply, p.wageShare, p.socialPolicy);
      unemploymentRate := 0.0 / supply;
      population := pop;
    }

    /** An economy with shares summing to one per group:
        the model's construction, which fails with a division by zero when a
        group has no firms or the labour supply is zero. */
    static method Create(p: Parameters, founding: Founding, wage: real, initialCpi: real, avgLp: real,
                         supply: real, blankCapital: Firm, blankConsumption: Firm)
      returns (e: Economy?, o: Outcome)
      ensures o.Pass? <==> founding.nConsumption > 0 && founding.nCapital > 0 && supply != 0.0
      ensures o.Fail? ==> o.error == DivisionByZero && e == null
      ensures o.Pass? ==>
                && e != null && fresh(e)
                && e.params == p
                && e.maxCapitalLabourShare
                   == founding.nCapital as real / (founding.nConsumption + founding.nCapital) as real
                && e.State() == Aggregates(wage, initialCpi, avgLp, supply, 0.0, 0.0, 0.0, 0.0, 0.0, supply, 0.0, 0.0,
                                           0.0, 0.0, 0.0, 0.0, 0.0, 0.0, 0.0,
                                           Consumption(wage, supply, 0.0, supply, p.wageShare, p.socialPolicy))
                && IsInitial(e.population, founding, blankCapital, blankConsumption)
                && e.employment == e.labourSupply == supply && e.unemploymentRate == 0.0
                && Total(Group(e.population, CapitalFirm, false), Share) == 1.0
                && Total(Group(e.population, ConsumptionFirm, false), Share) == 1.0
    {
      if founding.nConsumption == 0 || founding.nCapital == 0 || supply == 0.0 {
        return null, Fail(DivisionByZero);
      }
      var r := InitialPopulation(founding, blankCapital, blankConsumption);
      InitialSharesSumToOne(r.value, founding, blankCapital, blankConsumption);
      e := new Economy(p, founding, wage, initialCpi, avgLp, supply, r.value);
      o := Pass;
    }

    /** Total investment: expansion plus replacement investment. */
    function Investment(): real
      reads this
    {
      expansionInvestment + replacementInvestment
    }

    /** The capital sector's cap on labour: its share of the labour supply. */
    function MaxCapitalLabourCap(): real
      reads this
    {
      MaxCapitalLabour(maxCapitalLabourShare, labourSupply)
    }

    /** Labour demand of the live capital firms. */
    function CapitalLabourDemandNow(): real
      reads this
    {
      CapitalLabourDemand(population)
    }

    /** The consumption the current scalars imply. */
    function ComputeConsumption(): real
      reads this
    {
      Consumption(marketWage, employment, unemployment, labourSupply, params.wageShare, params.socialPolicy)
    }

    /** GDP of the current schedule. */
    function GdpNow(): real
      reads this
    {
      Gdp(population)
    }

    /** The CPI becomes the mean price of the live consumption firms, with its
        relative change, then the average capital price becomes the mean price
        of the live capital firms. An empty group or a zero previous CPI
        fails; a failure on the capital group comes after the CPI update. */
    method UpdateAveragePrices() returns (o: Outcome)
      modifies this
      ensures population == old(population)
      ensures o.Pass? <==> Group(population, ConsumptionFirm, false) != [] && old(cpi) != 0.0
                           && Group(population, CapitalFirm, false) != []
      ensures o.Fail? ==> o.error == DivisionByZero
      ensures Group(population, ConsumptionFirm, false) == [] || old(cpi) == 0.0 ==> State() == old(State())
      ensures Group(population, ConsumptionFirm, false) != [] && old(cpi) != 0.0 ==>
                && cpi == AveragePrice(population, ConsumptionFirm, false).value
                && deltaCpi == RelativeChange(cpi, old(cpi)).value
                && old(cpi) * (1.0 + deltaCpi) == cpi
                && State() == old(State()).(cpi := cpi, deltaCpi := deltaCpi, avgCapPrice := avgCapPrice)
                && avgCapPrice == if o.Pass? then AveragePrice(population, CapitalFirm, false).value
                                  else old(avgCapPrice)
    {
      var newCpi := AveragePrice(population, ConsumptionFirm, false);
      if newCpi.Err? {
        return Fail(newCpi.error);
      }
      var delta := RelativeChange(newCpi.value, cpi);
      if delta.Err? {
        return Fail(delta.error);
      }
      deltaCpi := delta.value;
      cpi := newCpi.value;
      var capPrice := AveragePrice(population, CapitalFirm, false);
      if capPrice.Err? {
        return Fail(capPrice.error);
      }
      avgCapPrice := capPrice.value;
      o := Pass;
    }

    /** The average unit labour cost of the live capital firms' machines; an
        empty capital group fails and changes nothing. */
    method UpdateAvgUlc() returns (o: Outcome)
      modifies this
      ensures population == old(population)
      ensures o.Pass? <==> Group(population, CapitalFirm, false) != []
      ensures o.Fail? ==> o.error == DivisionByZero && State() == old(State())
      ensures o.Pass? ==>
                && averageUnitLabourCost == Mean(Group(population, CapitalFirm, false), UnitLabourCost).value
                && averageUnitLabourCost * |Group(population, CapitalFirm, false)| as real
                   == Total(Group(population, CapitalFirm, false), UnitLabourCost)
                && State() == old(State()).(averageUnitLabourCost := averageUnitLabourCost)
    {
      var m := Mean(Group(population, CapitalFirm, false), UnitLabourCost);
      if m.Err? {
        return Fail(m.error);
      }
      averageUnitLabourCost := m.value;
      o := Pass;
    }

    /** The average machine productivity of the live capital firms and its
        relative change; an empty group or a zero previous average fails and
        changes nothing. */
    method UpdateAverageLabourProductivity() returns (o: Outcome)
      modifies this
      ensures population == old(population)
      ensures o.Pass? <==> Group(population, CapitalFirm, false) != [] && old(avgLabourProd) != 0.0
      ensures o.Fail? ==> o.error == DivisionByZero && State() == old(State())
      ensures o.Pass? ==>
                && avgLabourProd == Mean(Group(population, CapitalFirm, false), MachineProductivity).value
                && old(avgLabourProd) * (1.0 + deltaProductivity) == avgLabourProd
                && State() == old(State()).(avgLabourProd := avgLabourProd, deltaProductivity := deltaProductivity)
    {
      var m := Mean(Group(population, CapitalFirm, false), MachineProductivity);
      if m.Err? {
        return Fail(m.error);
      }
      var delta := RelativeChange(m.value, avgLabourProd);
      if delta.Err? {
        return Fail(delta.error);
      }
      deltaProductivity := delta.value;
      avgLabourProd := m.value;
      o := Pass;
    }

    /** Both sectors' competitiveness: the share-weighted sums over the live
        firms, each rounded to two decimals. */
    method UpdateSectorCompetitiveness()
      modifies this
      ensures population == old(population)
      ensures avgCompCompetitiveness == SectorCompetitiveness(population, ConsumptionFirm)
      ensures avgCapCompetitiveness == SectorCompetitiveness(population, CapitalFirm)
      ensures -0.005 <= avgCompCompetitiveness
                        - Total(Group(population, ConsumptionFirm, false), ShareWeightedCompetitiveness) <= 0.005
      ensures -0.005 <= avgCapCompetitiveness
                        - Total(Group(population, CapitalFirm, false), ShareWeightedCompetitiveness) <= 0.005
      ensures State() == old(State()).(avgCompCompetitiveness := avgCompCompetitiveness,
                                       avgCapCompetitiveness := avgCapCompetitiveness)
    {
      avgCompCompetitiveness := SectorCompetitiveness(population, ConsumptionFirm);
      avgCapCompetitiveness := SectorCompetitiveness(population, CapitalFirm);
    }

    /** The expansion and replacement investment of the live consumption
        firms; the investment property then totals their investment. */
    method AggregateInvestment()
      modifies this
      ensures population == old(population)
      ensures expansionInvestment == Total(Group(population, ConsumptionFirm, false), ExpansionInvestment)
      ensures replacementInvestment == Total(Group(population, ConsumptionFirm, false), ReplacementInvestment)
      ensures Investment() == Total(Group(population, ConsumptionFirm, false), FirmInvestment)
      ensures State() == old(State()).(expansionInvestment := expansionInvestment,
                                       replacementInvestment := replacementInvestment)
    {
      var firms := Group(population, ConsumptionFirm, false);
      expansionInvestment := Total(firms, ExpansionInvestment);
      replacementInvestment := Total(firms, ReplacementInvestment);
      InvestmentAddsUp(firms);
    }

    /** The labour supply grows by the growth rate. */
    method UpdateLabourSupply()
      modifies this
      ensures population == old(population)
      ensures labourSupply == GrownLabourSupply(old(labourSupply), params.labourSupplyGrowth)
      ensures old(labourSupply) > 0.0 ==>
                (labourSupply > old(labourSupply) <==> params.labourSupplyGrowth > 0.0)
                && (labourSupply > 0.0 <==> params.labourSupplyGrowth > -1.0)
      ensures State() == old(State()).(labourSupply := labourSupply)
    {
      if labourSupply > 0.0 {
        SupplyFollowsGrowth(labourSupply, params.labourSupplyGrowth);
      }
      labourSupply := GrownLabourSupply(labourSupply, params.labourSupplyGrowth);
    }

    /** Labour demand over every agent of the schedule, bankrupt firms
        included. */
    method AggregateLabourDemand()
      modifies this
      ensures population == old(population)
      ensures labourDemand == Total(population, LabourDemand)
      ensures labourDemand == Total(Group(population, ConsumptionFirm, true), LabourDemand)
                              + Total(Group(population, CapitalFirm, true), LabourDemand)
      ensures State() == old(State()).(labourDemand := labourDemand)
    {
      labourDemand := Total(population, LabourDemand);
      LabourDemandBySector(population);
    }

    /** Employment is the lesser of demand and supply, unemployment the supply
        not employed; the rate divides by the supply, failing on a zero supply
        after employment and unemployment are already set; its change is taken
        against the previous rate before the rate is overwritten. */
    method UpdateEmployment() returns (o: Outcome)
      modifies this
      ensures population == old(population)
      ensures employment == Employed(labourDemand, labourSupply)
      ensures employment <= labourSupply && employment <= labourDemand
      ensures unemployment == labourSupply - employment && unemployment >= 0.0
      ensures o.Pass? <==> labourSupply != 0.0
      ensures o.Fail? ==> o.error == DivisionByZero
                          && State() == old(State()).(employment := employment, unemployment := unemployment)
      ensures o.Pass? ==>
                && unemploymentRate * labourSupply == unemployment
                && (labourSupply > 0.0 && labourDemand >= 0.0 ==> 0.0 <= unemploymentRate <= 1.0)
                && deltaUnemployment == unemploymentRate - old(unemploymentRate)
                && State() == old(State()).(employment := employment, unemployment := unemployment,
                                            unemploymentRate := unemploymentRate,
                                            deltaUnemployment := deltaUnemployment)
    {
      employment := Employed(labourDemand, labourSupply);
      unemployment := Unemployed(labourSupply, employment);
      EmploymentRule(labourDemand, labourSupply);
      var rate := UnemploymentRate(unemployment, labourSupply);
      if rate.Err? {
        return Fail(rate.error);
      }
      var delta := rate.value - unemploymentRate;
      unemploymentRate := rate.value;
      deltaUnemployment := delta;
      o := Pass;
    }

    /** The wage is revised by the weighted index of the three changes. */
    method UpdateMarketWage()
      modifies this
      ensures population == old(population)
      ensures marketWage == RevisedWage(old(marketWage), params.wageSetting, deltaCpi, deltaProductivity,
                                        deltaUnemployment)
      ensures old(marketWage) > 0.0 ==>
                var i := WageIndex(params.wageSetting, deltaCpi, deltaProductivity, deltaUnemployment);
                (marketWage > old(marketWage) <==> i > 0.0) && (marketWage > 0.0 <==> i > -1.0)
      ensures State() == old(State()).(marketWage := marketWage)
    {
      if marketWage > 0.0 {
        WageFollowsIndex(marketWage, params.wageSetting, deltaCpi, deltaProductivity, deltaUnemployment);
      }
      marketWage := RevisedWage(marketWage, params.wageSetting, deltaCpi, deltaProductivity, deltaUnemployment);
    }

    /** Consumption is recomputed from the current scalars. */
    method UpdateConsumption()
      modifies this
      ensures population == old(population)
      ensures consumption == ComputeConsumption()
      ensures params.socialPolicy == WELFARE ==>
                consumption == marketWage * employment + params.wageShare * unemployment
      ensures params.socialPolicy != WELFARE ==>
                consumption == marketWage * employment + params.wageShare * marketWage * labourSupply
      ensures State() == old(State()).(consumption := consumption)
    {
      consumption := ComputeConsumption();
    }

    /** Production of the live consumption firms. */
    method AggregateProduction()
      modifies this
      ensures population == old(population)
      ensures aggProduction == Total(Group(population, ConsumptionFirm, false), Production)
      ensures State() == old(State()).(aggProduction := aggProduction)
    {
      aggProduction := Total(Group(population, ConsumptionFirm, false), Production);
    }

    /** Inventories of the live consumption firms. */
    method AggregateInventories()
      modifies this
      ensures population == old(population)
      ensures aggInventories == Total(Group(population, ConsumptionFirm, false), Inventory)
      ensures State() == old(State()).(aggInventories := aggInventories)
    {
      aggInventories := Total(Group(population, ConsumptionFirm, false), Inventory);
    }

    /** The exit/entry round over the schedule; `draws` are the survivor
        draws in order and the blanks what each agent constructor fills in
        on its own. Only the schedule changes. When a group lacks a donor,
        the schedule is left as the raise leaves it: the first dead firm of
        that group marked, after the whole consumption round when the
        capital group is the one that fails. */
    method ExitAndEntryStage(blankConsumption: Firm, blankCapital: Firm, draws: seq<nat>) returns (o: Outcome)
      modifies this
      ensures State() == old(State())
      ensures o.Pass? <==> Replaceable(old(population), ConsumptionFirm) && Replaceable(old(population), CapitalFirm)
      ensures o.Fail? ==> o.error == NoSurvivors(if Replaceable(old(population), ConsumptionFirm) then CapitalFirm
                                                 else ConsumptionFirm)
      ensures o.Pass? ==> population == ExitResult(old(population), blankConsumption, blankCapital, draws)
      ensures o.Fail? && !Replaceable(old(population), ConsumptionFirm) ==>
                var i := DeadIndices(old(population), ConsumptionFirm)[0];
                population == old(population)[i := Bankrupted(old(population)[i])]
      ensures o.Fail? && Replaceable(old(population), ConsumptionFirm) ==>
                && DeadIndices(old(population), CapitalFirm) != []
                && var i := DeadIndices(old(population), CapitalFirm)[0];
                   var mid := RoundResult(old(population), ConsumptionFirm, blankConsumption, draws, 0);
                   i < |mid| && population == mid[i := Bankrupted(old(population)[i])]
    {
      var res, failed := ExitAndEntry(population, blankConsumption, blankCapital, draws);
      population := res;
      if failed.Some? {
        return Fail(NoSurvivors(failed.value));
      }
      o := Pass;
    }
  }
}
