# A two-sector agent-based economy: the model level

This project models the model level of `complex_economies`, an agent-based
economy with two groups of firms: consumption-good firms and capital-good
firms. Each period, the firms act in stages. Between the stages, the economy object
revises its aggregates:

- the consumer price index (CPI) and the average capital price, with the
  relative change of the CPI;
- the average unit labour cost and the average labour productivity of the
  capital firms' machines, with the relative change of the productivity;
- both sectors' market-share-weighted competitiveness, rounded to two
  decimals;
- the expansion and replacement investment of the consumption firms;
- the labour supply, the labour demand, employment, unemployment and the
  unemployment rate, with the rate's change;
- the market wage, which is revised by a weighted index of three changes;
- consumption, in a welfare mode and in a default mode;
- production and inventories of the consumption firms.

The last stage is the exit/entry round. Each live firm that has no market share
left or has negative liquid assets is marked bankrupt in place. It is never removed.
For each such firm, a fresh firm of the same group is appended. The fresh firm copies a
randomly chosen survivor of that group. The construction of the economy sets
the initial conditions and the equal market shares of each group. It creates
the capital firms first, then the consumption firms, and it can tie the
consumption firms to a fixed supplier.

The model is organised as follows:

- `firms.dfy` (module `Firms`) holds the firm records. It also holds:
  - the group accessor (`Group`);
  - sums and means over a schedule of firms;
  - the largest id;
  - the exit condition and the survivor list.
- `aggregation.dfy` (module `Aggregation`) holds the model level's pure computations:
  - averages and relative changes;
  - half-even rounding to hundredths;
  - the employment rule;
  - wage setting and consumption;
  - GDP.
- `exit_entry.dfy` (module `ExitEntry`) holds the exit/entry round. It is an
  imperative loop per group (`ReplaceGroup`, `ExitAndEntry`). Each loop is
  proved against a closed form of the completed round (`RoundResult`,
  `ExitResult`). That closed form is then proved to keep every old firm, to
  hand out fresh increasing ids, and to leave no live firm that meets the exit
  condition.
- `setup.dfy` (module `Setup`) holds the initial population. It is built by the two
  construction loops and proved equal, firm by firm, to `IsInitial`, whose
  shares sum to one per group.
- `economy.dfy` (module `Model`) holds the economy object as a class,
  `Economy`. It has one field per model-level scalar and the firm schedule.
  Each stage function is a method with `modifies this`. Its `ensures` gives
  the whole new state as `old(State())` with the changed fields, and ties
  those fields to the specification functions above.

Python exceptions are modelled as `Outcome`/`Result` values. Where the
source raises part-way through a method, the model keeps the updates made
before the raise, as the Python object would.

Points where the code behaves in a way a reader might not expect:

- Labour demand is summed over every agent of the schedule, bankrupt
  firms included.
- With no survivor in a group, the round fails only when a dead firm of that
  group needs a donor.
- Market shares are not renormalised after entry. An entrant copies its
  donor's share, so a group's shares may sum to more than one
  (`ExitEntry.SharesNotRenormalised` gives a two-firm schedule where they
  go from one to two).

## Model

| member | source | states |
|---|---|---|
| Firms.Group | complex_economies/model.py:231-237 | the accessor never returns more firms than the schedule |
| Firms.GroupMembers | complex_economies/model.py:231-237 | a firm is in the group exactly when it is in the schedule, has the group, and is live unless bankrupt firms are asked for |
| Firms.GroupAppend | complex_economies/model.py:231-237 | the accessor keeps schedule order: the group of a concatenation is the concatenation of the groups |
| Firms.GroupSingleton | complex_economies/model.py:231-237 | a one-firm schedule yields that firm exactly when it passes the membership test |
| Firms.GroupAll | complex_economies/model.py:231-237 | a schedule of live firms of one group is its own group |
| Firms.GroupNone | complex_economies/model.py:231-237 | a schedule with no firm of a group yields an empty group, bankrupt firms included |
| Firms.TotalAppend | complex_economies/model.py:279-284 | a sum over a concatenation is the sum of the two sums |
| Firms.TotalAdd | complex_economies/model.py:277-284 | the sum of a per-firm total is the sum of the per-firm parts' sums |
| Firms.TotalScale | complex_economies/model.py:244 | scaling every term scales the sum |
| Firms.TotalBounds | complex_economies/model.py:242-243 | n terms in [lo, hi] sum to a value in [n*lo, n*hi] |
| Firms.Mean | complex_economies/model.py:242-243 | the mean fails with a division by zero exactly on an empty list; otherwise mean times count equals the sum |
| Firms.MeanBetween | complex_economies/model.py:242-243 | the mean lies between any bounds of its terms |
| Firms.MaxIdIsMax | complex_economies/model.py:356 | the largest id bounds every id in the schedule and is one of them |
| Firms.MaxIdSameIds | complex_economies/model.py:356 | schedules with the same ids position by position have the same largest id |
| Firms.MaxIdAppendLarger | complex_economies/model.py:356 | appending a firm with a larger id makes its id the largest |
| Firms.MaxIdOfIncreasing | complex_economies/model.py:356 | with ids increasing in schedule order, the largest id is the last firm's |
| Firms.DeadIndices | complex_economies/model.py:344-348 | every listed position is inside the schedule, and there are no more positions than firms |
| Firms.DeadIndicesSpec | complex_economies/model.py:344-348 | the positions are exactly those of the live firms of the group that meet the exit condition, in increasing order |
| Firms.Survivors | complex_economies/model.py:350-352 | the survivor list is no longer than the schedule |
| Firms.SurvivorsMembers | complex_economies/model.py:344-352 | a firm survives exactly when it is a live firm of the group that does not meet the exit condition |
| Aggregation.AveragePrice | complex_economies/model.py:239-244 | the plain average fails exactly on an empty live group, and average times count equals the price sum; the weighted form always succeeds |
| Aggregation.AveragePriceBetween | complex_economies/model.py:239-243 | the plain average price lies between any bounds on the live firms' prices |
| Aggregation.EqualSharesWeightedIsPlain | complex_economies/model.py:239-244 | when every live firm holds the share 1/n, the weighted and plain averages agree |
| Aggregation.EqualSharesMean | complex_economies/model.py:242-244 | with shares 1/n, the share-weighted price sum is the mean price |
| Aggregation.EqualSharesScale | complex_economies/model.py:244 | with equal shares c, the weighted price sum is c times the price sum |
| Aggregation.RelativeChange | complex_economies/model.py:248 | (now - prev) / prev fails exactly when prev is zero; otherwise prev * (1 + change) == now |
| Aggregation.RoundedCents | complex_economies/model.py:271 | the result is within half a hundredth of 100x, and on a tie it is even |
| Aggregation.RoundedCentsNearest | complex_economies/model.py:271 | no whole number of hundredths is nearer than the rounded one |
| Aggregation.RoundedCentsUnique | complex_economies/model.py:271 | the two rounding properties determine the rounded value |
| Aggregation.Round2 | complex_economies/model.py:271 | round(x, 2) is a whole number of hundredths within 0.005 of x |
| Aggregation.SectorCompetitiveness | complex_economies/model.py:266-271 | the competitiveness is a whole number of hundredths within 0.005 of the share-weighted competitiveness sum over live firms |
| Aggregation.InvestmentAddsUp | complex_economies/model.py:218-220 | expansion plus replacement totals equal the firms' total investment |
| Aggregation.LabourDemandBySector | complex_economies/model.py:291-294 | labour demand over the whole schedule splits into the two groups' demand, bankrupt firms included |
| Aggregation.CapitalLabourDemandAppend | complex_economies/model.py:226-229 | capital labour demand is additive over a split of the schedule |
| Aggregation.CapitalLabourDemandWithinTotal | complex_economies/model.py:226-229 | with no negative labour demand, capital labour demand is non-negative and at most the labour demand of the whole schedule |
| Aggregation.MaxCapitalLabourWithinSupply | complex_economies/model.py:176-178 | with the share n_capital / (n_consumption + n_capital), the capital labour cap lies between zero and the labour supply |
| Aggregation.SupplyFollowsGrowth | complex_economies/model.py:286-289 | a positive supply grows exactly when the growth rate is positive and stays positive exactly while the rate exceeds -1 |
| Aggregation.Employed | complex_economies/model.py:297 | employment is at most demand and at most supply, and is one of them |
| Aggregation.Unemployed | complex_economies/model.py:298 | unemployment is non-negative, at least supply minus employment, and one of the two |
| Aggregation.UnemploymentRate | complex_economies/model.py:299 | the rate fails exactly on a zero supply; otherwise rate times supply equals unemployment |
| Aggregation.EmploymentRule | complex_economies/model.py:296-299 | after the rule, unemployment is exactly supply minus employment; with a positive supply and non-negative demand the rate lies in [0, 1] |
| Aggregation.WageFollowsIndex | complex_economies/model.py:304-314 | a positive wage rises, stays or falls exactly as the index is positive, zero or negative, and stays positive exactly while the index exceeds -1 |
| Aggregation.ConsumptionAfterEmployment | complex_economies/model.py:316-324 | welfare mode: the wage bill plus the wage share of unemployment; otherwise: the wage bill plus the wage share of the whole supply at the wage; at full employment the welfare mode spends the supply's wage bill |
| Aggregation.GdpAppend | complex_economies/model.py:15-21 | GDP is additive over a split of the schedule and does not depend on the order of the parts |
| ExitEntry.Pick | complex_economies/model.py:355 | the chosen donor is one of the survivors |
| ExitEntry.Marked | complex_economies/model.py:353-354 | marking keeps the schedule's length |
| ExitEntry.MarkedAt | complex_economies/model.py:353-354 | a firm is marked bankrupt exactly when it was a live dead firm of the group; others are unchanged |
| ExitEntry.MarkedAppend | complex_economies/model.py:353-354 | marking works firm by firm over a concatenation |
| ExitEntry.MarkedOtherGroup | complex_economies/model.py:353-354 | marking a group leaves a schedule with no firm of that group unchanged |
| ExitEntry.MarkAllDead | complex_economies/model.py:353-354 | marking the listed dead positions one at a time is the same as marking every dead firm |
| ExitEntry.MarkAllStep | complex_economies/model.py:353-354 | each loop step extends the marked prefix by one position |
| ExitEntry.NextIdBounds | complex_economies/model.py:356 | the next id exceeds every id present, and is exactly one past the largest |
| ExitEntry.MarkAllNextId | complex_economies/model.py:353-356 | marking keeps every id, and so keeps the next id |
| ExitEntry.MarkedNextId | complex_economies/model.py:353-356 | marking a group keeps the next id |
| ExitEntry.Entrants | complex_economies/model.py:353-371 | one entrant per dead firm |
| ExitEntry.EntrantsAt | complex_economies/model.py:355-371 | the k-th entrant has id firstId + k and copies the survivor picked by draw drawStart + k |
| ExitEntry.EntrantsIdsAndGroup | complex_economies/model.py:356-367 | entrants are live firms of the group with ids counting up from the first id |
| ExitEntry.MaxIdAppendCounting | complex_economies/model.py:356 | appending firms numbered one past the largest id raises the largest id by their number |
| ExitEntry.NextIdWithEntrants | complex_economies/model.py:356 | after k entrants the next id has advanced by k |
| ExitEntry.RoundStep | complex_economies/model.py:353-371 | one loop pass (mark the k-th dead firm, append a copy with id max + 1) turns the state after k dead firms into the state after k + 1 |
| ExitEntry.MarkStep | complex_economies/model.py:353-354 | marking the k-th dead position extends the marked prefix |
| ExitEntry.IdStep | complex_economies/model.py:356 | after k entrants the largest id is the original next id plus k, less one |
| ExitEntry.ProgressStart | complex_economies/model.py:344-353 | before the loop the schedule is unchanged |
| ExitEntry.RoundComplete | complex_economies/model.py:353-371 | once every dead firm is handled, the loop state is the completed round |
| ExitEntry.HandleDead | complex_economies/model.py:353-371 | one pass succeeds exactly when the group has survivors, and then yields the next loop state; a failing first pass leaves that dead firm marked |
| ExitEntry.ReplaceGroup | complex_economies/model.py:342-371 | a group's round succeeds exactly when every dead firm can find a survivor, and then equals the closed form; otherwise only the first dead firm is marked before the raise |
| ExitEntry.AgreeOnSameQueries | complex_economies/model.py:344-352 | schedules that agree on a group's firms give the same dead positions, group and survivors for it |
| ExitEntry.AgreeOnDeadIndices | complex_economies/model.py:344-348 | agreeing schedules have the same dead positions |
| ExitEntry.AgreeOnGroup | complex_economies/model.py:231-237 | agreeing schedules have the same live group |
| ExitEntry.AgreeOnSurvivors | complex_economies/model.py:350-352 | agreeing schedules have the same survivors |
| ExitEntry.RoundKeepsOtherGroup | complex_economies/model.py:342-371 | a round over one group leaves the other group's firms where and as they were |
| ExitEntry.AgreeOnAppend | complex_economies/model.py:371 | appending firms of another group keeps agreement on a group |
| ExitEntry.AfterConsumptionRound | complex_economies/model.py:342-371 | the consumption round advances the next id by its dead count and hands the capital round the marked schedule plus the consumption entrants |
| ExitEntry.ExitAndEntry | complex_economies/model.py:341-371 | the round fails exactly when a group with dead firms has no survivor, consumption first; on success it equals ExitResult; on failure it states exactly which firm is marked |
| ExitEntry.ExitResultOld | complex_economies/model.py:353-354 | an old firm after the round is marked when dead and is otherwise unchanged |
| ExitEntry.ExitResultConsumptionEntrant | complex_economies/model.py:355-367 | each consumption entrant copies the survivor of its draw and takes the next id in order |
| ExitEntry.ExitResultCapitalEntrant | complex_economies/model.py:355-370 | each capital entrant copies the survivor of its draw, with ids and draws numbered after the consumption entrants |
| ExitEntry.ExitKeepsEveryFirm | complex_economies/model.py:341-371 | no firm is removed and the schedule grows by the number of dead firms; an old firm is bankrupt afterwards exactly when it was bankrupt or met the exit condition, and nothing else about it changes |
| ExitEntry.ExitResultIds | complex_economies/model.py:356 | old ids are kept, and entrants count up from one past the largest old id |
| ExitEntry.EntrantIdsFresh | complex_economies/model.py:356 | every entrant's id exceeds every id before it in the schedule |
| ExitEntry.ExitKeepsIncreasingIds | complex_economies/model.py:356 | ids increasing along the schedule stay increasing |
| ExitEntry.EntrantCopiesSurvivor | complex_economies/model.py:355-370 | each entrant is live and copies the liquid assets, share and capital stock or machine of a survivor of its own group |
| ExitEntry.CopyOfSurvivorNotDead | complex_economies/model.py:345-352 | a copy of a survivor does not meet the exit condition |
| ExitEntry.ExitLeavesNoDeadFirm | complex_economies/model.py:341-371 | after a completed round no live firm meets the exit condition |
| ExitEntry.SharesNotRenormalised | complex_economies/model.py:341-371 | with one share-less firm and one holding the whole share, the group's live shares sum to one before the round and to two after it |
| ExitEntry.WitnessQueries | complex_economies/model.py:344-352 | in that two-firm schedule the first firm is the only dead one and the second the only survivor |
| ExitEntry.LiveSharesOfTwo | complex_economies/model.py:231-237 | the live shares of two live consumption firms sum to their two shares |
| ExitEntry.LiveSharesOfThree | complex_economies/model.py:231-237 | a bankrupt first firm is left out of the live shares |
| Setup.InitialPopulation | complex_economies/model.py:179-200 | fails with a division by zero exactly when a group has no firms; otherwise builds exactly the initial schedule |
| Setup.SupplierAdvancesEveryFourth | complex_economies/model.py:189-195 | the fixed supplier starts at 0 and advances by one exactly at every fourth consumption firm |
| Setup.InitialLayout | complex_economies/model.py:184-200 | ids are 0, 1, 2, ... in order; capital firms come first; no firm starts bankrupt; each firm holds its group's equal share |
| Setup.InitialSuppliers | complex_economies/model.py:189-199 | the i-th consumption firm's supplier is i / 4 with fixed suppliers, otherwise none |
| Setup.EqualSharesTotal | complex_economies/model.py:179 | n equal shares sum to n times the share |
| Setup.SplitGroups | complex_economies/model.py:184-200 | with capital firms first, the capital group is the first n_capital firms and the consumption group the rest |
| Setup.InitialSharesSumToOne | complex_economies/model.py:179-200 | each group's initial shares sum to one |
| Model.Economy.constructor | complex_economies/model.py:169-182 | the initial conditions, the capital labour share, full employment, consumption at zero unemployment, a zero unemployment rate and every other scalar zero |
| Model.Economy.Create | complex_economies/model.py:169-200 | construction fails with a division by zero exactly when a group is empty or the labour supply is zero; otherwise the parameters, the capital labour share (n_capital / (n_consumption + n_capital)) and every scalar are as the constructor sets them (the given wage, CPI, productivity and supply; employment equal to the supply; consumption at zero unemployment; a zero rate; every other scalar zero), the schedule is the initial one, and both groups' shares sum to one |
| Model.Economy.UpdateAveragePrices | complex_economies/model.py:246-250 | the CPI and its change are set only when the consumption mean and the change succeed, and the change reproduces the new CPI from the old; the capital mean fails after the CPI update; nothing else changes |
| Model.Economy.UpdateAvgUlc | complex_economies/model.py:252-255 | the average unit labour cost is the live capital firms' mean, failing with no change on an empty group |
| Model.Economy.UpdateAverageLabourProductivity | complex_economies/model.py:257-264 | the average productivity and its relative change are set together, or nothing changes on an empty group or zero previous average |
| Model.Economy.UpdateSectorCompetitiveness | complex_economies/model.py:273-275 | both sectors' competitiveness lie within 0.005 of their share-weighted sums; nothing else changes |
| Model.Economy.AggregateInvestment | complex_economies/model.py:277-284 | expansion and replacement investment are the live consumption firms' totals, and investment is their total investment |
| Model.Economy.UpdateLabourSupply | complex_economies/model.py:286-289 | the supply grows by the growth rate, and a positive supply rises exactly when the rate is positive |
| Model.Economy.AggregateLabourDemand | complex_economies/model.py:291-294 | labour demand is the sum over every agent, equal to both groups' demand with bankrupt firms included |
| Model.Economy.UpdateEmployment | complex_economies/model.py:296-302 | employment is at most demand and supply; unemployment is the non-negative rest; a zero supply fails after these are set; otherwise the rate times supply is unemployment and its change is against the old rate |
| Model.Economy.UpdateMarketWage | complex_economies/model.py:304-314 | the wage is revised by the index, and a positive wage moves in the direction of the index |
| Model.Economy.UpdateConsumption | complex_economies/model.py:316-327 | consumption follows the formula of the social-policy mode |
| Model.Economy.AggregateProduction | complex_economies/model.py:329-333 | production is the live consumption firms' total |
| Model.Economy.AggregateInventories | complex_economies/model.py:335-339 | inventories are the live consumption firms' total |
| Model.Economy.ExitAndEntryStage | complex_economies/model.py:341-371 | only the schedule changes; it becomes the completed round, or the stage fails with NoSurvivors for the group that lacks a donor, leaving that group's first dead firm marked (after the whole consumption round when the capital group fails) |

## Left out

- Decimal arithmetic is modelled as exact real arithmetic. The model does not capture rounding in intermediate Decimal operations; round(x, 2) is modelled exactly, with half-even ties.
- The firms' own behaviour (`agents.py`: prices, demand, production, investment, machines) is not part of this model. The figures the model level reads are fields of `Books` and `Machine`, and the unit labour cost a machine reports is one of those fields.
- What an agent constructor initialises on its own (`blankCapital`, `blankConsumption`) is an input. One blank per group stands for every firm the constructors build, at construction and at entry: the model assumes the constructor fills the same values for every firm of a group, although the source's constructors receive the model and could read it or the random generator.
- The grouped scheduler and the order of the stages are not part of this model. Each stage function is a method, called by whoever drives the period.
- The data collector and the logging have no effect on the modelled state and are left out.
- The random choice of a donor is replaced by a stream of draws passed as an input. The k-th replacement copies survivor `draws[k] mod n`, and a missing draw counts as zero. The seed is left out.
- Of the parameter dictionary, only the entries the model level reads are modelled (`Parameters`, `Founding`).
- `distribute_leftover_machines` does nothing in the source and is left out.
- Parameter counts are natural numbers. The source's `int(...)` conversion of the firm counts is not modelled.
- Model.Economy.ComputeConsumption, Model.Economy.Investment, Model.Economy.MaxCapitalLabourCap, Model.Economy.CapitalLabourDemandNow and Model.Economy.GdpNow read the current state through the functions above and carry no contract of their own. Their properties are stated by `ConsumptionAfterEmployment` and `UpdateConsumption`, `InvestmentAddsUp` and `AggregateInvestment`, `MaxCapitalLabourWithinSupply`, `CapitalLabourDemandAppend` and `CapitalLabourDemandWithinTotal`, and `GdpAppend`.
- Several functions that compute a source expression directly carry no contract of their own; the lemmas named here state their properties:
  - `Aggregation.Gdp` (model.py:15-21): `GdpAppend`.
  - `Aggregation.Consumption` (model.py:316-324): `ConsumptionAfterEmployment`.
  - `Aggregation.RevisedWage` and `Aggregation.WageIndex` (model.py:304-314): `WageFollowsIndex`.
  - `Aggregation.GrownLabourSupply` (model.py:286-289): `SupplyFollowsGrowth`.
  - `Aggregation.MaxCapitalLabour` (model.py:222-224): `MaxCapitalLabourWithinSupply`.
  - `Aggregation.CapitalLabourDemand` (model.py:226-229): `CapitalLabourDemandAppend` and `CapitalLabourDemandWithinTotal`.
  - `Firms.MaxId` (model.py:356): `MaxIdIsMax`.
  - `ExitEntry.NextId` (model.py:356): `NextIdBounds`.
  - `Firms.Entrant` (model.py:357-370): `EntrantsAt`, `EntrantCopiesSurvivor` and `CopiesSurvivor`.
