/** The initial population the economy starts from: the capital firms first,
    then the consumption firms, ids counting up from zero, every firm holding
    the equal share of its group, and consumption firms optionally tied to a
    fixed supplier that advances every fourth firm. */
module Setup {
  import opened Firms

  /** The population-related initial conditions. */
  datatype Founding = Founding(
    nConsumption: nat,
    nCapital: nat,
    liquidAssets: real,
    capitalStock: real,
    fixSupplier: bool)

  /** The supplier the i-th consumption firm is created with: with fixed
      suppliers, capital firm i / 4, so the supplier advances at every fourth
      firm; otherwise none. */
  function SupplierOf(i: nat, fixSupplier: bool): Option<nat>
  {
    if fixSupplier then Some(i / 4) else None
  }

  /** The k-th firm of the initial schedule, given the two equal shares. */
  function InitialFirm(c: Founding, blankCapital: Firm, blankConsumption: Firm,
                       shareConsumption: real, shareCapital: real, k: nat): Firm
  {
    if k < c.nCapital then
      NewFirm(blankCapital, k, CapitalFirm, c.liquidAssets, shareCapital)
    else
      NewFirm(blankConsumption, k, ConsumptionFirm, c.liquidAssets, shareConsumption)
        .(capitalStock := c.capitalStock, supplier := SupplierOf(k - c.nCapital, c.fixSupplier))
  }

  /** Whether `pop` is the initial schedule for `c`, firm by firm. */
  predicate IsInitial(pop: seq<Firm>, c: Founding, blankCapital: Firm, blankConsumption: Firm)
    requires c.nConsumption > 0 && c.nCapital > 0
  {
    && |pop| == c.nCapital + c.nConsumption
    && forall k :: 0 <= k < |pop| ==>
         pop[k] == InitialFirm(c, blankCapital, blankConsumption,
                               1.0 / c.nConsumption as real, 1.0 / c.nCapital as real, k)
  }

  /** Builds the initial schedule the way the constructor does: the equal
      shares (a division that fails on an empty group), the capital firms,
      then the consumption firms with the supplier counter. */
  method InitialPopulation(c: Founding, blankCapital: Firm, blankConsumption: Firm)
    returns (r: Result<seq<Firm>>)
    ensures r.Err? <==> c.nConsumption == 0 || c.nCapital == 0
    ensures r.Err? ==> r.error == DivisionByZero
    ensures r.Ok? ==> IsInitial(r.value, c, blankCapital, blankConsumption)
  {
    if c.nConsumption == 0 || c.nCapital == 0 {
      return Err(DivisionByZero);
    }
    var shareConsumption := 1.0 / c.nConsumption as real;
    var shareCapital := 1.0 / c.nCapital as real;
    var pop: seq<Firm> := [];
    var i := 0;
    while i < c.nCapital
      invariant i <= c.nCapital && |pop| == i
      invariant forall k :: 0 <= k < i ==>
                  pop[k] == InitialFirm(c, blankCapital, blankConsumption, shareConsumption, shareCapital, k)
    {
      pop := pop + [NewFirm(blankCapital, i, CapitalFirm, c.liquidAssets, shareCapital)];
      i := i + 1;
    }
    var supplier: nat := 0;
    var supplierOf: Option<nat> := None;
    i := 0;
    while i < c.nConsumption
      invariant i <= c.nConsumption && |pop| == c.nCapital + i
      invariant c.fixSupplier ==> supplier == (if i == 0 then 0 else (i - 1) / 4)
      invariant forall k :: 0 <= k < |pop| ==>
                  pop[k] == InitialFirm(c, blankCapital, blankConsumption, shareConsumption, shareCapital, k)
    {
      if c.fixSupplier {
        if i % 4 == 0 && i != 0 {
          supplier := supplier + 1;
        }
        supplierOf := Some(supplier);
      } else {
        supplierOf := None;
      }
      var f := NewFirm(blankConsumption, c.nCapital + i, ConsumptionFirm, c.liquidAssets, shareConsumption)
                 .(capitalStock := c.capitalStock, supplier := supplierOf);
      pop := pop + [f];
      i := i + 1;
    }
    return Ok(pop);
  }

  /** The fixed supplier starts at capital firm 0 and moves on by one exactly
      at every fourth consumption firm. */
  lemma SupplierAdvancesEveryFourth(i: nat)
    ensures SupplierOf(0, true) == Some(0)
    ensures SupplierOf(i + 1, true).value
         == if (i + 1) % 4 == 0 then SupplierOf(i, true).value + 1 else SupplierOf(i, true).value
  {
  }

  /** Ids run 0, 1, 2, ... in schedule order; the capital firms come first;
      no firm starts bankrupt; every firm holds the equal share of its group. */
  lemma InitialLayout(pop: seq<Firm>, c: Founding, blankCapital: Firm, blankConsumption: Firm)
    requires c.nConsumption > 0 && c.nCapital > 0
    requires IsInitial(pop, c, blankCapital, blankConsumption)
    ensures forall k :: 0 <= k < |pop| ==> pop[k].id == k && !pop[k].bankrupt
    ensures forall k :: 0 <= k < |pop| ==> (pop[k].group == CapitalFirm <==> k < c.nCapital)
    ensures forall k :: 0 <= k < |pop| ==>
              pop[k].marketShare == if k < c.nCapital then 1.0 / c.nCapital as real else 1.0 / c.nConsumption as real
    ensures StrictlyIncreasingIds(pop)
  {
  }

  /** The fixed supplier of the i-th consumption firm is capital firm i / 4. */
  lemma InitialSuppliers(pop: seq<Firm>, c: Founding, blankCapital: Firm, blankConsumption: Firm)
    requires c.nConsumption > 0 && c.nCapital > 0
    requires IsInitial(pop, c, blankCapital, blankConsumption)
    ensures forall i :: 0 <= i < c.nConsumption ==>
              pop[c.nCapital + i].supplier == if c.fixSupplier then Some(i / 4) else None
  {
    forall i | 0 <= i < c.nConsumption
      ensures pop[c.nCapital + i].supplier == if c.fixSupplier then Some(i / 4) else None
    {
      assert c.nCapital + i - c.nCapital == i;
    }
  }

  /** Every live firm of a group holds the same share and the group has n
      firms: the shares sum to n times that share. */
  lemma {:induction false} EqualSharesTotal(s: seq<Firm>, share: real)
    requires forall k :: 0 <= k < |s| ==> s[k].marketShare == share
    ensures Total(s, Share) == |s| as real * share
    decreases |s|
  {
    if s != [] {
      EqualSharesTotal(s[..|s| - 1], share);
    }
  }

  /** A schedule of live firms, capital firms first: the capital group is the
      first nCapital firms, the consumption group the rest. */
  lemma SplitGroups(pop: seq<Firm>, nCapital: nat)
    requires nCapital <= |pop|
    requires forall k :: 0 <= k < |pop| ==> !pop[k].bankrupt && (pop[k].group == CapitalFirm <==> k < nCapital)
    ensures Group(pop, CapitalFirm, false) == pop[..nCapital]
    ensures Group(pop, ConsumptionFirm, false) == pop[nCapital..]
  {
    var capital := pop[..nCapital];
    var consumption := pop[nCapital..];
    assert pop == capital + consumption;
    GroupAppend(capital, consumption, CapitalFirm, false);
    GroupAppend(capital, consumption, ConsumptionFirm, false);
    AllOfGroup(capital, CapitalFirm, ConsumptionFirm);
    AllOfGroup(consumption, ConsumptionFirm, CapitalFirm);
  }

  /** A schedule of live firms of `g` alone is its own group `g` and has no
      firm of the other group `h`. */
  lemma AllOfGroup(s: seq<Firm>, g: Sector, h: Sector)
    requires g != h
    requires forall k :: 0 <= k < |s| ==> s[k].group == g && !s[k].bankrupt
    ensures Group(s, g, false) == s && Group(s, h, false) == []
  {
    GroupAll(s, g);
    GroupNone(s, h, false);
  }

  /** n firms each holding 1/n hold one in total. */
  lemma SharesOfOne(s: seq<Firm>, n: nat)
    requires n > 0 && |s| == n
    requires forall k :: 0 <= k < |s| ==> s[k].marketShare == 1.0 / n as real
    ensures Total(s, Share) == 1.0
  {
    EqualSharesTotal(s, 1.0 / n as real);
    UnitShares(n);
  }

  /** The initial shares of each group sum to one. */
  lemma InitialSharesSumToOne(pop: seq<Firm>, c: Founding, blankCapital: Firm, blankConsumption: Firm)
    requires c.nConsumption > 0 && c.nCapital > 0
    requires IsInitial(pop, c, blankCapital, blankConsumption)
    ensures Total(Group(pop, CapitalFirm, false), Share) == 1.0
    ensures Total(Group(pop, ConsumptionFirm, false), Share) == 1.0
  {
    InitialLayout(pop, c, blankCapital, blankConsumption);
    SplitGroups(pop, c.nCapital);
    SharesOfOne(pop[..c.nCapital], c.nCapital);
    SharesOfOne(pop[c.nCapital..], c.nConsumption);
  }

  lemma UnitShares(n: nat)
    requires n > 0
    ensures n as real * (1.0 / n as real) == 1.0
  {
  }
}
