/** The firm population of the economy: firm records, the group accessor,
    sums and means over a group, and the queries the exit/entry round uses. */
module Firms {

  datatype Option<T> = None | Some(value: T)

  /** Division errors (an empty group's mean, a zero previous value) and
      an empty survivor list at replacement time. */
  datatype Error = DivisionByZero | NoSurvivors(group: Sector)

  datatype Result<T> = Ok(value: T) | Err(error: Error)

  datatype Outcome = Pass | Fail(error: Error)

  /** The two named groups of the schedule. */
  datatype Sector = ConsumptionFirm | CapitalFirm

  /** The machine a capital firm sells; the unit labour cost is what the
      machine reports for the current period. */
  datatype Machine = Machine(labourProductivity: real, price: real, unitLabourCost: real)

  /** The per-period figures a firm's own step computes; the model level
      only reads them. */
  datatype Books = Books(
    price: real,
    competitiveness: real,
    labourDemand: real,
    expansionInvestment: real,
    replacementInvestment: real,
    production: real,
    inventory: real,
    sales: real,
    output: real)

  /** The firm fields the model level reads or writes. */
  datatype Firm = Firm(
    id: int,
    group: Sector,
    bankrupt: bool,
    marketShare: real,
    liquidAssets: real,
    capitalStock: real,
    supplier: Option<nat>,
    machine: Machine,
    books: Books)

  /** A freshly constructed firm: `blank` holds whatever the agent constructor
      initialises on its own; the model supplies id, group, assets and share. */
  function NewFirm(blank: Firm, id: int, g: Sector, assets: real, share: real): (f: Firm)
  {
    blank.(id := id, group := g, bankrupt := false, liquidAssets := assets, marketShare := share)
  }

  /** Whether the group accessor keeps `f`: a firm of `g`, and live unless
      `includeBankrupt` is set. */
  predicate Member(f: Firm, g: Sector, includeBankrupt: bool)
  {
    f.group == g && (includeBankrupt || !f.bankrupt)
  }

  /** The group accessor: the firms of group `g` in schedule order, bankrupt
      ones dropped unless `includeBankrupt` is set. */
  function Group(pop: seq<Firm>, g: Sector, includeBankrupt: bool): (r: seq<Firm>)
    ensures |r| <= |pop|
  {
    if pop == [] then []
    else
      var rest := Group(pop[..|pop| - 1], g, includeBankrupt);
      if Member(pop[|pop| - 1], g, includeBankrupt) then rest + [pop[|pop| - 1]] else rest
  }

  /** The group holds exactly the firms of `g`, live ones only unless
      `includeBankrupt` is set. */
  lemma {:induction false} GroupMembers(pop: seq<Firm>, g: Sector, includeBankrupt: bool)
    ensures forall f :: f in Group(pop, g, includeBankrupt) <==>
                        f in pop && f.group == g && (includeBankrupt || !f.bankrupt)
    decreases |pop|
  {
    if pop != [] {
      var p' := pop[..|pop| - 1];
      assert pop == p' + [pop[|pop| - 1]];
      GroupMembers(p', g, includeBankrupt);
    }
  }

  /** The accessor keeps schedule order: the group of a concatenation is the
      concatenation of the groups. */
  lemma {:induction false} GroupAppend(a: seq<Firm>, b: seq<Firm>, g: Sector, includeBankrupt: bool)
    ensures Group(a + b, g, includeBankrupt) == Group(a, g, includeBankrupt) + Group(b, g, includeBankrupt)
    decreases |b|
  {
    if b == [] {
      assert a + b == a;
    } else {
      var b' := b[..|b| - 1];
      assert (a + b)[..|a + b| - 1] == a + b';
      assert (a + b)[|a + b| - 1] == b[|b| - 1];
      GroupAppend(a, b', g, includeBankrupt);
    }
  }

  /** A one-firm schedule yields that firm exactly when it belongs to the group. */
  lemma GroupSingleton(f: Firm, g: Sector, includeBankrupt: bool)
    ensures Group([f], g, includeBankrupt)
         == if f.group == g && (includeBankrupt || !f.bankrupt) then [f] else []
  {
    assert [f][..0] == [];
  }

  /** Every firm of `s` is a live firm of `g`: the live group is all of `s`. */
  lemma {:induction false} GroupAll(s: seq<Firm>, g: Sector)
    requires forall i :: 0 <= i < |s| ==> s[i].group == g && !s[i].bankrupt
    ensures Group(s, g, false) == s
    decreases |s|
  {
    if s != [] {
      var s' := s[..|s| - 1];
      assert s == s' + [s[|s| - 1]];
      GroupAll(s', g);
      GroupAppend(s', [s[|s| - 1]], g, false);
      GroupSingleton(s[|s| - 1], g, false);
    }
  }

  /** No firm of `s` belongs to `g`: its group is empty, bankrupt ones included. */
  lemma {:induction false} GroupNone(s: seq<Firm>, g: Sector, includeBankrupt: bool)
    requires forall i :: 0 <= i < |s| ==> s[i].group != g
    ensures Group(s, g, includeBankrupt) == []
    decreases |s|
  {
    if s != [] {
      var s' := s[..|s| - 1];
      assert s == s' + [s[|s| - 1]];
      GroupNone(s', g, includeBankrupt);
      GroupAppend(s', [s[|s| - 1]], g, includeBankrupt);
      GroupSingleton(s[|s| - 1], g, includeBankrupt);
    }
  }

  /** A firm's market share. */
  function Share(f: Firm): real { f.marketShare }

  /** The sum of a per-firm quantity over the firms, in order. */
  function Total(fs: seq<Firm>, v: Firm -> real): real
  {
    if fs == [] then 0.0 else Total(fs[..|fs| - 1], v) + v(fs[|fs| - 1])
  }

  lemma {:induction false} TotalAppend(a: seq<Firm>, b: seq<Firm>, v: Firm -> real)
    ensures Total(a + b, v) == Total(a, v) + Total(b, v)
    decreases |b|
  {
    if b == [] {
      assert a + b == a;
    } else {
      var b' := b[..|b| - 1];
      assert (a + b)[..|a + b| - 1] == a + b';
      assert (a + b)[|a + b| - 1] == b[|b| - 1];
      TotalAppend(a, b', v);
    }
  }

  /** A sum of two per-firm quantities is the sum of the two sums. */
  lemma {:induction false} TotalAdd(fs: seq<Firm>, u: Firm -> real, v: Firm -> real, w: Firm -> real)
    requires forall f :: f in fs ==> w(f) == u(f) + v(f)
    ensures Total(fs, w) == Total(fs, u) + Total(fs, v)
    decreases |fs|
  {
    if fs != [] {
      TotalAdd(fs[..|fs| - 1], u, v, w);
    }
  }

  /** Scaling every term by `c` scales the sum by `c`. */
  lemma {:induction false} TotalScale(fs: seq<Firm>, u: Firm -> real, w: Firm -> real, c: real)
    requires forall f :: f in fs ==> w(f) == c * u(f)
    ensures Total(fs, w) == c * Total(fs, u)
    decreases |fs|
  {
    if fs != [] {
      TotalScale(fs[..|fs| - 1], u, w, c);
    }
  }

  /** A sum of terms all lying in [lo, hi] lies in [n*lo, n*hi]. */
  lemma {:induction false} TotalBounds(fs: seq<Firm>, v: Firm -> real, lo: real, hi: real)
    requires forall f :: f in fs ==> lo <= v(f) <= hi
    ensures |fs| as real * lo <= Total(fs, v) <= |fs| as real * hi
    decreases |fs|
  {
    if fs != [] {
      TotalBounds(fs[..|fs| - 1], v, lo, hi);
    }
  }

  /** The mean of a per-firm quantity, which fails on an empty list. */
  function Mean(fs: seq<Firm>, v: Firm -> real): (r: Result<real>)
    ensures r.Ok? <==> |fs| > 0
    ensures r.Err? ==> r.error == DivisionByZero
    ensures r.Ok? ==> r.value * |fs| as real == Total(fs, v)
  {
    if |fs| == 0 then Err(DivisionByZero) else Ok(Total(fs, v) / |fs| as real)
  }

  /** The mean lies between any lower and upper bound of its terms. */
  lemma MeanBetween(fs: seq<Firm>, v: Firm -> real, lo: real, hi: real)
    requires |fs| > 0
    requires forall f :: f in fs ==> lo <= v(f) <= hi
    ensures lo <= Mean(fs, v).value <= hi
  {
    TotalBounds(fs, v, lo, hi);
    var n := |fs| as real;
    var m := Mean(fs, v).value;
    assert m * n == Total(fs, v);
  }

  /** The largest id present in the schedule. */
  function MaxId(pop: seq<Firm>): int
    requires |pop| > 0
  {
    if |pop| == 1 then pop[0].id
    else
      var m0 := MaxId(pop[..|pop| - 1]);
      if pop[|pop| - 1].id > m0 then pop[|pop| - 1].id else m0
  }

  /** MaxId bounds every id and is one of them. */
  lemma {:induction false} MaxIdIsMax(pop: seq<Firm>)
    requires |pop| > 0
    ensures forall i :: 0 <= i < |pop| ==> pop[i].id <= MaxId(pop)
    ensures exists i :: 0 <= i < |pop| && pop[i].id == MaxId(pop)
    decreases |pop|
  {
    if |pop| > 1 {
      var p' := pop[..|pop| - 1];
      MaxIdIsMax(p');
      var i :| 0 <= i < |p'| && p'[i].id == MaxId(p');
      forall j | 0 <= j < |pop| ensures pop[j].id <= MaxId(pop) {
        if j < |p'| {
          assert pop[j] == p'[j];
        }
      }
      if pop[|pop| - 1].id <= MaxId(p') {
        assert pop[i] == p'[i];
      } else {
        assert pop[|pop| - 1].id == MaxId(pop);
      }
    } else {
      assert pop[0].id == MaxId(pop);
    }
  }

  /** Two schedules with the same ids position by position have the same largest id. */
  lemma MaxIdSameIds(a: seq<Firm>, b: seq<Firm>)
    requires |a| == |b| > 0
    requires forall i :: 0 <= i < |a| ==> a[i].id == b[i].id
    ensures MaxId(a) == MaxId(b)
  {
    MaxIdIsMax(a);
    MaxIdIsMax(b);
    var i :| 0 <= i < |a| && a[i].id == MaxId(a);
    var j :| 0 <= j < |b| && b[j].id == MaxId(b);
    assert a[j].id <= MaxId(a);
    assert b[i].id <= MaxId(b);
  }

  /** Appending a firm with a larger id makes that id the largest. */
  lemma MaxIdAppendLarger(pop: seq<Firm>, f: Firm)
    requires |pop| > 0 && f.id > MaxId(pop)
    ensures MaxId(pop + [f]) == f.id
  {
    var s := pop + [f];
    assert s[..|s| - 1] == pop;
  }

  predicate StrictlyIncreasingIds(pop: seq<Firm>)
  {
    forall i, j :: 0 <= i < j < |pop| ==> pop[i].id < pop[j].id
  }

  /** With ids increasing in schedule order, the largest id is the last one's. */
  lemma MaxIdOfIncreasing(pop: seq<Firm>)
    requires |pop| > 0 && StrictlyIncreasingIds(pop)
    ensures MaxId(pop) == pop[|pop| - 1].id
  {
    MaxIdIsMax(pop);
    var i :| 0 <= i < |pop| && pop[i].id == MaxId(pop);
    assert pop[|pop| - 1].id <= MaxId(pop);
    if i < |pop| - 1 {
      assert pop[i].id < pop[|pop| - 1].id;
    }
  }

  /** The exit condition of the exit/entry round. */
  predicate Failing(f: Firm)
  {
    f.marketShare <= 0.0 || f.liquidAssets < 0.0
  }

  /** A live firm of group `g` that meets the exit condition. */
  predicate DeadIn(f: Firm, g: Sector)
  {
    f.group == g && !f.bankrupt && Failing(f)
  }

  /** Positions, in schedule order, of the dead firms of group `g`. */
  function DeadIndices(pop: seq<Firm>, g: Sector): (d: seq<nat>)
    ensures |d| <= |pop|
    ensures forall k :: 0 <= k < |d| ==> d[k] < |pop|
  {
    if pop == [] then []
    else
      var n := |pop| - 1;
      var rest := DeadIndices(pop[..n], g);
      if DeadIn(pop[n], g) then rest + [n] else rest
  }

  /** DeadIndices lists, in increasing order, exactly the positions of the
      dead firms of `g`. */
  lemma {:induction false} DeadIndicesSpec(pop: seq<Firm>, g: Sector)
    ensures var d := DeadIndices(pop, g);
            && (forall k :: 0 <= k < |d| ==> DeadIn(pop[d[k]], g))
            && (forall i :: 0 <= i < |pop| ==> (DeadIn(pop[i], g) <==> i in d))
            && (forall k, l :: 0 <= k < l < |d| ==> d[k] < d[l])
    decreases |pop|
  {
    if pop != [] {
      var n := |pop| - 1;
      DeadIndicesSpec(pop[..n], g);
    }
  }

  /** The firms a dead firm of group `g` may be replaced by a copy of: live
      firms of the group that do not meet the exit condition, in schedule
      order. */
  function Survivors(pop: seq<Firm>, g: Sector): (s: seq<Firm>)
    ensures |s| <= |pop|
  {
    if pop == [] then []
    else
      var rest := Survivors(pop[..|pop| - 1], g);
      var f := pop[|pop| - 1];
      if Member(f, g, false) && !Failing(f) then rest + [f] else rest
  }

  /** The survivors are exactly the live firms of `g` that do not meet the
      exit condition. */
  lemma {:induction false} SurvivorsMembers(pop: seq<Firm>, g: Sector)
    ensures forall f :: f in Survivors(pop, g) <==> f in pop && f.group == g && !f.bankrupt && !Failing(f)
    decreases |pop|
  {
    if pop != [] {
      var p' := pop[..|pop| - 1];
      assert pop == p' + [pop[|pop| - 1]];
      SurvivorsMembers(p', g);
    }
  }

  /** Whether a round over group `g` can find a survivor for every dead firm. */
  predicate Replaceable(pop: seq<Firm>, g: Sector)
  {
    DeadIndices(pop, g) == [] || Survivors(pop, g) != []
  }

  /** The replacement firm: a fresh firm of group `g` with the donor's liquid
      assets and market share, and the donor's capital stock (consumption
      firms) or machine productivity and price (capital firms). */
  function Entrant(blank: Firm, id: int, g: Sector, donor: Firm): (e: Firm)
  {
    var e := NewFirm(blank, id, g, donor.liquidAssets, donor.marketShare);
    if g == ConsumptionFirm then e.(capitalStock := donor.capitalStock)
    else e.(machine := e.machine.(labourProductivity := donor.machine.labourProductivity,
                                  price := donor.machine.price))
  }

  function Bankrupted(f: Firm): Firm
  {
    f.(bankrupt := true)
  }
}
