/** The exit/entry round: live firms that meet the exit condition are marked
    bankrupt in place (never removed), and each gets a replacement in its own
    group that copies a randomly chosen survivor. The random choices come from
    a caller-supplied stream of draws: the k-th replacement of the round
    copies survivor number Draw(draws, k) modulo the number of survivors. */
module ExitEntry {
  import opened Firms

  /** The k-th draw of the stream: `draws` followed by zeros, so that every
      sequence of survivor choices is some stream. */
  function Draw(draws: seq<nat>, k: nat): nat
  {
    if k < |draws| then draws[k] else 0
  }

  /** The survivor the k-th draw picks, as random.choice does. */
  function Pick(survivors: seq<Firm>, draws: seq<nat>, k: nat): (s: Firm)
    requires |survivors| > 0
    ensures s in survivors
  {
    survivors[Draw(draws, k) % |survivors|]
  }

  /** The population with every dead firm of group `g` marked bankrupt where
      it stands. */
  function Marked(pop: seq<Firm>, g: Sector): (r: seq<Firm>)
    ensures |r| == |pop|
  {
    if pop == [] then []
    else
      var n := |pop| - 1;
      Marked(pop[..n], g) + [if DeadIn(pop[n], g) then Bankrupted(pop[n]) else pop[n]]
  }

  lemma {:induction false} MarkedAt(pop: seq<Firm>, g: Sector, i: nat)
    requires i < |pop|
    ensures Marked(pop, g)[i] == if DeadIn(pop[i], g) then Bankrupted(pop[i]) else pop[i]
    decreases |pop|
  {
    var n := |pop| - 1;
    if i < n {
      MarkedAt(pop[..n], g, i);
    }
  }

  /** Marking works firm by firm: the marks of a concatenation are the
      concatenation of the marks. */
  lemma {:induction false} MarkedAppend(a: seq<Firm>, b: seq<Firm>, g: Sector)
    ensures Marked(a + b, g) == Marked(a, g) + Marked(b, g)
    decreases |b|
  {
    if b == [] {
      assert a + b == a;
    } else {
      var b' := b[..|b| - 1];
      assert (a + b)[..|a + b| - 1] == a + b';
      assert (a + b)[|a + b| - 1] == b[|b| - 1];
      MarkedAppend(a, b', g);
    }
  }

  /** Firms of other groups are never marked. */
  lemma MarkedOtherGroup(s: seq<Firm>, g: Sector)
    requires forall i :: 0 <= i < |s| ==> s[i].group != g
    ensures Marked(s, g) == s
  {
    forall i | 0 <= i < |s| ensures Marked(s, g)[i] == s[i] {
      MarkedAt(s, g, i);
    }
  }

  /** `pop` with the firms at `idx` marked bankrupt one after the other, as
      the loop over the dead firms does. */
  function MarkAll(pop: seq<Firm>, idx: seq<nat>): (r: seq<Firm>)
    requires forall l :: 0 <= l < |idx| ==> idx[l] < |pop|
    ensures |r| == |pop|
  {
    if idx == [] then pop
    else
      var prev := MarkAll(pop, idx[..|idx| - 1]);
      var i := idx[|idx| - 1];
      prev[i := Bankrupted(prev[i])]
  }

  lemma {:induction false} MarkAllAt(pop: seq<Firm>, idx: seq<nat>, i: nat)
    requires forall l :: 0 <= l < |idx| ==> idx[l] < |pop|
    requires i < |pop|
    ensures MarkAll(pop, idx)[i] == if i in idx then Bankrupted(pop[i]) else pop[i]
    decreases |idx|
  {
    if idx != [] {
      var idx' := idx[..|idx| - 1];
      assert idx == idx' + [idx[|idx| - 1]];
      MarkAllAt(pop, idx', i);
    }
  }

  /** Marking the dead indices one by one is marking every dead firm. */
  lemma MarkAllDead(pop: seq<Firm>, g: Sector)
    ensures MarkAll(pop, DeadIndices(pop, g)) == Marked(pop, g)
  {
    var d := DeadIndices(pop, g);
    DeadIndicesSpec(pop, g);
    forall i | 0 <= i < |pop| ensures MarkAll(pop, d)[i] == Marked(pop, g)[i] {
      MarkAllAt(pop, d, i);
      MarkedAt(pop, g, i);
    }
  }

  /** One more mark: the loop's k-th step. */
  lemma MarkAllStep(pop: seq<Firm>, dead: seq<nat>, k: nat)
    requires forall l :: 0 <= l < |dead| ==> dead[l] < |pop|
    requires k < |dead|
    ensures var a := MarkAll(pop, dead[..k]);
            MarkAll(pop, dead[..k + 1]) == a[dead[k] := Bankrupted(a[dead[k]])]
  {
    assert dead[..k + 1][..k] == dead[..k];
  }

  /** The next id the round hands out: one past the largest id present. */
  function NextId(pop: seq<Firm>): int
  {
    if pop == [] then 0 else MaxId(pop) + 1
  }

  /** The next id exceeds every id present, and by exactly one the largest. */
  lemma NextIdBounds(pop: seq<Firm>)
    ensures forall i :: 0 <= i < |pop| ==> pop[i].id < NextId(pop)
    ensures |pop| > 0 ==> exists i :: 0 <= i < |pop| && pop[i].id == NextId(pop) - 1
  {
    if pop != [] {
      MaxIdIsMax(pop);
    }
  }

  /** Marking keeps every id, so it keeps the next id. */
  lemma MarkAllNextId(pop: seq<Firm>, idx: seq<nat>)
    requires forall l :: 0 <= l < |idx| ==> idx[l] < |pop|
    ensures NextId(MarkAll(pop, idx)) == NextId(pop)
  {
    if pop != [] {
      var a := MarkAll(pop, idx);
      forall i | 0 <= i < |pop| ensures a[i].id == pop[i].id {
        MarkAllAt(pop, idx, i);
      }
      MaxIdSameIds(pop, a);
    }
  }

  lemma MarkedNextId(pop: seq<Firm>, g: Sector)
    ensures NextId(Marked(pop, g)) == NextId(pop)
  {
    MarkAllDead(pop, g);
    MarkAllNextId(pop, DeadIndices(pop, g));
  }

  /** The `count` replacements of a round over group `g`, in order: the k-th
      has id firstId + k and copies the survivor of draw drawStart + k. */
  function Entrants(blank: Firm, g: Sector, survivors: seq<Firm>, firstId: int, draws: seq<nat>,
                    drawStart: nat, count: nat): (r: seq<Firm>)
    requires count > 0 ==> |survivors| > 0
    ensures |r| == count
  {
    if count == 0 then []
    else
      Entrants(blank, g, survivors, firstId, draws, drawStart, count - 1)
        + [Entrant(blank, firstId + count - 1, g, Pick(survivors, draws, drawStart + count - 1))]
  }

  lemma {:induction false} EntrantsAt(blank: Firm, g: Sector, survivors: seq<Firm>, firstId: int,
                                      draws: seq<nat>, drawStart: nat, count: nat, k: nat)
    requires count > 0 ==> |survivors| > 0
    requires k < count
    ensures Entrants(blank, g, survivors, firstId, draws, drawStart, count)[k]
         == Entrant(blank, firstId + k, g, Pick(survivors, draws, drawStart + k))
    decreases count
  {
    if k < count - 1 {
      EntrantsAt(blank, g, survivors, firstId, draws, drawStart, count - 1, k);
    }
  }

  /** Entrants are live firms of `g` with ids counting up from firstId. */
  lemma EntrantsIdsAndGroup(blank: Firm, g: Sector, survivors: seq<Firm>, firstId: int,
                            draws: seq<nat>, drawStart: nat, count: nat)
    requires count > 0 ==> |survivors| > 0
    ensures forall k :: 0 <= k < count ==>
              && Entrants(blank, g, survivors, firstId, draws, drawStart, count)[k].id == firstId + k
              && Entrants(blank, g, survivors, firstId, draws, drawStart, count)[k].group == g
              && !Entrants(blank, g, survivors, firstId, draws, drawStart, count)[k].bankrupt
  {
    var e := Entrants(blank, g, survivors, firstId, draws, drawStart, count);
    forall k | 0 <= k < count ensures e[k].id == firstId + k && e[k].group == g && !e[k].bankrupt {
      EntrantsAt(blank, g, survivors, firstId, draws, drawStart, count, k);
    }
  }

  /** Appending firms whose ids count up from one past the largest id raises
      the largest id by their number. */
  lemma {:induction false} MaxIdAppendCounting(a: seq<Firm>, e: seq<Firm>)
    requires |a| > 0
    requires forall k :: 0 <= k < |e| ==> e[k].id == MaxId(a) + 1 + k
    ensures MaxId(a + e) == MaxId(a) + |e|
    decreases |e|
  {
    if e == [] {
      assert a + e == a;
    } else {
      var e' := e[..|e| - 1];
      MaxIdAppendCounting(a, e');
      assert a + e == (a + e') + [e[|e| - 1]];
      MaxIdAppendLarger(a + e', e[|e| - 1]);
    }
  }

  /** The next id after a block of entrants numbered from NextId(a). */
  lemma NextIdWithEntrants(a: seq<Firm>, blank: Firm, g: Sector, survivors: seq<Firm>,
                           draws: seq<nat>, drawStart: nat, count: nat)
    requires |a| > 0 && (count > 0 ==> |survivors| > 0)
    ensures NextId(a + Entrants(blank, g, survivors, NextId(a), draws, drawStart, count)) == NextId(a) + count
  {
    EntrantsIdsAndGroup(blank, g, survivors, NextId(a), draws, drawStart, count);
    MaxIdAppendCounting(a, Entrants(blank, g, survivors, NextId(a), draws, drawStart, count));
  }

  /** The outcome of a completed round over group `g`: the dead firms marked,
      then one replacement per dead firm. */
  function RoundResult(pop: seq<Firm>, g: Sector, blank: Firm, draws: seq<nat>, drawStart: nat): seq<Firm>
    requires Replaceable(pop, g)
  {
    Marked(pop, g) + Entrants(blank, g, Survivors(pop, g), NextId(pop), draws, drawStart, |DeadIndices(pop, g)|)
  }

  lemma UpdateBeforeSuffix(a: seq<Firm>, e: seq<Firm>, i: nat, x: Firm)
    requires i < |a|
    ensures (a + e)[i] == a[i]
    ensures (a + e)[i := x] == a[i := x] + e
  {
  }

  /** The schedule after the loop has handled the first k dead firms of `g`:
      those k marked, and their k copies appended. */
  function Progress(pop: seq<Firm>, g: Sector, blank: Firm, draws: seq<nat>, drawStart: nat, k: nat): seq<Firm>
    requires k <= |DeadIndices(pop, g)| && (k > 0 ==> Survivors(pop, g) != [])
  {
    ProgressOf(pop, DeadIndices(pop, g), Survivors(pop, g), blank, g, draws, drawStart, k)
  }

  /** The same state for any list of positions `dead` and survivors `alive`. */
  function ProgressOf(pop: seq<Firm>, dead: seq<nat>, alive: seq<Firm>, blank: Firm, g: Sector,
                      draws: seq<nat>, drawStart: nat, k: nat): seq<Firm>
    requires forall l :: 0 <= l < |dead| ==> dead[l] < |pop|
    requires k <= |dead| && (k > 0 ==> alive != [])
  {
    MarkAll(pop, dead[..k]) + Entrants(blank, g, alive, NextId(pop), draws, drawStart, k)
  }

  /** One pass of the round's loop: marking the k-th dead firm and appending
      the copy of the k-th drawn survivor, under the next id, is the progress
      after k + 1 dead firms. */
  lemma RoundStep(pop: seq<Firm>, g: Sector, blank: Firm, draws: seq<nat>, drawStart: nat, k: nat, marked: seq<Firm>)
    requires k < |DeadIndices(pop, g)| && Survivors(pop, g) != []
    requires var i := DeadIndices(pop, g)[k];
             var before := Progress(pop, g, blank, draws, drawStart, k);
             i < |before| && marked == before[i := Bankrupted(before[i])]
    ensures marked + [Entrant(blank, MaxId(marked) + 1, g, Pick(Survivors(pop, g), draws, drawStart + k))]
              == Progress(pop, g, blank, draws, drawStart, k + 1)
  {
    StepOf(pop, DeadIndices(pop, g), Survivors(pop, g), blank, g, draws, drawStart, k, marked);
  }

  /** RoundStep for any positions and survivors. */
  lemma StepOf(pop: seq<Firm>, dead: seq<nat>, alive: seq<Firm>, blank: Firm, g: Sector,
               draws: seq<nat>, drawStart: nat, k: nat, marked: seq<Firm>)
    requires forall l :: 0 <= l < |dead| ==> dead[l] < |pop|
    requires k < |dead| && alive != []
    requires var before := ProgressOf(pop, dead, alive, blank, g, draws, drawStart, k);
             dead[k] < |before| && marked == before[dead[k] := Bankrupted(before[dead[k]])]
    ensures marked + [Entrant(blank, MaxId(marked) + 1, g, Pick(alive, draws, drawStart + k))]
              == ProgressOf(pop, dead, alive, blank, g, draws, drawStart, k + 1)
  {
    var e := Entrants(blank, g, alive, NextId(pop), draws, drawStart, k);
    MarkStep(pop, dead, k, e, ProgressOf(pop, dead, alive, blank, g, draws, drawStart, k), marked);
    IdStep(pop, dead, k, blank, g, alive, draws, drawStart, marked);
  }

  /** Marking the k-th listed position extends the marked prefix by one. */
  lemma MarkStep(pop: seq<Firm>, dead: seq<nat>, k: nat, e: seq<Firm>, before: seq<Firm>, marked: seq<Firm>)
    requires forall l :: 0 <= l < |dead| ==> dead[l] < |pop|
    requires k < |dead|
    requires before == MarkAll(pop, dead[..k]) + e
    requires marked == before[dead[k] := Bankrupted(before[dead[k]])]
    ensures marked == MarkAll(pop, dead[..k + 1]) + e
  {
    var a := MarkAll(pop, dead[..k]);
    MarkAllStep(pop, dead, k);
    UpdateBeforeSuffix(a, e, dead[k], Bankrupted(a[dead[k]]));
  }

  /** After k entrants the largest id is k past the original next id, less one. */
  lemma IdStep(pop: seq<Firm>, dead: seq<nat>, k: nat, blank: Firm, g: Sector, alive: seq<Firm>,
               draws: seq<nat>, drawStart: nat, marked: seq<Firm>)
    requires forall l :: 0 <= l < |dead| ==> dead[l] < |pop|
    requires k < |dead| && alive != []
    requires marked == MarkAll(pop, dead[..k + 1]) + Entrants(blank, g, alive, NextId(pop), draws, drawStart, k)
    ensures marked != [] && MaxId(marked) + 1 == NextId(pop) + k
  {
    var a := MarkAll(pop, dead[..k + 1]);
    MarkAllNextId(pop, dead[..k + 1]);
    NextIdWithEntrants(a, blank, g, alive, draws, drawStart, k);
  }

  /** Before the loop nothing has been handled. */
  lemma ProgressStart(pop: seq<Firm>, g: Sector, blank: Firm, draws: seq<nat>, drawStart: nat)
    ensures Progress(pop, g, blank, draws, drawStart, 0) == pop
  {
    assert DeadIndices(pop, g)[..0] == [];
  }

  /** Once every dead firm is handled, the progress is the completed round. */
  lemma RoundComplete(pop: seq<Firm>, g: Sector, blank: Firm, draws: seq<nat>, drawStart: nat)
    requires Replaceable(pop, g)
    ensures Progress(pop, g, blank, draws, drawStart, |DeadIndices(pop, g)|) == RoundResult(pop, g, blank, draws, drawStart)
  {
    var dead := DeadIndices(pop, g);
    assert dead[..|dead|] == dead;
    MarkAllDead(pop, g);
  }

  /** The body of the round's loop for the k-th dead firm: mark it bankrupt,
      then draw a survivor, which fails when there is none, and append a copy
      of it under the next id after the largest one present. */
  method HandleDead(pop: seq<Firm>, g: Sector, blank: Firm, draws: seq<nat>, drawStart: nat, k: nat, res: seq<Firm>)
    returns (next: seq<Firm>, ok: bool)
    requires k < |DeadIndices(pop, g)| && (k > 0 ==> Survivors(pop, g) != [])
    requires res == Progress(pop, g, blank, draws, drawStart, k)
    ensures ok <==> Survivors(pop, g) != []
    ensures ok ==> next == Progress(pop, g, blank, draws, drawStart, k + 1)
    ensures !ok ==> k == 0 && var i := DeadIndices(pop, g)[0]; i < |res| && next == res[i := Bankrupted(res[i])]
  {
    var i := DeadIndices(pop, g)[k];
    next := res[i := Bankrupted(res[i])];
    var alive := Survivors(pop, g);
    if alive == [] {
      return next, false;
    }
    RoundStep(pop, g, blank, draws, drawStart, k, next);
    var donor := Pick(alive, draws, drawStart + k);
    var nextId := MaxId(next) + 1;
    next := next + [Entrant(blank, nextId, g, donor)];
    ok := true;
  }

  /** One round over group `g`, in the order the source runs it: for each
      dead firm, mark it bankrupt, draw a survivor (failing when there is
      none), take the next id after the largest one present, append the copy. */
  method ReplaceGroup(pop: seq<Firm>, g: Sector, blank: Firm, draws: seq<nat>, drawStart: nat)
    returns (res: seq<Firm>, ok: bool)
    ensures ok <==> Replaceable(pop, g)
    ensures ok ==> res == RoundResult(pop, g, blank, draws, drawStart)
    ensures !ok ==> DeadIndices(pop, g) != [] &&
                    var i := DeadIndices(pop, g)[0]; res == pop[i := Bankrupted(pop[i])]
  {
    var dead := DeadIndices(pop, g);
    ProgressStart(pop, g, blank, draws, drawStart);
    res := pop;
    var k := 0;
    while k < |dead|
      invariant k <= |dead| && (k > 0 ==> Survivors(pop, g) != [])
      invariant res == Progress(pop, g, blank, draws, drawStart, k)
    {
      var stepOk;
      res, stepOk := HandleDead(pop, g, blank, draws, drawStart, k, res);
      if !stepOk {
        return res, false;
      }
      k := k + 1;
    }
    RoundComplete(pop, g, blank, draws, drawStart);
    ok := true;
  }

  /** `b` agrees with `a` on every firm of group `g` and appends only firms of
      other groups. */
  predicate AgreeOn(a: seq<Firm>, b: seq<Firm>, g: Sector)
  {
    && |a| <= |b|
    && (forall i :: 0 <= i < |a| ==> (a[i].group == g || b[i].group == g) ==> a[i] == b[i])
    && (forall i :: |a| <= i < |b| ==> b[i].group != g)
  }

  /** What a round over group `g` sees depends only on the firms of `g`. */
  lemma AgreeOnSameQueries(a: seq<Firm>, b: seq<Firm>, g: Sector)
    requires AgreeOn(a, b, g)
    ensures DeadIndices(a, g) == DeadIndices(b, g)
    ensures Group(a, g, false) == Group(b, g, false)
    ensures Survivors(a, g) == Survivors(b, g)
  {
    AgreeOnDeadIndices(a, b, g);
    AgreeOnGroup(a, b, g);
    AgreeOnSurvivors(a, b, g);
  }

  lemma {:induction false} AgreeOnDeadIndices(a: seq<Firm>, b: seq<Firm>, g: Sector)
    requires AgreeOn(a, b, g)
    ensures DeadIndices(a, g) == DeadIndices(b, g)
    decreases |b|
  {
    if |b| > |a| {
      AgreeOnDeadIndices(a, b[..|b| - 1], g);
    } else if |b| > 0 {
      AgreeOnDeadIndices(a[..|a| - 1], b[..|b| - 1], g);
    }
  }

  lemma {:induction false} AgreeOnGroup(a: seq<Firm>, b: seq<Firm>, g: Sector)
    requires AgreeOn(a, b, g)
    ensures Group(a, g, false) == Group(b, g, false)
    decreases |b|
  {
    if |b| > |a| {
      AgreeOnGroup(a, b[..|b| - 1], g);
    } else if |b| > 0 {
      AgreeOnGroup(a[..|a| - 1], b[..|b| - 1], g);
    }
  }

  lemma {:induction false} AgreeOnSurvivors(a: seq<Firm>, b: seq<Firm>, g: Sector)
    requires AgreeOn(a, b, g)
    ensures Survivors(a, g) == Survivors(b, g)
    decreases |b|
  {
    if |b| > |a| {
      AgreeOnSurvivors(a, b[..|b| - 1], g);
    } else if |b| > 0 {
      AgreeOnSurvivors(a[..|a| - 1], b[..|b| - 1], g);
    }
  }

  /** A round over group `g` leaves the firms of every other group as they
      were and appends only firms of `g`. */
  lemma RoundKeepsOtherGroup(pop: seq<Firm>, g: Sector, h: Sector, blank: Firm, draws: seq<nat>, drawStart: nat)
    requires g != h && Replaceable(pop, g)
    ensures AgreeOn(pop, RoundResult(pop, g, blank, draws, drawStart), h)
  {
    var m := Marked(pop, g);
    var n := |DeadIndices(pop, g)|;
    var e := Entrants(blank, g, Survivors(pop, g), NextId(pop), draws, drawStart, n);
    forall i | 0 <= i < |pop| ensures (pop[i].group == h || m[i].group == h) ==> pop[i] == m[i] {
      MarkedAt(pop, g, i);
    }
    EntrantsIdsAndGroup(blank, g, Survivors(pop, g), NextId(pop), draws, drawStart, n);
    AgreeOnAppend(pop, m, e, h);
  }

  lemma AgreeOnAppend(pop: seq<Firm>, m: seq<Firm>, e: seq<Firm>, h: Sector)
    requires |m| == |pop|
    requires forall i :: 0 <= i < |pop| ==> (pop[i].group == h || m[i].group == h) ==> pop[i] == m[i]
    requires forall k :: 0 <= k < |e| ==> e[k].group != h
    ensures AgreeOn(pop, m + e, h)
  {
  }

  /** What a completed consumption round hands to the capital round. */
  lemma AfterConsumptionRound(pop: seq<Firm>, blankConsumption: Firm, draws: seq<nat>)
    requires Replaceable(pop, ConsumptionFirm)
    ensures var mid := RoundResult(pop, ConsumptionFirm, blankConsumption, draws, 0);
            var dc := |DeadIndices(pop, ConsumptionFirm)|;
            && NextId(mid) == NextId(pop) + dc
            && Marked(mid, CapitalFirm)
               == Marked(Marked(pop, ConsumptionFirm), CapitalFirm)
                  + Entrants(blankConsumption, ConsumptionFirm, Survivors(pop, ConsumptionFirm), NextId(pop),
                             draws, 0, dc)
  {
    var dc := |DeadIndices(pop, ConsumptionFirm)|;
    var m := Marked(pop, ConsumptionFirm);
    var e := Entrants(blankConsumption, ConsumptionFirm, Survivors(pop, ConsumptionFirm), NextId(pop), draws, 0, dc);
    MarkedNextId(pop, ConsumptionFirm);
    if |pop| > 0 {
      NextIdWithEntrants(m, blankConsumption, ConsumptionFirm, Survivors(pop, ConsumptionFirm), draws, 0, dc);
    }
    MarkedAppend(m, e, CapitalFirm);
    EntrantsIdsAndGroup(blankConsumption, ConsumptionFirm, Survivors(pop, ConsumptionFirm), NextId(pop), draws, 0, dc);
    MarkedOtherGroup(e, CapitalFirm);
  }

  /** A live firm that meets the exit condition, in whichever group. */
  predicate Dead(f: Firm)
  {
    DeadIn(f, f.group)
  }

  /** The outcome of a completed exit/entry round: every dead firm marked
      bankrupt where it stands, then the consumption entrants, then the
      capital entrants, ids counting up from one past the largest id and the
      draws numbered across both groups. */
  function ExitResult(pop: seq<Firm>, blankConsumption: Firm, blankCapital: Firm, draws: seq<nat>): seq<Firm>
    requires Replaceable(pop, ConsumptionFirm) && Replaceable(pop, CapitalFirm)
  {
    var dc := |DeadIndices(pop, ConsumptionFirm)|;
    Marked(Marked(pop, ConsumptionFirm), CapitalFirm)
      + Entrants(blankConsumption, ConsumptionFirm, Survivors(pop, ConsumptionFirm), NextId(pop), draws, 0, dc)
      + Entrants(blankCapital, CapitalFirm, Survivors(pop, CapitalFirm), NextId(pop) + dc, draws, dc,
                 |DeadIndices(pop, CapitalFirm)|)
  }

  /** The exit/entry round over the consumption group, then the capital group.
      A group with dead firms and no survivor stops the round with
      NoSurvivors: the first dead firm of that group is already marked, and
      a failure in the capital group comes after the whole consumption round. */
  method ExitAndEntry(pop: seq<Firm>, blankConsumption: Firm, blankCapital: Firm, draws: seq<nat>)
    returns (res: seq<Firm>, failed: Option<Sector>)
    ensures failed == None <==> Replaceable(pop, ConsumptionFirm) && Replaceable(pop, CapitalFirm)
    ensures failed == Some(ConsumptionFirm) <==> !Replaceable(pop, ConsumptionFirm)
    ensures failed == None ==> res == ExitResult(pop, blankConsumption, blankCapital, draws)
    ensures failed == Some(ConsumptionFirm) ==>
              var i := DeadIndices(pop, ConsumptionFirm)[0]; res == pop[i := Bankrupted(pop[i])]
    ensures failed == Some(CapitalFirm) ==>
              && Replaceable(pop, ConsumptionFirm) && DeadIndices(pop, CapitalFirm) != []
              && var i := DeadIndices(pop, CapitalFirm)[0];
                 var mid := RoundResult(pop, ConsumptionFirm, blankConsumption, draws, 0);
                 i < |mid| && res == mid[i := Bankrupted(pop[i])]
  {
    var mid, okConsumption := ReplaceGroup(pop, ConsumptionFirm, blankConsumption, draws, 0);
    if !okConsumption {
      return mid, Some(ConsumptionFirm);
    }
    var dc := |DeadIndices(pop, ConsumptionFirm)|;
    RoundKeepsOtherGroup(pop, ConsumptionFirm, CapitalFirm, blankConsumption, draws, 0);
    AgreeOnSameQueries(pop, mid, CapitalFirm);
    var okCapital;
    res, okCapital := ReplaceGroup(mid, CapitalFirm, blankCapital, draws, dc);
    if !okCapital {
      var i := DeadIndices(pop, CapitalFirm)[0];
      DeadIndicesSpec(pop, CapitalFirm);
      assert mid[i] == pop[i];
      return res, Some(CapitalFirm);
    }
    failed := None;
    AfterConsumptionRound(pop, blankConsumption, draws);
  }

  /** A firm of the old population after the round: marked when dead,
      otherwise unchanged. */
  lemma ExitResultOld(pop: seq<Firm>, blankConsumption: Firm, blankCapital: Firm, draws: seq<nat>, j: nat)
    requires Replaceable(pop, ConsumptionFirm) && Replaceable(pop, CapitalFirm)
    requires j < |pop|
    ensures ExitResult(pop, blankConsumption, blankCapital, draws)[j]
         == if Dead(pop[j]) then Bankrupted(pop[j]) else pop[j]
  {
    var m := Marked(pop, ConsumptionFirm);
    MarkedAt(pop, ConsumptionFirm, j);
    MarkedAt(m, CapitalFirm, j);
  }

  /** The entrant at place j of the consumption block. */
  lemma ExitResultConsumptionEntrant(pop: seq<Firm>, blankConsumption: Firm, blankCapital: Firm, draws: seq<nat>,
                                     j: nat)
    requires Replaceable(pop, ConsumptionFirm) && Replaceable(pop, CapitalFirm)
    requires |pop| <= j < |pop| + |DeadIndices(pop, ConsumptionFirm)|
    ensures var sc := Survivors(pop, ConsumptionFirm);
            |sc| > 0 &&
            ExitResult(pop, blankConsumption, blankCapital, draws)[j]
              == Entrant(blankConsumption, NextId(pop) + (j - |pop|), ConsumptionFirm, Pick(sc, draws, j - |pop|))
  {
    var dc := |DeadIndices(pop, ConsumptionFirm)|;
    var sc := Survivors(pop, ConsumptionFirm);
    var ec := Entrants(blankConsumption, ConsumptionFirm, sc, NextId(pop), draws, 0, dc);
    var ek := Entrants(blankCapital, CapitalFirm, Survivors(pop, CapitalFirm), NextId(pop) + dc, draws, dc,
                       |DeadIndices(pop, CapitalFirm)|);
    var mm := Marked(Marked(pop, ConsumptionFirm), CapitalFirm);
    assert ExitResult(pop, blankConsumption, blankCapital, draws)[j] == ec[j - |pop|] by {
      assert ExitResult(pop, blankConsumption, blankCapital, draws) == mm + ec + ek;
      ConcatMiddle(mm, ec, ek, j);
    }
    EntrantsAt(blankConsumption, ConsumptionFirm, sc, NextId(pop), draws, 0, dc, j - |pop|);
  }

  /** The entrant at place j of the capital block. */
  lemma ExitResultCapitalEntrant(pop: seq<Firm>, blankConsumption: Firm, blankCapital: Firm, draws: seq<nat>, j: nat)
    requires Replaceable(pop, ConsumptionFirm) && Replaceable(pop, CapitalFirm)
    requires |pop| + |DeadIndices(pop, ConsumptionFirm)| <= j < |ExitResult(pop, blankConsumption, blankCapital, draws)|
    ensures var sk := Survivors(pop, CapitalFirm);
            |sk| > 0 &&
            ExitResult(pop, blankConsumption, blankCapital, draws)[j]
              == Entrant(blankCapital, NextId(pop) + (j - |pop|), CapitalFirm, Pick(sk, draws, j - |pop|))
  {
    var dc := |DeadIndices(pop, ConsumptionFirm)|;
    var dk := |DeadIndices(pop, CapitalFirm)|;
    var sk := Survivors(pop, CapitalFirm);
    var ec := Entrants(blankConsumption, ConsumptionFirm, Survivors(pop, ConsumptionFirm), NextId(pop), draws, 0, dc);
    var ek := Entrants(blankCapital, CapitalFirm, sk, NextId(pop) + dc, draws, dc, dk);
    var mm := Marked(Marked(pop, ConsumptionFirm), CapitalFirm);
    assert ExitResult(pop, blankConsumption, blankCapital, draws)[j] == ek[j - |pop| - dc] by {
      assert ExitResult(pop, blankConsumption, blankCapital, draws) == mm + ec + ek;
      ConcatLast(mm, ec, ek, j);
    }
    EntrantsAt(blankCapital, CapitalFirm, sk, NextId(pop) + dc, draws, dc, dk, j - |pop| - dc);
    assert (j - |pop| - dc) + dc == j - |pop|;
  }

  lemma ConcatMiddle(a: seq<Firm>, b: seq<Firm>, c: seq<Firm>, j: nat)
    requires |a| <= j < |a| + |b|
    ensures (a + b + c)[j] == b[j - |a|]
  {
  }

  lemma ConcatLast(a: seq<Firm>, b: seq<Firm>, c: seq<Firm>, j: nat)
    requires |a| + |b| <= j < |a| + |b| + |c|
    ensures (a + b + c)[j] == c[j - |a| - |b|]
  {
  }

  /** No firm is removed and the population grows by the number of dead
      firms: every old firm keeps its place; it is marked bankrupt exactly
      when it met the exit condition, and nothing else about it changes. */
  lemma ExitKeepsEveryFirm(pop: seq<Firm>, blankConsumption: Firm, blankCapital: Firm, draws: seq<nat>)
    requires Replaceable(pop, ConsumptionFirm) && Replaceable(pop, CapitalFirm)
    ensures |ExitResult(pop, blankConsumption, blankCapital, draws)| == |pop| + |DeadIndices(pop, ConsumptionFirm)| + |DeadIndices(pop, CapitalFirm)|
    ensures forall i :: 0 <= i < |pop| ==>
              && ExitResult(pop, blankConsumption, blankCapital, draws)[i] == pop[i].(bankrupt := ExitResult(pop, blankConsumption, blankCapital, draws)[i].bankrupt)
              && (ExitResult(pop, blankConsumption, blankCapital, draws)[i].bankrupt <==> pop[i].bankrupt || Failing(pop[i]))
  {
    var res := ExitResult(pop, blankConsumption, blankCapital, draws);
    forall i | 0 <= i < |pop|
      ensures res[i] == pop[i].(bankrupt := res[i].bankrupt)
      ensures res[i].bankrupt <==> pop[i].bankrupt || Failing(pop[i])
    {
      ExitResultOld(pop, blankConsumption, blankCapital, draws, i);
    }
  }

  /** The id at each place after the round: old ids are kept, entrants count
      up from one past the largest old id. */
  lemma ExitResultIds(pop: seq<Firm>, blankConsumption: Firm, blankCapital: Firm, draws: seq<nat>)
    requires Replaceable(pop, ConsumptionFirm) && Replaceable(pop, CapitalFirm)
    ensures forall j :: 0 <= j < |ExitResult(pop, blankConsumption, blankCapital, draws)| ==>
              ExitResult(pop, blankConsumption, blankCapital, draws)[j].id == if j < |pop| then pop[j].id else NextId(pop) + (j - |pop|)
  {
    var res := ExitResult(pop, blankConsumption, blankCapital, draws);
    forall j | 0 <= j < |res| ensures res[j].id == if j < |pop| then pop[j].id else NextId(pop) + (j - |pop|) {
      if j < |pop| {
        ExitResultOld(pop, blankConsumption, blankCapital, draws, j);
      } else if j < |pop| + |DeadIndices(pop, ConsumptionFirm)| {
        ExitResultConsumptionEntrant(pop, blankConsumption, blankCapital, draws, j);
      } else {
        ExitResultCapitalEntrant(pop, blankConsumption, blankCapital, draws, j);
      }
    }
  }

  /** Every entrant's id exceeds every id before it in the schedule, the
      existing population's included. */
  lemma EntrantIdsFresh(pop: seq<Firm>, blankConsumption: Firm, blankCapital: Firm, draws: seq<nat>)
    requires Replaceable(pop, ConsumptionFirm) && Replaceable(pop, CapitalFirm)
    ensures forall i, j :: 0 <= i < j < |ExitResult(pop, blankConsumption, blankCapital, draws)| && |pop| <= j ==> ExitResult(pop, blankConsumption, blankCapital, draws)[i].id < ExitResult(pop, blankConsumption, blankCapital, draws)[j].id
  {
    ExitResultIds(pop, blankConsumption, blankCapital, draws);
    NextIdBounds(pop);
  }

  /** Ids increasing along the schedule stay increasing. */
  lemma ExitKeepsIncreasingIds(pop: seq<Firm>, blankConsumption: Firm, blankCapital: Firm, draws: seq<nat>)
    requires Replaceable(pop, ConsumptionFirm) && Replaceable(pop, CapitalFirm)
    requires StrictlyIncreasingIds(pop)
    ensures StrictlyIncreasingIds(ExitResult(pop, blankConsumption, blankCapital, draws))
  {
    ExitResultIds(pop, blankConsumption, blankCapital, draws);
  }

  /** An entrant copies its survivor: it is a live firm of the group with the
      survivor's liquid assets and market share, and its capital stock (a
      consumption firm) or its machine's productivity and price (a capital
      firm). */
  predicate CopiesSurvivor(e: Firm, s: Firm, g: Sector)
  {
    && e.group == g && !e.bankrupt
    && e.liquidAssets == s.liquidAssets && e.marketShare == s.marketShare
    && (g == ConsumptionFirm ==> e.capitalStock == s.capitalStock)
    && (g == CapitalFirm ==>
          e.machine.labourProductivity == s.machine.labourProductivity && e.machine.price == s.machine.price)
  }

  /** Each entrant copies some survivor of its own group: the consumption
      block copies consumption survivors, the capital block capital ones. */
  lemma EntrantCopiesSurvivor(pop: seq<Firm>, blankConsumption: Firm, blankCapital: Firm, draws: seq<nat>, j: nat)
    requires Replaceable(pop, ConsumptionFirm) && Replaceable(pop, CapitalFirm)
    requires |pop| <= j < |ExitResult(pop, blankConsumption, blankCapital, draws)|
    ensures var g := if j < |pop| + |DeadIndices(pop, ConsumptionFirm)| then ConsumptionFirm else CapitalFirm;
            exists s :: s in Survivors(pop, g)
                        && CopiesSurvivor(ExitResult(pop, blankConsumption, blankCapital, draws)[j], s, g)
  {
    if j < |pop| + |DeadIndices(pop, ConsumptionFirm)| {
      ExitResultConsumptionEntrant(pop, blankConsumption, blankCapital, draws, j);
    } else {
      ExitResultCapitalEntrant(pop, blankConsumption, blankCapital, draws, j);
    }
  }

  /** A firm that copies a survivor does not meet the exit condition. */
  lemma CopyOfSurvivorNotDead(pop: seq<Firm>, g: Sector, e: Firm, s: Firm)
    requires s in Survivors(pop, g) && CopiesSurvivor(e, s, g)
    ensures !Dead(e)
  {
    SurvivorsMembers(pop, g);
  }

  /** After a completed round no live firm meets the exit condition: the dead
      ones are marked, and the entrants copy firms that did not meet it. */
  lemma ExitLeavesNoDeadFirm(pop: seq<Firm>, blankConsumption: Firm, blankCapital: Firm, draws: seq<nat>)
    requires Replaceable(pop, ConsumptionFirm) && Replaceable(pop, CapitalFirm)
    ensures forall i :: 0 <= i < |ExitResult(pop, blankConsumption, blankCapital, draws)| ==> !Dead(ExitResult(pop, blankConsumption, blankCapital, draws)[i])
  {
    var res := ExitResult(pop, blankConsumption, blankCapital, draws);
    forall i | 0 <= i < |res| ensures !Dead(res[i]) {
      if i < |pop| {
        ExitResultOld(pop, blankConsumption, blankCapital, draws, i);
      } else {
        EntrantCopiesSurvivor(pop, blankConsumption, blankCapital, draws, i);
        var g := if i < |pop| + |DeadIndices(pop, ConsumptionFirm)| then ConsumptionFirm else CapitalFirm;
        var s :| s in Survivors(pop, g) && CopiesSurvivor(res[i], s, g);
        CopyOfSurvivorNotDead(pop, g, res[i], s);
      }
    }
  }

  /** Entry does not renormalise market shares. A live consumption firm with no
      share left and one with the whole share: before the round the group's
      shares sum to one; afterwards the dead firm is marked, its entrant copies
      the other's share, and the live shares sum to two. */
  lemma SharesNotRenormalised(dead: Firm, survivor: Firm, blankConsumption: Firm, blankCapital: Firm,
                              draws: seq<nat>)
    requires dead.group == ConsumptionFirm && !dead.bankrupt && dead.marketShare == 0.0
    requires survivor.group == ConsumptionFirm && !survivor.bankrupt
    requires survivor.marketShare == 1.0 && survivor.liquidAssets >= 0.0
    ensures Replaceable([dead, survivor], ConsumptionFirm) && Replaceable([dead, survivor], CapitalFirm)
    ensures Total(Group([dead, survivor], ConsumptionFirm, false), Share) == 1.0
    ensures Total(Group(ExitResult([dead, survivor], blankConsumption, blankCapital, draws), ConsumptionFirm, false),
                  Share) == 2.0
  {
    var pop := [dead, survivor];
    WitnessQueries(dead, survivor);
    var res := ExitResult(pop, blankConsumption, blankCapital, draws);
    ExitKeepsEveryFirm(pop, blankConsumption, blankCapital, draws);
    ExitResultOld(pop, blankConsumption, blankCapital, draws, 0);
    ExitResultOld(pop, blankConsumption, blankCapital, draws, 1);
    ExitResultConsumptionEntrant(pop, blankConsumption, blankCapital, draws, 2);
    var e := res[2];
    assert res == [Bankrupted(dead), survivor, e];
    LiveSharesOfTwo(dead, survivor);
    LiveSharesOfThree(Bankrupted(dead), survivor, e);
  }

  /** The round's queries on the two-firm witness schedule. */
  lemma WitnessQueries(dead: Firm, survivor: Firm)
    requires dead.group == ConsumptionFirm && !dead.bankrupt && dead.marketShare == 0.0
    requires survivor.group == ConsumptionFirm && !survivor.bankrupt
    requires survivor.marketShare == 1.0 && survivor.liquidAssets >= 0.0
    ensures DeadIndices([dead, survivor], ConsumptionFirm) == [0]
    ensures Survivors([dead, survivor], ConsumptionFirm) == [survivor]
    ensures DeadIndices([dead, survivor], CapitalFirm) == []
  {
    assert [dead, survivor][..1] == [dead] && [dead][..0] == [];
  }

  /** The live consumption shares of a three-firm schedule whose first firm
      is bankrupt and whose other two are live consumption firms. */
  lemma LiveSharesOfThree(x: Firm, y: Firm, z: Firm)
    requires x.bankrupt
    requires y.group == ConsumptionFirm && !y.bankrupt && z.group == ConsumptionFirm && !z.bankrupt
    ensures Total(Group([x, y, z], ConsumptionFirm, false), Share) == y.marketShare + z.marketShare
  {
    GroupAppend([x], [y, z], ConsumptionFirm, false);
    GroupSingleton(x, ConsumptionFirm, false);
    assert [x] + [y, z] == [x, y, z];
    LiveSharesOfTwo(y, z);
  }

  /** The live consumption shares of a two-firm schedule of live consumption firms. */
  lemma LiveSharesOfTwo(x: Firm, y: Firm)
    requires x.group == ConsumptionFirm && !x.bankrupt && y.group == ConsumptionFirm && !y.bankrupt
    ensures Total(Group([x, y], ConsumptionFirm, false), Share) == x.marketShare + y.marketShare
  {
    GroupAll([x, y], ConsumptionFirm);
    TotalAppend([x], [y], Share);
    assert [x] + [y] == [x, y];
    assert [x][..0] == [] && [y][..0] == [];
  }
}
