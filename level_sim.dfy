/** The two computations of the level-up calculator that walk the levels
    (js/level.js): `calcTotalNeedExp`, the cumulative EXP the result shows,
    and `simulateCandiesAndShards`, which buys the candies level by level,
    spending a limited pool of boosted candies first.

    Each method is proved equal to a specification function: `TotalNeedExp`
    for the first, and `Simulate`, the sequence of `Step`s the loop goes
    through, for the second. The properties of the simulation are lemmas
    about that sequence. */
module LevelSim {
  import opened Wrappers
  import opened LevelRules

  /** The `boostKind` option: "none", "mini" or "full". */
  datatype BoostKind = NoBoost | Mini | Full

  /** The EXP factor of a boosted candy. */
  function BoostExpMul(kind: BoostKind): int {
    if kind == Mini || kind == Full then 2 else 1
  }

  /** The shard factor of a boosted candy. */
  function BoostShardMul(kind: BoostKind): int {
    if kind == Mini then 4 else if kind == Full then 5 else 1
  }

  /** The two parsed tables: EXP to reach a level, shards per candy at a level. */
  datatype Tables = Tables(exp: map<real, real>, shard: map<real, real>)

  /** The options object passed to `simulateCandiesAndShards`. */
  datatype SimOptions = SimOptions(
    lvNow: int,
    lvTarget: int,
    typeKey: string,
    natureKey: string,
    progressExp: int,
    boostKind: BoostKind,
    boostCount: int)

  /** One pass of the loop, from `level` to `level + 1`: the boosted pool
      before it, the EXP the step needs, the boosted and ordinary candies
      bought, and the shards they cost. */
  datatype Step = Step(level: int, poolBefore: int, need: int, boosted: int, normal: int, shards: real)

  /** What `simulateCandiesAndShards` returns. */
  datatype SimResult = SimResult(candiesTotal: int, shardsTotal: int)

  /** `min(n, q)` where `q` may be Infinity. */
  function MinQ(n: int, q: Quotient): (r: int)
    ensures r <= n
    ensures q.Finite? ==> r <= q.k && (r == n || r == q.k)
    ensures q.Infinity? ==> r == n
  {
    match q
    case Infinity => n
    case Finite(k) => IntMin(n, k)
  }

  /** The EXP one ordinary candy gives at `lv`. */
  function PerCandy(o: SimOptions, lv: int): real {
    BaseCandyExp(lv, o.natureKey)
  }

  /** The EXP one boosted candy gives at `lv`. */
  function PerBoost(o: SimOptions, lv: int): real {
    Boosted(PerCandy(o, lv), BoostExpMul(o.boostKind))
  }

  /** The EXP of a candy giving `mul` times `perCandy`. */
  function Boosted(perCandy: real, mul: int): real {
    perCandy * mul as real
  }

  /** The EXP needed from `lv` to `lv + 1` before any progress is taken off:
      the table entry (a missing entry reads as 0) times the type multiplier,
      rounded on its own. */
  function BaseNeed(t: Tables, o: SimOptions, lv: int): int {
    Round(ScaleByType(Lookup0(t.exp, lv + 1), o.typeKey))
  }

  /** The EXP the step from `lv` needs: the first step, and only that one,
      gives up the progress already made, never going below 0. */
  function StepNeed(t: Tables, o: SimOptions, lv: int): (r: int)
    ensures lv != o.lvNow || o.progressExp <= 0 ==> r == BaseNeed(t, o, lv)
    ensures lv == o.lvNow && o.progressExp > 0 ==> r >= 0 && (r == 0 || r == BaseNeed(t, o, lv) - o.progressExp)
    ensures lv == o.lvNow && o.progressExp > 0 ==> r >= BaseNeed(t, o, lv) - o.progressExp
  {
    var base := BaseNeed(t, o, lv);
    if lv == o.lvNow && o.progressExp > 0 then IntMax(0, base - o.progressExp) else base
  }

  /** The candies bought for one step. */
  datatype Purchase = Purchase(boosted: int, normal: int)

  /** The candies a step that needs `need` EXP buys, with `pool` boosted
      candies left, `useBoosts` false when boosting is off, and the EXP of an
      ordinary and of a boosted candy. Boosted candies come first, as many as
      the step can use up to the whole pool; ordinary candies cover what is
      left. Each kind is the least count that covers its part, so the supply
      is enough and one candy fewer would not be; EXP beyond the need is lost. */
  function Buy(need: real, pool: int, useBoosts: bool, perCandy: real, perBoost: real): (p: Purchase)
    requires need > 0.0 && perCandy > 0.0 && perBoost > 0.0
  {
    var useBoost := if pool > 0 && useBoosts then MinQ(pool, CeilDiv(need, perBoost)) else 0;
    var remain := Remaining(need, useBoost, perBoost);
    var normal := if remain > 0.0 then CeilDiv(remain, perCandy).k else 0;
    Purchase(useBoost, normal)
  }

  /** `(x - 1) * b` is `x * b - b`. */
  lemma MulPred(x: int, b: real)
    ensures (x - 1) as real * b == x as real * b - b
  {
  }

  /** The EXP still needed after `boosted` candies of `perBoost` EXP each. */
  function Remaining(need: real, boosted: int, perBoost: real): real {
    need - boosted as real * perBoost
  }

  /** The EXP a purchase supplies. */
  function Supplied(p: Purchase, perCandy: real, perBoost: real): real {
    p.boosted as real * perBoost + p.normal as real * perCandy
  }

  /** What `Buy` promises: no more boosted candies than the pool holds and
      none when boosting is off; the candies cover the need, and one boosted
      or one ordinary candy fewer would not; ordinary candies are bought only
      once the pool is empty. */
  lemma BuyProperties(need: real, pool: int, useBoosts: bool, perCandy: real, perBoost: real)
    requires need > 0.0 && perCandy > 0.0 && perBoost > 0.0 && pool >= 0
    ensures var p := Buy(need, pool, useBoosts, perCandy, perBoost);
      && 0 <= p.boosted <= pool
      && p.normal >= 0
      && (!useBoosts ==> p.boosted == 0)
      && Supplied(p, perCandy, perBoost) >= need
      && (p.boosted > 0 ==> Supplied(Purchase(p.boosted - 1, 0), perCandy, perBoost) < need)
      && (p.normal > 0 ==> Supplied(Purchase(p.boosted, p.normal - 1), perCandy, perBoost) < need)
      && (p.normal > 0 && useBoosts ==> p.boosted == pool)
      && p.boosted <= CeilDiv(need, perBoost).k
  {
    var p := Buy(need, pool, useBoosts, perCandy, perBoost);
    CeilDivLeast(need, perBoost);
    CeilDivPositive(need, perBoost);
    if pool > 0 && useBoosts {
      var kb := CeilDiv(need, perBoost).k;
      if kb <= pool {
        BuyWithinPool(need, pool, perCandy, perBoost);
      } else {
        BuyBeyondPool(need, pool, perCandy, perBoost);
      }
    } else {
      BuyOrdinaryOnly(need, pool, useBoosts, perCandy, perBoost);
    }
  }

  /** Without boosting, the step is all ordinary candies. */
  lemma BuyOrdinaryOnly(need: real, pool: int, useBoosts: bool, perCandy: real, perBoost: real)
    requires need > 0.0 && perCandy > 0.0 && perBoost > 0.0
    requires !(pool > 0 && useBoosts)
    ensures var p := Buy(need, pool, useBoosts, perCandy, perBoost);
      && p.boosted == 0
      && p.normal == CeilDiv(need, perCandy).k
      && p.normal as real * perCandy >= need
      && (p.normal - 1) as real * perCandy < need
  {
    var kn := CeilDiv(need, perCandy).k;
    CeilDivLeast(need, perCandy);
    CeilDivPositive(need, perCandy);
  }

  /** When the pool can cover the whole step, only boosted candies are bought. */
  lemma BuyWithinPool(need: real, pool: int, perCandy: real, perBoost: real)
    requires need > 0.0 && perCandy > 0.0 && perBoost > 0.0
    requires pool > 0 && CeilDiv(need, perBoost).k <= pool
    ensures var p := Buy(need, pool, true, perCandy, perBoost);
      && p.boosted == CeilDiv(need, perBoost).k
      && p.normal == 0
      && p.boosted as real * perBoost >= need
      && (p.boosted - 1) as real * perBoost < need
  {
    var kb := CeilDiv(need, perBoost).k;
    CeilDivLeast(need, perBoost);
    CeilDivPositive(need, perBoost);
    assert MinQ(pool, CeilDiv(need, perBoost)) == kb;
    assert need - kb as real * perBoost <= 0.0;
  }

  /** When the pool cannot cover the step, all of it is used and ordinary
      candies cover the rest. */
  lemma BuyBeyondPool(need: real, pool: int, perCandy: real, perBoost: real)
    requires need > 0.0 && perCandy > 0.0 && perBoost > 0.0
    requires pool > 0 && CeilDiv(need, perBoost).k > pool
    ensures var p := Buy(need, pool, true, perCandy, perBoost);
      && p.boosted == pool
      && p.normal > 0
      && pool as real * perBoost + p.normal as real * perCandy >= need
      && pool as real * perBoost + (p.normal - 1) as real * perCandy < need
      && (pool - 1) as real * perBoost < need
  {
    BelowCeilDivFallsShort(need, perBoost, pool);
    BelowCeilDivFallsShort(need, perBoost, pool - 1);
    assert MinQ(pool, CeilDiv(need, perBoost)) == pool;
    var remain := Remaining(need, pool, perBoost);
    assert remain > 0.0;
    var kn := CeilDiv(remain, perCandy).k;
    CeilDivLeast(remain, perCandy);
    CeilDivPositive(remain, perCandy);
    assert Buy(need, pool, true, perCandy, perBoost).normal == kn;
    assert (kn - 1) as real * perCandy < need - pool as real * perBoost;
  }

  /** The step from `lv` with `pool` boosted candies left. A step that needs
      nothing buys nothing; any other step buys what `Buy` says, boosted
      candies counting double. Shards are charged at the rate of the level
      the step starts from, times 4 for a mini boost and 5 for a full boost
      on the boosted candies. */
  function StepAt(t: Tables, o: SimOptions, lv: int, pool: int): (s: Step)
    requires pool >= 0
    ensures s.level == lv && s.poolBefore == pool && s.need == StepNeed(t, o, lv)
    ensures 0 <= s.boosted <= pool
    ensures s.need <= 0 ==> s.boosted == 0 && s.normal == 0 && s.shards == 0.0
  {
    var need := StepNeed(t, o, lv);
    if need <= 0 then Step(lv, pool, need, 0, 0, 0.0)
    else
      BuyProperties(need as real, pool, o.boostKind != NoBoost, PerCandy(o, lv), PerBoost(o, lv));
      StepOf(t, o, lv, pool, need, Buy(need as real, pool, o.boostKind != NoBoost, PerCandy(o, lv), PerBoost(o, lv)))
  }

  /** The shards a purchase costs at `shardPer` shards a candy, a boosted
      candy costing `boostShardMul` times as much. */
  function ShardCost(p: Purchase, shardPer: real, boostShardMul: int): real {
    p.boosted as real * shardPer * boostShardMul as real + p.normal as real * shardPer
  }

  /** A step with its purchase and the shards the purchase costs. */
  function StepOf(t: Tables, o: SimOptions, lv: int, pool: int, need: int, p: Purchase): Step {
    Step(lv, pool, need, p.boosted, p.normal, ShardCost(p, Lookup0(t.shard, lv), BoostShardMul(o.boostKind)))
  }

  /** The steps from `lv` up to the target level, with `pool` boosted
      candies left at `lv`. */
  function Trace(t: Tables, o: SimOptions, lv: int, pool: int): seq<Step>
    requires pool >= 0
    decreases o.lvTarget - lv
  {
    if lv >= o.lvTarget then []
    else
      var s := StepAt(t, o, lv, pool);
      [s] + Trace(t, o, lv + 1, pool - s.boosted)
  }

  /** The whole walk: from the current level, with the requested boosted
      candies (never a negative count). */
  function Simulate(t: Tables, o: SimOptions): seq<Step> {
    Trace(t, o, o.lvNow, IntMax(0, o.boostCount))
  }

  function TotalCandies(tr: seq<Step>): int {
    if tr == [] then 0 else tr[0].boosted + tr[0].normal + TotalCandies(tr[1..])
  }

  function TotalBoosted(tr: seq<Step>): int {
    if tr == [] then 0 else tr[0].boosted + TotalBoosted(tr[1..])
  }

  function TotalShards(tr: seq<Step>): real {
    if tr == [] then 0.0 else tr[0].shards + TotalShards(tr[1..])
  }

  function TotalNeed(tr: seq<Step>): int {
    if tr == [] then 0 else tr[0].need + TotalNeed(tr[1..])
  }

  /** The part of one pass that buys candies for a step needing `stepNeed`
      EXP: boosted candies first when the pool holds some and boosting is on,
      then ordinary candies for whatever is left, adding to the running
      totals and taking the boosted candies from the pool. `perCandy` is the
      EXP of an ordinary candy, `shardPer` the shards per candy, and a
      boosted candy gives `boostExpMul` times the EXP for `boostShardMul`
      times the shards. It does what `Buy` describes. */
  method FillStep(stepNeed: int, boostOn: bool, perCandy: real, shardPer: real, boostExpMul: int, boostShardMul: int,
                  boostRemain: int, candiesTotal: int, shardsTotal: real)
      returns (candiesAfter: int, shardsAfter: real, boostAfter: int)
    requires stepNeed > 0 && perCandy > 0.0 && boostExpMul > 0 && boostRemain >= 0
    ensures var p := Buy(stepNeed as real, boostRemain, boostOn, perCandy, Boosted(perCandy, boostExpMul));
      && candiesAfter == candiesTotal + p.boosted + p.normal
      && shardsAfter == shardsTotal + ShardCost(p, shardPer, boostShardMul)
      && boostAfter == boostRemain - p.boosted
  {
    ghost var p := Buy(stepNeed as real, boostRemain, boostOn, perCandy, Boosted(perCandy, boostExpMul));
    candiesAfter, shardsAfter, boostAfter := candiesTotal, shardsTotal, boostRemain;
    var remainExp: real := stepNeed as real;
    if boostRemain > 0 && boostOn {
      var perBoostCandyExp := perCandy * boostExpMul as real;
      var needBoostCandies := CeilDiv(remainExp, perBoostCandyExp);
      var useBoost := MinQ(boostRemain, needBoostCandies);
      candiesAfter := candiesAfter + useBoost;
      shardsAfter := shardsAfter + useBoost as real * shardPer * boostShardMul as real;
      remainExp := remainExp - useBoost as real * perBoostCandyExp;
      boostAfter := boostAfter - useBoost;
      assert perBoostCandyExp == Boosted(perCandy, boostExpMul);
      assert useBoost == p.boosted;
    } else {
      assert p.boosted == 0;
    }
    assert remainExp == Remaining(stepNeed as real, p.boosted, Boosted(perCandy, boostExpMul));
    if remainExp > 0.0 {
      var needNormal := CeilDiv(remainExp, perCandy).k;
      candiesAfter := candiesAfter + needNormal;
      shardsAfter := shardsAfter + needNormal as real * shardPer;
      remainExp := 0.0;
      assert needNormal == p.normal;
    } else {
      assert p.normal == 0;
    }
  }

  /** One pass of the `for lv` loop: the EXP the step from `lv` needs (the
      table entry times `mult`, rounded, and for the first step less the
      progress already made), and, when it needs any, the candies bought for
      it. `mult`, `boostExpMul` and `boostShardMul` are the factors the loop
      computes once. The running totals and the pool change as `StepAt`
      says. */
  method Pass(t: Tables, o: SimOptions, lv: int, mult: real, boostExpMul: int, boostShardMul: int,
              boostRemain: int, candiesTotal: int, shardsTotal: real)
      returns (candiesAfter: int, shardsAfter: real, boostAfter: int)
    requires mult == TypeMult(o.typeKey)
    requires boostExpMul == BoostExpMul(o.boostKind) && boostShardMul == BoostShardMul(o.boostKind)
    requires boostRemain >= 0
    ensures var s := StepAt(t, o, lv, boostRemain);
      && candiesAfter == candiesTotal + s.boosted + s.normal
      && shardsAfter == shardsTotal + s.shards
      && boostAfter == boostRemain - s.boosted
  {
    candiesAfter, shardsAfter, boostAfter := candiesTotal, shardsTotal, boostRemain;
    var nextLv := lv + 1;
    ScaleByTypeIsProduct(Lookup0(t.exp, nextLv), o.typeKey);
    var stepNeed := Round(Lookup0(t.exp, nextLv) * mult);
    if lv == o.lvNow && o.progressExp > 0 {
      stepNeed := IntMax(0, stepNeed - o.progressExp);
    }
    assert stepNeed == StepNeed(t, o, lv);
    if stepNeed > 0 {
      var perCandy := BaseCandyExp(lv, o.natureKey);
      var shardPer := Lookup0(t.shard, lv);
      assert perCandy == PerCandy(o, lv);
      candiesAfter, shardsAfter, boostAfter :=
        FillStep(stepNeed, o.boostKind != NoBoost, perCandy, shardPer, boostExpMul, boostShardMul,
                 boostRemain, candiesTotal, shardsTotal);
    }
  }

  /** `simulateCandiesAndShards(opts)`: the candies of all steps, and their
      shards rounded once at the end. */
  method SimulateCandiesAndShards(t: Tables, o: SimOptions) returns (r: SimResult)
    ensures r.candiesTotal == TotalCandies(Simulate(t, o))
    ensures r.shardsTotal == Round(TotalShards(Simulate(t, o)))
  {
    var mult := TypeMult(o.typeKey);
    var candiesTotal := 0;
    var shardsTotal := 0.0;
    var boostRemain := IntMax(0, o.boostCount);
    var boostExpMul := BoostExpMul(o.boostKind);
    var boostShardMul := BoostShardMul(o.boostKind);
    var lv := o.lvNow;
    ghost var goalCandies, goalShards := TotalCandies(Simulate(t, o)), TotalShards(Simulate(t, o));
    while lv < o.lvTarget
      invariant boostRemain >= 0
      invariant candiesTotal + TotalCandies(Trace(t, o, lv, boostRemain)) == goalCandies
      invariant shardsTotal + TotalShards(Trace(t, o, lv, boostRemain)) == goalShards
      decreases o.lvTarget - lv
    {
      ghost var s := StepAt(t, o, lv, boostRemain);
      assert Trace(t, o, lv, boostRemain) == [s] + Trace(t, o, lv + 1, boostRemain - s.boosted);
      candiesTotal, shardsTotal, boostRemain :=
        Pass(t, o, lv, mult, boostExpMul, boostShardMul, boostRemain, candiesTotal, shardsTotal);
      lv := lv + 1;
    }
    assert Trace(t, o, lv, boostRemain) == [];
    r := SimResult(candiesTotal, Round(shardsTotal));
  }

  /** The bookkeeping of one step: a step that needs nothing buys nothing;
      the boosted candies come from the pool and are 0 when boosting is off;
      the shards are the shards per candy at `lv` for each ordinary candy and
      4 (mini) or 5 (full) times that for each boosted one. */
  lemma StepProperties(t: Tables, o: SimOptions, lv: int, pool: int)
    requires pool >= 0
    ensures var s := StepAt(t, o, lv, pool);
      && (s.need <= 0 ==> s.boosted == 0 && s.normal == 0 && s.shards == 0.0)
      && 0 <= s.boosted <= pool && s.normal >= 0
      && (o.boostKind == NoBoost ==> s.boosted == 0)
      && s.shards == ShardCost(Purchase(s.boosted, s.normal), Lookup0(t.shard, lv), BoostShardMul(o.boostKind))
  {
    var s := StepAt(t, o, lv, pool);
    if s.need > 0 {
      PerBoostPositive(o, lv);
      BuyProperties(s.need as real, pool, o.boostKind != NoBoost, PerCandy(o, lv), PerBoost(o, lv));
    }
  }

  /** The purchase of a step that needs EXP: its candies supply at least
      the need, and one candy fewer of either kind would not; a step never
      takes more boosted candies than it could use alone, and it buys
      ordinary candies only once the pool is empty. */
  lemma StepCoversNeed(t: Tables, o: SimOptions, lv: int, pool: int)
    requires pool >= 0 && StepNeed(t, o, lv) > 0
    ensures var s := StepAt(t, o, lv, pool);
      && Supplied(Purchase(s.boosted, s.normal), PerCandy(o, lv), PerBoost(o, lv)) >= s.need as real
      && (s.normal > 0 ==> Supplied(Purchase(s.boosted, s.normal - 1), PerCandy(o, lv), PerBoost(o, lv)) < s.need as real)
      && (s.boosted > 0 ==> Supplied(Purchase(s.boosted - 1, 0), PerCandy(o, lv), PerBoost(o, lv)) < s.need as real)
      && s.boosted <= CeilDiv(s.need as real, PerBoost(o, lv)).k
      && (s.normal > 0 && o.boostKind != NoBoost ==> s.boosted == pool)
  {
    var s := StepAt(t, o, lv, pool);
    var perCandy, perBoost := PerCandy(o, lv), PerBoost(o, lv);
    PerBoostPositive(o, lv);
    var p := Buy(s.need as real, pool, o.boostKind != NoBoost, perCandy, perBoost);
    BuyProperties(s.need as real, pool, o.boostKind != NoBoost, perCandy, perBoost);
    assert p == Purchase(s.boosted, s.normal);
  }

  /** A boosted candy gives at least the EXP of an ordinary one, so more than 0. */
  lemma PerBoostPositive(o: SimOptions, lv: int)
    ensures PerBoost(o, lv) >= PerCandy(o, lv) > 0.0
  {
    MulLe(1.0, BoostExpMul(o.boostKind) as real, PerCandy(o, lv));
  }

  /** A boosted candy, mini or full, gives twice the EXP of an ordinary one. */
  lemma BoostDoublesExp(o: SimOptions, lv: int)
    requires o.boostKind != NoBoost
    ensures PerBoost(o, lv) == 2.0 * PerCandy(o, lv)
  {
  }

  /** The shape of the walk: one step per level from `lv` up to the target,
      each the `StepAt` of its level and pool, the first with the pool it is
      given and each later one with what the previous step left. */
  lemma {:induction false} TraceShape(t: Tables, o: SimOptions, lv: int, pool: int)
    requires pool >= 0
    ensures var tr := Trace(t, o, lv, pool);
      && |tr| == (if lv < o.lvTarget then o.lvTarget - lv else 0)
      && (|tr| > 0 ==> tr[0].poolBefore == pool)
      && (forall i :: 0 <= i < |tr| ==> tr[i].poolBefore >= 0 && tr[i] == StepAt(t, o, lv + i, tr[i].poolBefore))
      && (forall i :: 0 <= i < |tr| - 1 ==> tr[i + 1].poolBefore == tr[i].poolBefore - tr[i].boosted)
  {
    TraceLength(t, o, lv, pool);
    TraceSteps(t, o, lv, pool);
    TracePoolChain(t, o, lv, pool);
  }

  lemma {:induction false} TraceLength(t: Tables, o: SimOptions, lv: int, pool: int)
    requires pool >= 0
    ensures |Trace(t, o, lv, pool)| == (if lv < o.lvTarget then o.lvTarget - lv else 0)
    ensures lv < o.lvTarget ==> Trace(t, o, lv, pool)[0] == StepAt(t, o, lv, pool)
    decreases o.lvTarget - lv
  {
    if lv < o.lvTarget {
      var s := StepAt(t, o, lv, pool);
      TraceLength(t, o, lv + 1, pool - s.boosted);
    }
  }

  lemma TraceSteps(t: Tables, o: SimOptions, lv: int, pool: int)
    requires pool >= 0
    ensures var tr := Trace(t, o, lv, pool);
      forall i :: 0 <= i < |tr| ==> tr[i].poolBefore >= 0 && tr[i] == StepAt(t, o, lv + i, tr[i].poolBefore)
  {
    var tr := Trace(t, o, lv, pool);
    TraceLength(t, o, lv, pool);
    forall i | 0 <= i < |tr|
      ensures tr[i].poolBefore >= 0 && tr[i] == StepAt(t, o, lv + i, tr[i].poolBefore)
    {
      TraceAt(t, o, lv, pool, i);
    }
  }

  lemma {:induction false} TraceAt(t: Tables, o: SimOptions, lv: int, pool: int, i: int)
    requires pool >= 0 && 0 <= i < o.lvTarget - lv
    ensures |Trace(t, o, lv, pool)| > i
    ensures Trace(t, o, lv, pool)[i].poolBefore >= 0
    ensures Trace(t, o, lv, pool)[i] == StepAt(t, o, lv + i, Trace(t, o, lv, pool)[i].poolBefore)
    decreases i
  {
    if i == 0 {
      TraceLength(t, o, lv, pool);
    } else {
      var s := StepAt(t, o, lv, pool);
      var rest := Trace(t, o, lv + 1, pool - s.boosted);
      assert Trace(t, o, lv, pool) == [s] + rest;
      TraceAt(t, o, lv + 1, pool - s.boosted, i - 1);
      assert ([s] + rest)[i] == rest[i - 1];
    }
  }

  lemma {:induction false} TracePoolChain(t: Tables, o: SimOptions, lv: int, pool: int)
    requires pool >= 0
    ensures var tr := Trace(t, o, lv, pool);
      forall i :: 0 <= i < |tr| - 1 ==> tr[i + 1].poolBefore == tr[i].poolBefore - tr[i].boosted
    decreases o.lvTarget - lv
  {
    if lv < o.lvTarget {
      var s := StepAt(t, o, lv, pool);
      var rest := Trace(t, o, lv + 1, pool - s.boosted);
      TracePoolChain(t, o, lv + 1, pool - s.boosted);
      TraceLength(t, o, lv + 1, pool - s.boosted);
      var tr := Trace(t, o, lv, pool);
      assert tr == [s] + rest;
      forall i | 0 <= i < |tr| - 1
        ensures tr[i + 1].poolBefore == tr[i].poolBefore - tr[i].boosted
      {
        if i > 0 {
          assert tr[i] == rest[i - 1] && tr[i + 1] == rest[i];
        }
      }
    }
  }

  lemma PoolShrinks(t: Tables, o: SimOptions, lv: int, pool: int, i: int, j: int)
    requires pool >= 0
    requires 0 <= i < j < |Trace(t, o, lv, pool)|
    ensures var tr := Trace(t, o, lv, pool);
      0 <= tr[j].poolBefore <= tr[i].poolBefore - tr[i].boosted
    decreases j - i
  {
    var tr := Trace(t, o, lv, pool);
    TraceShape(t, o, lv, pool);
    if j > i + 1 {
      PoolShrinks(t, o, lv, pool, i + 1, j);
      StepProperties(t, o, lv + i + 1, tr[i + 1].poolBefore);
    }
  }

  /** Boosted candies are spent lowest levels first: once a step has left
      the pool empty, no later step uses a boosted candy. */
  lemma NoBoostOncePoolEmpty(t: Tables, o: SimOptions, i: int, j: int)
    requires 0 <= i < j < |Simulate(t, o)|
    requires Simulate(t, o)[i].poolBefore - Simulate(t, o)[i].boosted == 0
    ensures Simulate(t, o)[j].boosted == 0
  {
    var tr := Simulate(t, o);
    var pool := IntMax(0, o.boostCount);
    PoolShrinks(t, o, o.lvNow, pool, i, j);
    TraceShape(t, o, o.lvNow, pool);
    StepProperties(t, o, o.lvNow + j, tr[j].poolBefore);
  }

  /** A step that buys ordinary candies while boosting is on has used up the
      pool, so no later step is boosted. */
  lemma OrdinaryCandiesEndBoosting(t: Tables, o: SimOptions, i: int, j: int)
    requires o.boostKind != NoBoost
    requires 0 <= i < j < |Simulate(t, o)| && Simulate(t, o)[i].normal > 0
    ensures Simulate(t, o)[j].boosted == 0
  {
    var tr := Simulate(t, o);
    TraceShape(t, o, o.lvNow, IntMax(0, o.boostCount));
    var lv, pool := o.lvNow + i, tr[i].poolBefore;
    assert tr[i] == StepAt(t, o, lv, pool);
    StepProperties(t, o, lv, pool);
    StepCoversNeed(t, o, lv, pool);
    NoBoostOncePoolEmpty(t, o, i, j);
  }

  /** The walk never uses more boosted candies than the pool it starts with. */
  lemma {:induction false} BoostedWithinPool(t: Tables, o: SimOptions, lv: int, pool: int)
    requires pool >= 0
    ensures 0 <= TotalBoosted(Trace(t, o, lv, pool)) <= pool
    decreases o.lvTarget - lv
  {
    if lv < o.lvTarget {
      var s := StepAt(t, o, lv, pool);
      StepProperties(t, o, lv, pool);
      BoostedWithinPool(t, o, lv + 1, pool - s.boosted);
      TraceCons(t, o, lv, pool);
    }
  }

  /** The totals of a walk are those of its first step plus those of the
      rest of the walk. */
  lemma TraceCons(t: Tables, o: SimOptions, lv: int, pool: int)
    requires pool >= 0 && lv < o.lvTarget
    ensures var s := StepAt(t, o, lv, pool);
      var rest := Trace(t, o, lv + 1, pool - s.boosted);
      && TotalCandies(Trace(t, o, lv, pool)) == s.boosted + s.normal + TotalCandies(rest)
      && TotalBoosted(Trace(t, o, lv, pool)) == s.boosted + TotalBoosted(rest)
  {
    var s := StepAt(t, o, lv, pool);
    assert Trace(t, o, lv, pool)[1..] == Trace(t, o, lv + 1, pool - s.boosted);
  }

  /** In all, `simulateCandiesAndShards` uses at most `max(0, boostCount)`
      boosted candies, and none when boosting is off. */
  lemma SimulateBoostedWithinPool(t: Tables, o: SimOptions)
    ensures 0 <= TotalBoosted(Simulate(t, o)) <= IntMax(0, o.boostCount)
    ensures o.boostKind == NoBoost ==> TotalBoosted(Simulate(t, o)) == 0
  {
    BoostedWithinPool(t, o, o.lvNow, IntMax(0, o.boostCount));
    if o.boostKind == NoBoost {
      NoBoostNoBoosted(t, o, o.lvNow, IntMax(0, o.boostCount));
    }
  }

  lemma {:induction false} NoBoostNoBoosted(t: Tables, o: SimOptions, lv: int, pool: int)
    requires pool >= 0 && o.boostKind == NoBoost
    ensures TotalBoosted(Trace(t, o, lv, pool)) == 0
    decreases o.lvTarget - lv
  {
    if lv < o.lvTarget {
      var s := StepAt(t, o, lv, pool);
      StepProperties(t, o, lv, pool);
      NoBoostNoBoosted(t, o, lv + 1, pool - s.boosted);
      TraceCons(t, o, lv, pool);
    }
  }

  /** The progress already made lowers the need of the first step only;
      every later step needs its full rounded table entry. */
  lemma ProgressOnlyFirstStep(t: Tables, o: SimOptions)
    ensures var tr := Simulate(t, o);
      && (|tr| > 0 && o.progressExp > 0 ==> tr[0].need == IntMax(0, BaseNeed(t, o, o.lvNow) - o.progressExp))
      && (|tr| > 0 && o.progressExp <= 0 ==> tr[0].need == BaseNeed(t, o, o.lvNow))
      && (forall i :: 1 <= i < |tr| ==> tr[i].need == BaseNeed(t, o, o.lvNow + i))
  {
    TraceShape(t, o, o.lvNow, IntMax(0, o.boostCount));
  }

  /** A level missing from the EXP table (or holding 0) costs nothing in the
      simulation: that step needs 0 EXP and buys nothing. */
  lemma MissingExpRowBuysNothing(t: Tables, o: SimOptions, lv: int, pool: int)
    requires pool >= 0 && Lookup0(t.exp, lv + 1) == 0.0
    ensures StepAt(t, o, lv, pool).need == 0
    ensures StepAt(t, o, lv, pool).boosted == 0 && StepAt(t, o, lv, pool).normal == 0
    ensures StepAt(t, o, lv, pool).shards == 0.0
  {
    assert BaseNeed(t, o, lv) == 0;
  }

  /** No walk has a negative candy count. */
  lemma {:induction false} TotalCandiesNonNegative(t: Tables, o: SimOptions, lv: int, pool: int)
    requires pool >= 0
    ensures TotalCandies(Trace(t, o, lv, pool)) >= 0
    decreases o.lvTarget - lv
  {
    if lv < o.lvTarget {
      var s := StepAt(t, o, lv, pool);
      StepProperties(t, o, lv, pool);
      TotalCandiesNonNegative(t, o, lv + 1, pool - s.boosted);
      TraceCons(t, o, lv, pool);
    }
  }

  /** Surplus EXP is not carried over: from level 1 to 3 with 10 EXP per
      level, each step buys one candy of 35 EXP, two in all, although one
      candy would cover the 20 EXP of both steps. */
  lemma SurplusIsDiscarded()
    ensures var t := Tables(map[2.0 := 10.0, 3.0 := 10.0], map[]);
      var o := SimOptions(1, 3, "normal", "none", 0, NoBoost, 0);
      && TotalNeed(Simulate(t, o)) == 20
      && TotalCandies(Simulate(t, o)) == 2
      && PerCandy(o, 1) >= 20.0
  {
    var t := Tables(map[2.0 := 10.0, 3.0 := 10.0], map[]);
    var o := SimOptions(1, 3, "normal", "none", 0, NoBoost, 0);
    var s1 := StepAt(t, o, 1, 0);
    var s2 := StepAt(t, o, 2, 0);
    assert BaseNeed(t, o, 1) == 10 && BaseNeed(t, o, 2) == 10;
    assert PerCandy(o, 1) == 35.0 && PerCandy(o, 2) == 35.0;
    assert Ceil(10.0 / 35.0) == 1;
    assert s1.normal == 1 && s1.boosted == 0;
    assert s2.normal == 1 && s2.boosted == 0;
    assert Simulate(t, o) == [s1, s2];
  }

  /** Each step is rounded on its own, so the steps can need more EXP than
      the rounded total: two levels of 1 EXP at the 1.5 multiplier need
      2 + 2 EXP in the simulation but 3 in `calcTotalNeedExp`. */
  lemma StepRoundingDrift()
    ensures var t := Tables(map[2.0 := 1.0, 3.0 := 1.0], map[]);
      var o := SimOptions(1, 3, "600", "none", 0, NoBoost, 0);
      && TotalNeed(Simulate(t, o)) == 4
      && TotalNeedExp(t.exp, 1, 3, "600") == Ok(3)
  {
    var t := Tables(map[2.0 := 1.0, 3.0 := 1.0], map[]);
    var o := SimOptions(1, 3, "600", "none", 0, NoBoost, 0);
    var s1 := StepAt(t, o, 1, 0);
    var s2 := StepAt(t, o, 2, 0);
    assert BaseNeed(t, o, 1) == 2 && BaseNeed(t, o, 2) == 2;
    assert Simulate(t, o) == [s1, s2];
    assert FirstMissing(t.exp, 2, 3) == None;
    assert ExpSum(t.exp, 1, 3, "600") == 3.0;
  }

  /** A level whose EXP entry is missing or 0: `!base` in `calcTotalNeedExp`. */
  predicate Missing(exp: map<real, real>, k: int) {
    Lookup0(exp, k) == 0.0
  }

  /** The least level in `lo..hi` whose entry is missing, if any. */
  function FirstMissing(exp: map<real, real>, lo: int, hi: int): (r: Option<int>)
    ensures r.Some? ==> lo <= r.value <= hi && Missing(exp, r.value)
    ensures r.Some? ==> forall j :: lo <= j < r.value ==> !Missing(exp, j)
    ensures r.None? ==> forall j :: lo <= j <= hi ==> !Missing(exp, j)
    decreases hi - lo
  {
    if lo > hi then None
    else if Missing(exp, lo) then Some(lo)
    else FirstMissing(exp, lo + 1, hi)
  }

  /** The sum of the EXP entries for the levels `lvNow + 1 .. hi`, each
      times the type multiplier. */
  function ExpSum(exp: map<real, real>, lvNow: int, hi: int, typeKey: string): real
    decreases hi - lvNow
  {
    if hi <= lvNow then 0.0 else ExpSum(exp, lvNow, hi - 1, typeKey) + ScaleByType(Lookup0(exp, hi), typeKey)
  }

  /** What `calcTotalNeedExp(lvNow, lvTarget, typeKey)` gives: the error
      naming the first level of `lvNow + 1 .. lvTarget` without an EXP entry,
      or the rounded sum of the entries times the multiplier. */
  function TotalNeedExp(exp: map<real, real>, lvNow: int, lvTarget: int, typeKey: string): Result<int, int> {
    match FirstMissing(exp, lvNow + 1, lvTarget)
    case Some(k) => Err(k)
    case None => Ok(Round(ExpSum(exp, lvNow, lvTarget, typeKey)))
  }

  /** `calcTotalNeedExp` fails exactly when some level of the range has no
      entry, and then names the lowest such level; with no level to climb it
      gives 0. */
  lemma TotalNeedExpErrors(exp: map<real, real>, lvNow: int, lvTarget: int, typeKey: string)
    ensures TotalNeedExp(exp, lvNow, lvTarget, typeKey).Err? <==> exists k :: lvNow < k <= lvTarget && Missing(exp, k)
    ensures TotalNeedExp(exp, lvNow, lvTarget, typeKey).Err? ==>
      (var k := TotalNeedExp(exp, lvNow, lvTarget, typeKey).error;
       lvNow < k <= lvTarget && Missing(exp, k) && forall j :: lvNow < j < k ==> !Missing(exp, j))
    ensures lvTarget <= lvNow ==> TotalNeedExp(exp, lvNow, lvTarget, typeKey) == Ok(0)
  {
  }

  /** `calcTotalNeedExp(lvNow, lvTarget, typeKey)`: the loop over the target
      levels, throwing (here: returning `Err`) at the first level without an
      entry. */
  method CalcTotalNeedExp(exp: map<real, real>, lvNow: int, lvTarget: int, typeKey: string) returns (r: Result<int, int>)
    ensures r == TotalNeedExp(exp, lvNow, lvTarget, typeKey)
  {
    var mult := TypeMult(typeKey);
    var sum := 0.0;
    var hi := lvNow + 1;
    while hi <= lvTarget
      invariant lvNow + 1 <= hi <= IntMax(lvNow + 1, lvTarget + 1)
      invariant sum == ExpSum(exp, lvNow, hi - 1, typeKey)
      invariant forall j :: lvNow < j < hi ==> !Missing(exp, j)
      decreases lvTarget - hi
    {
      var base := Lookup0(exp, hi);
      if base == 0.0 {
        FirstMissingIs(exp, lvNow + 1, lvTarget, hi);
        return Err(hi);
      }
      ScaleByTypeIsProduct(base, typeKey);
      sum := sum + base * mult;
      hi := hi + 1;
    }
    NoneMissing(exp, lvNow + 1, lvTarget);
    r := Ok(Round(sum));
  }

  lemma {:induction false} FirstMissingIs(exp: map<real, real>, lo: int, hi: int, k: int)
    requires lo <= k <= hi && Missing(exp, k)
    requires forall j :: lo <= j < k ==> !Missing(exp, j)
    ensures FirstMissing(exp, lo, hi) == Some(k)
    decreases hi - lo
  {
    if lo < k {
      FirstMissingIs(exp, lo + 1, hi, k);
    }
  }

  lemma {:induction false} NoneMissing(exp: map<real, real>, lo: int, hi: int)
    requires forall j :: lo <= j <= hi ==> !Missing(exp, j)
    ensures FirstMissing(exp, lo, hi) == None
    decreases hi - lo
  {
    if lo <= hi {
      NoneMissing(exp, lo + 1, hi);
    }
  }
}
