/** The liquidation planner: how much debt one partial liquidation repays, and the decision
    ladder that calls it. */
module Planner {
  import opened Prelude
  import opened CovenantMath
  import opened Chain
  import opened Oracle

  datatype Action =
    | NoAction
    | Refresh
    | Partial(dd: nat, residual: nat)
    | FullLiq
    | BadDebt

  // ----- the partial liquidation of `debt` cents backed by `coll` sats at `price`

  /** The most that may be extracted for repaying `dd`. */
  function Cap(price: nat, dd: nat): nat { CollAtCr(dd, price, K_FULL_LIQ_CAP) }

  /** The reserve's share of the penalty. */
  function Share(price: nat, dd: nat): nat { CollAtCr(dd, price, K_RESERVE_SHARE) }

  /** The heal band of the debt that is left. */
  function BandLo(debt: nat, price: nat, dd: nat): nat { CollAtCr(SatSub(debt, dd), price, K_HEAL_LO) }
  function BandHi(debt: nat, price: nat, dd: nat): nat { CollAtCr(SatSub(debt, dd), price, K_HEAL_HI) }

  /** Extraction at the cap lands at or under the band ceiling. */
  predicate Fits(debt: nat, coll: nat, price: nat, dd: nat) {
    SatSub(coll, Cap(price, dd)) <= BandHi(debt, price, dd)
  }

  /** What the covenant's partial arm, with a profit-seeking keeper, accepts. */
  predicate Feasible(debt: nat, coll: nat, price: nat, fee: nat, dd: nat, residual: nat) {
    && 0 < dd < debt <= U32_MAX
    && BandLo(debt, price, dd) <= residual <= BandHi(debt, price, dd)
    && residual <= coll
    && coll - residual <= Cap(price, dd)
    && coll - residual > Share(price, dd) + fee
  }

  /** `Fits` for one vault at one price, as the planner's closure. */
  function FitsAt(debt: nat, coll: nat, price: nat): nat -> bool {
    (dd: nat) => Fits(debt, coll, price, dd)
  }

  /** The probe of the binary search: the upper middle. */
  function Mid(lo: nat, hi: nat): (mid: nat)
    requires lo < hi
    ensures lo < mid <= hi
  {
    lo + DivCeil(hi - lo, 2)
  }

  /** The binary search for an edge of a predicate, as the loop walks it. Whatever the shape
      of the predicate, the result satisfies it and its successor, if a candidate, does not. */
  function Search(fits: nat -> bool, debt: nat, lo: nat, hi: nat): (dd: nat)
    requires 1 <= lo <= hi < debt
    requires fits(lo)
    requires hi == debt - 1 || !fits(hi + 1)
    ensures lo <= dd <= hi
    ensures fits(dd)
    ensures dd == debt - 1 || !fits(dd + 1)
    decreases hi - lo
  {
    if lo == hi then lo
    else
      var mid := Mid(lo, hi);
      if fits(mid) then Search(fits, debt, mid, hi) else Search(fits, debt, lo, mid - 1)
  }

  /** The amount of debt the planner settles on. */
  function Edge(debt: nat, coll: nat, price: nat): (dd: nat)
    requires 2 <= debt && Fits(debt, coll, price, 1)
    ensures 1 <= dd < debt && Fits(debt, coll, price, dd)
    ensures dd == debt - 1 || !Fits(debt, coll, price, dd + 1)
  {
    Search(FitsAt(debt, coll, price), debt, 1, debt - 1)
  }

  /** The lowest residual the band floor and the extraction cap allow at `dd`. */
  function Residual(debt: nat, coll: nat, price: nat, dd: nat): nat {
    Max(BandLo(debt, price, dd), SatSub(coll, Cap(price, dd)))
  }

  /** The plan for a partial liquidation, if one is both possible and profitable. */
  function Plan(debt: nat, coll: nat, price: nat, fee: nat): Option<(nat, nat)> {
    if debt > U32_MAX || debt < 2 || !Fits(debt, coll, price, 1) then None
    else
      var dd := Edge(debt, coll, price);
      var residual := Residual(debt, coll, price, dd);
      if residual > BandHi(debt, price, dd) || residual > coll then None
      else if coll - residual <= Share(price, dd) + fee then None
      else Some((dd, residual))
  }

  /** The planner as written, with its binary search and its linear tail walk. The search
      terminates, and the tail walk never takes a step: `walked` counts them. */
  method PlanPartial(debt: nat, coll: nat, price: nat, fee: nat) returns (r: Option<(nat, nat)>, walked: nat)
    ensures r == Plan(debt, coll, price, fee)
    ensures walked == 0
  {
    if debt > U32_MAX || debt < 2 {
      return None, 0;
    }
    if !Fits(debt, coll, price, 1) {
      return None, 0;
    }
    var dd;
    dd, walked := FindEdge(FitsAt(debt, coll, price), debt);
    var bandLo, bandHi := BandLo(debt, price, dd), BandHi(debt, price, dd);
    var residual := Max(bandLo, SatSub(coll, Cap(price, dd)));
    if residual > bandHi || residual > coll {
      return None, walked;
    }
    var extraction := coll - residual;
    var share := Share(price, dd);
    if extraction <= share + fee {
      return None, walked;
    }
    return Some((dd, residual)), walked;
  }

  /** The two loops of the planner. */
  method FindEdge(fits: nat -> bool, debt: nat) returns (dd: nat, walked: nat)
    requires 2 <= debt && fits(1)
    ensures dd == Search(fits, debt, 1, debt - 1)
    ensures walked == 0
  {
    var lo := BinarySearch(fits, debt);
    dd, walked := TailWalk(fits, debt, lo);
  }

  method BinarySearch(fits: nat -> bool, debt: nat) returns (lo: nat)
    requires 2 <= debt && fits(1)
    ensures lo == Search(fits, debt, 1, debt - 1)
  {
    var hi := debt - 1;
    lo := 1;
    ghost var goal := Search(fits, debt, lo, hi);
    while lo < hi
      invariant 1 <= lo <= hi < debt
      invariant fits(lo)
      invariant hi == debt - 1 || !fits(hi + 1)
      invariant Search(fits, debt, lo, hi) == goal
    {
      var mid := Mid(lo, hi);
      if fits(mid) {
        lo := mid;
      } else {
        hi := mid - 1;
      }
    }
  }

  /** The linear walk after the search: it moves only onto candidates that fit. */
  method TailWalk(fits: nat -> bool, debt: nat, lo: nat) returns (dd: nat, walked: nat)
    requires lo < debt
    ensures lo <= dd < debt && walked == dd - lo
    ensures dd > lo ==> lo + 1 < debt && fits(lo + 1)
    ensures dd + 1 == debt || !fits(dd + 1)
  {
    dd, walked := lo, 0;
    while dd + 1 < debt && fits(dd + 1)
      invariant lo <= dd < debt && walked == dd - lo
      invariant dd > lo ==> lo + 1 < debt && fits(lo + 1)
    {
      dd := dd + 1;
      walked := walked + 1;
    }
  }

  // ----- soundness

  /** Every plan is one the covenant accepts and the keeper profits from. */
  lemma PlanIsFeasible(debt: nat, coll: nat, price: nat, fee: nat)
    ensures match Plan(debt, coll, price, fee)
            case Some((dd, residual)) => Feasible(debt, coll, price, fee, dd, residual)
            case None => true
  {
  }

  /** The residual is the lowest, and so the payout the highest, that the covenant accepts for
      the amount the plan repays. */
  lemma PlanTakesTheMost(debt: nat, coll: nat, price: nat, fee: nat, residual: nat)
    requires Plan(debt, coll, price, fee).Some?
    ensures Feasible(debt, coll, price, fee, Plan(debt, coll, price, fee).value.0, residual) ==>
              residual >= Plan(debt, coll, price, fee).value.1
  {
  }

  /** The amount repaid does not depend on the fee: a plan found at one fee is found,
      identically, at every lower fee. */
  lemma PlanStableUnderLowerFee(debt: nat, coll: nat, price: nat, fee: nat, lower: nat)
    requires lower <= fee
    requires Plan(debt, coll, price, fee).Some?
    ensures Plan(debt, coll, price, lower) == Plan(debt, coll, price, fee)
  {
  }

  // ----- near-optimality

  /** The band ceiling plus the extraction cap, which `Fits` compares the collateral with. */
  function Reach(debt: nat, price: nat, dd: nat): nat { Cap(price, dd) + BandHi(debt, price, dd) }

  /** Repaying enough more debt for 22% of it to be worth one satoshi never raises the reach. */
  lemma ReachFalls(debt: nat, price: nat, dd: nat, e: nat)
    requires dd <= e <= debt
    requires 220_000 * (e - dd) >= price > 0
    ensures Reach(debt, price, e) <= Reach(debt, price, dd)
  {
    var m := price * 200;
    var x, y := dd * K_FULL_LIQ_CAP, (debt - dd) * K_HEAL_HI;
    var x', y' := e * K_FULL_LIQ_CAP, (debt - e) * K_HEAL_HI;
    assert x' + y' <= x + y - m;
    FloorSplit(x', y', m);
    FloorMonotone(x' + y', x + y - m, m);
    FloorStep(x + y, m);
    FloorSplit(x, y, m);
  }

  /** The edge found is at most ceil(price / 220000) cents below any amount that fits, so it
      is the largest one whenever the price is at most 220,000. */
  lemma SearchNearlyOptimal(debt: nat, coll: nat, price: nat, e: nat)
    requires 2 <= debt && price > 0
    requires Fits(debt, coll, price, 1)
    requires 0 < e < debt && Fits(debt, coll, price, e)
    ensures var dd := Edge(debt, coll, price);
            && e <= dd + DivCeil(price, 220_000)
            && (price <= 220_000 ==> e <= dd)
  {
    var dd := Edge(debt, coll, price);
    if e > dd {
      var gap := e - dd - 1;
      if 220_000 * gap >= price {
        ReachFalls(debt, price, dd + 1, e);
        assert false;
      }
      FloorAtLeast(price + 219_999, 220_000, gap + 1);
      if price <= 220_000 && gap == 0 {
        assert false;
      }
    }
  }

  /** The plan itself: the amount it repays is at most ceil(price / 220000) cents below any amount
      that is feasible with some residual, and none is larger at prices up to 220,000. */
  lemma PlanNearlyOptimal(debt: nat, coll: nat, price: nat, fee: nat, e: nat, residual: nat)
    requires price > 0 && Feasible(debt, coll, price, fee, e, residual)
    ensures Plan(debt, coll, price, fee).Some? ==>
              var dd := Plan(debt, coll, price, fee).value.0;
              e <= dd + DivCeil(price, 220_000) && (price <= 220_000 ==> e <= dd)
  {
    if Plan(debt, coll, price, fee).Some? {
      SearchNearlyOptimal(debt, coll, price, e);
    }
  }

  // ----- completeness

  /** Some multiple of the price lies in [1150000, 1370000]: between what a cent of debt lets
      out and what it holds back there is a whole satoshi. */
  ghost predicate Steady(price: nat) {
    price == 0 || exists m: nat :: m >= 1 && 1_150_000 <= m * price <= 1_370_000
  }

  /** Every price up to 220,000 is steady. */
  lemma LowPricesAreSteady(price: nat)
    requires price <= 220_000
    ensures Steady(price)
  {
    if price > 0 {
      var m := 1_370_000 / price;
      FloorBounds(1_370_000, price);
      FloorAtLeast(1_370_000, price, 1);
      assert m >= 1 && 1_150_000 <= m * price <= 1_370_000;
    }
  }

  /** At a steady price one more cent never raises the reach. */
  lemma SteadyReachFalls(debt: nat, price: nat, dd: nat)
    requires Steady(price) && dd < debt
    ensures Reach(debt, price, dd + 1) <= Reach(debt, price, dd)
  {
    if price > 0 {
      var k: nat :| k >= 1 && 1_150_000 <= k * price <= 1_370_000;
      var m := price * 200;
      assert K_FULL_LIQ_CAP <= k * m <= K_HEAL_HI by { assert k * m == 200 * (k * price); }
      StepUp(dd * K_FULL_LIQ_CAP, K_FULL_LIQ_CAP, m, k);
      StepDown((debt - dd) * K_HEAL_HI, K_HEAL_HI, m, k);
    }
  }

  lemma StepUp(n: int, d: int, m: int, k: int)
    requires m > 0 && d <= k * m
    ensures (n + d) / m <= n / m + k
  {
    FloorMonotone(n + d, n + k * m, m);
    FloorShift(n, m, k);
  }

  lemma StepDown(n: int, d: int, m: int, k: int)
    requires m > 0 && k * m <= d
    ensures (n - d) / m <= n / m - k
  {
    assert -k * m == -(k * m);
    FloorMonotone(n - d, n + -k * m, m);
    FloorShift(n, m, -k);
  }

  lemma FloorShift(n: int, m: int, k: int)
    requires m > 0
    ensures (n + k * m) / m == n / m + k
  {
    FloorBounds(n, m);
    assert (n / m + k) * m == n / m * m + k * m;
    FloorAtLeast(n + k * m, m, n / m + k);
    assert (n / m + k + 1) * m == n / m * m + k * m + m;
    FloorAtMost(n + k * m, m, n / m + k);
  }

  lemma {:induction false} SteadyReachFallsFar(debt: nat, price: nat, dd: nat, e: nat)
    requires Steady(price) && dd <= e <= debt
    ensures Reach(debt, price, e) <= Reach(debt, price, dd)
    decreases e - dd
  {
    if dd < e {
      SteadyReachFalls(debt, price, dd);
      SteadyReachFallsFar(debt, price, dd + 1, e);
    }
  }

  /** One more cent never raises the reach, at this debt and amount. */
  ghost predicate FallsAt(debt: nat, price: nat, dd: nat) {
    dd < debt ==> Reach(debt, price, dd + 1) <= Reach(debt, price, dd)
  }

  /** Steadiness is exactly what the search needs: the reach never rises, for any debt and any
      amount, if and only if the price is steady. */
  lemma ReachFallsIffSteady(price: nat)
    ensures (forall debt, dd :: FallsAt(debt, price, dd)) <==> Steady(price)
  {
    if Steady(price) {
      forall debt, dd ensures FallsAt(debt, price, dd) {
        if dd < debt {
          SteadyReachFalls(debt, price, dd);
        }
      }
    } else {
      ReachRisesWhenUnsteady(price);
      assert !FallsAt(2 * price, price, price - 1);
    }
  }

  /** At an unsteady price the reach rises at the amount that equals the price. */
  lemma ReachRisesWhenUnsteady(price: nat)
    requires !Steady(price)
    ensures price > 0 && Reach(2 * price, price, price) > Reach(2 * price, price, price - 1)
  {
    var m: int, cap: int := price * 200, K_FULL_LIQ_CAP;
    var k := K_HEAL_HI / m;
    FloorBounds(K_HEAL_HI, m);
    assert k * m < cap by {
      assert k * m == 200 * (k * price);
      assert k >= 1 ==> !(1_150_000 <= k * price <= 1_370_000);
    }
    WholeQuotients(price, m);
    FloorShift(K_HEAL_HI, m, 1_370_000);
    FloorShift(-cap, m, 1_150_000);
    FloorAtMost(-cap, m, -k - 1);
  }

  lemma WholeQuotients(price: nat, m: nat)
    requires price > 0 && m == price * 200
    ensures Cap(price, price) == 1_150_000 && BandHi(2 * price, price, price) == 1_370_000
    ensures (price - 1) * K_FULL_LIQ_CAP == 1_150_000 * m - K_FULL_LIQ_CAP
    ensures (price + 1) * K_HEAL_HI == K_HEAL_HI + 1_370_000 * m
  {
    FloorShift(0, m, 1_150_000);
    FloorShift(0, m, 1_370_000);
    assert price * K_FULL_LIQ_CAP == 0 + 1_150_000 * m;
    assert price * K_HEAL_HI == 0 + 1_370_000 * m;
  }

  // ----- what a keeper nets never falls with the amount

  /** The extraction cap is 23 times the reserve's share, before both are floored; so it outgrows
      the share at every price. */
  lemma CapOutgrowsShare(price: nat, dd: nat, e: nat)
    requires dd <= e
    ensures Cap(price, dd) - Share(price, dd) <= Cap(price, e) - Share(price, e)
  {
    if price > 0 {
      assert dd * K_FULL_LIQ_CAP == 23 * (dd * K_RESERVE_SHARE) && e * K_FULL_LIQ_CAP == 23 * (e * K_RESERVE_SHARE);
      TwentyThreefold(dd * K_RESERVE_SHARE, e * K_RESERVE_SHARE, price * 200);
    }
  }

  lemma TwentyThreefold(x: int, y: int, m: int)
    requires 0 <= x <= y && m > 0
    ensures 23 * x / m - x / m <= 23 * y / m - y / m
  {
    var q := x / m;
    FloorBounds(x, m);
    FloorBounds(y, m);
    FloorMonotone(x, y, m);
    if y / m == q {
      FloorMonotone(23 * x, 23 * y, m);
    } else {
      assert (q + 1) * m == q * m + m;
      assert 23 * x < (23 * q + 22 + 1) * m by { assert (23 * q + 23) * m == 23 * ((q + 1) * m); }
      FloorAtMost(23 * x, m, 23 * q + 22);
      assert 23 * (y / m) * m <= 23 * y by { assert 23 * (y / m) * m == 23 * (y / m * m); }
      FloorAtLeast(23 * y, m, 23 * (y / m));
    }
  }

  /** Over enough cents for 127% of them to be worth a satoshi, the band floor falls by at least
      what the share grows. */
  lemma FloorFallsPastShare(debt: nat, price: nat, dd: nat, e: nat)
    requires price > 0 && dd < e <= debt && 254_000_000 * (e - dd) >= price * 200
    ensures BandLo(debt, price, e) + Share(price, e) <= BandLo(debt, price, dd) + Share(price, dd)
  {
    var m, j := price * 200, e - dd;
    CollSplit(debt - e, j, price, K_HEAL_LO);
    assert debt - e + j == debt - dd;
    CollSplit(dd, j, price, K_RESERVE_SHARE);
    assert dd + j == e;
    FloorMonotone(j * K_RESERVE_SHARE, j * K_HEAL_LO - m, m);
    FloorStep(j * K_HEAL_LO, m);
  }

  /** The one case left: a single cent at a price above 1,270,000 where the floor stands still.
      There the collateral is too much for one cent more, and too little for two. */
  lemma StandstillIsImpossible(debt: nat, coll: nat, price: nat, dd: nat)
    requires 1_270_000 < price <= 1_370_000 && dd + 1 < debt
    requires BandLo(debt, price, dd + 1) == BandLo(debt, price, dd) && coll <= Cap(price, dd) + BandLo(debt, price, dd)
    ensures dd + 2 < debt && Fits(debt, coll, price, dd + 2)
  {
    var m, r := price * 200, debt - dd;
    if r == 2 {
      TwoCentsStep(price);
      assert false;
    }
    CollSplit(dd, 2, price, K_FULL_LIQ_CAP);
    FloorAtLeast(2 * K_FULL_LIQ_CAP, m, 1);
    FloorBounds((r - 1) * K_HEAL_LO, m);
    FloorBounds((r - 2) * K_HEAL_HI, m);
    Squeeze(r, m, BandLo(debt, price, dd), BandHi(debt, price, dd + 2));
  }

  /** From three cents up, the floor of one cent less is at most one above the ceiling of two
      cents less. */
  lemma Squeeze(r: int, m: int, low: int, high: int)
    requires r >= 3 && 254_000_000 < m && low * m <= (r - 1) * K_HEAL_LO && (r - 2) * K_HEAL_HI < high * m + m
    ensures low <= high + 1
  {
    if low >= high + 2 {
      Scaled(high + 2, low, m);
      assert false;
    }
  }

  lemma Scaled(a: int, b: int, m: int)
    requires a <= b && m > 0
    ensures a * m <= b * m
  {
  }

  lemma TwoCentsStep(price: nat)
    requires 1_270_000 < price <= 1_370_000
    ensures CollAtCr(2, price, K_HEAL_LO) > CollAtCr(1, price, K_HEAL_LO)
  {
    var m := price * 200;
    FloorAtMost(K_HEAL_LO, m, 1);
    if m <= K_HEAL_LO {
      FloorAtLeast(2 * K_HEAL_LO, m, 2);
    } else {
      FloorAtMost(K_HEAL_LO, m, 0);
      FloorAtLeast(2 * K_HEAL_LO, m, 1);
    }
  }

  /** Completeness: at a steady price the planner refuses only when no amount and residual
      at all would satisfy the covenant and pay the keeper. */
  lemma PlanIsComplete(debt: nat, coll: nat, price: nat, fee: nat)
    requires Steady(price)
    ensures Plan(debt, coll, price, fee).None? <==>
            forall dd, residual :: !Feasible(debt, coll, price, fee, dd, residual)
  {
    PlanIsFeasible(debt, coll, price, fee);
    if Plan(debt, coll, price, fee).None? {
      forall dd, residual ensures !Feasible(debt, coll, price, fee, dd, residual) {
        if Feasible(debt, coll, price, fee, dd, residual) {
          FeasibleIsPlanned(debt, coll, price, fee, dd, residual);
          assert false;
        }
      }
    } else {
      var (dd, residual) := Plan(debt, coll, price, fee).value;
      assert Feasible(debt, coll, price, fee, dd, residual);
    }
  }

  lemma FeasibleIsPlanned(debt: nat, coll: nat, price: nat, fee: nat, dd: nat, residual: nat)
    requires Steady(price) && Feasible(debt, coll, price, fee, dd, residual)
    ensures Plan(debt, coll, price, fee).Some?
  {
    SteadyReachFallsFar(debt, price, 1, dd);
    var best := Edge(debt, coll, price);
    if best < dd {
      SteadyReachFallsFar(debt, price, best + 1, dd);
      assert false;
    }
    CapOutgrowsShare(price, dd, best);
    BandPays(debt, coll, price, fee, dd, residual);
    CollMonotone(debt - best, debt - dd, price, K_HEAL_LO, K_HEAL_LO);
    CollMonotone(debt - best, debt - best, price, K_HEAL_LO, K_HEAL_HI);
  }

  /** What a feasible amount nets within the band, the planned one nets too. */
  lemma BandPays(debt: nat, coll: nat, price: nat, fee: nat, dd: nat, residual: nat)
    requires Steady(price) && Feasible(debt, coll, price, fee, dd, residual)
    requires Fits(debt, coll, price, 1) && dd <= Edge(debt, coll, price)
    ensures var best := Edge(debt, coll, price);
            coll >= BandLo(debt, price, best) + Share(price, best) + fee + 1
  {
    var best := Edge(debt, coll, price);
    SteadyPriceBound(price);
    if dd < best && 254_000_000 * (best - dd) >= price * 200 {
      FloorFallsPastShare(debt, price, dd, best);
    } else if dd < best {
      assert best == dd + 1;
      CollMonotone(debt - best, debt - dd, price, K_HEAL_LO, K_HEAL_LO);
      CollSplit(dd, 1, price, K_RESERVE_SHARE);
      FloorAtMost(K_RESERVE_SHARE, price * 200, 0);
      if BandLo(debt, price, best) == BandLo(debt, price, dd) && coll <= Cap(price, dd) + BandLo(debt, price, dd) {
        StandstillIsImpossible(debt, coll, price, dd);
        assert false;
      }
    }
  }

  lemma SteadyPriceBound(price: nat)
    requires Steady(price)
    ensures price <= 1_370_000
  {
    if price > 0 {
      var m: nat :| m >= 1 && 1_150_000 <= m * price <= 1_370_000;
      assert m * price >= price;
    }
  }

  /** At an unsteady price the planner may refuse a vault that can be liquidated, at a fee the
      keeper pays. At 1,000,000 USD per BTC a vault in the partial band, 15,627 cents against
      19,408 satoshis, is refused at the flat fee: the search stops at 9,091 cents, which would
      net exactly the fee, while repaying 9,094 would pay. */
  lemma IncompleteAtAnUnsteadyPrice(debt: nat, coll: nat, price: nat, fee: nat)
    requires debt == 15_627 && coll == 19_408 && price == 1_000_000 && fee == 10_000
    ensures !Steady(price)
    ensures CollAtCr(debt, price, K_FULL_LIQ_CAP) < coll < CollAtCr(debt, price, K_HEALTH_GATE)
    ensures Plan(debt, coll, price, fee).None?
    ensures Feasible(debt, coll, price, fee, 9_094, 8_950)
  {
    forall m: nat | m >= 1 ensures !(1_150_000 <= m * price <= 1_370_000) {
      assert m == 1 || m * price >= 2 * price;
    }
    RefusedAtAMillion(debt, coll, price, fee);
    FeasibleAtAMillion(debt, coll, price, fee);
  }

  lemma FeasibleAtAMillion(debt: nat, coll: nat, price: nat, fee: nat)
    requires debt == 15_627 && coll == 19_408 && price == 1_000_000 && fee == 10_000
    ensures CollAtCr(debt, price, K_FULL_LIQ_CAP) < coll < CollAtCr(debt, price, K_HEALTH_GATE)
    ensures Feasible(debt, coll, price, fee, 9_094, 8_950)
  {
  }

  lemma RefusedAtAMillion(debt: nat, coll: nat, price: nat, fee: nat)
    requires debt == 15_627 && coll == 19_408 && price == 1_000_000 && fee == 10_000
    ensures Plan(debt, coll, price, fee).None?
  {
    EdgeAtAMillion(debt, coll, price);
    NetAtAMillion(debt, coll, price, 9_091);
    UnprofitableIsRefused(debt, coll, price, fee, 9_091);
  }

  lemma NetAtAMillion(debt: nat, coll: nat, price: nat, dd: nat)
    requires debt == 15_627 && coll == 19_408 && price == 1_000_000 && dd == 9_091
    ensures Residual(debt, coll, price, dd) == 8_954 && Share(price, dd) == 454
  {
  }

  lemma UnprofitableIsRefused(debt: nat, coll: nat, price: nat, fee: nat, dd: nat)
    requires 2 <= debt && Fits(debt, coll, price, 1) && Edge(debt, coll, price) == dd
    requires coll <= Residual(debt, coll, price, dd) + Share(price, dd) + fee
    ensures Plan(debt, coll, price, fee).None?
  {
  }

  lemma EdgeAtAMillion(debt: nat, coll: nat, price: nat)
    requires debt == 15_627 && coll == 19_408 && price == 1_000_000
    ensures Fits(debt, coll, price, 1) && Edge(debt, coll, price) == 9_091
  {
    UpperProbes(debt, coll, price);
    LowerProbes(debt, coll, price);
    SearchPath(FitsAt(debt, coll, price), debt);
  }

  lemma UpperProbes(debt: nat, coll: nat, price: nat)
    requires debt == 15_627 && coll == 19_408 && price == 1_000_000
    ensures !Fits(debt, coll, price, 11_720) && !Fits(debt, coll, price, 9_767) && !Fits(debt, coll, price, 9_278)
    ensures !Fits(debt, coll, price, 9_156) && !Fits(debt, coll, price, 9_095) && !Fits(debt, coll, price, 9_093)
    ensures !Fits(debt, coll, price, 9_092)
  {
  }

  lemma LowerProbes(debt: nat, coll: nat, price: nat)
    requires debt == 15_627 && coll == 19_408 && price == 1_000_000
    ensures Fits(debt, coll, price, 1) && Fits(debt, coll, price, 7_814) && Fits(debt, coll, price, 8_790)
    ensures Fits(debt, coll, price, 9_034) && Fits(debt, coll, price, 9_064) && Fits(debt, coll, price, 9_079)
    ensures Fits(debt, coll, price, 9_087) && Fits(debt, coll, price, 9_091)
  {
  }

  /** The search's way through these probes, its first half and its second. */
  lemma SearchPath(fits: nat -> bool, debt: nat)
    requires debt == 15_627 && fits(1) && fits(7_814) && !fits(11_720) && !fits(9_767) && fits(8_790)
    requires !fits(9_278) && fits(9_034) && !fits(9_156) && !fits(9_095) && fits(9_064) && fits(9_079)
    requires fits(9_087) && fits(9_091) && !fits(9_093) && !fits(9_092)
    ensures Search(fits, debt, 1, debt - 1) == 9_091
  {
    Probe(fits, debt, 1, 15_626, 7_814);
    Probe(fits, debt, 7_814, 15_626, 11_720);
    Probe(fits, debt, 7_814, 11_719, 9_767);
    Probe(fits, debt, 7_814, 9_766, 8_790);
    Probe(fits, debt, 8_790, 9_766, 9_278);
    Probe(fits, debt, 8_790, 9_277, 9_034);
    Probe(fits, debt, 9_034, 9_277, 9_156);
    SearchPathEnd(fits, debt);
  }

  lemma SearchPathEnd(fits: nat -> bool, debt: nat)
    requires debt == 15_627 && fits(9_034) && !fits(9_156) && !fits(9_095) && fits(9_064) && fits(9_079)
    requires fits(9_087) && fits(9_091) && !fits(9_093) && !fits(9_092)
    ensures Search(fits, debt, 9_034, 9_155) == 9_091
  {
    Probe(fits, debt, 9_034, 9_155, 9_095);
    Probe(fits, debt, 9_034, 9_094, 9_064);
    Probe(fits, debt, 9_064, 9_094, 9_079);
    Probe(fits, debt, 9_079, 9_094, 9_087);
    Probe(fits, debt, 9_087, 9_094, 9_091);
    Probe(fits, debt, 9_091, 9_094, 9_093);
    Probe(fits, debt, 9_091, 9_092, 9_092);
  }

  /** One probe of the search. */
  lemma Probe(fits: nat -> bool, debt: nat, lo: nat, hi: nat, mid: nat)
    requires 1 <= lo < hi < debt && fits(lo) && (hi == debt - 1 || !fits(hi + 1)) && mid == Mid(lo, hi)
    ensures Search(fits, debt, lo, hi)
            == if fits(mid) then Search(fits, debt, mid, hi) else Search(fits, debt, lo, mid - 1)
  {
  }

  // ----- the ladder

  /** What one look at (vault, tick) obliges a keeper to do; `hi` is the tick's highest quote. */
  function DecideAt(debt: nat, lastHeight: nat, value: nat, height: nat, hi: nat,
                    anchor: nat, refreshLag: nat, fee: nat): Action
  {
    if height <= lastHeight || debt > U32_MAX || debt == 0 then NoAction
    else if value < CollAtCr(debt, hi, K_PAR) then
      if height < anchor then NoAction else BadDebt
    else if value <= CollAtCr(debt, hi, K_FULL_LIQ_CAP) then FullLiq
    else if value < CollAtCr(debt, hi, K_HEALTH_GATE) then
      match Plan(debt, value, hi, fee)
      case Some((dd, residual)) => Partial(dd, residual)
      case None => NoAction
    else if height - lastHeight > refreshLag then Refresh
    else NoAction
  }

  function Decide(v: OnChainVault, tick: OracleTick, anchor: nat, refreshLag: nat, fee: nat): Action {
    DecideAt(v.state.debt, v.state.lastHeight, v.value, tick.height, HiPrice(tick.slots), anchor, refreshLag, fee)
  }

  /** How pressing an action is; zero is no liquidation at all. */
  function Rank(a: Action): nat {
    match a
    case BadDebt => 3
    case FullLiq => 2
    case Partial(_, _) => 1
    case _ => 0
  }

  /** Healing converges: once a partial verdict is carried out, the healed vault calls for no
      liquidation at the same tick, at any price, even where the floors of the bands collide. */
  lemma HealingConverges(debt: nat, lastHeight: nat, value: nat, height: nat, hi: nat,
                         anchor: nat, refreshLag: nat, fee: nat)
    requires DecideAt(debt, lastHeight, value, height, hi, anchor, refreshLag, fee).Partial?
    ensures var a := DecideAt(debt, lastHeight, value, height, hi, anchor, refreshLag, fee);
            var after := DecideAt(debt - a.dd, lastHeight, a.residual, height, hi, anchor, refreshLag, fee);
            after == if height - lastHeight > refreshLag then Refresh else NoAction
  {
    var a := DecideAt(debt, lastHeight, value, height, hi, anchor, refreshLag, fee);
    PlanIsFeasible(debt, value, hi, fee);
    var rd := debt - a.dd;
    // Above the full-liquidation cap: what is left of the cap after taking its share for dd.
    CollSplit(a.dd, rd, hi, K_FULL_LIQ_CAP);
    assert a.residual > CollAtCr(rd, hi, K_FULL_LIQ_CAP);
    CollMonotone(rd, rd, hi, K_PAR, K_FULL_LIQ_CAP);
    CollMonotone(rd, rd, hi, K_HEALTH_GATE, K_HEAL_LO);
  }

  /** Inside the partial band, from four cents of debt up and at every positive price, the
      planner refuses only for want of profit: the first test passes and the residual
      interval is never empty. */
  lemma BandRefusalIsUnprofitable(debt: nat, value: nat, price: nat, fee: nat)
    requires 4 <= debt <= U32_MAX && price > 0
    requires CollAtCr(debt, price, K_FULL_LIQ_CAP) < value < CollAtCr(debt, price, K_HEALTH_GATE)
    ensures Fits(debt, value, price, 1)
    ensures var dd := Edge(debt, value, price);
            var residual := Residual(debt, value, price, dd);
            && residual <= BandHi(debt, price, dd) && residual <= value
            && (Plan(debt, value, price, fee).None? <==> value - residual <= Share(price, dd) + fee)
  {
    var m := price * 200;
    FirstCentFits(debt, value, price);
    var dd := Edge(debt, value, price);
    CollMonotone(debt - dd, debt - dd, price, K_HEAL_LO, K_HEAL_HI);
    if dd == debt - 1 {
      CollMonotone(1, debt, price, K_HEAL_LO, K_FULL_LIQ_CAP);
    } else {
      // One more cent did not fit, so the collateral exceeds the reach there.
      var x, y := (dd + 1) * K_FULL_LIQ_CAP, (debt - dd - 1) * K_HEAL_HI;
      FloorSplit(x, y, m);
      FloorMonotone((debt - dd) * K_HEAL_LO, x + y, m);
    }
  }

  lemma FirstCentFits(debt: nat, value: nat, price: nat)
    requires 4 <= debt && price > 0
    requires value < CollAtCr(debt, price, K_HEALTH_GATE)
    ensures Fits(debt, value, price, 1)
  {
    var m := price * 200;
    var x, y := 1 * K_FULL_LIQ_CAP, (debt - 1) * K_HEAL_HI;
    FloorSplit(x, y, m);
    FloorMonotone(debt * K_HEALTH_GATE, x + y, m);
  }

  /** Four cents is the exact bound: with two or three cents of debt some vault in the
      partial band fails the first test. */
  lemma FirstCentNeedsFourCents()
    ensures CollAtCr(2, 1, K_FULL_LIQ_CAP) < 2_599_999 < CollAtCr(2, 1, K_HEALTH_GATE)
    ensures !Fits(2, 2_599_999, 1, 1)
    ensures CollAtCr(3, 1, K_FULL_LIQ_CAP) < 3_899_999 < CollAtCr(3, 1, K_HEALTH_GATE)
    ensures !Fits(3, 3_899_999, 1, 1)
  {
    assert Cap(1, 1) == 1_150_000;
    assert BandHi(2, 1, 1) == 1_370_000 && BandHi(3, 1, 1) == 2_740_000;
  }
}
