/** The checked builders' gates for the keeper's four vault operations, and the promise that
    the ladder never names an operation its builder would refuse. */
module Builders {
  import opened Prelude
  import opened CovenantMath
  import opened Chain
  import opened Oracle
  import opened Planner

  /** The flat transaction fee, in satoshis. */
  const FEE: nat := 10_000

  datatype BuildError =
    | ZeroPrice
    | StaleTick(tick: nat, anchor: nat)
    | RatchetNotAdvanced(tick: nat, lastHeight: nat)
    | ZeroAmount
    | NotPartial(dd: nat, debt: nat)
    | VaultTooHealthy(gate: nat, have: nat)
    | HealOutOfBand(residual: nat, lo: nat, hi: nat)
    | ExtractionExceedsCap(extraction: nat, cap: nat)
    | CrOutOfBand(coll: nat, floor: nat, cap: nat)
    | NotUnderwater(debtSats: nat, coll: nat)
    | Undercollateralized(need: nat, have: nat)
    | InsufficientPayer(need: nat, have: nat)
    | InsufficientFunding(need: nat, have: nat)
    | DebtExceedsU32(debt: nat)
    | Overflow
    | Underflow

  /** The price and ratchet tests that open every keeper operation. */
  function CheckVaultTick(v: VaultState, tick: OracleTick): Option<BuildError> {
    if LoPrice(tick.slots) == 0 then Some(ZeroPrice)
    else if tick.height <= v.lastHeight then Some(RatchetNotAdvanced(tick.height, v.lastHeight))
    else if v.debt > U32_MAX then Some(DebtExceedsU32(v.debt))
    else None
  }

  /** The refusal, if any, of a partial liquidation paid from an OBOL coin of `coin`. */
  function CheckLiquidate(v: OnChainVault, tick: OracleTick, dd: nat, residual: nat, coin: nat, fee: nat)
    : Option<BuildError>
  {
    var (debt, hi) := (v.state.debt, HiPrice(tick.slots));
    var gate := CollAtCr(debt, hi, K_HEALTH_GATE);
    if CheckVaultTick(v.state, tick).Some? then CheckVaultTick(v.state, tick)
    else if v.value >= gate then Some(VaultTooHealthy(gate, v.value))
    else if dd == 0 then Some(ZeroAmount)
    else if dd >= debt then Some(NotPartial(dd, debt))
    else if residual < BandLo(debt, hi, dd) || residual > BandHi(debt, hi, dd)
      then Some(HealOutOfBand(residual, BandLo(debt, hi, dd), BandHi(debt, hi, dd)))
    else if residual > v.value then Some(Underflow)
    else if v.value - residual > Cap(hi, dd) then Some(ExtractionExceedsCap(v.value - residual, Cap(hi, dd)))
    else if coin < dd then Some(InsufficientPayer(dd, coin))
    else if Share(hi, dd) + fee > U64_MAX then Some(Overflow)
    else if v.value - residual <= Share(hi, dd) + fee
      then Some(InsufficientFunding(Share(hi, dd) + fee, v.value - residual))
    else None
  }

  /** The refusal, if any, of a full liquidation; the coin must exceed the debt. */
  function CheckFullLiq(v: OnChainVault, tick: OracleTick, coin: nat): Option<BuildError> {
    var (debt, hi) := (v.state.debt, HiPrice(tick.slots));
    var (floor, cap) := (CollAtCr(debt, hi, K_PAR), CollAtCr(debt, hi, K_FULL_LIQ_CAP));
    if CheckVaultTick(v.state, tick).Some? then CheckVaultTick(v.state, tick)
    else if v.value < floor || v.value > cap then Some(CrOutOfBand(v.value, floor, cap))
    else if coin <= debt then Some(InsufficientPayer(debt + 1, coin))
    else None
  }

  /** The refusal, if any, of a bad-debt attestation. */
  function CheckBadDebt(v: OnChainVault, tick: OracleTick, anchor: nat, coin: nat, feeCoin: nat, fee: nat)
    : Option<BuildError>
  {
    var par := CollAtCr(v.state.debt, HiPrice(tick.slots), K_PAR);
    if LoPrice(tick.slots) == 0 then Some(ZeroPrice)
    else if tick.height < anchor then Some(StaleTick(tick.height, anchor))
    else if CheckVaultTick(v.state, tick).Some? then CheckVaultTick(v.state, tick)
    else if v.value >= par then Some(NotUnderwater(par, v.value))
    else if coin < v.state.debt then Some(InsufficientPayer(v.state.debt, coin))
    else if feeCoin <= fee then Some(InsufficientFunding(fee, feeCoin))
    else None
  }

  /** The refusal, if any, of a refresh. */
  function CheckRefresh(v: OnChainVault, tick: OracleTick, feeCoin: nat, fee: nat): Option<BuildError> {
    var need := CollAtCr(v.state.debt, HiPrice(tick.slots), K_HEALTH_GATE);
    if CheckVaultTick(v.state, tick).Some? then CheckVaultTick(v.state, tick)
    else if v.value < need then Some(Undercollateralized(need, v.value))
    else if feeCoin <= fee then Some(InsufficientFunding(fee, feeCoin))
    else None
  }

  /** The keeper's coins for an action, as it picks them before building: for a partial, what
      covers the amount decided at the flat fee. */
  predicate CoinsFor(a: Action, debt: nat, coin: nat, feeCoin: nat) {
    match a
    case Partial(dd, _) => coin >= dd
    case FullLiq => coin >= debt + 1
    case BadDebt => coin >= debt && feeCoin >= FEE + 1
    case Refresh => feeCoin >= FEE + 1
    case NoAction => true
  }

  /** What the builder of an action says at a given fee. */
  function CheckAction(a: Action, v: OnChainVault, tick: OracleTick, anchor: nat,
                       coin: nat, feeCoin: nat, fee: nat): Option<BuildError>
  {
    match a
    case Partial(dd, residual) => CheckLiquidate(v, tick, dd, residual, coin, fee)
    case FullLiq => CheckFullLiq(v, tick, coin)
    case BadDebt => CheckBadDebt(v, tick, anchor, coin, feeCoin, fee)
    case Refresh => CheckRefresh(v, tick, feeCoin, fee)
    case NoAction => None
  }

  /** Every verdict is accepted by the builder it names, and so is the rebuild at any lower
      estimated fee, which decides the very same action. */
  lemma EveryVerdictBuilds(v: OnChainVault, tick: OracleTick, anchor: nat, refreshLag: nat,
                           coin: nat, feeCoin: nat, fee: nat)
    requires fee <= FEE && LoPrice(tick.slots) > 0
    requires CoinsFor(Decide(v, tick, anchor, refreshLag, FEE), v.state.debt, coin, feeCoin)
    requires Decide(v, tick, anchor, refreshLag, FEE) != NoAction
    ensures Decide(v, tick, anchor, refreshLag, fee) == Decide(v, tick, anchor, refreshLag, FEE)
    ensures CheckAction(Decide(v, tick, anchor, refreshLag, fee), v, tick, anchor, coin, feeCoin, fee) == None
  {
    var hi := HiPrice(tick.slots);
    var a := Decide(v, tick, anchor, refreshLag, FEE);
    if a.Partial? {
      PlanStableUnderLowerFee(v.state.debt, v.value, hi, FEE, fee);
      PlanIsFeasible(v.state.debt, v.value, hi, fee);
      ShareIsSmall(hi, a.dd);
    }
  }

  /** The converse: where the ladder sees no liquidation, no builder accepts one. Bad debt and
      full liquidation are refused outright. A partial one is refused at every amount and
      residual too, with two exceptions: an underwater vault that waits for a tick at the anchor,
      and a vault in the partial band at a price that is not steady. */
  lemma IdleMeansNothingBuilds(v: OnChainVault, tick: OracleTick, anchor: nat, refreshLag: nat,
                               coin: nat, feeCoin: nat, fee: nat, dd: nat, residual: nat)
    requires LoPrice(tick.slots) > 0 && v.state.debt > 0
    requires Rank(Decide(v, tick, anchor, refreshLag, fee)) == 0
    ensures CheckBadDebt(v, tick, anchor, coin, feeCoin, fee).Some?
    ensures CheckFullLiq(v, tick, coin).Some?
    ensures var (debt, hi) := (v.state.debt, HiPrice(tick.slots));
            && v.value >= CollAtCr(debt, hi, K_PAR)
            && (Steady(hi) || v.value >= CollAtCr(debt, hi, K_HEALTH_GATE)) ==>
              CheckLiquidate(v, tick, dd, residual, coin, fee).Some?
  {
    var debt, hi := v.state.debt, HiPrice(tick.slots);
    CollMonotone(debt, debt, hi, K_PAR, K_FULL_LIQ_CAP);
    CollMonotone(debt, debt, hi, K_FULL_LIQ_CAP, K_HEALTH_GATE);
    if Steady(hi) {
      PlanIsComplete(debt, v.value, hi, fee);
      assert CheckLiquidate(v, tick, dd, residual, coin, fee).None? ==>
          Feasible(debt, v.value, hi, fee, dd, residual);
    }
  }

  /** The ladder, verdict by verdict, is what the builders accept. Bad debt and full liquidation:
      exactly when their builders would. Refresh: exactly when its builder would, the vault is above
      the full-liquidation band and the tick is more than the lag past the ratchet. Partial: at a
      steady price, exactly when the vault is above that band and its builder would accept some
      amount and residual. A vault without debt is left alone. */
  lemma LadderIsTheBuilders(v: OnChainVault, tick: OracleTick, anchor: nat, refreshLag: nat, fee: nat)
    requires LoPrice(tick.slots) > 0 && fee <= FEE
    ensures var (a, debt, hi) := (Decide(v, tick, anchor, refreshLag, fee), v.state.debt, HiPrice(tick.slots));
            && (debt == 0 ==> a == NoAction)
            && (debt > 0 ==>
                  && (a == BadDebt <==> CheckBadDebt(v, tick, anchor, debt, fee + 1, fee) == None)
                  && (a == FullLiq <==> CheckFullLiq(v, tick, debt + 1) == None)
                  && (a == Refresh <==>
                        && CheckRefresh(v, tick, fee + 1, fee) == None && v.value > CollAtCr(debt, hi, 230_000_000)
                        && tick.height > v.state.lastHeight + refreshLag)
                  && (Steady(hi) ==>
                        (a.Partial? <==>
                           && v.value > CollAtCr(debt, hi, 230_000_000)
                           && exists dd, residual :: CheckLiquidate(v, tick, dd, residual, dd, fee) == None)))
  {
    var debt, hi := v.state.debt, HiPrice(tick.slots);
    CollMonotone(debt, debt, hi, K_PAR, K_FULL_LIQ_CAP);
    CollMonotone(debt, debt, hi, K_FULL_LIQ_CAP, K_HEALTH_GATE);
    if Steady(hi) && debt > 0 && v.value > CollAtCr(debt, hi, K_FULL_LIQ_CAP) {
      PartialIsTheBuilder(v, tick, anchor, refreshLag, fee);
    }
  }

  lemma PartialIsTheBuilder(v: OnChainVault, tick: OracleTick, anchor: nat, refreshLag: nat, fee: nat)
    requires LoPrice(tick.slots) > 0 && fee <= FEE && v.state.debt > 0 && Steady(HiPrice(tick.slots))
    requires v.value > CollAtCr(v.state.debt, HiPrice(tick.slots), K_FULL_LIQ_CAP)
    ensures Decide(v, tick, anchor, refreshLag, fee).Partial? <==>
            exists dd, residual :: CheckLiquidate(v, tick, dd, residual, dd, fee) == None
  {
    var debt, hi := v.state.debt, HiPrice(tick.slots);
    CollMonotone(debt, debt, hi, K_PAR, K_FULL_LIQ_CAP);
    var a := Decide(v, tick, anchor, refreshLag, fee);
    if a.Partial? {
      PlanIsFeasible(debt, v.value, hi, fee);
      ShareIsSmall(hi, a.dd);
      assert CheckLiquidate(v, tick, a.dd, a.residual, a.dd, fee) == None;
    } else {
      forall dd, residual ensures CheckLiquidate(v, tick, dd, residual, dd, fee) != None {
        NoPlanNoBuild(v, tick, anchor, refreshLag, fee, dd, residual);
      }
    }
  }

  lemma NoPlanNoBuild(v: OnChainVault, tick: OracleTick, anchor: nat, refreshLag: nat, fee: nat, dd: nat, residual: nat)
    requires v.state.debt > 0 && Steady(HiPrice(tick.slots))
    requires v.value > CollAtCr(v.state.debt, HiPrice(tick.slots), K_FULL_LIQ_CAP)
    requires v.value >= CollAtCr(v.state.debt, HiPrice(tick.slots), K_PAR)
    requires !Decide(v, tick, anchor, refreshLag, fee).Partial?
    ensures CheckLiquidate(v, tick, dd, residual, dd, fee) != None
  {
    var debt, hi := v.state.debt, HiPrice(tick.slots);
    PlanIsComplete(debt, v.value, hi, fee);
    assert CheckLiquidate(v, tick, dd, residual, dd, fee) == None ==> Feasible(debt, v.value, hi, fee, dd, residual);
  }

  lemma ShareIsSmall(price: nat, dd: nat)
    requires dd <= U32_MAX
    ensures Share(price, dd) + FEE <= U64_MAX
  {
    if price > 0 {
      SmallQuotient(dd * K_RESERVE_SHARE, price * 200);
    }
  }

  // ----- the fee actually paid

  const HEADROOM: nat := 2
  const FEE_FLOOR: nat := 300

  /** The fee for a transaction of `vsize` vbytes at the node's relay rate, if it tells one. */
  function NetworkFee(rate: Option<nat>, vsize: nat): (fee: nat)
    ensures FEE_FLOOR <= fee <= FEE
  {
    if rate.None? then FEE
    else
      var base := DivCeil(Min(rate.value * vsize, U64_MAX), 1000);
      Max(FEE_FLOOR, Min(FEE, Min(base * HEADROOM, U64_MAX)))
  }

  /** The fee, in plain terms: twice the relay fee of the transaction, rounded up to a satoshi before
      doubling, but never under 300 nor over 10,000 satoshis; 10,000 if the node does not tell. */
  lemma NetworkFeeIsTwiceTheRelayFee(rate: nat, vsize: nat, base: nat)
    requires 1000 * base >= rate * vsize && (base > 0 ==> 1000 * (base - 1) < rate * vsize)
    ensures NetworkFee(Some(rate), vsize)
            == if 2 * base < 300 then 300 else if 2 * base > 10_000 then 10_000 else 2 * base
    ensures NetworkFee(None, vsize) == 10_000
  {
    var n := rate * vsize;
    if n <= U64_MAX {
      RoundedUp(n, base);
    } else {
      assert DivCeil(U64_MAX, 1000) >= 10_000;
    }
  }

  lemma RoundedUp(n: nat, base: nat)
    requires 1000 * base >= n && (base > 0 ==> 1000 * (base - 1) < n)
    ensures DivCeil(n, 1000) == base
  {
  }

  /** What is broadcast: an action and the fee it pays. */
  datatype Paid = Paid(action: Action, fee: nat)

  /** Deciding again, building and signing at a fee; signing may fail. */
  function BuildAt(v: OnChainVault, tick: OracleTick, anchor: nat, refreshLag: nat, coin: nat, feeCoin: nat,
                   signs: nat -> bool, fee: nat): Option<Paid>
  {
    var a := Decide(v, tick, anchor, refreshLag, fee);
    if a != NoAction && CheckAction(a, v, tick, anchor, coin, feeCoin, fee) == None && signs(fee)
    then Some(Paid(a, fee)) else None
  }

  /** A provisional build at the flat fee, then a rebuild at the network fee if that is lower,
      with the provisional one to fall back on. */
  function BroadcastEstimated(v: OnChainVault, tick: OracleTick, anchor: nat, refreshLag: nat, coin: nat, feeCoin: nat,
                              signs: nat -> bool, rate: Option<nat>, vsize: nat): Option<Paid>
  {
    var provisional := BuildAt(v, tick, anchor, refreshLag, coin, feeCoin, signs, FEE);
    var fee := NetworkFee(rate, vsize);
    if provisional.None? || fee >= FEE then provisional
    else
      var rebuilt := BuildAt(v, tick, anchor, refreshLag, coin, feeCoin, signs, fee);
      if rebuilt.Some? then rebuilt else provisional
  }

  /** Only a failed signature takes the fallback: if the provisional transaction is signed, what
      is broadcast is the action decided at the flat fee, paying exactly the network fee unless
      the rebuild cannot be signed, and the flat fee then. */
  lemma PaysTheNetworkFee(v: OnChainVault, tick: OracleTick, anchor: nat, refreshLag: nat, coin: nat, feeCoin: nat,
                          signs: nat -> bool, rate: Option<nat>, vsize: nat)
    requires LoPrice(tick.slots) > 0 && Decide(v, tick, anchor, refreshLag, FEE) != NoAction
    requires CoinsFor(Decide(v, tick, anchor, refreshLag, FEE), v.state.debt, coin, feeCoin)
    ensures BroadcastEstimated(v, tick, anchor, refreshLag, coin, feeCoin, signs, rate, vsize)
            == if !signs(FEE) then None
               else Some(Paid(Decide(v, tick, anchor, refreshLag, FEE),
                              if signs(NetworkFee(rate, vsize)) then NetworkFee(rate, vsize) else FEE))
  {
    EveryVerdictBuilds(v, tick, anchor, refreshLag, coin, feeCoin, FEE);
    EveryVerdictBuilds(v, tick, anchor, refreshLag, coin, feeCoin, NetworkFee(rate, vsize));
  }
}
