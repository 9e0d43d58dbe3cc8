/** Exactly which transactions the indexer misreads, and what that means for whole histories. */
module Misreads {
  import opened Prelude
  import opened Chain
  import opened IndexSpec
  import opened IndexTheorems
  import opened Ledger
  import opened Refinement

  // ----- a shadowed successor

  /** Where the pot, and the reserve, are taken to be after they were followed. */
  function LocatedPot(tx: Tx): Option<Singleton> { FollowPot(EMPTY, tx).st.pot }

  function LocatedReserve(tx: Tx): Option<Singleton> { FollowReserve(EMPTY, tx).st.reserve }

  /** A shadowed successor is not where the singleton is taken to be. */
  lemma ShadowMisleads(tx: Tx, n: nat)
    ensures Earlier(tx, PotSpk, Obol, n) ==> LocatedPot(tx).Some? && LocatedPot(tx).value.outpoint.vout < n
    ensures Earlier(tx, ReserveSpk, Policy, n) ==>
              LocatedReserve(tx).Some? && LocatedReserve(tx).value.outpoint.vout < n
  {
    EarlierLocated(tx, PotSpk, Obol, n);
    EarlierLocated(tx, ReserveSpk, Policy, n);
  }

  lemma EarlierLocated(tx: Tx, spk: Script, asset: Asset, n: nat)
    ensures Earlier(tx, spk, asset, n) ==>
              LocateCounted(tx, spk, asset).Some? && LocateCounted(tx, spk, asset).value.vout < n
  {
    if Earlier(tx, spk, asset, n) {
      var i :| 0 <= i < n && i < |tx.outputs| && Pays(tx.outputs[i], spk, asset);
    }
  }

  // ----- a spent pot is followed, whatever the transaction

  lemma DeltaLocates(st: Index, tx: Tx, grow: bool)
    requires st.pot.Some?
    ensures PotDelta(st, tx, grow).st.pot == LocatedPot(tx)
  {
  }

  lemma SpentLocates(st: Index, tx: Tx, pot: Option<nat>, reserve: Option<nat>)
    ensures pot.Some? ==> FollowSpent(st, tx, pot, reserve).st.pot == LocatedPot(tx)
    ensures reserve.Some? ==> FollowSpent(st, tx, pot, reserve).st.reserve == LocatedReserve(tx)
  {
    FollowReserveKeeps(if pot.Some? then FollowPot(st, tx).st else st, tx);
  }

  lemma OpenLocates(validKey: Key -> bool, owners: seq<Key>, st: Index, tx: Tx, idx: nat, anchor: nat, sp: Spends)
    requires st.pot.Some? && sp.pot.Some?
    ensures OpenArm(validKey, owners, st, tx, idx, anchor, sp).st.pot == LocatedPot(tx)
    ensures sp.reserve.Some? && PotDelta(st, tx, false).value.Some? ==>
              OpenArm(validKey, owners, st, tx, idx, anchor, sp).st.reserve == LocatedReserve(tx)
  {
    SpentLocates(st, tx, sp.pot, sp.reserve);
    DeltaLocates(st, tx, false);
    FollowReserveKeeps(PotDelta(st, tx, false).st, tx);
  }

  lemma DrawLocates(st: Index, tx: Tx, idx: nat, anchor: nat, sp: Spends)
    requires st.pot.Some? && sp.pot.Some? && sp.vaults == VaultInputs(tx, st.vaults, 0)
    ensures DrawArm(st, tx, idx, anchor, sp).st.pot == LocatedPot(tx)
  {
    SpentLocates(st, tx, sp.pot, sp.reserve);
    DeltaLocates(st, tx, false);
  }

  lemma AttestLocates(st: Index, tx: Tx, idx: nat, sp: Spends)
    requires sp.pot.Some? && sp.reserve.Some? && sp.vaults == VaultInputs(tx, st.vaults, 0)
    ensures AttestArm(st, tx, idx, sp).st.pot == LocatedPot(tx)
    ensures AttestArm(st, tx, idx, sp).st.reserve == LocatedReserve(tx)
  {
    SpentLocates(st, tx, sp.pot, sp.reserve);
    FollowReserveKeeps(FollowPot(st, tx).st, tx);
  }

  lemma RepayLocates(st: Index, tx: Tx, vop: OutPoint, v: TrackedVault)
    requires st.pot.Some?
    ensures RepayArm(st, tx, vop, v).st.pot == LocatedPot(tx)
  {
    DeltaLocates(st, tx, true);
  }

  lemma LiqLocates(st: Index, tx: Tx, vop: OutPoint, v: TrackedVault)
    requires st.pot.Some?
    ensures LiqArm(st, tx, vop, v).st.pot == LocatedPot(tx)
    ensures PotDelta(st, tx, true).value.Some? ==> LiqArm(st, tx, vop, v).st.reserve == LocatedReserve(tx)
  {
    DeltaLocates(st, tx, true);
    FollowReserveKeeps(PotDelta(st, tx, true).st, tx);
  }

  lemma VaultOpLocates(height: nat, st: Index, tx: Tx, vop: OutPoint, sp: Spends)
    requires vop in st.vaults && st.pot.Some? && sp.pot.Some?
    ensures VaultOp(height, st, tx, vop, sp).st.pot == LocatedPot(tx)
    ensures sp.reserve.Some? && PotDelta(st, tx, true).value.Some? ==>
              VaultOp(height, st, tx, vop, sp).st.reserve == LocatedReserve(tx)
  {
    var v, o := st.vaults[vop], VaultOp(height, st, tx, vop, sp);
    if |tx.inputs| == 4 && sp.pot == Some(1) && sp.reserve.None? {
      RepayLocates(st, tx, vop, v);
      assert o == RepayArm(st, tx, vop, v);
    } else if |tx.inputs| == 4 && sp.pot == Some(1) && sp.reserve == Some(3) {
      LiqLocates(st, tx, vop, v);
      assert o == LiqArm(st, tx, vop, v);
    } else {
      SpentLocates(MarkLost(st, vop, tx.txid, OutsideLayout).st, tx, sp.pot, sp.reserve);
    }
  }

  lemma DonationLocates(st: Index, tx: Tx, sp: Spends)
    ensures sp.pot.Some? ==> Donation(st, tx, sp).st.pot == LocatedPot(tx)
    ensures sp.reserve.Some? ==> Donation(st, tx, sp).st.reserve == LocatedReserve(tx)
  {
    FollowReserveKeeps(if sp.pot.Some? then FollowPot(st, tx).st else st, tx);
  }

  /** A spent pot is followed by every arm but a POKE's; so is a spent reserve, where the pot
      delta that the arm reads first is there. */
  lemma SingletonsLocated(validKey: Key -> bool, owners: seq<Key>, l: Ledger, height: nat, op: Op, tx: Tx, st: Index)
    requires Ready(validKey, owners, l, height, op, tx, st) && !op.Outside? && !op.Poke?
    ensures PotAfter(l, op).Some? ==> Apply(validKey, owners, height, st, tx).st.pot == LocatedPot(tx)
    ensures ReserveAfter(op).Some? && !Earlier(tx, PotSpk, Obol, 1)
            && !(Targets(op) && op.vault in st.vaults && Muddled(st.vaults[op.vault], l, op, tx)) ==>
              Apply(validKey, owners, height, st, tx).st.reserve == LocatedReserve(tx)
  {
    if op.Open? || op.Draw? || op.AttestBadDebt? {
      IssuerLocates(validKey, owners, l, height, op, tx, st);
    } else if Targets(op) && op.vault in st.vaults {
      VaultLocates(validKey, owners, l, height, op, tx, st);
    } else {
      PinnedSpends(l, st, op, tx);
      DonationLocates(st, tx, SpendsOf(st, tx));
    }
  }

  lemma IssuerLocates(validKey: Key -> bool, owners: seq<Key>, l: Ledger, height: nat, op: Op, tx: Tx, st: Index)
    requires Ready(validKey, owners, l, height, op, tx, st) && (op.Open? || op.Draw? || op.AttestBadDebt?)
    ensures Apply(validKey, owners, height, st, tx).st.pot == LocatedPot(tx)
    ensures ReserveAfter(op).Some? && !Earlier(tx, PotSpk, Obol, 1) ==>
              Apply(validKey, owners, height, st, tx).st.reserve == LocatedReserve(tx)
  {
    TokenFacts(validKey, owners, l, height, op, tx, st);
    var n, sp := TokenAfter(op).value.0, SpendsOf(st, tx);
    IssuerReached(validKey, owners, height, st, tx, sp.issuer.value, n, op.tick);
    var st1 := TokenAtOutput(st, tx.txid, n, op.tick);
    if op.Open? {
      OpenLocates(validKey, owners, st1, tx, op.at, op.tick, sp);
      if !Earlier(tx, PotSpk, Obol, 1) {
        DeltaRead(st1, tx, false, l.pot.value.value, SatSub(l.pot.value.value, op.amount));
      }
    } else if op.Draw? {
      DrawLocates(st1, tx, op.at, op.tick, sp);
    } else {
      AttestLocates(st1, tx, 4, sp);
    }
  }

  lemma VaultLocates(validKey: Key -> bool, owners: seq<Key>, l: Ledger, height: nat, op: Op, tx: Tx, st: Index)
    requires Ready(validKey, owners, l, height, op, tx, st) && Targets(op) && TokenAfter(op).None?
    requires op.vault in st.vaults
    ensures PotAfter(l, op).Some? ==> Apply(validKey, owners, height, st, tx).st.pot == LocatedPot(tx)
    ensures ReserveAfter(op).Some? && !Earlier(tx, PotSpk, Obol, 1) && !Muddled(st.vaults[op.vault], l, op, tx) ==>
              Apply(validKey, owners, height, st, tx).st.reserve == LocatedReserve(tx)
  {
    TargetFacts(validKey, owners, l, height, op, tx, st);
    if PotAfter(l, op).Some? {
      VaultOpLocates(height, st, tx, op.vault, SpendsOf(st, tx));
      if !Earlier(tx, PotSpk, Obol, 1) {
        DeltaRead(st, tx, true, l.pot.value.value, PotAfter(l, op).value);
      }
    }
  }

  /** Where a conforming transaction on a tracked vault goes without the issuer. */
  ghost predicate TargetLayout(l: Ledger, op: Op, tx: Tx, st: Index) {
    && Targets(op) && TokenAfter(op).None? && op.vault in st.vaults && op.vault in l.vaults && Live(l)
    && st.pot == l.pot && Agrees(st.vaults[op.vault], l.vaults[op.vault]) && !l.vaults[op.vault].husk
    && Newborn(tx) !in st.vaults && Newborn(tx) !in l.vaults && op.vault != Newborn(tx)
    && (PotAfter(l, op).Some? ==> PaysAt(tx, PotSpk, Obol, 1, PotAfter(l, op).value))
    && (NextVault(l, op).Some? ==> tx.outputs != [] && tx.outputs[0] == VaultOut(NextVault(l, op).value))
    && (op.Ratchet? ==> l.vaults[op.vault].state.lastHeight < op.tick)
    && (PotGift(op).Some? ==> l.pot.value.value <= PotGift(op).value)
  }

  function TargetSpends(op: Op): Spends { Spends(None, PotPin(op), ReservePin(op), [0]) }

  lemma TargetFacts(validKey: Key -> bool, owners: seq<Key>, l: Ledger, height: nat, op: Op, tx: Tx, st: Index)
    requires Ready(validKey, owners, l, height, op, tx, st) && Targets(op) && TokenAfter(op).None?
    requires op.vault in st.vaults
    ensures TargetLayout(l, op, tx, st) && SpendsOf(st, tx) == TargetSpends(op)
    ensures Apply(validKey, owners, height, st, tx) == VaultOp(height, st, tx, op.vault, TargetSpends(op))
  {
    PinnedSpends(l, st, op, tx);
    VaultReached(validKey, owners, height, st, tx, op.vault);
  }

  /** A shadowed successor is misread. */
  lemma ShadowIsSeen(validKey: Key -> bool, owners: seq<Key>, l: Ledger, height: nat, op: Op, tx: Tx, st: Index)
    requires Ready(validKey, owners, l, height, op, tx, st) && Shadowed(l, op, tx) && !op.Poke?
    requires !(Targets(op) && op.vault in st.vaults && Muddled(st.vaults[op.vault], l, op, tx))
    ensures !Shows(Apply(validKey, owners, height, st, tx).st, Step(l, op, tx.txid))
  {
    SingletonsLocated(validKey, owners, l, height, op, tx, st);
    if PotAfter(l, op).Some? && Earlier(tx, PotSpk, Obol, 1) {
      PotElsewhere(l, op, tx, Apply(validKey, owners, height, st, tx).st);
    } else {
      ReserveElsewhere(l, op, tx, Apply(validKey, owners, height, st, tx).st);
    }
  }

  lemma PotElsewhere(l: Ledger, op: Op, tx: Tx, s: Index)
    requires Targets(op) ==> op.vault in l.vaults
    requires !op.Outside? && PotAfter(l, op).Some? && Earlier(tx, PotSpk, Obol, 1) && s.pot == LocatedPot(tx)
    ensures !Shows(s, Step(l, op, tx.txid))
  {
    ShadowMisleads(tx, 1);
  }

  lemma ReserveElsewhere(l: Ledger, op: Op, tx: Tx, s: Index)
    requires Targets(op) ==> op.vault in l.vaults
    requires !op.Outside? && ReserveAfter(op).Some? && Earlier(tx, ReserveSpk, Policy, ReserveAfter(op).value.0)
    requires s.reserve == LocatedReserve(tx)
    ensures !Shows(s, Step(l, op, tx.txid))
  {
    ShadowMisleads(tx, ReserveAfter(op).value.0);
  }

  // ----- a muddled shape

  /** A count of inputs and pins that no arm has loses the vault. */
  lemma OffLayoutLoses(height: nat, st: Index, tx: Tx, vop: OutPoint, sp: Spends)
    requires vop in st.vaults
    requires !(|tx.inputs| == 2 && sp.pot.None? && sp.reserve.None?)
    requires !(3 <= |tx.inputs| <= 4 && sp.pot == Some(1) && sp.reserve.None?)
    requires !(|tx.inputs| == 4 && sp.pot == Some(1) && sp.reserve == Some(3))
    ensures var lost := VaultOp(height, st, tx, vop, sp).st.lost;
            vop in lost && lost[vop] == Lost(tx.txid, OutsideLayout)
  {
    FollowSpentKeeps(MarkLost(st, vop, tx.txid, OutsideLayout).st, tx, sp.pot, sp.reserve);
  }

  /** The CLOSE arm tracks no successor. */
  lemma CloseArmDrops(height: nat, st: Index, tx: Tx, vop: OutPoint, sp: Spends)
    requires vop in st.vaults && |tx.inputs| == 3 && sp.pot == Some(1) && sp.reserve.None?
    ensures VaultOp(height, st, tx, vop, sp).st.vaults == st.vaults - {vop}
  {
    FollowPotKeeps(st, tx);
  }

  /** Without growth of the pot the REPAY arm and the liquidation arm lose the vault. */
  lemma NoGrowthLoses(st: Index, tx: Tx, vop: OutPoint, v: TrackedVault)
    requires PotDelta(st, tx, true).value.None?
    ensures var lost := RepayArm(st, tx, vop, v).st.lost; vop in lost && lost[vop] == Lost(tx.txid, RepayWithoutPot)
    ensures var lost := LiqArm(st, tx, vop, v).st.lost; vop in lost && lost[vop] == Lost(tx.txid, LiqWithoutPot)
  {
  }

  /** The REPAY arm never ends a vault: it tracks a successor or loses the vault. */
  lemma RepayArmGoesOn(st: Index, tx: Tx, vop: OutPoint, v: TrackedVault)
    ensures vop in RepayArm(st, tx, vop, v).st.lost || Newborn(tx) in RepayArm(st, tx, vop, v).st.vaults
  {
  }

  lemma RepayMuddle(l: Ledger, height: nat, op: Op, tx: Tx, st: Index)
    requires TargetLayout(l, op, tx, st) && op.Repay? && Muddled(st.vaults[op.vault], l, op, tx)
    requires !Earlier(tx, PotSpk, Obol, 1)
    ensures !Shows(VaultOp(height, st, tx, op.vault, TargetSpends(op)).st, Step(l, op, tx.txid))
  {
    assert Newborn(tx) in Step(l, op, tx.txid).vaults;
    if |tx.inputs| == 3 {
      CloseArmDrops(height, st, tx, op.vault, TargetSpends(op));
    } else if |tx.inputs| == 4 {
      DeltaRead(st, tx, true, l.pot.value.value, l.pot.value.value);
      NoGrowthLoses(st, tx, op.vault, st.vaults[op.vault]);
    } else {
      OffLayoutLoses(height, st, tx, op.vault, TargetSpends(op));
    }
  }

  lemma DeleverageMuddle(l: Ledger, height: nat, op: Op, tx: Tx, st: Index)
    requires TargetLayout(l, op, tx, st) && op.Deleverage? && Muddled(st.vaults[op.vault], l, op, tx)
    requires !Earlier(tx, PotSpk, Obol, 1)
    ensures !Shows(VaultOp(height, st, tx, op.vault, TargetSpends(op)).st, Step(l, op, tx.txid))
  {
    if |tx.inputs| == 4 {
      DeltaRead(st, tx, true, l.pot.value.value, l.pot.value.value);
      NoGrowthLoses(st, tx, op.vault, st.vaults[op.vault]);
    } else {
      OffLayoutLoses(height, st, tx, op.vault, TargetSpends(op));
    }
  }

  lemma CloseMuddle(l: Ledger, height: nat, op: Op, tx: Tx, st: Index)
    requires TargetLayout(l, op, tx, st) && op.Close? && Muddled(st.vaults[op.vault], l, op, tx)
    ensures !Shows(VaultOp(height, st, tx, op.vault, TargetSpends(op)).st, Step(l, op, tx.txid))
  {
    if |tx.inputs| == 4 {
      RepayArmGoesOn(st, tx, op.vault, st.vaults[op.vault]);
      assert Newborn(tx) !in Step(l, op, tx.txid).vaults;
    } else {
      OffLayoutLoses(height, st, tx, op.vault, TargetSpends(op));
    }
  }

  lemma FullLiquidateMuddle(l: Ledger, height: nat, op: Op, tx: Tx, st: Index)
    requires TargetLayout(l, op, tx, st) && op.FullLiquidate? && Muddled(st.vaults[op.vault], l, op, tx)
    requires !Earlier(tx, PotSpk, Obol, 1)
    ensures !Shows(VaultOp(height, st, tx, op.vault, TargetSpends(op)).st, Step(l, op, tx.txid))
  {
    var debt := l.vaults[op.vault].state.debt;
    assert Newborn(tx) !in Step(l, op, tx.txid).vaults;
    if |tx.inputs| != 4 {
      OffLayoutLoses(height, st, tx, op.vault, TargetSpends(op));
    } else if debt == 0 {
      DeltaRead(st, tx, true, l.pot.value.value, l.pot.value.value);
      NoGrowthLoses(st, tx, op.vault, st.vaults[op.vault]);
    } else {
      RebornArmGoesOn(st, tx, op.vault, l.vaults[op.vault], l.pot.value.value + debt);
    }
  }

  lemma RebornArmGoesOn(st: Index, tx: Tx, vop: OutPoint, v: TrueVault, q: nat)
    requires st.pot.Some? && FirstAt(tx, PotSpk, Obol, 1, q) && q == st.pot.value.value + v.state.debt
    requires vop in st.vaults && Agrees(st.vaults[vop], v) && v.state.debt > 0 && Reborn(v, tx)
    ensures Newborn(tx) in LiqArm(st, tx, vop, st.vaults[vop]).st.vaults
  {
    DeltaRead(st, tx, true, st.pot.value.value, q);
  }

  /** A REFRESH with more inputs, or with a singleton riding along. */
  lemma RatchetMuddle(l: Ledger, height: nat, op: Op, tx: Tx, st: Index)
    requires TargetLayout(l, op, tx, st) && op.Ratchet? && Muddled(st.vaults[op.vault], l, op, tx)
    requires op.potTo.Some? ==> !Earlier(tx, PotSpk, Obol, 1)
    ensures !Shows(VaultOp(height, st, tx, op.vault, TargetSpends(op)).st, Step(l, op, tx.txid))
  {
    assert Newborn(tx) in Step(l, op, tx.txid).vaults;
    if op.potTo.Some? && |tx.inputs| == 3 && op.reserveGift.None? {
      CloseArmDrops(height, st, tx, op.vault, TargetSpends(op));
    } else if op.potTo.Some? && |tx.inputs| == 4 {
      RiderMuddle(l, height, op, tx, st);
    } else {
      OffLayoutLoses(height, st, tx, op.vault, TargetSpends(op));
    }
  }

  /** The four-input layouts with the pot riding along: the arm reads a repayment off its growth. */
  lemma RiderMuddle(l: Ledger, height: nat, op: Op, tx: Tx, st: Index)
    requires TargetLayout(l, op, tx, st) && op.Ratchet? && Muddled(st.vaults[op.vault], l, op, tx)
    requires op.potTo.Some? && |tx.inputs| == 4 && !Earlier(tx, PotSpk, Obol, 1)
    ensures !Shows(VaultOp(height, st, tx, op.vault, TargetSpends(op)).st, Step(l, op, tx.txid))
  {
    var t, v, q := st.vaults[op.vault], NextVault(l, op).value, op.potTo.value;
    DeltaRead(st, tx, true, l.pot.value.value, q);
    assert Step(l, op, tx.txid).vaults[Newborn(tx)] == v;
    if q == l.pot.value.value {
      NoGrowthLoses(st, tx, op.vault, t);
    } else if op.reserveGift.None? {
      RepayRiderArm(st, tx, op.vault, v, q);
    } else {
      LiqRiderArm(st, tx, op.vault, v, q);
    }
  }

  /** What such an arm sees: the old ratchet, and a successor that commits the new one. */
  ghost predicate RiderSeen(st: Index, tx: Tx, vop: OutPoint, v: TrueVault, q: nat) {
    && st.pot.Some? && st.pot.value.value < q && FirstAt(tx, PotSpk, Obol, 1, q)
    && vop in st.vaults && vop != Newborn(tx) && Newborn(tx) !in st.vaults
    && tx.outputs != [] && tx.outputs[0] == VaultOut(v) && st.vaults[vop].debt == v.state.debt
    && (v.published ==> st.vaults[vop].owner == Some(v.state.owner) && st.vaults[vop].lastHeight < v.state.lastHeight)
    && (!v.published ==> st.vaults[vop].owner.None?
                         && !(v.state.debt == 0 && v.state.lastHeight <= st.vaults[vop].lastHeight))
  }

  /** It loses the vault, drops it, or records the wrong debt or the old ratchet. */
  ghost predicate Mistaken(s: Index, vop: OutPoint, at: OutPoint, v: TrueVault) {
    vop in s.lost || at !in s.vaults || !Agrees(s.vaults[at], v)
  }

  lemma RepayRiderArm(st: Index, tx: Tx, vop: OutPoint, v: TrueVault, q: nat)
    requires RiderSeen(st, tx, vop, v, q)
    ensures Mistaken(RepayArm(st, tx, vop, st.vaults[vop]).st, vop, Newborn(tx), v)
  {
    DeltaRead(st, tx, true, st.pot.value.value, q);
  }

  lemma LiqRiderArm(st: Index, tx: Tx, vop: OutPoint, v: TrueVault, q: nat)
    requires RiderSeen(st, tx, vop, v, q)
    ensures Mistaken(LiqArm(st, tx, vop, st.vaults[vop]).st, vop, Newborn(tx), v)
  {
    DeltaRead(st, tx, true, st.pot.value.value, q);
  }

  /** A muddled shape is misread. */
  lemma MuddleIsSeen(validKey: Key -> bool, owners: seq<Key>, l: Ledger, height: nat, op: Op, tx: Tx, st: Index)
    requires Ready(validKey, owners, l, height, op, tx, st) && Targets(op) && op.vault in st.vaults
    requires Muddled(st.vaults[op.vault], l, op, tx)
    ensures !Shows(Apply(validKey, owners, height, st, tx).st, Step(l, op, tx.txid))
  {
    TargetFacts(validKey, owners, l, height, op, tx, st);
    if PotAfter(l, op).Some? && Earlier(tx, PotSpk, Obol, 1) {
      VaultOpLocates(height, st, tx, op.vault, TargetSpends(op));
      PotElsewhere(l, op, tx, VaultOp(height, st, tx, op.vault, TargetSpends(op)).st);
    } else {
      match op
      case Repay(_, _, _) => RepayMuddle(l, height, op, tx, st);
      case Deleverage(_, _, _, _) => DeleverageMuddle(l, height, op, tx, st);
      case FullLiquidate(_, _) => FullLiquidateMuddle(l, height, op, tx, st);
      case Close(_) => CloseMuddle(l, height, op, tx, st);
      case Ratchet(_, _, _, _, _) => RatchetMuddle(l, height, op, tx, st);
    }
  }

  /** A POKE with the pot or the reserve riding along leaves it at a spent outpoint. */
  lemma PokeRiderIsSeen(validKey: Key -> bool, owners: seq<Key>, l: Ledger, height: nat, op: Op, tx: Tx, st: Index)
    requires Ready(validKey, owners, l, height, op, tx, st) && op.Poke? && Gifts(op)
    ensures var s := Apply(validKey, owners, height, st, tx).st; s.pot == st.pot && s.reserve == st.reserve
    ensures !Shows(Apply(validKey, owners, height, st, tx).st, Step(l, op, tx.txid))
  {
    TokenFacts(validKey, owners, l, height, op, tx, st);
    IssuerReached(validKey, owners, height, st, tx, 0, 0, op.tick);
  }

  // ----- one transaction, exactly

  lemma TrackedStepShown(validKey: Key -> bool, owners: seq<Key>, l: Ledger, height: nat, op: Op, tx: Tx, st: Index)
    requires Clear(validKey, owners, l, height, op, tx, st) && Targets(op) && op.vault in st.vaults
    ensures Shows(Apply(validKey, owners, height, st, tx).st, Step(l, op, tx.txid))
  {
    match op
    case Repay(_, _, _) => RepayShown(validKey, owners, l, height, op, tx, st);
    case Draw(_, _, _, _, _) => DrawShown(validKey, owners, l, height, op, tx, st);
    case Ratchet(_, _, _, _, _) =>
      if Gifts(op) {
        LuckyRatchetShown(validKey, owners, l, height, op, tx, st);
      } else {
        RatchetShown(validKey, owners, l, height, op, tx, st);
      }
    case Deleverage(_, _, _, _) => DeleverageShown(validKey, owners, l, height, op, tx, st);
    case FullLiquidate(_, _) => FullLiquidateShown(validKey, owners, l, height, op, tx, st);
    case AttestBadDebt(_, _, _) => AttestShown(validKey, owners, l, height, op, tx, st);
    case Close(_) => CloseShown(validKey, owners, l, height, op, tx, st);
  }

  lemma OtherStepShown(validKey: Key -> bool, owners: seq<Key>, l: Ledger, height: nat, op: Op, tx: Tx, st: Index)
    requires Clear(validKey, owners, l, height, op, tx, st) && (Targets(op) ==> op.vault !in st.vaults)
    ensures Shows(Apply(validKey, owners, height, st, tx).st, Step(l, op, tx.txid))
  {
    match op
    case Outside(_, _, _) => OutsideShown(validKey, owners, l, height, op, tx, st);
    case Poke(_, _, _) => PokeShown(validKey, owners, l, height, op, tx, st);
    case Open(_, _, _, _, _, _, _) => OpenShown(validKey, owners, l, height, op, tx, st);
    case Draw(_, _, _, _, _) => HuskDrawShown(validKey, owners, l, height, op, tx, st);
    case AttestBadDebt(_, _, _) => AttestShown(validKey, owners, l, height, op, tx, st);
    case _ => DonationShown(validKey, owners, l, height, op, tx, st);
  }

  /** One conforming transaction: the index goes on showing the ledger exactly when it is not
      one of those the indexer misreads. */
  lemma StepShown(validKey: Key -> bool, owners: seq<Key>, l: Ledger, height: nat, op: Op, tx: Tx, st: Index)
    requires Ready(validKey, owners, l, height, op, tx, st)
    ensures Shows(Apply(validKey, owners, height, st, tx).st, Step(l, op, tx.txid)) <==> !Misread(st, l, op, tx)
  {
    if Targets(op) && op.vault in st.vaults && Muddled(st.vaults[op.vault], l, op, tx) {
      MuddleIsSeen(validKey, owners, l, height, op, tx, st);
    } else if op.Poke? && Gifts(op) {
      PokeRiderIsSeen(validKey, owners, l, height, op, tx, st);
    } else if Shadowed(l, op, tx) {
      ShadowIsSeen(validKey, owners, l, height, op, tx, st);
    } else if Targets(op) && op.vault in st.vaults {
      TrackedStepShown(validKey, owners, l, height, op, tx, st);
    } else {
      OtherStepShown(validKey, owners, l, height, op, tx, st);
    }
  }

  /** A FULL-LIQ that pays the vault's own address without its debt is, pin for pin, a REDEEM of
      the whole debt, and the index shows that reading of it. */
  lemma RebornIsARedemption(validKey: Key -> bool, owners: seq<Key>, l: Ledger, height: nat, op: Op, tx: Tx, st: Index)
    requires Ready(validKey, owners, l, height, op, tx, st) && op.FullLiquidate? && Reborn(l.vaults[op.vault], tx)
    ensures var twin := Deleverage(op.vault, l.vaults[op.vault].state.debt, tx.outputs[0].value.value, op.reserveTo);
            && Conforms(validKey, owners, l, height, twin, tx)
            && (Shows(Apply(validKey, owners, height, st, tx).st, Step(l, twin, tx.txid))
                <==> !Misread(st, l, twin, tx))
  {
    var twin := Deleverage(op.vault, l.vaults[op.vault].state.debt, tx.outputs[0].value.value, op.reserveTo);
    assert NextVault(l, twin).value.state == l.vaults[op.vault].state.(debt := 0);
    assert OutputsPinned(l, twin, tx);
    assert InputsPinned(l, twin, tx);
    StepShown(validKey, owners, l, height, twin, tx, st);
  }

  /** A repayment of nothing loses a tracked vault whose successor is live. */
  lemma EmptyRepayLoses(validKey: Key -> bool, owners: seq<Key>, l: Ledger, height: nat, op: Op, tx: Tx, st: Index)
    requires Ready(validKey, owners, l, height, op, tx, st) && op.Repay? && op.amount == 0 && |tx.inputs| == 4
    requires op.vault in st.vaults
    requires !Shadowed(l, op, tx)
    ensures var s := Apply(validKey, owners, height, st, tx).st;
            && s.lost == map[op.vault := Lost(tx.txid, RepayWithoutPot)]
            && s.vaults == st.vaults - {op.vault}
            && Newborn(tx) in Step(l, op, tx.txid).vaults
  {
    TargetFacts(validKey, owners, l, height, op, tx, st);
    DeltaRead(st, tx, true, l.pot.value.value, l.pot.value.value);
    PotDeltaKeeps(st, tx, true);
  }

  // ----- whole runs

  /** A conforming history: the ledger's states along a run of transactions, from the start. */
  ghost predicate History(validKey: Key -> bool, owners: seq<Key>, run: seq<Item>, ops: seq<Op>, ls: seq<Ledger>) {
    && |ops| == |run| && |ls| == |run| + 1 && ls[0] == GENESIS
    && forall k :: 0 <= k < |run| ==> Transition(validKey, owners, ls[k], run[k], ops[k], ls[k + 1])
  }

  ghost predicate Transition(validKey: Key -> bool, owners: seq<Key>, l: Ledger, item: Item, op: Op, m: Ledger) {
    Conforms(validKey, owners, l, item.height, op, item.tx) && m == Step(l, op, item.tx.txid)
  }

  /** The transaction of item `k` is misread by the index that has scanned the ones before it. */
  ghost predicate MisreadAt(validKey: Key -> bool, owners: seq<Key>, run: seq<Item>, ops: seq<Op>, ls: seq<Ledger>,
                            k: nat)
    requires History(validKey, owners, run, ops, ls) && k < |run|
  {
    assert Transition(validKey, owners, ls[k], run[k], ops[k], ls[k + 1]);
    Misread(Scan(validKey, owners, run[..k]), ls[k], ops[k], run[k].tx)
  }

  lemma {:induction false} HistoryWellFormed(validKey: Key -> bool, owners: seq<Key>, run: seq<Item>, ops: seq<Op>,
                                             ls: seq<Ledger>, k: nat)
    requires History(validKey, owners, run, ops, ls) && k <= |run|
    ensures WellFormed(ls[k])
  {
    if k > 0 {
      HistoryWellFormed(validKey, owners, run, ops, ls, k - 1);
      assert Transition(validKey, owners, ls[k - 1], run[k - 1], ops[k - 1], ls[k]);
      StepKeepsWellFormed(validKey, owners, ls[k - 1], run[k - 1].height, ops[k - 1], run[k - 1].tx);
    }
  }

  /** Refinement. Along every conforming history the index shows the ledger after each
      transaction, as long as none so far was one of those it misreads. */
  lemma {:induction false} EveryHistoryIsShown(validKey: Key -> bool, owners: seq<Key>, run: seq<Item>, ops: seq<Op>,
                                               ls: seq<Ledger>, n: nat)
    requires History(validKey, owners, run, ops, ls) && n <= |run|
    requires forall k :: 0 <= k < n ==> !MisreadAt(validKey, owners, run, ops, ls, k)
    ensures Shows(Scan(validKey, owners, run[..n]), ls[n])
  {
    if n > 0 {
      var m := n - 1;
      EveryHistoryIsShown(validKey, owners, run, ops, ls, m);
      HistoryWellFormed(validKey, owners, run, ops, ls, m);
      assert !MisreadAt(validKey, owners, run, ops, ls, m);
      StepOfHistory(validKey, owners, run, ops, ls, m);
    }
  }

  lemma StepOfHistory(validKey: Key -> bool, owners: seq<Key>, run: seq<Item>, ops: seq<Op>, ls: seq<Ledger>, m: nat)
    requires History(validKey, owners, run, ops, ls) && m < |run|
    requires WellFormed(ls[m]) && Shows(Scan(validKey, owners, run[..m]), ls[m])
    ensures Shows(Scan(validKey, owners, run[..m + 1]), ls[m + 1]) <==> !MisreadAt(validKey, owners, run, ops, ls, m)
  {
    assert Transition(validKey, owners, ls[m], run[m], ops[m], ls[m + 1]);
    StepShown(validKey, owners, ls[m], run[m].height, ops[m], run[m].tx, Scan(validKey, owners, run[..m]));
    assert run[..m + 1][..m] == run[..m];
  }

  /** The converse: the first misread transaction is where the index stops showing the ledger. */
  lemma FirstMisreadIsSeen(validKey: Key -> bool, owners: seq<Key>, run: seq<Item>, ops: seq<Op>, ls: seq<Ledger>,
                           n: nat)
    requires History(validKey, owners, run, ops, ls) && n < |run|
    requires forall k :: 0 <= k < n ==> !MisreadAt(validKey, owners, run, ops, ls, k)
    requires MisreadAt(validKey, owners, run, ops, ls, n)
    ensures !Shows(Scan(validKey, owners, run[..n + 1]), ls[n + 1])
  {
    EveryHistoryIsShown(validKey, owners, run, ops, ls, n);
    HistoryWellFormed(validKey, owners, run, ops, ls, n);
    StepOfHistory(validKey, owners, run, ops, ls, n);
  }
}
