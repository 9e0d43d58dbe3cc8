/** Laws of the indexer for arbitrary transactions, well formed or not: where the singletons go,
    which anchor is recovered, and what becomes of vaults spent outside the layouts. */
module AnyTransaction {
  import opened Prelude
  import opened Chain
  import opened IndexSpec
  import opened IndexTheorems
  import opened Ledger
  import opened Refinement
  import opened Misreads

  // ----- the issuer

  /** Output `n` is the token at the anchor `h`: one unit, at the first output that pays it. */
  ghost predicate TokenPaid(tx: Tx, h: nat, n: nat) {
    && n < |tx.outputs| && tx.outputs[n] == TxOut(Some(IssuerToken), Some(1), IssuerSpk(h))
    && !Earlier(tx, IssuerSpk(h), IssuerToken, n)
  }

  /** An anchor that the transaction may commit to: no lower than the last one, and no later than
      its lock time and its block. */
  ghost predicate Candidate(tx: Tx, height: nat, floor: nat, h: nat, n: nat) {
    floor <= h && h <= tx.lockTime && h <= height && TokenPaid(tx, h, n)
  }

  lemma TokenPaidIsLocated(tx: Tx, h: nat, n: nat)
    ensures TokenAt(tx, h) == Some(n) <==> TokenPaid(tx, h, n)
  {
    if TokenPaid(tx, h, n) {
      LocateFirst(tx, IssuerSpk(h), IssuerToken, n, 1);
    }
  }

  /** Where the token is after a transaction that spends it: at the highest anchor it may commit
      to, and nowhere exactly when there is none. */
  lemma AnchorIsTheHighest(validKey: Key -> bool, owners: seq<Key>, height: nat, st: Index, tx: Tx)
    requires st.issuer.Some? && SpendsOf(st, tx).issuer.Some? && Newborn(tx) !in st.vaults
    ensures var (floor, after) := (st.issuer.value.anchor, Apply(validKey, owners, height, st, tx).st.issuer);
            && (after.None? <==> forall h: nat, n: nat :: !Candidate(tx, height, floor, h, n))
            && (after.Some? ==>
                  && after.value.value == 1 && after.value.outpoint.txid == tx.txid
                  && Candidate(tx, height, floor, after.value.anchor, after.value.outpoint.vout)
                  && forall h: nat, n: nat :: Candidate(tx, height, floor, h, n) ==> h <= after.value.anchor)
  {
    var floor := st.issuer.value.anchor;
    forall h: nat, n: nat ensures TokenAt(tx, h) == Some(n) <==> TokenPaid(tx, h, n) {
      TokenPaidIsLocated(tx, h, n);
    }
    FoundIsHighest(tx, height, floor);
    IssuerIsFound(validKey, owners, height, st, tx);
  }

  lemma FoundIsHighest(tx: Tx, height: nat, floor: nat)
    requires forall h: nat, n: nat :: TokenAt(tx, h) == Some(n) <==> TokenPaid(tx, h, n)
    ensures var found := FindAnchor(tx, HeightCap(tx, height), floor);
            && (found.None? <==> forall h: nat, n: nat :: !Candidate(tx, height, floor, h, n))
            && (found.Some? ==>
                  && TokenAt(tx, found.value).Some?
                  && Candidate(tx, height, floor, found.value, TokenAt(tx, found.value).value)
                  && forall h: nat, n: nat :: Candidate(tx, height, floor, h, n) ==> h <= found.value)
  {
    var found := FindAnchor(tx, HeightCap(tx, height), floor);
    assert forall h: nat, n: nat :: Candidate(tx, height, floor, h, n) ==> TokenAt(tx, h) == Some(n);
    if found.Some? {
      var n := TokenAt(tx, found.value).value;
      assert TokenAt(tx, found.value) == Some(n);
      assert Candidate(tx, height, floor, found.value, n);
    }
  }

  lemma IssuerIsFound(validKey: Key -> bool, owners: seq<Key>, height: nat, st: Index, tx: Tx)
    requires st.issuer.Some? && SpendsOf(st, tx).issuer.Some? && Newborn(tx) !in st.vaults
    ensures var found := FindAnchor(tx, HeightCap(tx, height), st.issuer.value.anchor);
            Apply(validKey, owners, height, st, tx).st.issuer
            == if found.None? then None
               else Some(IssuerCoin(found.value, OutPoint(tx.txid, TokenAt(tx, found.value).value), 1))
  {
    var sp := SpendsOf(st, tx);
    var found := FindAnchor(tx, HeightCap(tx, height), st.issuer.value.anchor);
    if found.Some? {
      var vout := TokenAt(tx, found.value).value;
      var st1 := TokenAtOutput(st, tx.txid, vout, found.value);
      if vout == 4 {
        OpenEffect(validKey, owners, st1, tx, sp.issuer.value, found.value, sp);
      } else if vout == 3 && sp.reserve.None? {
        var gone := DrawEffect(st1, tx, sp.issuer.value, found.value, sp);
      } else if vout == 3 {
        var gone := AttestEffect(st1, tx, sp.issuer.value, sp);
      } else {
        FollowSpentKeeps(st1, tx, sp.pot, sp.reserve);
      }
    }
  }

  /** What an issuer spend must look like to be read as an operation, by the output of the token. */
  ghost predicate Pinned(tx: Tx, sp: Spends, n: nat) {
    sp.issuer.Some? && var idx := sp.issuer.value;
    match n
    case 0 => idx == 0
    case 4 => idx > 0 && sp.pot == Some(idx - 1) && sp.reserve == Some(3)
    case 3 =>
      if sp.reserve.None? then idx > 0 && sp.pot == Some(idx - 1) && 0 in sp.vaults
      else idx == 4 && sp.pot == Some(1) && sp.reserve == Some(3) && 0 in sp.vaults
    case _ => false
  }

  /** What is said of one that does not look like it. */
  function Stray(n: nat, reserve: Option<nat>): What {
    match n
    case 0 => PokeOffInput0
    case 4 => OpenWithoutPins
    case 3 => if reserve.None? then DrawWithoutPins else AttestWithoutPins
    case _ => UnpinnedOutput
  }

  /** Every issuer spend outside the pins is an anomaly, told first and by its name, and leaves
      every vault as it is; one whose token is not found is told as that and nothing else. */
  lemma AnomaliesAreTold(validKey: Key -> bool, owners: seq<Key>, height: nat, st: Index, tx: Tx, n: nat, h: nat)
    requires st.issuer.Some? && SpendsOf(st, tx).issuer.Some?
    ensures var (sp, o) := (SpendsOf(st, tx), Apply(validKey, owners, height, st, tx));
            var found := FindAnchor(tx, HeightCap(tx, height), st.issuer.value.anchor);
            && (found.None? ==> o == Out(st.(issuer := None), [Anomaly(NoAnchorFound)]))
            && (found == Some(h) && TokenAt(tx, h) == Some(n) && !Pinned(tx, sp, n) ==>
                  && o.ev != [] && o.ev[0] == Anomaly(Stray(n, sp.reserve))
                  && o.st.vaults == st.vaults && o.st.lost == st.lost)
  {
    var sp := SpendsOf(st, tx);
    if FindAnchor(tx, HeightCap(tx, height), st.issuer.value.anchor) == Some(h) && TokenAt(tx, h) == Some(n)
       && !Pinned(tx, sp, n) {
      ZeroComesFirst(tx, st.vaults);
      UnpinnedStrays(validKey, owners, height, st, tx, sp, n, h);
      FollowSpentKeeps(TokenAtOutput(st, tx.txid, n, h), tx, sp.pot, sp.reserve);
    }
  }

  lemma ZeroComesFirst(tx: Tx, vaults: map<OutPoint, TrackedVault>)
    ensures var at := VaultInputs(tx, vaults, 0); 0 in at <==> at != [] && at[0] == 0
  {
    var at := VaultInputs(tx, vaults, 0);
    if 0 in at {
      var i :| 0 <= i < |at| && at[i] == 0;
    }
  }

  lemma UnpinnedStrays(validKey: Key -> bool, owners: seq<Key>, height: nat, st: Index, tx: Tx, sp: Spends,
                       n: nat, h: nat)
    requires st.issuer.Some? && sp == SpendsOf(st, tx) && sp.issuer.Some? && !Pinned(tx, sp, n)
    requires FindAnchor(tx, HeightCap(tx, height), st.issuer.value.anchor) == Some(h) && TokenAt(tx, h) == Some(n)
    requires 0 in sp.vaults <==> sp.vaults != [] && sp.vaults[0] == 0
    ensures IssuerOp(validKey, owners, height, st, tx, sp)
            == Strayed(TokenAtOutput(st, tx.txid, n, h), tx, sp, Stray(n, sp.reserve))
  {
  }

  // ----- pot and reserve

  /** The two issuer spends that look at no singleton: one whose token is not found, and a POKE. */
  ghost predicate LooksAway(height: nat, st: Index, tx: Tx) {
    var sp := SpendsOf(st, tx);
    sp.issuer.Some? && st.issuer.Some?
    && var found := FindAnchor(tx, HeightCap(tx, height), st.issuer.value.anchor);
       found.None? || (TokenAt(tx, found.value) == Some(0) && sp.issuer == Some(0))
  }

  /** A spent pot goes to the first output that pays its address in its asset, or is given up,
      whatever the transaction, unless it is one that looks away. */
  lemma SpentPotIsFollowed(validKey: Key -> bool, owners: seq<Key>, height: nat, st: Index, tx: Tx)
    requires SpendsOf(st, tx).pot.Some? && !LooksAway(height, st, tx)
    ensures Apply(validKey, owners, height, st, tx).st.pot == LocatedPot(tx)
  {
    var sp := SpendsOf(st, tx);
    if sp.issuer.Some? {
      IssuerFollowsPot(validKey, owners, height, st, tx, sp);
    } else if |sp.vaults| > 1 || (sp.vaults != [] && sp.vaults[0] != 0) {
      SpentLocates(LoseAll(st, tx, sp.vaults).st, tx, sp.pot, sp.reserve);
    } else if sp.vaults != [] {
      VaultOpLocates(height, st, tx, tx.inputs[0].prev, sp);
    } else {
      DonationLocates(st, tx, sp);
    }
  }

  lemma IssuerFollowsPot(validKey: Key -> bool, owners: seq<Key>, height: nat, st: Index, tx: Tx, sp: Spends)
    requires sp == SpendsOf(st, tx) && sp.pot.Some? && sp.issuer.Some? && !LooksAway(height, st, tx)
    ensures IssuerOp(validKey, owners, height, st, tx, sp).st.pot == LocatedPot(tx)
  {
    var anchor := FindAnchor(tx, HeightCap(tx, height), st.issuer.value.anchor).value;
    var vout := TokenAt(tx, anchor).value;
    var st1 := TokenAtOutput(st, tx.txid, vout, anchor);
    if vout == 4 {
      OpenLocates(validKey, owners, st1, tx, sp.issuer.value, anchor, sp);
    } else if vout == 3 && sp.reserve.None? {
      DrawLocates(st1, tx, sp.issuer.value, anchor, sp);
    } else if vout == 3 {
      AttestLocates(st1, tx, sp.issuer.value, sp);
    } else {
      SpentLocates(st1, tx, sp.pot, sp.reserve);
    }
  }

  /** The arms that read the pot first: an OPEN in its pins, and the liquidation layout. */
  ghost predicate ReadsPotFirst(height: nat, st: Index, tx: Tx) {
    var sp := SpendsOf(st, tx);
    if sp.issuer.Some? && st.issuer.Some? then
      var found := FindAnchor(tx, HeightCap(tx, height), st.issuer.value.anchor);
      found.Some? && TokenAt(tx, found.value) == Some(4) && Pinned(tx, sp, 4)
    else sp.vaults == [0] && |tx.inputs| == 4 && sp.pot == Some(1)
  }

  /** So does a spent reserve; the arms that read the pot first follow it only once the pot shows
      the delta they look for. */
  lemma SpentReserveIsFollowed(validKey: Key -> bool, owners: seq<Key>, height: nat, st: Index, tx: Tx)
    requires SpendsOf(st, tx).reserve.Some? && !LooksAway(height, st, tx)
    requires ReadsPotFirst(height, st, tx) ==> PotDelta(st, tx, SpendsOf(st, tx).issuer.None?).value.Some?
    ensures Apply(validKey, owners, height, st, tx).st.reserve == LocatedReserve(tx)
  {
    var sp := SpendsOf(st, tx);
    if sp.issuer.Some? {
      IssuerFollowsReserve(validKey, owners, height, st, tx, sp);
    } else if |sp.vaults| > 1 || (sp.vaults != [] && sp.vaults[0] != 0) {
      SpentLocates(LoseAll(st, tx, sp.vaults).st, tx, sp.pot, sp.reserve);
    } else if sp.vaults != [] {
      VaultFollowsReserve(height, st, tx, tx.inputs[0].prev, sp);
    } else {
      DonationLocates(st, tx, sp);
    }
  }

  lemma VaultFollowsReserve(height: nat, st: Index, tx: Tx, vop: OutPoint, sp: Spends)
    requires vop in st.vaults && sp.reserve.Some? && (sp.pot.Some? ==> st.pot.Some?)
    requires |tx.inputs| == 4 && sp.pot == Some(1) ==> PotDelta(st, tx, true).value.Some?
    ensures VaultOp(height, st, tx, vop, sp).st.reserve == LocatedReserve(tx)
  {
    if |tx.inputs| == 4 && sp.pot == Some(1) && sp.reserve == Some(3) {
      LiqLocates(st, tx, vop, st.vaults[vop]);
    } else {
      SpentLocates(MarkLost(st, vop, tx.txid, OutsideLayout).st, tx, sp.pot, sp.reserve);
    }
  }

  lemma IssuerFollowsReserve(validKey: Key -> bool, owners: seq<Key>, height: nat, st: Index, tx: Tx, sp: Spends)
    requires sp == SpendsOf(st, tx) && sp.reserve.Some? && sp.issuer.Some? && !LooksAway(height, st, tx)
    requires ReadsPotFirst(height, st, tx) ==> PotDelta(st, tx, false).value.Some?
    ensures IssuerOp(validKey, owners, height, st, tx, sp).st.reserve == LocatedReserve(tx)
  {
    var anchor := FindAnchor(tx, HeightCap(tx, height), st.issuer.value.anchor).value;
    var vout := TokenAt(tx, anchor).value;
    var st1 := TokenAtOutput(st, tx.txid, vout, anchor);
    SpentLocates(st1, tx, sp.pot, sp.reserve);
    if vout == 4 && Pinned(tx, sp, 4) {
      SamePotSameDelta(st, st1, tx);
      OpenLocates(validKey, owners, st1, tx, sp.issuer.value, anchor, sp);
    } else if vout == 3 {
      AttestFollowsReserve(st1, tx, sp.issuer.value, sp);
    }
  }

  lemma SamePotSameDelta(a: Index, b: Index, tx: Tx)
    requires a.pot == b.pot
    ensures PotDelta(a, tx, false).value == PotDelta(b, tx, false).value
  {
  }

  lemma AttestFollowsReserve(st: Index, tx: Tx, idx: nat, sp: Spends)
    requires sp.reserve.Some? && sp.vaults == VaultInputs(tx, st.vaults, 0)
    ensures AttestArm(st, tx, idx, sp).st.reserve == LocatedReserve(tx)
  {
    SpentLocates(st, tx, sp.pot, sp.reserve);
  }

  /** What follows only what was spent leaves the rest. */
  lemma UnspentStays(st: Index, tx: Tx, pot: Option<nat>, reserve: Option<nat>)
    ensures pot.None? ==> FollowSpent(st, tx, pot, reserve).st.pot == st.pot
    ensures reserve.None? ==> FollowSpent(st, tx, pot, reserve).st.reserve == st.reserve
  {
    FollowReserveKeeps(if pot.Some? then FollowPot(st, tx).st else st, tx);
    FollowPotKeeps(st, tx);
  }

  /** A live singleton that is not spent stays where it is, whatever the transaction. */
  lemma UnspentSingletonsStay(validKey: Key -> bool, owners: seq<Key>, height: nat, st: Index, tx: Tx)
    requires DistinctInputs(tx) && Fresh(st, tx)
    ensures var (sp, s) := (SpendsOf(st, tx), Apply(validKey, owners, height, st, tx).st);
            && (sp.pot.None? && st.pot.Some? ==> s.pot == st.pot)
            && (sp.reserve.None? && st.reserve.Some? ==> s.reserve == st.reserve)
            && (sp.issuer.None? && st.issuer.Some? ==> s.issuer == st.issuer)
  {
    var sp := SpendsOf(st, tx);
    if sp.issuer.Some? {
      IssuerLeavesUnspent(validKey, owners, height, st, tx, sp);
    } else if |sp.vaults| > 1 || (sp.vaults != [] && sp.vaults[0] != 0) {
      LoseAllLeaves(st, tx, sp.vaults);
      UnspentStays(LoseAll(st, tx, sp.vaults).st, tx, sp.pot, sp.reserve);
      ManyVaultsEffect(st, tx, sp);
    } else if sp.vaults != [] {
      VaultLeavesUnspent(height, st, tx, tx.inputs[0].prev, sp);
      VaultOpEffect(height, st, tx, tx.inputs[0].prev, sp);
    } else if sp.pot.Some? || sp.reserve.Some? {
      DonationKeeps(st, tx, sp);
      FollowReserveKeeps(if sp.pot.Some? then FollowPot(st, tx).st else st, tx);
      FollowPotKeeps(st, tx);
    } else {
      NonProtocolKeeps(st, tx, height);
      BirthsLeaveTheLiving(st, tx, height);
    }
  }

  lemma BirthsLeaveTheLiving(st: Index, tx: Tx, height: nat)
    ensures st.pot.Some? ==> NonProtocol(height, st, tx).st.pot == st.pot
    ensures st.reserve.Some? ==> NonProtocol(height, st, tx).st.reserve == st.reserve
  {
    IssuerBirthKeeps(ReserveBirth(PotBirth(st, tx).st, tx).st, tx, height, 0);
    BirthOnlyIssuer(ReserveBirth(PotBirth(st, tx).st, tx).st, tx, height, 0);
  }

  lemma {:induction false} BirthOnlyIssuer(st: Index, tx: Tx, height: nat, n: nat)
    requires n <= |tx.outputs|
    ensures IssuerBirth(st, tx, height, n).st == st.(issuer := IssuerBirth(st, tx, height, n).st.issuer)
    decreases |tx.outputs| - n
  {
    if n < |tx.outputs| {
      BirthOnlyIssuer(st, tx, height, n + 1);
    }
  }

  lemma {:induction false} LoseAllLeaves(st: Index, tx: Tx, at: seq<nat>)
    requires forall i :: 0 <= i < |at| ==> at[i] < |tx.inputs|
    ensures LoseAll(st, tx, at).st.pot == st.pot && LoseAll(st, tx, at).st.reserve == st.reserve
  {
    if at != [] {
      LoseAllLeaves(st, tx, at[..|at| - 1]);
    }
  }

  lemma VaultLeavesUnspent(height: nat, st: Index, tx: Tx, vop: OutPoint, sp: Spends)
    requires vop in st.vaults
    ensures sp.pot.None? ==> VaultOp(height, st, tx, vop, sp).st.pot == st.pot
    ensures sp.reserve.None? ==> VaultOp(height, st, tx, vop, sp).st.reserve == st.reserve
  {
    UnspentStays(MarkLost(st, vop, tx.txid, OutsideLayout).st, tx, sp.pot, sp.reserve);
    FollowPotKeeps(st, tx);
    PotDeltaKeeps(st, tx, true);
  }

  lemma IssuerLeavesUnspent(validKey: Key -> bool, owners: seq<Key>, height: nat, st: Index, tx: Tx, sp: Spends)
    requires sp == SpendsOf(st, tx) && sp.issuer.Some?
    ensures sp.pot.None? ==> IssuerOp(validKey, owners, height, st, tx, sp).st.pot == st.pot
    ensures sp.reserve.None? ==> IssuerOp(validKey, owners, height, st, tx, sp).st.reserve == st.reserve
  {
    var found := FindAnchor(tx, HeightCap(tx, height), st.issuer.value.anchor);
    if found.Some? {
      var vout := TokenAt(tx, found.value).value;
      var st1 := TokenAtOutput(st, tx.txid, vout, found.value);
      if vout == 4 {
        OpenLeavesUnspent(validKey, owners, st1, tx, sp.issuer.value, found.value, sp);
      } else if vout == 3 && sp.reserve.None? {
        DrawLeavesUnspent(st1, tx, sp.issuer.value, found.value, sp);
      } else {
        UnspentStays(st1, tx, sp.pot, sp.reserve);
      }
    }
  }

  lemma OpenLeavesUnspent(validKey: Key -> bool, owners: seq<Key>, st: Index, tx: Tx, idx: nat, anchor: nat, sp: Spends)
    ensures sp.pot.None? ==> OpenArm(validKey, owners, st, tx, idx, anchor, sp).st.pot == st.pot
    ensures sp.reserve.None? ==> OpenArm(validKey, owners, st, tx, idx, anchor, sp).st.reserve == st.reserve
  {
    UnspentStays(st, tx, sp.pot, sp.reserve);
  }

  lemma DrawLeavesUnspent(st: Index, tx: Tx, idx: nat, anchor: nat, sp: Spends)
    requires sp.vaults == VaultInputs(tx, st.vaults, 0)
    ensures sp.pot.None? ==> DrawArm(st, tx, idx, anchor, sp).st.pot == st.pot
    ensures sp.reserve.None? ==> DrawArm(st, tx, idx, anchor, sp).st.reserve == st.reserve
  {
    UnspentStays(st, tx, sp.pot, sp.reserve);
    PotDeltaKeeps(st, tx, false);
  }

  // ----- vaults outside the layouts

  /** Every given input's vault is lost, with the transaction that spent it. */
  lemma {:induction false} AllAreLost(st: Index, tx: Tx, at: seq<nat>)
    requires forall i :: 0 <= i < |at| ==> at[i] < |tx.inputs|
    ensures var o := LoseAll(st, tx, at);
            forall i :: 0 <= i < |at| ==>
              var op := tx.inputs[at[i]].prev;
              op in o.st.lost && o.st.lost[op] == Lost(tx.txid, OutsideLayout) && VaultLost(op, OutsideLayout) in o.ev
  {
    if at != [] {
      AllAreLost(st, tx, at[..|at| - 1]);
    }
  }

  /** Two vaults in one transaction, or a vault away from input 0: without the issuer every one of
      them is lost, named with the transaction. */
  lemma ManyVaultsAreLost(validKey: Key -> bool, owners: seq<Key>, height: nat, st: Index, tx: Tx, k: nat)
    requires SpendsOf(st, tx).issuer.None? && k < |tx.inputs| && tx.inputs[k].prev in st.vaults
    requires k > 0 || exists i :: 0 < i < |tx.inputs| && tx.inputs[i].prev in st.vaults
    ensures var (o, op) := (Apply(validKey, owners, height, st, tx), tx.inputs[k].prev);
            op in o.st.lost && o.st.lost[op] == Lost(tx.txid, OutsideLayout) && VaultLost(op, OutsideLayout) in o.ev
  {
    var sp := SpendsOf(st, tx);
    assert k in sp.vaults;
    if k == 0 {
      var i :| 0 < i < |tx.inputs| && tx.inputs[i].prev in st.vaults;
      assert i in sp.vaults;
    }
    AllAreLost(st, tx, sp.vaults);
    FollowSpentKeeps(LoseAll(st, tx, sp.vaults).st, tx, sp.pot, sp.reserve);
  }

  /** A REFRESH-shaped spend of a resolved vault is tracked on exactly when output 0 commits to
      its debt and owner at a later ratchet, in the policy asset, within lock time and block. */
  lemma RefreshIsStrict(st: Index, tx: Tx, height: nat, vop: OutPoint, v: TrackedVault)
    requires v.owner.Some? && v.lastHeight < U32_MAX && Newborn(tx) !in st.vaults && tx.outputs != []
    ensures var out0 := tx.outputs[0];
            Newborn(tx) in RefreshArm(st, tx, height, vop, v).st.vaults <==>
              && Explicit(out0, Policy).Some? && out0.spk.VaultSpk? && out0.spk.debt == v.debt
              && out0.spk.owner == v.owner.value && v.lastHeight < out0.spk.lastHeight
              && out0.spk.lastHeight <= tx.lockTime && out0.spk.lastHeight <= height
  {
    var r := FindRatchet(tx.outputs[0].spk, v.debt, v.owner.value, HeightCap(tx, height), v.lastHeight + 1);
  }

  // ----- what each arm makes of the outputs it is given

  /** A successor is tracked exactly when output 0 is there, explicit in the policy asset and, for a
      known owner, at the address of the claimed state; else the vault is lost, for the first of
      these that fails. */
  lemma SuccessorIsRead(st: Index, vop: OutPoint, next: TrackedVault, tx: Tx, move: Move)
    requires Newborn(tx) !in st.vaults && vop != Newborn(tx)
    ensures var o := Successor(st, vop, next, tx, move);
            if tx.outputs == [] then Given(o, st, vop, Lost(tx.txid, NoOutputs))
            else if !PolicyAt(tx, 0) then Given(o, st, vop, Lost(tx.txid, NotExplicitPolicy))
            else if next.owner.Some? && tx.outputs[0].spk != VaultSpk(next.debt, next.owner.value, next.lastHeight)
              then Given(o, st, vop, Lost(tx.txid, SpkMismatch))
            else && Newborn(tx) in o.st.vaults && o.st.lost == st.lost
                 && o.st.vaults[Newborn(tx)] == next.(value := tx.outputs[0].value.value, spk := tx.outputs[0].spk)
  {
  }

  /** Output `n` is explicit in the policy asset. */
  ghost predicate PolicyAt(tx: Tx, n: nat) {
    n < |tx.outputs| && tx.outputs[n].asset == Some(Policy) && tx.outputs[n].value.Some?
  }

  /** The vault is given up, with the record and its notice. */
  ghost predicate Given(o: Out, st: Index, vop: OutPoint, lost: Lost) {
    && vop !in o.st.vaults && o.st.lost == st.lost[vop := lost]
    && VaultLost(vop, lost.reason) in o.ev
  }

  /** A newborn vault is tracked exactly when output 0 is explicit in the policy asset; what is
      missing is an anomaly. */
  lemma BirthIsRead(validKey: Key -> bool, owners: seq<Key>, st: Index, tx: Tx, at: nat, debt: nat, h: nat)
    ensures var o := Born(validKey, owners, st, tx, at, debt, h);
            if tx.outputs == [] then o == Out(st, [Anomaly(OpenWithoutOutputs)])
            else if !PolicyAt(tx, 0) then o == Out(st, [Anomaly(OpenNotExplicit)])
            else && Newborn(tx) in o.st.vaults && o.st.lost == st.lost
                 && var v := o.st.vaults[Newborn(tx)];
                    && v.debt == debt && v.lastHeight == h && v.value == tx.outputs[0].value.value
                    && v.spk == tx.outputs[0].spk
  {
  }

  /** The pot delta of any transaction: there exactly when a successor is found that differs from
      the old value in the direction claimed; otherwise an anomaly says which is missing. */
  lemma DeltaIsRead(st: Index, tx: Tx, grow: bool)
    requires st.pot.Some?
    ensures var (d, p, q) := (PotDelta(st, tx, grow), st.pot.value.value, LocatedPot(tx));
            if q.None? then d.value.None? && d.ev == [Anomaly(PotWithoutSuccessor)]
            else if grow && p < q.value.value then d.value == Some(q.value.value - p)
            else if !grow && q.value.value < p then d.value == Some(p - q.value.value)
            else d.value.None? && d.ev != []
                 && d.ev[|d.ev| - 1] == Anomaly(if grow then RepaymentWithoutGrow else MintWithoutShrink)
  {
  }

  /** The shared liquidation layout on any vault whose repayment shows in the pot. A known owner: the
      vault goes on exactly if output 0 pays the address of what is left; an unknown one: exactly if
      its debt was not repaid to the cent. A vault that does not go on was liquidated in full if the
      whole debt was repaid, and is lost if not. */
  lemma LiquidationIsRead(st: Index, tx: Tx, vop: OutPoint, v: TrackedVault, amount: nat)
    requires PotDelta(st, tx, true).value == Some(amount) && vop != Newborn(tx) && Newborn(tx) !in st.vaults
    ensures var o := LiqArm(st, tx, vop, v);
            var left := if amount <= v.debt then v.debt - amount else 0;
            var goesOn := if v.owner.Some?
                          then PolicyAt(tx, 0) && tx.outputs[0].spk == VaultSpk(left, v.owner.value, v.lastHeight)
                          else amount != v.debt;
            && vop !in o.st.vaults
            && (goesOn && PolicyAt(tx, 0) ==>
                  && Newborn(tx) in o.st.vaults && o.st.vaults[Newborn(tx)].debt == left
                  && Deleveraged(vop, Newborn(tx), amount) in o.ev && o.st.lost == st.lost)
            && (!goesOn && amount == v.debt ==>
                  Newborn(tx) !in o.st.vaults && FullyLiquidated(vop) in o.ev && o.st.lost == st.lost)
            && (!goesOn && amount != v.debt ==> o.st.lost == st.lost[vop := Lost(tx.txid, SurvivingDebt)])
  {
    PotDeltaKeeps(st, tx, true);
    FollowReserveKeeps(PotDelta(st, tx, true).st, tx);
    LiqArmEnds(st, tx, vop, v, amount);
  }

  /** The liquidation arm past the pot and the reserve. */
  lemma LiqArmEnds(st: Index, tx: Tx, vop: OutPoint, v: TrackedVault, amount: nat)
    requires PotDelta(st, tx, true).value == Some(amount)
    ensures var (o, d) := (LiqArm(st, tx, vop, v), PotDelta(st, tx, true));
            var r := FollowReserve(d.st, tx);
            var (st1, debt) := (r.st.(vaults := r.st.vaults - {vop}), SatSub(v.debt, amount));
            var removed := if v.owner.Some?
                           then !(PolicyAt(tx, 0) && tx.outputs[0].spk == VaultSpk(debt, v.owner.value, v.lastHeight))
                           else amount == v.debt;
            o == if !removed then
                   var s := Successor(st1, vop, v.(debt := debt), tx, MDeleverage(amount));
                   Out(s.st, d.ev + r.ev + s.ev)
                 else if amount != v.debt then
                   var s := MarkLost(st1, vop, tx.txid, SurvivingDebt);
                   Out(s.st, d.ev + r.ev + s.ev)
                 else Out(st1, d.ev + r.ev + [FullyLiquidated(vop)])
  {
  }

  /** A transaction that spends nothing tracked and pays the address of a live singleton in its
      asset is told as a fragment of it, and no other is. */
  lemma FragmentsAreTold(st: Index, tx: Tx, height: nat)
    ensures var ev := NonProtocol(height, st, tx).ev;
            && (Fragment(PotRole) in ev <==> st.pot.Some? && Earlier(tx, PotSpk, Obol, |tx.outputs|))
            && (Fragment(ReserveRole) in ev <==> st.reserve.Some? && Earlier(tx, ReserveSpk, Policy, |tx.outputs|))
            && (Fragment(IssuerRole) in ev <==>
                  st.issuer.Some? && Earlier(tx, IssuerSpk(st.issuer.value.anchor), IssuerToken, |tx.outputs|))
  {
    var p := PotBirth(st, tx);
    var r := ReserveBirth(p.st, tx);
    var i := IssuerWatch(r.st, tx, height);
    PotFragments(st, tx);
    ReserveFragments(p.st, tx);
    IssuerFragments(r.st, tx, height);
    assert NonProtocol(height, st, tx).ev == p.ev + r.ev + i.ev;
  }

  lemma PotFragments(st: Index, tx: Tx)
    ensures var o := PotBirth(st, tx);
            && o.st.reserve == st.reserve && o.st.issuer == st.issuer
            && (Fragment(PotRole) in o.ev <==> st.pot.Some? && Earlier(tx, PotSpk, Obol, |tx.outputs|))
            && forall e :: e in o.ev && e.Fragment? ==> e == Fragment(PotRole)
  {
    SomePaying(tx, PotSpk, Obol);
  }

  lemma ReserveFragments(st: Index, tx: Tx)
    ensures var o := ReserveBirth(st, tx);
            && o.st.issuer == st.issuer
            && (Fragment(ReserveRole) in o.ev <==> st.reserve.Some? && Earlier(tx, ReserveSpk, Policy, |tx.outputs|))
            && forall e :: e in o.ev && e.Fragment? ==> e == Fragment(ReserveRole)
  {
    SomePaying(tx, ReserveSpk, Policy);
  }

  lemma IssuerFragments(st: Index, tx: Tx, height: nat)
    ensures var o := IssuerWatch(st, tx, height);
            && (Fragment(IssuerRole) in o.ev <==>
                  st.issuer.Some? && Earlier(tx, IssuerSpk(st.issuer.value.anchor), IssuerToken, |tx.outputs|))
            && forall e :: e in o.ev && e.Fragment? ==> e == Fragment(IssuerRole)
  {
    if st.issuer.Some? {
      SomePaying(tx, IssuerSpk(st.issuer.value.anchor), IssuerToken);
    } else {
      NoFragmentAtBirth(st, tx, height, 0);
    }
  }

  lemma SomePaying(tx: Tx, spk: Script, asset: Asset)
    ensures LocateCounted(tx, spk, asset).Some? <==> Earlier(tx, spk, asset, |tx.outputs|)
  {
  }

  lemma {:induction false} NoFragmentAtBirth(st: Index, tx: Tx, height: nat, n: nat)
    requires n <= |tx.outputs|
    ensures forall e :: e in IssuerBirth(st, tx, height, n).ev ==> !e.Fragment?
    decreases |tx.outputs| - n
  {
    if n < |tx.outputs| {
      NoFragmentAtBirth(st, tx, height, n + 1);
    }
  }

  /** Output `k` is one unit of the token. */
  predicate UnitAt(tx: Tx, k: nat) {
    k < |tx.outputs| && tx.outputs[k].asset == Some(IssuerToken) && tx.outputs[k].value == Some(1)
  }

  /** Its address commits to an anchor that is not later than the block. */
  predicate Derivable(tx: Tx, height: nat, k: nat) {
    UnitAt(tx, k) && tx.outputs[k].spk.IssuerSpk? && tx.outputs[k].spk.lastMintHeight <= height
  }

  function Units(tx: Tx, n: nat, k: nat): nat
    requires n <= k
    decreases k - n
  {
    if n == k then 0 else (if UnitAt(tx, n) then 1 else 0) + Units(tx, n + 1, k)
  }

  /** So many underivable tokens. */
  function Alarms(m: nat): seq<Event> { if m == 0 then [] else [Anomaly(UnderivableIssuer)] + Alarms(m - 1) }

  lemma OneMoreUnit(tx: Tx, height: nat, n: nat, m: nat)
    requires n < |tx.outputs| && !Derivable(tx, height, n)
    ensures Explicit(tx.outputs[n], IssuerToken) == Some(1) <==> UnitAt(tx, n)
    ensures UnitAt(tx, n) ==> AnchorOf(tx.outputs[n], height).None?
    ensures Alarms(m + 1) == [Anomaly(UnderivableIssuer)] + Alarms(m)
  {
  }

  /** The issuer is born at the first derivable unit of the token, after an anomaly for each unit
      before it. */
  lemma {:induction false} IssuerIsBornFirst(st: Index, tx: Tx, height: nat, n: nat, k: nat)
    requires n <= k && Derivable(tx, height, k) && forall j :: n <= j < k ==> !Derivable(tx, height, j)
    ensures var (o, h) := (IssuerBirth(st, tx, height, n), tx.outputs[k].spk.lastMintHeight);
            && o.st == st.(issuer := Some(IssuerCoin(h, OutPoint(tx.txid, k), 1)))
            && o.ev == Alarms(Units(tx, n, k)) + [IssuerBorn(OutPoint(tx.txid, k), h)]
    decreases k - n
  {
    if n < k {
      IssuerIsBornFirst(st, tx, height, n + 1, k);
      OneMoreUnit(tx, height, n, Units(tx, n + 1, k));
    }
  }

  /** Without a derivable unit no issuer is born, and each unit is an anomaly. */
  lemma {:induction false} NoIssuerIsBorn(st: Index, tx: Tx, height: nat, n: nat)
    requires n <= |tx.outputs| && forall j :: n <= j < |tx.outputs| ==> !Derivable(tx, height, j)
    ensures IssuerBirth(st, tx, height, n)
            == Out(st, Alarms(Units(tx, n, |tx.outputs|)))
    decreases |tx.outputs| - n
  {
    if n < |tx.outputs| {
      NoIssuerIsBorn(st, tx, height, n + 1);
      OneMoreUnit(tx, height, n, Units(tx, n + 1, |tx.outputs|));
    }
  }
}
