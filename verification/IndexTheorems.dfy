/** What the indexer guarantees whatever transactions arrive, well-formed or not. */
module IndexTheorems {
  import opened Prelude
  import opened Chain
  import opened IndexSpec

  // ----- the effect of a transaction on vaults

  /** A resolved record agrees with the address it was read from. */
  ghost predicate Proven(v: TrackedVault) {
    v.owner.Some? ==> v.spk == VaultSpk(v.debt, v.owner.value, v.lastHeight)
  }

  ghost predicate Trustless(vaults: map<OutPoint, TrackedVault>) {
    forall op :: op in vaults ==> Proven(vaults[op])
  }

  /** The event says that this vault left tracking. */
  predicate Leaves(e: Event, op: OutPoint) {
    match e
    case Repaid(v, _, _) => v == op
    case Drawn(v, _, _) => v == op
    case Refreshed(v, _, _) => v == op
    case Deleveraged(v, _, _) => v == op
    case Closed(v) => v == op
    case FullyLiquidated(v) => v == op
    case BadDebtClosed(v) => v == op
    case VaultLost(v, _) => v == op
    case _ => false
  }

  function Count(ev: seq<Event>, op: OutPoint): nat {
    if ev == [] then 0 else (if Leaves(ev[0], op) then 1 else 0) + Count(ev[1..], op)
  }

  lemma {:induction false} CountAppend(a: seq<Event>, b: seq<Event>)
    ensures forall op :: Count(a + b, op) == Count(a, op) + Count(b, op)
  {
    if a == [] {
      assert a + b == b;
    } else {
      assert (a + b)[1..] == a[1..] + b;
      CountAppend(a[1..], b);
    }
  }

  lemma CountOne(e: Event)
    ensures forall op :: Count([e], op) == if Leaves(e, op) then 1 else 0
  {
  }

  /** Events about no vault leaving. */
  ghost predicate Quiet(ev: seq<Event>) { forall op :: Count(ev, op) == 0 }

  lemma QuietAppend(a: seq<Event>, b: seq<Event>)
    requires Quiet(a) && Quiet(b)
    ensures Quiet(a + b)
  {
    CountAppend(a, b);
  }

  function Newborn(tx: Tx): OutPoint { OutPoint(tx.txid, 0) }

  /** Exactly the vaults of `gone` leave tracking, each with one notice; at most one vault
      appears, at output 0, with a proven record; every other vault stays as it was. */
  ghost predicate Effect(st: Index, o: Out, tx: Tx, gone: set<OutPoint>) {
    && (forall op :: op in st.vaults && op !in gone && op != Newborn(tx) ==>
          op in o.st.vaults && o.st.vaults[op] == st.vaults[op])
    && (forall op :: op in o.st.vaults && op != Newborn(tx) ==> op in st.vaults && op !in gone)
    && (Newborn(tx) in o.st.vaults ==>
          || Proven(o.st.vaults[Newborn(tx)])
          || (Newborn(tx) in st.vaults && o.st.vaults[Newborn(tx)] == st.vaults[Newborn(tx)]))
    && (forall op :: op in st.lost ==> op in o.st.lost)
    && (forall op :: op in o.st.lost ==> op in st.lost || op in gone)
    && (forall op :: Count(o.ev, op) == if op in gone then 1 else 0)
  }

  // ----- the pieces

  lemma FollowPotKeeps(st: Index, tx: Tx)
    ensures var f := FollowPot(st, tx);
            f.st.vaults == st.vaults && f.st.lost == st.lost && f.st.issuer == st.issuer
            && f.st.reserve == st.reserve && Quiet(f.ev)
  {
    CountOne(Fragment(PotRole));
    CountOne(Anomaly(PotWithoutSuccessor));
  }

  lemma FollowReserveKeeps(st: Index, tx: Tx)
    ensures var f := FollowReserve(st, tx);
            f.st.vaults == st.vaults && f.st.lost == st.lost && f.st.issuer == st.issuer
            && f.st.pot == st.pot && Quiet(f.ev)
  {
    CountOne(Fragment(ReserveRole));
    CountOne(Anomaly(ReserveWithoutSuccessor));
  }

  lemma FollowSpentKeeps(st: Index, tx: Tx, pot: Option<nat>, reserve: Option<nat>)
    ensures var f := FollowSpent(st, tx, pot, reserve);
            f.st.vaults == st.vaults && f.st.lost == st.lost && f.st.issuer == st.issuer && Quiet(f.ev)
  {
    var p := if pot.Some? then FollowPot(st, tx) else Followed(st, [], None);
    FollowPotKeeps(st, tx);
    FollowReserveKeeps(p.st, tx);
    var r := if reserve.Some? then FollowReserve(p.st, tx) else Followed(p.st, [], None);
    QuietAppend(p.ev, r.ev);
  }

  lemma PotDeltaKeeps(st: Index, tx: Tx, grow: bool)
    ensures var f := PotDelta(st, tx, grow);
            f.st.vaults == st.vaults && f.st.lost == st.lost && f.st.issuer == st.issuer
            && f.st.reserve == st.reserve && Quiet(f.ev)
  {
    FollowPotKeeps(st, tx);
    var what := Anomaly(if grow then RepaymentWithoutGrow else MintWithoutShrink);
    CountOne(what);
    QuietAppend(FollowPot(st, tx).ev, [what]);
  }

  /** Quiet events around an effect do not change it. */
  lemma Quieten(st: Index, o: Out, tx: Tx, gone: set<OutPoint>, before: seq<Event>, after: seq<Event>)
    requires Effect(st, o, tx, gone) && Quiet(before) && Quiet(after)
    ensures Effect(st, Out(o.st, before + o.ev + after), tx, gone)
    ensures Effect(st, Out(o.st, before + o.ev), tx, gone)
    ensures Effect(st, Out(o.st, o.ev + after), tx, gone)
  {
    CountAppend(before, o.ev);
    CountAppend(before + o.ev, after);
    CountAppend(o.ev, after);
  }

  /** A state change away from the vaults has no effect on them. */
  lemma Unmoved(st: Index, o: Out, tx: Tx)
    requires o.st.vaults == st.vaults && o.st.lost == st.lost && Quiet(o.ev)
    ensures Effect(st, o, tx, {})
  {
  }

  /** Marking a spent vault lost, or installing its successor, is one departure. */
  lemma MarkLostEffect(st: Index, st1: Index, vop: OutPoint, tx: Tx, reason: Reason)
    requires st1.vaults == st.vaults || st1.vaults == st.vaults - {vop}
    requires st1.lost == st.lost && vop != Newborn(tx)
    ensures Effect(st, MarkLost(st1, vop, tx.txid, reason), tx, {vop})
    ensures MarkLost(st1, vop, tx.txid, reason).st.issuer == st1.issuer
  {
    CountOne(VaultLost(vop, reason));
  }

  lemma SuccessorEffect(st: Index, st1: Index, vop: OutPoint, next: TrackedVault, tx: Tx, move: Move)
    requires st1.vaults == st.vaults - {vop} && st1.lost == st.lost && vop != Newborn(tx)
    ensures Effect(st, Successor(st1, vop, next, tx, move), tx, {vop})
    ensures Successor(st1, vop, next, tx, move).st.issuer == st1.issuer
  {
    if tx.outputs == [] {
      MarkLostEffect(st, st1, vop, tx, NoOutputs);
    } else if Explicit(tx.outputs[0], Policy).None? {
      MarkLostEffect(st, st1, vop, tx, NotExplicitPolicy);
    } else if next.owner.Some? && VaultSpk(next.debt, next.owner.value, next.lastHeight) != tx.outputs[0].spk {
      MarkLostEffect(st, st1, vop, tx, SpkMismatch);
    } else {
      CountOne(MoveEvent(move, vop, Newborn(tx)));
    }
  }

  lemma RemovedEffect(st: Index, st1: Index, vop: OutPoint, tx: Tx, e: Event)
    requires st1.vaults == st.vaults - {vop} && st1.lost == st.lost && vop != Newborn(tx)
    requires forall op :: Leaves(e, op) <==> op == vop
    ensures Effect(st, Out(st1, [e]), tx, {vop})
  {
    CountOne(e);
  }

  // ----- issuer arms

  lemma StrayedEffect(st: Index, tx: Tx, sp: Spends, what: What)
    ensures Effect(st, Strayed(st, tx, sp, what), tx, {})
    ensures Strayed(st, tx, sp, what).st.issuer == st.issuer
  {
    FollowSpentKeeps(st, tx, sp.pot, sp.reserve);
    CountOne(Anomaly(what));
    QuietAppend([Anomaly(what)], FollowSpent(st, tx, sp.pot, sp.reserve).ev);
  }

  lemma BornEffect(validKey: Key -> bool, owners: seq<Key>, st: Index, st1: Index, tx: Tx, idx: nat, debt: nat, h: nat)
    requires st1.vaults == st.vaults && st1.lost == st.lost
    ensures Effect(st, Born(validKey, owners, st1, tx, idx, debt, h), tx, {})
    ensures Born(validKey, owners, st1, tx, idx, debt, h).st.issuer == st1.issuer
  {
    CountOne(Anomaly(OpenWithoutOutputs));
    CountOne(Anomaly(OpenNotExplicit));
    var b := Born(validKey, owners, st1, tx, idx, debt, h);
    CountOne(b.ev[0]);
  }

  lemma OpenEffect(validKey: Key -> bool, owners: seq<Key>, st: Index, tx: Tx, idx: nat, anchor: nat, sp: Spends)
    ensures Effect(st, OpenArm(validKey, owners, st, tx, idx, anchor, sp), tx, {})
    ensures OpenArm(validKey, owners, st, tx, idx, anchor, sp).st.issuer == st.issuer
  {
    if idx == 0 || sp.pot != Some(idx - 1) || sp.reserve != Some(3) {
      StrayedEffect(st, tx, sp, OpenWithoutPins);
    } else {
      var minted := PotDelta(st, tx, false);
      PotDeltaKeeps(st, tx, false);
      if minted.value.Some? {
        var r := FollowReserve(minted.st, tx);
        FollowReserveKeeps(minted.st, tx);
        BornEffect(validKey, owners, st, r.st, tx, idx, minted.value.value, anchor);
        QuietAppend(minted.ev, r.ev);
        Quieten(st, Born(validKey, owners, r.st, tx, idx, minted.value.value, anchor), tx, {}, minted.ev + r.ev, []);
      }
    }
  }


  lemma DrawEffect(st: Index, tx: Tx, idx: nat, anchor: nat, sp: Spends) returns (gone: set<OutPoint>)
    requires sp.vaults == VaultInputs(tx, st.vaults, 0) && Newborn(tx) !in st.vaults
    ensures Effect(st, DrawArm(st, tx, idx, anchor, sp), tx, gone)
    ensures DrawArm(st, tx, idx, anchor, sp).st.issuer == st.issuer
    ensures gone <= Spent(st, tx)
  {
    gone := {};
    if sp.vaults == [] || sp.vaults[0] != 0 || idx == 0 || sp.pot != Some(idx - 1) {
      StrayedEffect(st, tx, sp, DrawWithoutPins);
    } else {
      var vop := tx.inputs[0].prev;
      var d := PotDelta(st, tx, false);
      PotDeltaKeeps(st, tx, false);
      if d.value.Some? {
        var v, st1 := d.st.vaults[vop], d.st.(vaults := d.st.vaults - {vop});
        var next := v.(debt := SatAdd(v.debt, d.value.value, U64_MAX), lastHeight := anchor);
        SuccessorEffect(st, st1, vop, next, tx, MDraw(d.value.value));
        Quieten(st, Successor(st1, vop, next, tx, MDraw(d.value.value)), tx, {vop}, d.ev, []);
        gone := {vop};
      }
    }
  }

  /** The tracked vaults a transaction spends. */
  ghost function Spent(st: Index, tx: Tx): set<OutPoint> {
    set i | 0 <= i < |tx.inputs| && tx.inputs[i].prev in st.vaults :: tx.inputs[i].prev
  }

  lemma AttestEffect(st: Index, tx: Tx, idx: nat, sp: Spends) returns (gone: set<OutPoint>)
    requires sp.vaults == VaultInputs(tx, st.vaults, 0) && Newborn(tx) !in st.vaults
    ensures Effect(st, AttestArm(st, tx, idx, sp), tx, gone)
    ensures AttestArm(st, tx, idx, sp).st.issuer == st.issuer
    ensures gone <= Spent(st, tx)
  {
    gone := {};
    if idx != 4 || sp.vaults == [] || sp.vaults[0] != 0 || sp.pot != Some(1) || sp.reserve != Some(3) {
      StrayedEffect(st, tx, sp, AttestWithoutPins);
    } else {
      var vop := tx.inputs[0].prev;
      var p := FollowPot(st, tx);
      FollowPotKeeps(st, tx);
      var r := FollowReserve(p.st, tx);
      FollowReserveKeeps(p.st, tx);
      QuietAppend(p.ev, r.ev);
      var st1 := r.st.(vaults := r.st.vaults - {vop});
      RemovedEffect(st, st1, vop, tx, BadDebtClosed(vop));
      Quieten(st, Out(st1, [BadDebtClosed(vop)]), tx, {vop}, p.ev + r.ev, []);
      gone := {vop};
    }
  }

  lemma IssuerOpEffect(validKey: Key -> bool, owners: seq<Key>, height: nat, st: Index, tx: Tx, sp: Spends)
    returns (gone: set<OutPoint>)
    requires st.issuer.Some? && sp.issuer.Some?
    requires sp.vaults == VaultInputs(tx, st.vaults, 0) && Newborn(tx) !in st.vaults
    ensures Effect(st, IssuerOp(validKey, owners, height, st, tx, sp), tx, gone)
    ensures gone <= Spent(st, tx)
    ensures var a := IssuerOp(validKey, owners, height, st, tx, sp).st.issuer;
            a.Some? ==> st.issuer.value.anchor <= a.value.anchor <= height && a.value.value == 1
  {
    gone := {};
    var found := FindAnchor(tx, HeightCap(tx, height), st.issuer.value.anchor);
    if found.None? {
      CountOne(Anomaly(NoAnchorFound));
      Unmoved(st, IssuerOp(validKey, owners, height, st, tx, sp), tx);
    } else {
      var anchor := found.value;
      var vout := TokenAt(tx, anchor).value;
      var st1 := st.(issuer := Some(IssuerCoin(anchor, OutPoint(tx.txid, vout), 1)));
      var idx := sp.issuer.value;
      assert Spent(st1, tx) == Spent(st, tx);
      if vout == 0 && idx == 0 {
        CountOne(Poked(anchor));
      } else if vout == 0 {
        StrayedEffect(st1, tx, sp, PokeOffInput0);
      } else if vout == 4 {
        OpenEffect(validKey, owners, st1, tx, idx, anchor, sp);
      } else if vout == 3 && sp.reserve.None? {
        gone := DrawEffect(st1, tx, idx, anchor, sp);
      } else if vout == 3 {
        gone := AttestEffect(st1, tx, idx, sp);
      } else {
        StrayedEffect(st1, tx, sp, UnpinnedOutput);
      }
    }
  }

  // ----- vault arms

  lemma RefreshEffect(st: Index, tx: Tx, height: nat, vop: OutPoint, v: TrackedVault)
    requires vop != Newborn(tx)
    ensures Effect(st, RefreshArm(st, tx, height, vop, v), tx, {vop})
    ensures RefreshArm(st, tx, height, vop, v).st.issuer == st.issuer
  {
    var st1 := st.(vaults := st.vaults - {vop});
    var cap := HeightCap(tx, height);
    if v.owner.Some? && tx.outputs != [] {
      match FindRatchet(tx.outputs[0].spk, v.debt, v.owner.value, cap, SatAdd(v.lastHeight, 1, U32_MAX))
      case None => MarkLostEffect(st, st1, vop, tx, SpkMismatch);
      case Some(h) => SuccessorEffect(st, st1, vop, v.(lastHeight := h), tx, MRefresh(h));
    } else {
      SuccessorEffect(st, st1, vop, v.(lastHeight := cap), tx, MRefresh(cap));
    }
  }

  lemma RepayEffect(st: Index, tx: Tx, vop: OutPoint, v: TrackedVault)
    requires vop != Newborn(tx)
    ensures Effect(st, RepayArm(st, tx, vop, v), tx, {vop})
    ensures RepayArm(st, tx, vop, v).st.issuer == st.issuer
  {
    var d := PotDelta(st, tx, true);
    PotDeltaKeeps(st, tx, true);
    if d.value.None? {
      MarkLostEffect(st, d.st, vop, tx, RepayWithoutPot);
      Quieten(st, MarkLost(d.st, vop, tx.txid, RepayWithoutPot), tx, {vop}, d.ev, []);
    } else {
      var next, st1 := v.(debt := SatSub(v.debt, d.value.value)), d.st.(vaults := d.st.vaults - {vop});
      SuccessorEffect(st, st1, vop, next, tx, MRepay(d.value.value));
      Quieten(st, Successor(st1, vop, next, tx, MRepay(d.value.value)), tx, {vop}, d.ev, []);
    }
  }

  lemma LiqEffect(st: Index, tx: Tx, vop: OutPoint, v: TrackedVault)
    requires vop != Newborn(tx)
    ensures Effect(st, LiqArm(st, tx, vop, v), tx, {vop})
    ensures LiqArm(st, tx, vop, v).st.issuer == st.issuer
  {
    var d := PotDelta(st, tx, true);
    PotDeltaKeeps(st, tx, true);
    if d.value.None? {
      MarkLostEffect(st, d.st, vop, tx, LiqWithoutPot);
      Quieten(st, MarkLost(d.st, vop, tx.txid, LiqWithoutPot), tx, {vop}, d.ev, []);
    } else {
      var amount := d.value.value;
      var r := FollowReserve(d.st, tx);
      FollowReserveKeeps(d.st, tx);
      QuietAppend(d.ev, r.ev);
      var st1, debt := r.st.(vaults := r.st.vaults - {vop}), SatSub(v.debt, amount);
      SuccessorEffect(st, st1, vop, v.(debt := debt), tx, MDeleverage(amount));
      MarkLostEffect(st, st1, vop, tx, SurvivingDebt);
      RemovedEffect(st, st1, vop, tx, FullyLiquidated(vop));
      Quieten(st, Successor(st1, vop, v.(debt := debt), tx, MDeleverage(amount)), tx, {vop}, d.ev + r.ev, []);
      Quieten(st, MarkLost(st1, vop, tx.txid, SurvivingDebt), tx, {vop}, d.ev + r.ev, []);
      Quieten(st, Out(st1, [FullyLiquidated(vop)]), tx, {vop}, d.ev + r.ev, []);
    }
  }

  lemma VaultOpEffect(height: nat, st: Index, tx: Tx, vop: OutPoint, sp: Spends)
    requires vop in st.vaults && vop != Newborn(tx)
    ensures Effect(st, VaultOp(height, st, tx, vop, sp), tx, {vop})
    ensures VaultOp(height, st, tx, vop, sp).st.issuer == st.issuer
  {
    var v := st.vaults[vop];
    if |tx.inputs| == 2 && sp.pot.None? && sp.reserve.None? {
      RefreshEffect(st, tx, height, vop, v);
    } else if |tx.inputs| == 3 && sp.pot == Some(1) && sp.reserve.None? {
      var p := FollowPot(st, tx);
      FollowPotKeeps(st, tx);
      var st1 := p.st.(vaults := p.st.vaults - {vop});
      RemovedEffect(st, st1, vop, tx, Closed(vop));
      Quieten(st, Out(st1, [Closed(vop)]), tx, {vop}, p.ev, []);
    } else if |tx.inputs| == 4 && sp.pot == Some(1) && sp.reserve.None? {
      RepayEffect(st, tx, vop, v);
    } else if |tx.inputs| == 4 && sp.pot == Some(1) && sp.reserve == Some(3) {
      LiqEffect(st, tx, vop, v);
    } else {
      var l := MarkLost(st, vop, tx.txid, OutsideLayout);
      MarkLostEffect(st, st, vop, tx, OutsideLayout);
      FollowSpentKeeps(l.st, tx, sp.pot, sp.reserve);
      var f := FollowSpent(l.st, tx, sp.pot, sp.reserve);
      Quieten(st, Out(f.st, l.ev), tx, {vop}, [], f.ev);
    }
  }

  ghost predicate DistinctInputs(tx: Tx) {
    forall i, j :: 0 <= i < j < |tx.inputs| ==> tx.inputs[i].prev != tx.inputs[j].prev
  }

  ghost function PrevsAt(tx: Tx, at: seq<nat>): set<OutPoint>
    requires forall i :: 0 <= i < |at| ==> at[i] < |tx.inputs|
  {
    set i | 0 <= i < |at| :: tx.inputs[at[i]].prev
  }

  lemma {:induction false} LoseAllEffect(st: Index, tx: Tx, at: seq<nat>)
    requires forall i :: 0 <= i < |at| ==> at[i] < |tx.inputs|
    requires forall i, j :: 0 <= i < j < |at| ==> at[i] < at[j]
    requires DistinctInputs(tx) && Newborn(tx) !in PrevsAt(tx, at)
    ensures Effect(st, LoseAll(st, tx, at), tx, PrevsAt(tx, at))
    ensures LoseAll(st, tx, at).st.issuer == st.issuer
  {
    if at != [] {
      var n := |at| - 1;
      var init, vop := at[..n], tx.inputs[at[n]].prev;
      assert PrevsAt(tx, at) == PrevsAt(tx, init) + {vop};
      LoseAllEffect(st, tx, init);
      var rest := LoseAll(st, tx, init);
      MarkLostEffect(rest.st, rest.st, vop, tx, OutsideLayout);
      CountAppend(rest.ev, MarkLost(rest.st, vop, tx.txid, OutsideLayout).ev);
      assert vop !in PrevsAt(tx, init);
    }
  }

  lemma ManyVaultsEffect(st: Index, tx: Tx, sp: Spends)
    requires sp.vaults == VaultInputs(tx, st.vaults, 0) && DistinctInputs(tx) && Newborn(tx) !in st.vaults
    ensures var l := LoseAll(st, tx, sp.vaults);
            var f := FollowSpent(l.st, tx, sp.pot, sp.reserve);
            Effect(st, Out(f.st, l.ev + f.ev), tx, PrevsAt(tx, sp.vaults)) && f.st.issuer == st.issuer
  {
    var l := LoseAll(st, tx, sp.vaults);
    LoseAllEffect(st, tx, sp.vaults);
    FollowSpentKeeps(l.st, tx, sp.pot, sp.reserve);
    var f := FollowSpent(l.st, tx, sp.pot, sp.reserve);
    Quieten(st, Out(f.st, l.ev), tx, PrevsAt(tx, sp.vaults), [], f.ev);
  }

  // ----- transactions away from the vaults

  lemma DonationKeeps(st: Index, tx: Tx, sp: Spends)
    ensures Effect(st, Donation(st, tx, sp), tx, {})
    ensures Donation(st, tx, sp).st.issuer == st.issuer
  {
    var p := if sp.pot.Some? then FollowPot(st, tx) else Followed(st, [], None);
    var pe := if p.value.Some? then [PotGrew(p.value.value)] else [];
    FollowPotKeeps(st, tx);
    if p.value.Some? { CountOne(PotGrew(p.value.value)); }
    var r := if sp.reserve.Some? then FollowReserve(p.st, tx) else Followed(p.st, [], None);
    var re := if r.value.Some? then [ReserveGrew(r.value.value)] else [];
    FollowReserveKeeps(p.st, tx);
    if r.value.Some? { CountOne(ReserveGrew(r.value.value)); }
    QuietAppend(p.ev, pe);
    QuietAppend(p.ev + pe, r.ev);
    QuietAppend(p.ev + pe + r.ev, re);
  }

  lemma {:induction false} IssuerBirthKeeps(st: Index, tx: Tx, height: nat, n: nat)
    requires n <= |tx.outputs|
    ensures var o := IssuerBirth(st, tx, height, n);
            && o.st == st.(issuer := o.st.issuer) && Quiet(o.ev)
            && (o.st.issuer == st.issuer || (o.st.issuer.Some? && o.st.issuer.value.anchor <= height
                                            && o.st.issuer.value.value == 1))
    decreases |tx.outputs| - n
  {
    if n < |tx.outputs| {
      IssuerBirthKeeps(st, tx, height, n + 1);
      CountOne(Anomaly(UnderivableIssuer));
      var spk := tx.outputs[n].spk;
        CountOne(IssuerBorn(OutPoint(tx.txid, n), if spk.IssuerSpk? then spk.lastMintHeight else 0));
      QuietAppend([Anomaly(UnderivableIssuer)], IssuerBirth(st, tx, height, n + 1).ev);
    }
  }

  lemma NonProtocolKeeps(st: Index, tx: Tx, height: nat)
    ensures var o := NonProtocol(height, st, tx);
            && Effect(st, o, tx, {}) && o.st.vaults == st.vaults
            && (o.st.issuer == st.issuer || (st.issuer.None? && o.st.issuer.Some?
                                            && o.st.issuer.value.anchor <= height && o.st.issuer.value.value == 1))
  {
    var p := PotBirth(st, tx);
    var r := ReserveBirth(p.st, tx);
    var i := IssuerWatch(r.st, tx, height);
    BirthsAreQuiet(st, tx);
    BirthsAreQuiet(p.st, tx);
    CountOne(Fragment(IssuerRole));
    IssuerBirthKeeps(r.st, tx, height, 0);
    QuietAppend(p.ev, r.ev);
    QuietAppend(p.ev + r.ev, i.ev);
  }

  lemma BirthsAreQuiet(st: Index, tx: Tx)
    ensures Quiet(PotBirth(st, tx).ev) && PotBirth(st, tx).st == st.(pot := PotBirth(st, tx).st.pot)
    ensures Quiet(ReserveBirth(st, tx).ev) && ReserveBirth(st, tx).st == st.(reserve := ReserveBirth(st, tx).st.reserve)
  {
    CountOne(Fragment(PotRole));
    CountOne(Fragment(ReserveRole));
    if PotBirth(st, tx).ev != [] { CountOne(PotBirth(st, tx).ev[0]); }
    if ReserveBirth(st, tx).ev != [] { CountOne(ReserveBirth(st, tx).ev[0]); }
  }

  // ----- the theorems

  /** Outpoints of this transaction are new to the index. */
  ghost predicate Fresh(st: Index, tx: Tx) {
    Newborn(tx) !in st.vaults && Newborn(tx) !in st.lost
  }

  /** Vault accounting, for any transaction with distinct inputs and a fresh txid. Every vault
      that leaves tracking was spent and gets exactly one notice; if the issuer was not spent,
      every tracked vault the transaction spends leaves. */
  lemma VaultAccounting(validKey: Key -> bool, owners: seq<Key>, height: nat, st: Index, tx: Tx)
    returns (gone: set<OutPoint>)
    requires DistinctInputs(tx) && Fresh(st, tx)
    ensures Effect(st, Apply(validKey, owners, height, st, tx), tx, gone)
    ensures gone <= Spent(st, tx)
    ensures SpendsOf(st, tx).issuer.None? ==> gone == Spent(st, tx)
  {
    var sp := SpendsOf(st, tx);
    gone := {};
    if sp.issuer.Some? {
      gone := IssuerOpEffect(validKey, owners, height, st, tx, sp);
    } else if |sp.vaults| > 1 || (sp.vaults != [] && sp.vaults[0] != 0) {
      ManyVaultsEffect(st, tx, sp);
      gone := PrevsAt(tx, sp.vaults);
      SpentAt(st, tx);
    } else if sp.vaults != [] {
      SpentAt(st, tx);
      gone := {tx.inputs[0].prev};
      assert sp.vaults == [0];
      assert PrevsAt(tx, sp.vaults) == gone;
      VaultOpEffect(height, st, tx, tx.inputs[0].prev, sp);
    } else {
      SpentAt(st, tx);
      if sp.pot.Some? || sp.reserve.Some? {
        DonationKeeps(st, tx, sp);
      } else {
        NonProtocolKeeps(st, tx, height);
      }
    }
  }

  lemma SpentAt(st: Index, tx: Tx)
    ensures Spent(st, tx) == PrevsAt(tx, VaultInputs(tx, st.vaults, 0))
  {
    var at := VaultInputs(tx, st.vaults, 0);
    forall op | op in Spent(st, tx) ensures op in PrevsAt(tx, at) {
      var i :| 0 <= i < |tx.inputs| && tx.inputs[i].prev in st.vaults && tx.inputs[i].prev == op;
      assert i in at;
      var k :| 0 <= k < |at| && at[k] == i;
    }
  }

  /** Trustless records: one transaction keeps every resolved record proven by its address. */
  lemma ApplyKeepsTrust(validKey: Key -> bool, owners: seq<Key>, height: nat, st: Index, tx: Tx)
    requires DistinctInputs(tx) && Fresh(st, tx) && Trustless(st.vaults)
    ensures Trustless(Apply(validKey, owners, height, st, tx).st.vaults)
  {
    var gone := VaultAccounting(validKey, owners, height, st, tx);
  }

  /** Anchors: a tracked issuer's anchor never decreases, and never passes the block. */
  lemma AnchorAdvances(validKey: Key -> bool, owners: seq<Key>, height: nat, st: Index, tx: Tx)
    requires DistinctInputs(tx) && Fresh(st, tx)
    requires st.issuer.Some? ==> st.issuer.value.anchor <= height && st.issuer.value.value == 1
    ensures var a := Apply(validKey, owners, height, st, tx).st.issuer;
            a.Some? ==> && a.value.anchor <= height && a.value.value == 1
                        && (st.issuer.Some? ==> st.issuer.value.anchor <= a.value.anchor)
  {
    var sp := SpendsOf(st, tx);
    if sp.issuer.Some? {
      var gone := IssuerOpEffect(validKey, owners, height, st, tx, sp);
    } else if sp.vaults != [] {
      if |sp.vaults| > 1 || sp.vaults[0] != 0 {
        ManyVaultsEffect(st, tx, sp);
      } else {
        VaultOpEffect(height, st, tx, tx.inputs[0].prev, sp);
      }
    } else if sp.pot.Some? || sp.reserve.Some? {
      DonationKeeps(st, tx, sp);
    } else {
      NonProtocolKeeps(st, tx, height);
    }
  }

  // ----- runs

  datatype Item = Item(height: nat, tx: Tx)

  /** The index after a run of transactions, from an empty one. */
  ghost function Scan(validKey: Key -> bool, owners: seq<Key>, run: seq<Item>): Index {
    if run == [] then EMPTY
    else
      var n := |run| - 1;
      Apply(validKey, owners, run[n].height, Scan(validKey, owners, run[..n]), run[n].tx).st
  }

  /** What consensus guarantees of a chain: new txids, distinct inputs, ascending heights. */
  ghost predicate ChainOrder(run: seq<Item>) {
    && (forall i, j :: 0 <= i < j < |run| ==> run[i].tx.txid != run[j].tx.txid && run[i].height <= run[j].height)
    && (forall i :: 0 <= i < |run| ==> DistinctInputs(run[i].tx))
  }

  ghost predicate KnownTxid(run: seq<Item>, op: OutPoint) {
    exists i :: 0 <= i < |run| && run[i].tx.txid == op.txid
  }

  /** The invariant of every run: proven records, disjoint tracked and lost sets, and an anchor
      no later than the last block. */
  ghost predicate RunInv(st: Index, run: seq<Item>) {
    && Trustless(st.vaults)
    && st.vaults.Keys !! st.lost.Keys
    && (forall op :: op in st.vaults || op in st.lost ==> KnownTxid(run, op))
    && (st.issuer.Some? ==> run != [] && st.issuer.value.anchor <= run[|run| - 1].height && st.issuer.value.value == 1)
  }

  /** Whatever transactions arrive, every tracked vault with a known owner has an address that
      commits to exactly its recorded fields, and no vault is both tracked and lost. */
  lemma {:induction false} EveryRunKeepsInv(validKey: Key -> bool, owners: seq<Key>, run: seq<Item>)
    requires ChainOrder(run)
    ensures RunInv(Scan(validKey, owners, run), run)
  {
    if run != [] {
      var n := |run| - 1;
      var init, h, tx := run[..n], run[n].height, run[n].tx;
      EveryRunKeepsInv(validKey, owners, init);
      var st := Scan(validKey, owners, init);
      NewTxidIsUnknown(run, n);
      var gone := VaultAccounting(validKey, owners, h, st, tx);
      AnchorAdvances(validKey, owners, h, st, tx);
      InvFromEffect(st, Apply(validKey, owners, h, st, tx), run, n, gone);
    }
  }

  lemma NewTxidIsUnknown(run: seq<Item>, n: nat)
    requires ChainOrder(run) && n < |run|
    ensures !KnownTxid(run[..n], Newborn(run[n].tx)) && ChainOrder(run[..n])
  {
    assert forall i :: 0 <= i < n ==> run[..n][i].tx.txid == run[i].tx.txid != run[n].tx.txid;
  }

  /** The effect of the last transaction carries the invariant over it. */
  lemma InvFromEffect(st: Index, o: Out, run: seq<Item>, n: nat, gone: set<OutPoint>)
    requires |run| == n + 1 && RunInv(st, run[..n]) && !KnownTxid(run[..n], Newborn(run[n].tx))
    requires Effect(st, o, run[n].tx, gone) && gone <= st.vaults.Keys
    requires o.st.issuer.Some? ==> o.st.issuer.value.anchor <= run[n].height && o.st.issuer.value.value == 1
    ensures RunInv(o.st, run)
  {
    KnownGrows(run, n);
    assert KnownTxid(run, Newborn(run[n].tx)) by { assert run[n].tx.txid == Newborn(run[n].tx).txid; }
  }

  lemma KnownGrows(run: seq<Item>, n: nat)
    requires n <= |run|
    ensures forall op :: KnownTxid(run[..n], op) ==> KnownTxid(run, op)
  {
    forall op | KnownTxid(run[..n], op) ensures KnownTxid(run, op) {
      var i :| 0 <= i < n && run[..n][i].tx.txid == op.txid;
      assert run[i].tx.txid == op.txid;
    }
  }
}
