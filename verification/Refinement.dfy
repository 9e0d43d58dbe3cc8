/** The indexer simulates the reference ledger: along every run of layout-conforming
    transactions its state shows the ledger's. */
module Refinement {
  import opened Prelude
  import opened Chain
  import opened WitnessScan
  import opened IndexSpec
  import opened IndexTheorems
  import opened Ledger

  // ----- reading the layout back

  lemma PinnedInput(tx: Tx, o: OutPoint, pin: Option<nat>)
    requires DistinctInputs(tx) && SpentAtPin(tx, o, pin)
    ensures InputFrom(tx, o, 0) == pin
  {
    if pin.Some? && InputFrom(tx, o, 0).Some? {
      assert tx.inputs[pin.value].prev == tx.inputs[InputFrom(tx, o, 0).value].prev;
    }
  }

  lemma TargetInput(tx: Tx, vaults: map<OutPoint, TrackedVault>)
    requires forall i :: 0 <= i < |tx.inputs| && tx.inputs[i].prev in vaults ==> i == 0
    ensures VaultInputs(tx, vaults, 0) == if tx.inputs != [] && tx.inputs[0].prev in vaults then [0] else []
  {
    if tx.inputs != [] {
      NoVaultInputs(tx, vaults, 1);
    }
  }

  lemma {:induction false} NoVaultInputs(tx: Tx, vaults: map<OutPoint, TrackedVault>, n: nat)
    requires n <= |tx.inputs| && forall i :: n <= i < |tx.inputs| ==> tx.inputs[i].prev !in vaults
    ensures VaultInputs(tx, vaults, n) == []
    decreases |tx.inputs| - n
  {
    if n < |tx.inputs| {
      NoVaultInputs(tx, vaults, n + 1);
    }
  }

  /** The spent state, as a conforming transaction pins it. */
  lemma PinnedSpends(l: Ledger, st: Index, op: Op, tx: Tx)
    requires WellFormed(l) && Shows(st, l) && InputsPinned(l, op, tx)
    requires Targets(op) ==> op.vault in l.vaults
    ensures SpendsOf(st, tx) == Spends(if l.issuer.Some? then IssuerPin(op) else None,
                                       if l.pot.Some? then PotPin(op) else None,
                                       if l.reserve.Some? then ReservePin(op) else None,
                                       if Targets(op) && op.vault in st.vaults then [0] else [])
  {
    if l.pot.Some? { PinnedInput(tx, l.pot.value.outpoint, PotPin(op)); }
    if l.reserve.Some? { PinnedInput(tx, l.reserve.value.outpoint, ReservePin(op)); }
    if l.issuer.Some? { PinnedInput(tx, l.issuer.value.outpoint, IssuerPin(op)); }
    TargetInput(tx, st.vaults);
  }

  lemma LocateFirst(tx: Tx, spk: Script, asset: Asset, n: nat, value: nat)
    requires FirstAt(tx, spk, asset, n, value)
    ensures var hit := LocateCounted(tx, spk, asset); hit.Some? && hit.value.vout == n && hit.value.value == value
    ensures LocateCounted(tx, spk, asset).value.extra <==> Later(tx, spk, asset, n)
  {
    assert Pays(tx.outputs[n], spk, asset);
    assert forall i :: 0 <= i < n && i < |tx.outputs| ==> !Pays(tx.outputs[i], spk, asset);
    assert FirstPaying(tx.outputs, spk, asset, 0) == Some(n);
    var more := FirstPaying(tx.outputs, spk, asset, n + 1);
    assert more.Some? ==> Later(tx, spk, asset, n);
  }

  lemma OnlyTokenAt(tx: Tx, n: nat, anchor: nat, h: nat)
    requires OnlyToken(tx, n, anchor)
    ensures TokenAt(tx, h) == if h == anchor then Some(n) else None
  {
    if h == anchor {
      LocateFirst(tx, IssuerSpk(anchor), IssuerToken, n, 1);
    }
  }

  /** The anchor search finds the committed tick wherever the lock time puts the cap. */
  lemma TokenFound(tx: Tx, n: nat, anchor: nat, cap: nat, floor: nat)
    requires OnlyToken(tx, n, anchor) && floor <= anchor <= cap
    ensures FindAnchor(tx, cap, floor) == Some(anchor) && TokenAt(tx, anchor) == Some(n)
  {
    OnlyTokenAt(tx, n, anchor, anchor);
    var r := FindAnchor(tx, cap, floor);
    if r.Some? {
      OnlyTokenAt(tx, n, anchor, r.value);
    }
  }

  lemma PotFollowed(st: Index, tx: Tx, value: nat)
    requires FirstAt(tx, PotSpk, Obol, 1, value)
    ensures var f := FollowPot(st, tx);
            && f.st == st.(pot := Some(Singleton(OutPoint(tx.txid, 1), value))) && f.value == Some(value)
            && f.ev == Extra(tx, PotSpk, Obol, 1, PotRole)
  {
    LocateFirst(tx, PotSpk, Obol, 1, value);
  }

  lemma ReserveFollowed(st: Index, tx: Tx, n: nat, value: nat)
    requires FirstAt(tx, ReserveSpk, Policy, n, value)
    ensures var f := FollowReserve(st, tx);
            && f.st == st.(reserve := Some(Singleton(OutPoint(tx.txid, n), value))) && f.value == Some(value)
            && f.ev == Extra(tx, ReserveSpk, Policy, n, ReserveRole)
  {
    LocateFirst(tx, ReserveSpk, Policy, n, value);
  }

  // ----- the vault map moves with the ledger's

  /** The vault half of `Shows`. */
  ghost predicate ShowsVaults(vaults: map<OutPoint, TrackedVault>, truth: map<OutPoint, TrueVault>) {
    && (forall op :: op in vaults <==> op in truth && !truth[op].husk)
    && (forall op :: op in vaults ==> Agrees(vaults[op], truth[op]))
  }

  /** A fragment is reported exactly when another output pays the same address in the same asset. */
  ghost function Extra(tx: Tx, spk: Script, asset: Asset, n: nat, role: Role): seq<Event> {
    if Later(tx, spk, asset, n) then [Fragment(role)] else []
  }

  /** Some output after `n` pays (spk, asset). */
  ghost predicate Later(tx: Tx, spk: Script, asset: Asset, n: nat) {
    exists i :: n < i < |tx.outputs| && Pays(tx.outputs[i], spk, asset)
  }

  /** Exactly what is reported: fragments of the singletons that were followed, then the event. */
  ghost predicate Says(o: Out, tx: Tx, pot: bool, reserve: Option<nat>, e: Event) {
    o.ev == (if pot then Extra(tx, PotSpk, Obol, 1, PotRole) else [])
            + (if reserve.Some? then Extra(tx, ReserveSpk, Policy, reserve.value, ReserveRole) else []) + [e]
  }

  /** A successor output that commits to the next state is tracked as that state. */
  lemma SuccessorShown(st1: Index, vop: OutPoint, next: TrackedVault, tx: Tx, move: Move, v: TrueVault)
    requires tx.outputs != [] && tx.outputs[0] == VaultOut(v)
    requires next.debt == v.state.debt
    requires if v.published then next.owner == Some(v.state.owner) && next.lastHeight == v.state.lastHeight
             else next.owner.None? && next.lastHeight >= v.state.lastHeight
    ensures var s := Successor(st1, vop, next, tx, move).st;
            && s == st1.(vaults := st1.vaults[Newborn(tx) := next.(value := v.value, spk := SpkOf(v.state))])
            && Agrees(s.vaults[Newborn(tx)], v)
    ensures Successor(st1, vop, next, tx, move).ev == [MoveEvent(move, vop, Newborn(tx))]
  {
  }

  /** Replacing a vault by its successor keeps the two maps in step. */
  lemma ReplacedShown(vaults: map<OutPoint, TrackedVault>, truth: map<OutPoint, TrueVault>, vop: OutPoint,
                      at: OutPoint, t: TrackedVault, v: TrueVault)
    requires ShowsVaults(vaults, truth) && Agrees(t, v) && !v.husk
    ensures ShowsVaults((vaults - {vop})[at := t], (truth - {vop})[at := v])
  {
  }

  lemma HuskHidden(vaults: map<OutPoint, TrackedVault>, truth: map<OutPoint, TrueVault>, vop: OutPoint,
                   at: OutPoint, v: TrueVault)
    requires ShowsVaults(vaults, truth) && v.husk && at !in vaults
    ensures ShowsVaults(vaults - {vop}, (truth - {vop})[at := v])
  {
  }

  // ----- one operation

  ghost predicate Ready(validKey: Key -> bool, owners: seq<Key>, l: Ledger, height: nat, op: Op, tx: Tx, st: Index) {
    WellFormed(l) && Shows(st, l) && Conforms(validKey, owners, l, height, op, tx)
  }

  /** An earlier output pays the address of the pot or the reserve in its asset, ahead of the
      successor that the covenant pins. */
  ghost predicate Shadowed(l: Ledger, op: Op, tx: Tx)
    requires Targets(op) ==> op.vault in l.vaults
  {
    || (PotAfter(l, op).Some? && Earlier(tx, PotSpk, Obol, 1))
    || (ReserveAfter(op).Some? && Earlier(tx, ReserveSpk, Policy, ReserveAfter(op).value.0))
  }

  /** Output 0 pays the address of the same vault without its debt. */
  ghost predicate Reborn(v: TrueVault, tx: Tx) {
    v.published && tx.outputs != [] && Pays(tx.outputs[0], SpkOf(v.state.(debt := 0)), Policy)
  }

  /** A REFRESH with the pot riding along that is taken for a repayment, of an opaque vault that
      owes nothing and whose recorded ratchet is late enough already: the record comes out right. */
  ghost predicate Lucky(t: TrackedVault, l: Ledger, op: Op, tx: Tx)
    requires op.Ratchet? && op.vault in l.vaults
  {
    && l.pot.Some? && op.potTo.Some? && l.pot.value.value < op.potTo.value && |tx.inputs| == 4
    && !l.vaults[op.vault].published && l.vaults[op.vault].state.debt == 0 && op.tick <= t.lastHeight
  }

  /** The transaction does not have the shape by which the indexer tells the operation on a
      tracked vault: the number of inputs, a pot that grows, nothing riding along. */
  ghost predicate Muddled(t: TrackedVault, l: Ledger, op: Op, tx: Tx)
    requires Targets(op) && op.vault in l.vaults
  {
    match op
    case Repay(_, amount, _) => amount == 0 || |tx.inputs| != 4
    case Deleverage(_, amount, _, _) => amount == 0 || |tx.inputs| != 4
    case FullLiquidate(v, _) => l.vaults[v].state.debt == 0 || |tx.inputs| != 4 || Reborn(l.vaults[v], tx)
    case Close(_) => |tx.inputs| != 3
    case Ratchet(_, _, _, _, _) => if Gifts(op) then !Lucky(t, l, op, tx) else |tx.inputs| != 2
    case _ => false
  }

  /** The transactions the indexer misreads. */
  ghost predicate Misread(st: Index, l: Ledger, op: Op, tx: Tx)
    requires Targets(op) ==> op.vault in l.vaults
  {
    || Shadowed(l, op, tx)
    || (op.Poke? && Gifts(op))
    || (Targets(op) && op.vault in st.vaults && Muddled(st.vaults[op.vault], l, op, tx))
  }

  ghost predicate Clear(validKey: Key -> bool, owners: seq<Key>, l: Ledger, height: nat, op: Op, tx: Tx, st: Index) {
    Ready(validKey, owners, l, height, op, tx, st) && !Misread(st, l, op, tx)
  }

  // ----- arms that read the token

  /** The state once the token is found at output `n` with the anchor `tick`. */
  function TokenAtOutput(st: Index, txid: nat, n: nat, tick: nat): Index {
    st.(issuer := Some(IssuerCoin(tick, OutPoint(txid, n), 1)))
  }

  /** The token is found where it went, so the arm of that output runs. */
  lemma IssuerReached(validKey: Key -> bool, owners: seq<Key>, height: nat, st: Index, tx: Tx, idx: nat, n: nat,
                      tick: nat)
    requires st.issuer.Some? && SpendsOf(st, tx).issuer == Some(idx) && OnlyToken(tx, n, tick)
    requires st.issuer.value.anchor <= tick <= HeightCap(tx, height)
    ensures var (st1, sp) := (TokenAtOutput(st, tx.txid, n, tick), SpendsOf(st, tx));
            && (n == 0 && idx == 0 ==> Apply(validKey, owners, height, st, tx) == Out(st1, [Poked(tick)]))
            && (n == 4 ==> Apply(validKey, owners, height, st, tx) == OpenArm(validKey, owners, st1, tx, idx, tick, sp))
            && (n == 3 && sp.reserve.None? ==>
                  Apply(validKey, owners, height, st, tx) == DrawArm(st1, tx, idx, tick, sp))
            && (n == 3 && sp.reserve.Some? ==> Apply(validKey, owners, height, st, tx) == AttestArm(st1, tx, idx, sp))
  {
    TokenFound(tx, n, tick, HeightCap(tx, height), st.issuer.value.anchor);
  }

  /** What an issuer arm needs to know of a conforming transaction. */
  ghost predicate TokenLayout(l: Ledger, height: nat, op: Op, tx: Tx, st: Index) {
    && TokenAfter(op).Some? && (Targets(op) ==> op.vault in l.vaults)
    && st.issuer.Some? && st.issuer.value.anchor <= op.tick <= HeightCap(tx, height)
    && OnlyToken(tx, TokenAfter(op).value.0, op.tick) && IssuerPin(op).Some?
    && SpendsOf(st, tx) == Spends(IssuerPin(op), if st.pot.Some? then PotPin(op) else None,
                                  if st.reserve.Some? then ReservePin(op) else None,
                                  if Targets(op) && op.vault in st.vaults then [0] else [])
  }

  lemma TokenFacts(validKey: Key -> bool, owners: seq<Key>, l: Ledger, height: nat, op: Op, tx: Tx, st: Index)
    requires Ready(validKey, owners, l, height, op, tx, st) && TokenAfter(op).Some?
    ensures TokenLayout(l, height, op, tx, st)
  {
    PinnedSpends(l, st, op, tx);
  }

  lemma PokeShown(validKey: Key -> bool, owners: seq<Key>, l: Ledger, height: nat, op: Op, tx: Tx, st: Index)
    requires Clear(validKey, owners, l, height, op, tx, st) && op.Poke?
    ensures Shows(Apply(validKey, owners, height, st, tx).st, Step(l, op, tx.txid))
    ensures Says(Apply(validKey, owners, height, st, tx), tx, false, None, Poked(op.tick))
  {
    TokenFacts(validKey, owners, l, height, op, tx, st);
    IssuerReached(validKey, owners, height, st, tx, 0, 0, op.tick);
  }

  /** A birth is tracked as the state its output commits to, its owner known iff learnable. */
  lemma BornShown(validKey: Key -> bool, owners: seq<Key>, st: Index, tx: Tx, at: nat,
                  v: TrueVault) returns (t: TrackedVault)
    requires tx.outputs != [] && tx.outputs[0] == VaultOut(v)
    requires v.published <==> Learnable(validKey, owners, tx, at, v.state.owner)
    ensures Agrees(t, v)
    ensures Born(validKey, owners, st, tx, at, v.state.debt, v.state.lastHeight).st
            == st.(vaults := st.vaults[Newborn(tx) := t])
    ensures Born(validKey, owners, st, tx, at, v.state.debt, v.state.lastHeight).ev
            == [Opened(Newborn(tx), v.state.debt, v.value, v.state.lastHeight, t.owner)]
  {
    t := TrackedVault(v.state.debt, v.state.lastHeight, v.value, if v.published then Some(v.state.owner) else None,
                      SpkOf(v.state));
  }

  /** The pot moves from `p` to output 1 with value `q`, and the delta is read off. */
  lemma DeltaRead(st: Index, tx: Tx, grow: bool, p: nat, q: nat)
    requires st.pot.Some? && st.pot.value.value == p && FirstAt(tx, PotSpk, Obol, 1, q)
    ensures var d := PotDelta(st, tx, grow);
            && d.st == st.(pot := Some(Singleton(OutPoint(tx.txid, 1), q)))
            && d.value == (if grow && p < q then Some(q - p) else if !grow && q < p then Some(p - q) else None)
            && (d.value.Some? ==> d.ev == Extra(tx, PotSpk, Obol, 1, PotRole))
  {
    PotFollowed(st, tx, q);
  }

  // ----- OPEN

  lemma OpenShown(validKey: Key -> bool, owners: seq<Key>, l: Ledger, height: nat, op: Op, tx: Tx, st: Index)
    requires Clear(validKey, owners, l, height, op, tx, st) && op.Open?
    ensures Shows(Apply(validKey, owners, height, st, tx).st, Step(l, op, tx.txid))
    ensures Says(Apply(validKey, owners, height, st, tx), tx, true, Some(3),
                  Opened(Newborn(tx), op.amount, op.collateral, op.tick, if op.published then Some(op.owner) else None))
  {
    TokenFacts(validKey, owners, l, height, op, tx, st);
    OpenFacts(validKey, owners, l, height, op, tx, st);
    IssuerReached(validKey, owners, height, st, tx, op.at, 4, op.tick);
    OpenMoves(validKey, owners, l, op, tx, st, SpendsOf(st, tx));
  }

  ghost predicate OpenLayout(validKey: Key -> bool, owners: seq<Key>, l: Ledger, op: Op, tx: Tx, st: Index) {
    && op.Open? && op.at > 0 && Live(l) && 0 < op.amount <= l.pot.value.value
    && (op.published <==> Learnable(validKey, owners, tx, op.at, op.owner))
    && FirstAt(tx, PotSpk, Obol, 1, SatSub(l.pot.value.value, op.amount))
    && FirstAt(tx, ReserveSpk, Policy, 3, op.reserveTo)
    && tx.outputs != [] && tx.outputs[0] == VaultOut(NextVault(l, op).value) && Newborn(tx) !in l.vaults
  }

  lemma OpenFacts(validKey: Key -> bool, owners: seq<Key>, l: Ledger, height: nat, op: Op, tx: Tx, st: Index)
    requires Clear(validKey, owners, l, height, op, tx, st) && op.Open?
    ensures OpenLayout(validKey, owners, l, op, tx, st) && Shows(st, l)
  {
  }

  lemma OpenMoves(validKey: Key -> bool, owners: seq<Key>, l: Ledger, op: Op, tx: Tx, st: Index, sp: Spends)
    requires OpenLayout(validKey, owners, l, op, tx, st) && Shows(st, l)
    requires sp.pot == Some(op.at - 1) && sp.reserve == Some(3)
    ensures var o := OpenArm(validKey, owners, TokenAtOutput(st, tx.txid, 4, op.tick), tx, op.at, op.tick, sp);
            && Shows(o.st, Step(l, op, tx.txid))
            && Says(o, tx, true, Some(3), Opened(Newborn(tx), op.amount, op.collateral, op.tick,
                               if op.published then Some(op.owner) else None))
  {
    var v := NextVault(l, op).value;
    var t := OpenArmShown(validKey, owners, TokenAtOutput(st, tx.txid, 4, op.tick), tx, op.at, v, sp,
                          SatSub(l.pot.value.value, op.amount), op.reserveTo);
    AddedShown(st.vaults, l.vaults, Newborn(tx), t, v);
  }

  lemma AddedShown(vaults: map<OutPoint, TrackedVault>, truth: map<OutPoint, TrueVault>, at: OutPoint, t: TrackedVault,
                   v: TrueVault)
    requires ShowsVaults(vaults, truth) && Agrees(t, v) && !v.husk
    ensures ShowsVaults(vaults[at := t], truth[at := v])
  {
  }

  lemma OpenArmShown(validKey: Key -> bool, owners: seq<Key>, st: Index, tx: Tx, at: nat, v: TrueVault, sp: Spends,
                     q: nat, r: nat) returns (t: TrackedVault)
    requires at > 0 && sp.pot == Some(at - 1) && sp.reserve == Some(3)
    requires st.pot.Some? && v.state.debt > 0 && st.pot.value.value == q + v.state.debt
    requires FirstAt(tx, PotSpk, Obol, 1, q) && FirstAt(tx, ReserveSpk, Policy, 3, r)
    requires tx.outputs != [] && tx.outputs[0] == VaultOut(v)
    requires v.published <==> Learnable(validKey, owners, tx, at, v.state.owner)
    ensures Agrees(t, v)
    ensures OpenArm(validKey, owners, st, tx, at, v.state.lastHeight, sp).st
            == st.(pot := Some(Singleton(OutPoint(tx.txid, 1), q)), reserve := Some(Singleton(OutPoint(tx.txid, 3), r)),
                   vaults := st.vaults[Newborn(tx) := t])
    ensures Says(OpenArm(validKey, owners, st, tx, at, v.state.lastHeight, sp), tx, true, Some(3),
                  Opened(Newborn(tx), v.state.debt, v.value, v.state.lastHeight, t.owner))
  {
    DeltaRead(st, tx, false, st.pot.value.value, q);
    var st1 := st.(pot := Some(Singleton(OutPoint(tx.txid, 1), q)));
    ReserveFollowed(st1, tx, 3, r);
    t := BornShown(validKey, owners, st1.(reserve := Some(Singleton(OutPoint(tx.txid, 3), r))), tx, at, v);
  }

  // ----- DRAW

  lemma DrawShown(validKey: Key -> bool, owners: seq<Key>, l: Ledger, height: nat, op: Op, tx: Tx, st: Index)
    requires Clear(validKey, owners, l, height, op, tx, st) && op.Draw? && op.vault in st.vaults
    ensures Shows(Apply(validKey, owners, height, st, tx).st, Step(l, op, tx.txid))
    ensures Says(Apply(validKey, owners, height, st, tx), tx, true, None, Drawn(op.vault, Newborn(tx), op.amount))
  {
    TokenFacts(validKey, owners, l, height, op, tx, st);
    DrawFacts(validKey, owners, l, height, op, tx, st);
    IssuerReached(validKey, owners, height, st, tx, op.at, 3, op.tick);
    DrawMoves(l, op, tx, st, SpendsOf(st, tx));
  }

  lemma HuskDrawShown(validKey: Key -> bool, owners: seq<Key>, l: Ledger, height: nat, op: Op, tx: Tx, st: Index)
    requires Clear(validKey, owners, l, height, op, tx, st) && op.Draw? && op.vault !in st.vaults
    ensures Shows(Apply(validKey, owners, height, st, tx).st, Step(l, op, tx.txid))
  {
    TokenFacts(validKey, owners, l, height, op, tx, st);
    DrawFacts(validKey, owners, l, height, op, tx, st);
    IssuerReached(validKey, owners, height, st, tx, op.at, 3, op.tick);
    HuskDrawMoves(l, op, tx, st, SpendsOf(st, tx));
  }

  ghost predicate DrawLayout(l: Ledger, op: Op, tx: Tx, st: Index) {
    && op.Draw? && op.vault in l.vaults && op.at > 0 && Live(l) && 0 < op.amount <= l.pot.value.value
    && l.vaults[op.vault].state.debt + op.amount <= U32_MAX && tx.inputs != [] && tx.inputs[0].prev == op.vault
    && FirstAt(tx, PotSpk, Obol, 1, SatSub(l.pot.value.value, op.amount))
    && tx.outputs != [] && tx.outputs[0] == VaultOut(NextVault(l, op).value) && Newborn(tx) !in l.vaults
  }

  lemma DrawFacts(validKey: Key -> bool, owners: seq<Key>, l: Ledger, height: nat, op: Op, tx: Tx, st: Index)
    requires Clear(validKey, owners, l, height, op, tx, st) && op.Draw?
    ensures DrawLayout(l, op, tx, st) && Shows(st, l)
  {
  }

  lemma DrawMoves(l: Ledger, op: Op, tx: Tx, st: Index, sp: Spends)
    requires DrawLayout(l, op, tx, st) && Shows(st, l) && op.vault in st.vaults
    requires sp.pot == Some(op.at - 1) && sp.vaults == [0]
    ensures var o := DrawArm(TokenAtOutput(st, tx.txid, 3, op.tick), tx, op.at, op.tick, sp);
            Shows(o.st, Step(l, op, tx.txid)) && Says(o, tx, true, None, Drawn(op.vault, Newborn(tx), op.amount))
  {
    var st1 := TokenAtOutput(st, tx.txid, 3, op.tick);
    var t := DrawArmShown(st1, tx, op.at, op.vault, NextVault(l, op).value, sp, SatSub(l.pot.value.value, op.amount));
    SurvivorShown(l, op, tx.txid, st, DrawArm(st1, tx, op.at, op.tick, sp).st, t);
  }

  lemma HuskDrawMoves(l: Ledger, op: Op, tx: Tx, st: Index, sp: Spends)
    requires DrawLayout(l, op, tx, st) && Shows(st, l) && op.vault !in st.vaults
    requires sp.pot == Some(op.at - 1) && sp.vaults == [] && sp.reserve.None?
    ensures Shows(DrawArm(TokenAtOutput(st, tx.txid, 3, op.tick), tx, op.at, op.tick, sp).st, Step(l, op, tx.txid))
  {
    PotFollowed(TokenAtOutput(st, tx.txid, 3, op.tick), tx, SatSub(l.pot.value.value, op.amount));
    UntrackedMoves(l, op, tx, st);
  }

  /** An operation on an untracked vault leaves the tracked ones as they are. */
  lemma UntrackedMoves(l: Ledger, op: Op, tx: Tx, st: Index)
    requires Shows(st, l) && Newborn(tx) !in l.vaults
    requires Targets(op) ==> op.vault in l.vaults && op.vault !in st.vaults
    requires !op.Open?
    ensures ShowsVaults(st.vaults, NextVaults(l, op, tx.txid))
  {
    if Targets(op) {
      assert st.vaults - {op.vault} == st.vaults;
      if NextVault(l, op).Some? {
        HuskHidden(st.vaults, l.vaults, op.vault, Newborn(tx), NextVault(l, op).value);
      }
    }
  }

  lemma DrawArmShown(st: Index, tx: Tx, at: nat, vop: OutPoint, v: TrueVault, sp: Spends, q: nat)
    returns (t: TrackedVault)
    requires at > 0 && sp.pot == Some(at - 1) && sp.vaults == [0] && tx.inputs != [] && tx.inputs[0].prev == vop
    requires st.pot.Some? && q < st.pot.value.value && FirstAt(tx, PotSpk, Obol, 1, q)
    requires vop in st.vaults && v.state.debt == st.vaults[vop].debt + (st.pot.value.value - q) <= U64_MAX
    requires st.vaults[vop].owner == if v.published then Some(v.state.owner) else None
    requires tx.outputs != [] && tx.outputs[0] == VaultOut(v)
    ensures Agrees(t, v)
    ensures DrawArm(st, tx, at, v.state.lastHeight, sp).st
            == st.(pot := Some(Singleton(OutPoint(tx.txid, 1), q)), vaults := (st.vaults - {vop})[Newborn(tx) := t])
    ensures Says(DrawArm(st, tx, at, v.state.lastHeight, sp), tx, true, None,
                 Drawn(vop, Newborn(tx), st.pot.value.value - q))
  {
    var drawn := st.pot.value.value - q;
    DeltaRead(st, tx, false, st.pot.value.value, q);
    var st1 := st.(pot := Some(Singleton(OutPoint(tx.txid, 1), q)));
    var next := st.vaults[vop].(debt := v.state.debt, lastHeight := v.state.lastHeight);
    SuccessorShown(st1.(vaults := st1.vaults - {vop}), vop, next, tx, MDraw(drawn), v);
    t := next.(value := v.value, spk := SpkOf(v.state));
  }

  // ----- BAD-DEBT

  lemma AttestShown(validKey: Key -> bool, owners: seq<Key>, l: Ledger, height: nat, op: Op, tx: Tx, st: Index)
    requires Clear(validKey, owners, l, height, op, tx, st) && op.AttestBadDebt?
    ensures Shows(Apply(validKey, owners, height, st, tx).st, Step(l, op, tx.txid))
    ensures op.vault in st.vaults ==>
              Says(Apply(validKey, owners, height, st, tx), tx, true, Some(2), BadDebtClosed(op.vault))
  {
    TokenFacts(validKey, owners, l, height, op, tx, st);
    AttestFacts(validKey, owners, l, height, op, tx, st);
    IssuerReached(validKey, owners, height, st, tx, 4, 3, op.tick);
    AttestMoves(l, op, tx, st, SpendsOf(st, tx));
  }

  ghost predicate AttestLayout(l: Ledger, op: Op, tx: Tx, st: Index) {
    && op.AttestBadDebt? && op.vault in l.vaults && Live(l) && tx.inputs != [] && tx.inputs[0].prev == op.vault
    && FirstAt(tx, PotSpk, Obol, 1, l.pot.value.value + l.vaults[op.vault].state.debt)
    && FirstAt(tx, ReserveSpk, Policy, 2, op.reserveTo)
  }

  lemma AttestFacts(validKey: Key -> bool, owners: seq<Key>, l: Ledger, height: nat, op: Op, tx: Tx, st: Index)
    requires Clear(validKey, owners, l, height, op, tx, st) && op.AttestBadDebt?
    ensures AttestLayout(l, op, tx, st) && Shows(st, l)
  {
  }

  lemma AttestMoves(l: Ledger, op: Op, tx: Tx, st: Index, sp: Spends)
    requires AttestLayout(l, op, tx, st) && Shows(st, l) && sp.pot == Some(1) && sp.reserve == Some(3)
    requires sp.vaults == if op.vault in st.vaults then [0] else []
    ensures var o := AttestArm(TokenAtOutput(st, tx.txid, 3, op.tick), tx, 4, sp);
            && Shows(o.st, Step(l, op, tx.txid))
            && (op.vault in st.vaults ==> Says(o, tx, true, Some(2), BadDebtClosed(op.vault)))
  {
    var st1, q := TokenAtOutput(st, tx.txid, 3, op.tick), l.pot.value.value + l.vaults[op.vault].state.debt;
    AttestArmShown(st1, tx, sp, op.vault, q, op.reserveTo);
    AttestStep(l, op, tx.txid, q);
    RemovedShown(l, op, tx.txid, st, AttestArm(st1, tx, 4, sp).st);
  }

  lemma AttestStep(l: Ledger, op: Op, txid: nat, q: nat)
    requires op.AttestBadDebt? && op.vault in l.vaults && l.pot.Some?
    requires q == l.pot.value.value + l.vaults[op.vault].state.debt
    ensures Step(l, op, txid)
            == Ledger(Some(Singleton(OutPoint(txid, 1), q)), Some(Singleton(OutPoint(txid, 2), op.reserveTo)),
                      Some(IssuerCoin(op.tick, OutPoint(txid, 3), 1)), l.vaults - {op.vault})
  {
  }

  lemma AttestArmShown(st: Index, tx: Tx, sp: Spends, vop: OutPoint, q: nat, r: nat)
    requires sp.pot == Some(1) && sp.reserve == Some(3) && tx.inputs != [] && tx.inputs[0].prev == vop
    requires sp.vaults == if vop in st.vaults then [0] else []
    requires FirstAt(tx, PotSpk, Obol, 1, q) && FirstAt(tx, ReserveSpk, Policy, 2, r)
    ensures AttestArm(st, tx, 4, sp).st
            == st.(pot := Some(Singleton(OutPoint(tx.txid, 1), q)), reserve := Some(Singleton(OutPoint(tx.txid, 2), r)),
                   vaults := st.vaults - {vop})
    ensures vop in st.vaults ==> Says(AttestArm(st, tx, 4, sp), tx, true, Some(2), BadDebtClosed(vop))
  {
    PotFollowed(st, tx, q);
    ReserveFollowed(FollowPot(st, tx).st, tx, 2, r);
  }

  /** A vault gone for good leaves both maps. */
  lemma RemovedShown(l: Ledger, op: Op, txid: nat, st: Index, s: Index)
    requires Shows(st, l) && Targets(op) && op.vault in l.vaults && NextVault(l, op).None?
    requires var m := Step(l, op, txid); s == Index(m.pot, m.reserve, m.issuer, st.vaults - {op.vault}, st.lost)
    ensures Shows(s, Step(l, op, txid))
  {
  }

  // ----- vault arms without the issuer

  /** The arm that input count and pins select for a tracked vault. */
  lemma VaultReached(validKey: Key -> bool, owners: seq<Key>, height: nat, st: Index, tx: Tx, vop: OutPoint)
    requires tx.inputs != [] && tx.inputs[0].prev == vop && vop in st.vaults
    requires SpendsOf(st, tx).issuer.None? && SpendsOf(st, tx).vaults == [0]
    ensures var (sp, v, n) := (SpendsOf(st, tx), st.vaults[vop], |tx.inputs|);
            && Apply(validKey, owners, height, st, tx) == VaultOp(height, st, tx, vop, sp)
            && (n == 2 && sp.pot.None? && sp.reserve.None? ==>
                  Apply(validKey, owners, height, st, tx) == RefreshArm(st, tx, height, vop, v))
            && (n == 4 && sp.pot == Some(1) && sp.reserve.None? ==>
                  Apply(validKey, owners, height, st, tx) == RepayArm(st, tx, vop, v))
            && (n == 4 && sp.pot == Some(1) && sp.reserve == Some(3) ==>
                  Apply(validKey, owners, height, st, tx) == LiqArm(st, tx, vop, v))
            && (n == 3 && sp.pot == Some(1) && sp.reserve.None? ==>
                  Apply(validKey, owners, height, st, tx)
                  == Out(FollowPot(st, tx).st.(vaults := FollowPot(st, tx).st.vaults - {vop}),
                         FollowPot(st, tx).ev + [Closed(vop)]))
  {
  }

  /** What a vault arm needs to know of a conforming transaction on a tracked vault. */
  ghost predicate VaultLayout(l: Ledger, height: nat, op: Op, tx: Tx, st: Index) {
    && Targets(op) && TokenAfter(op).None? && op.vault in st.vaults && op.vault in l.vaults && Live(l)
    && st.pot == l.pot && Agrees(st.vaults[op.vault], l.vaults[op.vault]) && !l.vaults[op.vault].husk
    && Newborn(tx) !in st.vaults && !Muddled(st.vaults[op.vault], l, op, tx)
    && (PotAfter(l, op).Some? ==> FirstAt(tx, PotSpk, Obol, 1, PotAfter(l, op).value))
    && (ReserveAfter(op).Some? ==>
          ReserveAfter(op).value.0 == 3 && FirstAt(tx, ReserveSpk, Policy, 3, ReserveAfter(op).value.1))
    && (NextVault(l, op).Some? ==> tx.outputs != [] && tx.outputs[0] == VaultOut(NextVault(l, op).value))
    && (op.Repay? || op.Deleverage? ==> op.amount <= l.vaults[op.vault].state.debt)
    && (op.Ratchet? ==> l.vaults[op.vault].state.lastHeight < op.tick <= HeightCap(tx, height))
  }

  lemma VaultFacts(validKey: Key -> bool, owners: seq<Key>, l: Ledger, height: nat, op: Op, tx: Tx, st: Index)
    requires Clear(validKey, owners, l, height, op, tx, st) && Targets(op) && TokenAfter(op).None?
    requires op.vault in st.vaults
    ensures VaultLayout(l, height, op, tx, st) && Shows(st, l)
    ensures tx.inputs != [] && tx.inputs[0].prev == op.vault
    ensures SpendsOf(st, tx) == Spends(None, PotPin(op), ReservePin(op), [0])
  {
    PinnedSpends(l, st, op, tx);
  }

  lemma RatchetShown(validKey: Key -> bool, owners: seq<Key>, l: Ledger, height: nat, op: Op, tx: Tx, st: Index)
    requires Clear(validKey, owners, l, height, op, tx, st) && op.Ratchet? && op.vault in st.vaults && !Gifts(op)
    ensures Shows(Apply(validKey, owners, height, st, tx).st, Step(l, op, tx.txid))
    ensures Says(Apply(validKey, owners, height, st, tx), tx, false, None,
                  Refreshed(op.vault, Newborn(tx),
                            if l.vaults[op.vault].published then op.tick else LatestTick(tx, height)))
  {
    VaultFacts(validKey, owners, l, height, op, tx, st);
    VaultReached(validKey, owners, height, st, tx, op.vault);
    RatchetMoves(l, height, op, tx, st);
  }

  lemma RatchetMoves(l: Ledger, height: nat, op: Op, tx: Tx, st: Index)
    requires VaultLayout(l, height, op, tx, st) && Shows(st, l) && op.Ratchet? && !Gifts(op)
    ensures var o := RefreshArm(st, tx, height, op.vault, st.vaults[op.vault]);
            && Shows(o.st, Step(l, op, tx.txid))
            && Says(o, tx, false, None, Refreshed(op.vault, Newborn(tx),
                                  if l.vaults[op.vault].published then op.tick else LatestTick(tx, height)))
  {
    var t := RatchetArmShown(st, tx, height, op.vault, l.vaults[op.vault], NextVault(l, op).value);
    SurvivorShown(l, op, tx.txid, st, RefreshArm(st, tx, height, op.vault, st.vaults[op.vault]).st, t);
  }

  /** The scan recovers the committed tick of a resolved vault; an opaque one takes the cap. */
  lemma RatchetArmShown(st: Index, tx: Tx, height: nat, vop: OutPoint, was: TrueVault, v: TrueVault)
    returns (t: TrackedVault)
    requires vop in st.vaults && Agrees(st.vaults[vop], was) && was.state.lastHeight < v.state.lastHeight
    requires v == was.(state := was.state.(lastHeight := v.state.lastHeight), value := v.value)
    requires v.state.lastHeight <= HeightCap(tx, height) && tx.outputs != [] && tx.outputs[0] == VaultOut(v)
    ensures Agrees(t, v)
    ensures RefreshArm(st, tx, height, vop, st.vaults[vop]).st
            == st.(vaults := (st.vaults - {vop})[Newborn(tx) := t])
    ensures Says(RefreshArm(st, tx, height, vop, st.vaults[vop]), tx, false, None,
                  Refreshed(vop, Newborn(tx), if v.published then v.state.lastHeight else LatestTick(tx, height)))
  {
    var was, cap := st.vaults[vop], HeightCap(tx, height);
    var next := was.(lastHeight := if v.published then v.state.lastHeight else cap);
    if v.published {
      var r := FindRatchet(SpkOf(v.state), was.debt, v.state.owner, cap, SatAdd(was.lastHeight, 1, U32_MAX));
      assert r == Some(v.state.lastHeight);
    }
    SuccessorShown(st.(vaults := st.vaults - {vop}), vop, next, tx, MRefresh(next.lastHeight), v);
    t := next.(value := v.value, spk := SpkOf(v.state));
  }

  lemma LuckyRatchetShown(validKey: Key -> bool, owners: seq<Key>, l: Ledger, height: nat, op: Op, tx: Tx, st: Index)
    requires Clear(validKey, owners, l, height, op, tx, st) && op.Ratchet? && op.vault in st.vaults && Gifts(op)
    ensures Shows(Apply(validKey, owners, height, st, tx).st, Step(l, op, tx.txid))
  {
    VaultFacts(validKey, owners, l, height, op, tx, st);
    VaultReached(validKey, owners, height, st, tx, op.vault);
    if op.reserveGift.None? {
      LuckyRepayMoves(l, height, op, tx, st);
    } else {
      LuckyLiqMoves(l, height, op, tx, st);
    }
  }

  lemma LuckyRepayMoves(l: Ledger, height: nat, op: Op, tx: Tx, st: Index)
    requires VaultLayout(l, height, op, tx, st) && Shows(st, l) && op.Ratchet? && Gifts(op) && op.reserveGift.None?
    ensures Shows(RepayArm(st, tx, op.vault, st.vaults[op.vault]).st, Step(l, op, tx.txid))
  {
    var v, q := NextVault(l, op).value, op.potTo.value;
    DeltaRead(st, tx, true, l.pot.value.value, q);
    var st1 := st.(pot := Some(Singleton(OutPoint(tx.txid, 1), q)));
    var t := LuckyArmShown(st, st1, tx, op.vault, v, MRepay(q - l.pot.value.value));
    SurvivorShown(l, op, tx.txid, st, RepayArm(st, tx, op.vault, st.vaults[op.vault]).st, t);
  }

  lemma LuckyLiqMoves(l: Ledger, height: nat, op: Op, tx: Tx, st: Index)
    requires VaultLayout(l, height, op, tx, st) && Shows(st, l) && op.Ratchet? && Gifts(op) && op.reserveGift.Some?
    ensures Shows(LiqArm(st, tx, op.vault, st.vaults[op.vault]).st, Step(l, op, tx.txid))
  {
    var v, q := NextVault(l, op).value, op.potTo.value;
    DeltaRead(st, tx, true, l.pot.value.value, q);
    var st1 := st.(pot := Some(Singleton(OutPoint(tx.txid, 1), q)));
    ReserveFollowed(st1, tx, 3, op.reserveGift.value);
    var t := LuckyArmShown(st, FollowReserve(st1, tx).st, tx, op.vault, v, MDeleverage(q - l.pot.value.value));
    SurvivorShown(l, op, tx.txid, st, LiqArm(st, tx, op.vault, st.vaults[op.vault]).st, t);
  }

  lemma LuckyArmShown(st: Index, st1: Index, tx: Tx, vop: OutPoint, v: TrueVault, move: Move) returns (t: TrackedVault)
    requires vop in st.vaults && st1.vaults == st.vaults && st.vaults[vop].owner.None? && st.vaults[vop].debt == 0
    requires !v.published && v.state.debt == 0 && v.state.lastHeight <= st.vaults[vop].lastHeight
    requires tx.outputs != [] && tx.outputs[0] == VaultOut(v)
    ensures Agrees(t, v)
    ensures Successor(st1.(vaults := st1.vaults - {vop}), vop, st.vaults[vop], tx, move).st
            == st1.(vaults := (st.vaults - {vop})[Newborn(tx) := t])
  {
    SuccessorShown(st1.(vaults := st1.vaults - {vop}), vop, st.vaults[vop], tx, move, v);
    t := st.vaults[vop].(value := v.value, spk := SpkOf(v.state));
  }

  lemma CloseShown(validKey: Key -> bool, owners: seq<Key>, l: Ledger, height: nat, op: Op, tx: Tx, st: Index)
    requires Clear(validKey, owners, l, height, op, tx, st) && op.Close? && op.vault in st.vaults
    ensures Shows(Apply(validKey, owners, height, st, tx).st, Step(l, op, tx.txid))
    ensures Says(Apply(validKey, owners, height, st, tx), tx, true, None, Closed(op.vault))
  {
    VaultFacts(validKey, owners, l, height, op, tx, st);
    VaultReached(validKey, owners, height, st, tx, op.vault);
    PotFollowed(st, tx, PotAfter(l, op).value);
    RemovedShown(l, op, tx.txid, st, FollowPot(st, tx).st.(vaults := FollowPot(st, tx).st.vaults - {op.vault}));
  }

  lemma RepayShown(validKey: Key -> bool, owners: seq<Key>, l: Ledger, height: nat, op: Op, tx: Tx, st: Index)
    requires Clear(validKey, owners, l, height, op, tx, st) && op.Repay? && op.vault in st.vaults
    ensures Shows(Apply(validKey, owners, height, st, tx).st, Step(l, op, tx.txid))
    ensures Says(Apply(validKey, owners, height, st, tx), tx, true, None, Repaid(op.vault, Newborn(tx), op.amount))
  {
    VaultFacts(validKey, owners, l, height, op, tx, st);
    VaultReached(validKey, owners, height, st, tx, op.vault);
    RepayMoves(l, height, op, tx, st);
  }

  lemma RepayMoves(l: Ledger, height: nat, op: Op, tx: Tx, st: Index)
    requires VaultLayout(l, height, op, tx, st) && Shows(st, l) && op.Repay?
    ensures var o := RepayArm(st, tx, op.vault, st.vaults[op.vault]);
            Shows(o.st, Step(l, op, tx.txid)) && Says(o, tx, true, None, Repaid(op.vault, Newborn(tx), op.amount))
  {
    var t := RepayArmShown(st, tx, op.vault, NextVault(l, op).value, l.pot.value.value + op.amount);
    SurvivorShown(l, op, tx.txid, st, RepayArm(st, tx, op.vault, st.vaults[op.vault]).st, t);
  }

  lemma RepayArmShown(st: Index, tx: Tx, vop: OutPoint, v: TrueVault, q: nat) returns (t: TrackedVault)
    requires st.pot.Some? && st.pot.value.value < q && FirstAt(tx, PotSpk, Obol, 1, q)
    requires vop in st.vaults && v.state.debt + (q - st.pot.value.value) == st.vaults[vop].debt
    requires Agrees(st.vaults[vop].(debt := v.state.debt, value := v.value, spk := SpkOf(v.state)), v)
    requires tx.outputs != [] && tx.outputs[0] == VaultOut(v)
    ensures Agrees(t, v)
    ensures RepayArm(st, tx, vop, st.vaults[vop]).st
            == st.(pot := Some(Singleton(OutPoint(tx.txid, 1), q)), vaults := (st.vaults - {vop})[Newborn(tx) := t])
    ensures Says(RepayArm(st, tx, vop, st.vaults[vop]), tx, true, None,
                 Repaid(vop, Newborn(tx), q - st.pot.value.value))
  {
    DeltaRead(st, tx, true, st.pot.value.value, q);
    var st1 := st.(pot := Some(Singleton(OutPoint(tx.txid, 1), q)));
    var next := st.vaults[vop].(debt := v.state.debt);
    SuccessorShown(st1.(vaults := st1.vaults - {vop}), vop, next, tx, MRepay(q - st.pot.value.value), v);
    t := next.(value := v.value, spk := SpkOf(v.state));
  }

  lemma DeleverageShown(validKey: Key -> bool, owners: seq<Key>, l: Ledger, height: nat, op: Op, tx: Tx, st: Index)
    requires Clear(validKey, owners, l, height, op, tx, st) && op.Deleverage? && op.vault in st.vaults
    ensures Shows(Apply(validKey, owners, height, st, tx).st, Step(l, op, tx.txid))
    ensures Says(Apply(validKey, owners, height, st, tx), tx, true, Some(3),
                 if NextVault(l, op).value.husk then FullyLiquidated(op.vault)
                 else Deleveraged(op.vault, Newborn(tx), op.amount))
  {
    VaultFacts(validKey, owners, l, height, op, tx, st);
    VaultReached(validKey, owners, height, st, tx, op.vault);
    LiqMoves(l, height, op, tx, st);
  }

  lemma LiqMoves(l: Ledger, height: nat, op: Op, tx: Tx, st: Index)
    requires VaultLayout(l, height, op, tx, st) && Shows(st, l) && op.Deleverage?
    ensures var o := LiqArm(st, tx, op.vault, st.vaults[op.vault]);
            && Shows(o.st, Step(l, op, tx.txid))
            && Says(o, tx, true, Some(3), if NextVault(l, op).value.husk then FullyLiquidated(op.vault)
                        else Deleveraged(op.vault, Newborn(tx), op.amount))
  {
    var t := LiqArmShown(st, tx, op.vault, NextVault(l, op).value, l.pot.value.value + op.amount, op.reserveTo);
    SurvivorShown(l, op, tx.txid, st, LiqArm(st, tx, op.vault, st.vaults[op.vault]).st, t);
  }

  /** Both ends of the shared liquidation layout on a tracked vault: it survives at output 0, or
      it was opaque and its whole debt was repaid. */
  lemma LiqArmShown(st: Index, tx: Tx, vop: OutPoint, v: TrueVault, q: nat, r: nat) returns (t: TrackedVault)
    requires st.pot.Some? && st.pot.value.value < q && FirstAt(tx, PotSpk, Obol, 1, q)
    requires FirstAt(tx, ReserveSpk, Policy, 3, r)
    requires vop in st.vaults && v.state.debt + (q - st.pot.value.value) == st.vaults[vop].debt
    requires Agrees(st.vaults[vop].(debt := v.state.debt, value := v.value, spk := SpkOf(v.state)), v)
    requires v.husk <==> !v.published && v.state.debt == 0
    requires tx.outputs != [] && tx.outputs[0] == VaultOut(v)
    ensures Agrees(t, v)
    ensures LiqArm(st, tx, vop, st.vaults[vop]).st
            == st.(pot := Some(Singleton(OutPoint(tx.txid, 1), q)), reserve := Some(Singleton(OutPoint(tx.txid, 3), r)),
                   vaults := if v.husk then st.vaults - {vop} else (st.vaults - {vop})[Newborn(tx) := t])
    ensures Says(LiqArm(st, tx, vop, st.vaults[vop]), tx, true, Some(3),
                  if v.husk then FullyLiquidated(vop) else Deleveraged(vop, Newborn(tx), q - st.pot.value.value))
  {
    DeltaRead(st, tx, true, st.pot.value.value, q);
    var st1 := st.(pot := Some(Singleton(OutPoint(tx.txid, 1), q)));
    ReserveFollowed(st1, tx, 3, r);
    var st2 := st1.(reserve := Some(Singleton(OutPoint(tx.txid, 3), r)));
    var next := st.vaults[vop].(debt := v.state.debt);
    SuccessorShown(st2.(vaults := st2.vaults - {vop}), vop, next, tx, MDeleverage(q - st.pot.value.value), v);
    t := next.(value := v.value, spk := SpkOf(v.state));
  }

  /** A surviving vault moves to output 0 in both maps, unless it is a husk from now on. */
  lemma SurvivorShown(l: Ledger, op: Op, txid: nat, st: Index, s: Index, t: TrackedVault)
    requires Shows(st, l) && Targets(op) && op.vault in st.vaults && OutPoint(txid, 0) !in st.vaults
    requires NextVault(l, op).Some? && Agrees(t, NextVault(l, op).value)
    requires var m := Step(l, op, txid);
             s == Index(m.pot, m.reserve, m.issuer,
                        if NextVault(l, op).value.husk then st.vaults - {op.vault}
                        else (st.vaults - {op.vault})[OutPoint(txid, 0) := t], st.lost)
    ensures Shows(s, Step(l, op, txid))
  {
    var v := NextVault(l, op).value;
    if v.husk {
      HuskHidden(st.vaults, l.vaults, op.vault, OutPoint(txid, 0), v);
    } else {
      ReplacedShown(st.vaults, l.vaults, op.vault, OutPoint(txid, 0), t, v);
    }
  }

  lemma FullLiquidateShown(validKey: Key -> bool, owners: seq<Key>, l: Ledger, height: nat, op: Op, tx: Tx, st: Index)
    requires Clear(validKey, owners, l, height, op, tx, st) && op.FullLiquidate? && op.vault in st.vaults
    ensures Shows(Apply(validKey, owners, height, st, tx).st, Step(l, op, tx.txid))
    ensures Says(Apply(validKey, owners, height, st, tx), tx, true, Some(3), FullyLiquidated(op.vault))
  {
    VaultFacts(validKey, owners, l, height, op, tx, st);
    VaultReached(validKey, owners, height, st, tx, op.vault);
    FullLiqMoves(l, height, op, tx, st);
  }

  lemma FullLiqMoves(l: Ledger, height: nat, op: Op, tx: Tx, st: Index)
    requires VaultLayout(l, height, op, tx, st) && Shows(st, l) && op.FullLiquidate?
    ensures var o := LiqArm(st, tx, op.vault, st.vaults[op.vault]);
            Shows(o.st, Step(l, op, tx.txid)) && Says(o, tx, true, Some(3), FullyLiquidated(op.vault))
  {
    var q := l.pot.value.value + l.vaults[op.vault].state.debt;
    DeltaRead(st, tx, true, l.pot.value.value, q);
    ReserveFollowed(st.(pot := Some(Singleton(OutPoint(tx.txid, 1), q))), tx, 3, op.reserveTo);
    RemovedShown(l, op, tx.txid, st, LiqArm(st, tx, op.vault, st.vaults[op.vault]).st);
  }

  // ----- pot and reserve spent without issuer or tracked vault

  /** The grow-only arms alone, or an operation on an untracked vault: read as a donation, it
      still leaves every singleton and every tracked vault right. */
  lemma DonationShown(validKey: Key -> bool, owners: seq<Key>, l: Ledger, height: nat, op: Op, tx: Tx, st: Index)
    requires Clear(validKey, owners, l, height, op, tx, st) && !op.Outside? && TokenAfter(op).None?
    requires (Targets(op) ==> op.vault !in st.vaults)
    ensures Shows(Apply(validKey, owners, height, st, tx).st, Step(l, op, tx.txid))
    ensures op.Donate? ==> Apply(validKey, owners, height, st, tx).ev == Gratitude(tx, op.potTo, op.reserveGift)
  {
    DonationFacts(validKey, owners, l, height, op, tx, st);
    var sp := SpendsOf(st, tx);
    if sp.pot.Some? || sp.reserve.Some? {
      DonationReached(validKey, owners, height, st, tx);
      DonationMoves(l, op, tx, st, sp);
    } else {
      NothingReached(validKey, owners, height, st, tx);
      NothingMoves(l, op, tx, st);
    }
  }

  lemma NothingMoves(l: Ledger, op: Op, tx: Tx, st: Index)
    requires DonationLayout(l, op, tx, st) && Shows(st, l) && PotPin(op).None? && ReservePin(op).None?
    ensures Shows(st, Step(l, op, tx.txid)) && !op.Donate?
  {
    UntrackedMoves(l, op, tx, st);
  }

  ghost predicate DonationLayout(l: Ledger, op: Op, tx: Tx, st: Index) {
    && !op.Outside? && TokenAfter(op).None? && (Targets(op) ==> op.vault in l.vaults && op.vault !in st.vaults)
    && (op.Donate? ==> Gifts(op)) && (PotPin(op).None? && ReservePin(op).None? ==> Live(l))
    && (PotPin(op).Some? <==> PotAfter(l, op).Some?) && Newborn(tx) !in l.vaults
    && (PotAfter(l, op).Some? ==> FirstAt(tx, PotSpk, Obol, 1, PotAfter(l, op).value))
    && (ReserveAfter(op).Some? ==>
          ReserveAfter(op).value.0 == 3 && FirstAt(tx, ReserveSpk, Policy, 3, ReserveAfter(op).value.1))
    && SpendsOf(st, tx) == Spends(None, PotPin(op), ReservePin(op), [])
  }

  lemma DonationFacts(validKey: Key -> bool, owners: seq<Key>, l: Ledger, height: nat, op: Op, tx: Tx, st: Index)
    requires Clear(validKey, owners, l, height, op, tx, st) && !op.Outside? && TokenAfter(op).None?
    requires (Targets(op) ==> op.vault !in st.vaults)
    ensures DonationLayout(l, op, tx, st) && Shows(st, l)
  {
    PinnedSpends(l, st, op, tx);
  }

  lemma DonationReached(validKey: Key -> bool, owners: seq<Key>, height: nat, st: Index, tx: Tx)
    requires SpendsOf(st, tx).issuer.None? && SpendsOf(st, tx).vaults == []
    requires SpendsOf(st, tx).pot.Some? || SpendsOf(st, tx).reserve.Some?
    ensures Apply(validKey, owners, height, st, tx) == Donation(st, tx, SpendsOf(st, tx))
  {
  }

  /** With every singleton live, a transaction that spends nothing tracked changes nothing. */
  lemma NothingReached(validKey: Key -> bool, owners: seq<Key>, height: nat, st: Index, tx: Tx)
    requires SpendsOf(st, tx) == Spends(None, None, None, []) && st.pot.Some? && st.reserve.Some? && st.issuer.Some?
    ensures Apply(validKey, owners, height, st, tx).st == st
  {
  }

  lemma DonationMoves(l: Ledger, op: Op, tx: Tx, st: Index, sp: Spends)
    requires DonationLayout(l, op, tx, st) && Shows(st, l) && sp == Spends(None, PotPin(op), ReservePin(op), [])
    ensures var (o, m) := (Donation(st, tx, sp), Step(l, op, tx.txid));
            && Shows(o.st, m)
            && (op.Donate? ==> o.ev == Gratitude(tx, op.potTo, op.reserveGift))
  {
    UntrackedMoves(l, op, tx, st);
    GiftsFollowed(st, tx, sp, PotAfter(l, op), if ReserveAfter(op).Some? then Some(ReserveAfter(op).value.1) else None);
  }

  /** Exactly what is reported of a donation. */
  ghost function Gratitude(tx: Tx, p: Option<nat>, r: Option<nat>): seq<Event> {
    (if p.Some? then Extra(tx, PotSpk, Obol, 1, PotRole) + [PotGrew(p.value)] else [])
    + (if r.Some? then Extra(tx, ReserveSpk, Policy, 3, ReserveRole) + [ReserveGrew(r.value)] else [])
  }

  /** A donation's new singletons and its events. */
  lemma GiftsFollowed(st: Index, tx: Tx, sp: Spends, p: Option<nat>, r: Option<nat>)
    requires (sp.pot.Some? <==> p.Some?) && (sp.reserve.Some? <==> r.Some?)
    requires p.Some? ==> FirstAt(tx, PotSpk, Obol, 1, p.value)
    requires r.Some? ==> FirstAt(tx, ReserveSpk, Policy, 3, r.value)
    ensures var o := Donation(st, tx, sp);
            && o.st == st.(pot := if p.Some? then Some(Singleton(OutPoint(tx.txid, 1), p.value)) else st.pot,
                           reserve := if r.Some? then Some(Singleton(OutPoint(tx.txid, 3), r.value)) else st.reserve)
            && o.ev == Gratitude(tx, p, r)
  {
    if p.Some? {
      PotFollowed(st, tx, p.value);
    }
    if r.Some? {
      ReserveFollowed(if p.Some? then FollowPot(st, tx).st else st, tx, 3, r.value);
    }
  }

  // ----- births

  lemma {:induction false} IssuerBirthFound(st: Index, tx: Tx, height: nat, n: nat, at: nat, anchor: nat)
    requires n <= at && OnlyToken(tx, at, anchor) && anchor <= height
    ensures IssuerBirth(st, tx, height, n)
            == Out(st.(issuer := Some(IssuerCoin(anchor, OutPoint(tx.txid, at), 1))),
                   [IssuerBorn(OutPoint(tx.txid, at), anchor)])
    decreases at - n
  {
    if n < at {
      IssuerBirthFound(st, tx, height, n + 1, at, anchor);
    }
  }

  lemma {:induction false} NoIssuerBirth(st: Index, tx: Tx, height: nat, n: nat)
    requires n <= |tx.outputs| && forall i :: 0 <= i < |tx.outputs| ==> tx.outputs[i].asset != Some(IssuerToken)
    ensures IssuerBirth(st, tx, height, n) == Out(st, [])
    decreases |tx.outputs| - n
  {
    if n < |tx.outputs| {
      NoIssuerBirth(st, tx, height, n + 1);
    }
  }

  lemma PotBirthShown(l: Ledger, height: nat, op: Op, tx: Tx, st: Index)
    requires op.Outside? && BirthsMatch(l, height, op, tx) && st.pot == l.pot
    ensures PotBirth(st, tx).st == st.(pot := CoinAt(tx.txid, op.potBirth, l.pot))
  {
    if op.potBirth.Some? {
      LocateFirst(tx, PotSpk, Obol, op.potBirth.value.0, op.potBirth.value.1);
    }
  }

  lemma ReserveBirthShown(l: Ledger, height: nat, op: Op, tx: Tx, st: Index)
    requires op.Outside? && BirthsMatch(l, height, op, tx) && st.reserve == l.reserve
    ensures ReserveBirth(st, tx).st == st.(reserve := CoinAt(tx.txid, op.reserveBirth, l.reserve))
  {
    if op.reserveBirth.Some? {
      LocateFirst(tx, ReserveSpk, Policy, op.reserveBirth.value.0, op.reserveBirth.value.1);
    }
  }

  lemma IssuerBirthShown(l: Ledger, height: nat, op: Op, tx: Tx, st: Index)
    requires op.Outside? && BirthsMatch(l, height, op, tx) && st.issuer == l.issuer
    ensures IssuerWatch(st, tx, height).st == st.(issuer := TokenTo(tx.txid, op.issuerBirth, l.issuer))
  {
    if op.issuerBirth.Some? {
      IssuerBirthFound(st, tx, height, 0, op.issuerBirth.value.0, op.issuerBirth.value.1);
    } else {
      NoIssuerBirth(st, tx, height, 0);
    }
  }

  lemma OutsideShown(validKey: Key -> bool, owners: seq<Key>, l: Ledger, height: nat, op: Op, tx: Tx, st: Index)
    requires Clear(validKey, owners, l, height, op, tx, st) && op.Outside?
    ensures Shows(Apply(validKey, owners, height, st, tx).st, Step(l, op, tx.txid))
  {
    PinnedSpends(l, st, op, tx);
    PotBirthShown(l, height, op, tx, st);
    var st1 := PotBirth(st, tx).st;
    ReserveBirthShown(l, height, op, tx, st1);
    IssuerBirthShown(l, height, op, tx, ReserveBirth(st1, tx).st);
  }
}
