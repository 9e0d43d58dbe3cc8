/** The reference ledger: what the protocol's operations do to the true state, and the
    transaction layouts the covenants pin for each of them. The theorem is that the indexer,
    which sees only transactions, simulates it. */
module Ledger {
  import opened Prelude
  import opened Chain
  import opened WitnessScan
  import opened IndexSpec
  import opened IndexTheorems

  /** A vault as it really is: every committed field and its collateral. `published` says that
      its OPEN let an observer learn the owner; `husk` that it was redeemed to zero debt while
      its owner was not published. */
  datatype TrueVault = TrueVault(state: VaultState, value: nat, published: bool, husk: bool)

  datatype Ledger = Ledger(pot: Option<Singleton>, reserve: Option<Singleton>, issuer: Option<IssuerCoin>,
                           vaults: map<OutPoint, TrueVault>)

  const GENESIS: Ledger := Ledger(None, None, None, map[])

  /** The operations, each with the facts its transaction commits to. Amounts the covenants
      leave open are parameters; `at` is the input that spends the issuer. The grow-only arms of
      the pot and the reserve ask for nothing but their own pins, so they may be spent alone or
      ride along: `potTo` and `reserveGift` are what they then hold. `Deleverage` is LIQUIDATE,
      REDEEM or a REPAY with the reserve riding along, `FullLiquidate` is FULL-LIQ or such a
      CLOSE, and `Close` is CLOSE or the vault's bad-debt arm without the issuer. */
  datatype Op =
    | Outside(potBirth: Option<(nat, nat)>, reserveBirth: Option<(nat, nat)>, issuerBirth: Option<(nat, nat)>)
    | Poke(tick: nat, potTo: Option<nat>, reserveGift: Option<nat>)
    | Open(at: nat, amount: nat, owner: Key, published: bool, collateral: nat, tick: nat, reserveTo: nat)
    | Repay(vault: OutPoint, amount: nat, collateral: nat)
    | Draw(vault: OutPoint, at: nat, amount: nat, tick: nat, collateral: nat)
    | Ratchet(vault: OutPoint, tick: nat, collateral: nat, potTo: Option<nat>, reserveGift: Option<nat>)
    | Deleverage(vault: OutPoint, amount: nat, collateral: nat, reserveTo: nat)
    | FullLiquidate(vault: OutPoint, reserveTo: nat)
    | AttestBadDebt(vault: OutPoint, tick: nat, reserveTo: nat)
    | Close(vault: OutPoint)
    | Donate(potTo: Option<nat>, reserveGift: Option<nat>)

  // ----- what an operation does

  predicate Live(l: Ledger) { l.pot.Some? && l.reserve.Some? && l.issuer.Some? }

  /** The operation acts on an existing vault. */
  predicate Targets(op: Op) {
    op.Repay? || op.Draw? || op.Ratchet? || op.Deleverage? || op.FullLiquidate? || op.AttestBadDebt? || op.Close?
  }

  /** What the pot, and the reserve, hold after their grow-only arms, if those are used. */
  function PotGift(op: Op): Option<nat> { if op.Poke? || op.Ratchet? || op.Donate? then op.potTo else None }

  function ReserveGift(op: Op): Option<nat> { if op.Poke? || op.Ratchet? || op.Donate? then op.reserveGift else None }

  predicate Gifts(op: Op) { PotGift(op).Some? || ReserveGift(op).Some? }

  /** The vault output an operation creates: a newborn vault, or the target's successor. */
  function NextVault(l: Ledger, op: Op): Option<TrueVault>
    requires Targets(op) ==> op.vault in l.vaults
  {
    if op.Open? then Some(TrueVault(VaultState(op.amount, op.owner, op.tick), op.collateral, op.published, false))
    else if !Targets(op) then None
    else
      var v := l.vaults[op.vault];
      var paid := v.state.(debt := SatSub(v.state.debt, if op.Repay? || op.Deleverage? then op.amount else 0));
      match op
      case Repay(_, _, c) => Some(v.(state := paid, value := c))
      case Deleverage(_, _, c, _) =>
        Some(v.(state := paid, value := c, husk := v.husk || (!v.published && paid.debt == 0)))
      case Draw(_, _, amount, tick, c) =>
        Some(v.(state := v.state.(debt := v.state.debt + amount, lastHeight := tick), value := c))
      case Ratchet(_, tick, c, _, _) => Some(v.(state := v.state.(lastHeight := tick), value := c))
      case _ => None
  }

  function NextVaults(l: Ledger, op: Op, txid: nat): map<OutPoint, TrueVault>
    requires Targets(op) ==> op.vault in l.vaults
  {
    var kept := if Targets(op) then l.vaults - {op.vault} else l.vaults;
    var next := NextVault(l, op);
    if next.Some? then kept[OutPoint(txid, 0) := next.value] else kept
  }

  /** The pot's value after an operation, if the operation spends it. */
  function PotAfter(l: Ledger, op: Op): Option<nat>
    requires Targets(op) ==> op.vault in l.vaults
  {
    if l.pot.None? then None
    else
      var p := l.pot.value.value;
      match op
      case Open(_, amount, _, _, _, _, _) => Some(SatSub(p, amount))
      case Draw(_, _, amount, _, _) => Some(SatSub(p, amount))
      case Repay(_, amount, _) => Some(p + amount)
      case Deleverage(_, amount, _, _) => Some(p + amount)
      case FullLiquidate(v, _) => Some(p + l.vaults[v].state.debt)
      case AttestBadDebt(v, _, _) => Some(p + l.vaults[v].state.debt)
      case Close(v) => Some(p + l.vaults[v].state.debt)
      case _ => PotGift(op)
  }

  /** Where the reserve's successor sits and what it holds, if the operation spends it. */
  function ReserveAfter(op: Op): Option<(nat, nat)> {
    match op
    case Open(_, _, _, _, _, _, r) => Some((3, r))
    case Deleverage(_, _, _, r) => Some((3, r))
    case FullLiquidate(_, r) => Some((3, r))
    case AttestBadDebt(_, _, r) => Some((2, r))
    case _ => if ReserveGift(op).Some? then Some((3, ReserveGift(op).value)) else None
  }

  /** The output the token moves to and the anchor it commits, if the issuer is spent. */
  function TokenAfter(op: Op): Option<(nat, nat)> {
    match op
    case Poke(tick, _, _) => Some((0, tick))
    case Open(_, _, _, _, _, tick, _) => Some((4, tick))
    case Draw(_, _, _, tick, _) => Some((3, tick))
    case AttestBadDebt(_, tick, _) => Some((3, tick))
    case _ => None
  }

  function CoinAt(txid: nat, born: Option<(nat, nat)>, before: Option<Singleton>): Option<Singleton> {
    if born.Some? then Some(Singleton(OutPoint(txid, born.value.0), born.value.1)) else before
  }

  function TokenTo(txid: nat, born: Option<(nat, nat)>, before: Option<IssuerCoin>): Option<IssuerCoin> {
    if born.Some? then Some(IssuerCoin(born.value.1, OutPoint(txid, born.value.0), 1)) else before
  }

  /** The ledger after an operation whose transaction has the given txid. */
  function Step(l: Ledger, op: Op, txid: nat): Ledger
    requires Targets(op) ==> op.vault in l.vaults
  {
    if op.Outside? then
      Ledger(CoinAt(txid, op.potBirth, l.pot), CoinAt(txid, op.reserveBirth, l.reserve),
             TokenTo(txid, op.issuerBirth, l.issuer), l.vaults)
    else
      var p := PotAfter(l, op);
      Ledger(CoinAt(txid, if p.Some? then Some((1, p.value)) else None, l.pot),
             CoinAt(txid, ReserveAfter(op), l.reserve), TokenTo(txid, TokenAfter(op), l.issuer),
             NextVaults(l, op, txid))
  }

  // ----- what an operation's transaction looks like

  /** The outpoint is spent at exactly the given input, or not at all. */
  ghost predicate SpentAtPin(tx: Tx, op: OutPoint, at: Option<nat>) {
    match at
    case Some(i) => i < |tx.inputs| && tx.inputs[i].prev == op
    case None => forall i :: 0 <= i < |tx.inputs| ==> tx.inputs[i].prev != op
  }

  /** The input each covenant pins, operation by operation. */
  function PotPin(op: Op): Option<nat> {
    match op
    case Open(at, _, _, _, _, _, _) => if at > 0 then Some(at - 1) else None
    case Draw(_, at, _, _, _) => if at > 0 then Some(at - 1) else None
    case Repay(_, _, _) => Some(1)
    case Deleverage(_, _, _, _) => Some(1)
    case FullLiquidate(_, _) => Some(1)
    case AttestBadDebt(_, _, _) => Some(1)
    case Close(_) => Some(1)
    case _ => if PotGift(op).Some? then Some(1) else None
  }

  function ReservePin(op: Op): Option<nat> { if ReserveAfter(op).Some? then Some(3) else None }

  function IssuerPin(op: Op): Option<nat> {
    match op
    case Poke(_, _, _) => Some(0)
    case Open(at, _, _, _, _, _, _) => Some(at)
    case Draw(_, at, _, _, _) => Some(at)
    case AttestBadDebt(_, _, _) => Some(4)
    case _ => None
  }

  ghost predicate InputsPinned(l: Ledger, op: Op, tx: Tx) {
    && DistinctInputs(tx)
    && (l.pot.Some? ==> SpentAtPin(tx, l.pot.value.outpoint, PotPin(op)))
    && (l.reserve.Some? ==> SpentAtPin(tx, l.reserve.value.outpoint, ReservePin(op)))
    && (l.issuer.Some? ==> SpentAtPin(tx, l.issuer.value.outpoint, IssuerPin(op)))
    && (Targets(op) ==> tx.inputs != [] && tx.inputs[0].prev == op.vault)
    && (forall i :: 0 <= i < |tx.inputs| && tx.inputs[i].prev in l.vaults ==> i == 0 && Targets(op))
  }

  /** Output `n` pays (spk, asset) with the given value. */
  ghost predicate PaysAt(tx: Tx, spk: Script, asset: Asset, n: nat, value: nat) {
    n < |tx.outputs| && tx.outputs[n] == TxOut(Some(asset), Some(value), spk)
  }

  /** Some output before `n` pays (spk, asset). */
  ghost predicate Earlier(tx: Tx, spk: Script, asset: Asset, n: nat) {
    exists i :: 0 <= i < n && i < |tx.outputs| && Pays(tx.outputs[i], spk, asset)
  }

  /** The first output to pay (spk, asset) is output `n`, with the given value. */
  ghost predicate FirstAt(tx: Tx, spk: Script, asset: Asset, n: nat, value: nat) {
    PaysAt(tx, spk, asset, n, value) && !Earlier(tx, spk, asset, n)
  }

  /** The latest height that a mined transaction can commit to: its lock time bounds it,
      and so does its block. */
  function LatestTick(tx: Tx, height: nat): nat { if tx.lockTime <= height then tx.lockTime else height }

  /** The token is a single unit, so one output holds it. */
  ghost predicate OnlyToken(tx: Tx, n: nat, anchor: nat) {
    && n < |tx.outputs| && tx.outputs[n] == TxOut(Some(IssuerToken), Some(1), IssuerSpk(anchor))
    && forall i :: 0 <= i < |tx.outputs| && i != n ==> tx.outputs[i].asset != Some(IssuerToken)
  }

  ghost predicate OutputsPinned(l: Ledger, op: Op, tx: Tx)
    requires Targets(op) ==> op.vault in l.vaults
  {
    && (PotAfter(l, op).Some? ==> PaysAt(tx, PotSpk, Obol, 1, PotAfter(l, op).value))
    && (ReserveAfter(op).Some? ==>
          PaysAt(tx, ReserveSpk, Policy, ReserveAfter(op).value.0, ReserveAfter(op).value.1))
    && (TokenAfter(op).Some? ==> OnlyToken(tx, TokenAfter(op).value.0, TokenAfter(op).value.1))
    && (NextVault(l, op).Some? ==> tx.outputs != [] && tx.outputs[0] == VaultOut(NextVault(l, op).value))
  }

  function VaultOut(v: TrueVault): TxOut { TxOut(Some(Policy), Some(v.value), SpkOf(v.state)) }

  /** An observer can learn the owner: it is a configured key, or the issuer input's witness
      carries it. */
  ghost predicate Learnable(validKey: Key -> bool, owners: seq<Key>, tx: Tx, at: nat, owner: Key) {
    || owner in owners
    || (at < |tx.inputs| && validKey(owner) && StackCarries(tx.inputs[at].stack, owner))
  }

  /** The gates of an operation. Heights: a committed tick is at least the value it advances, at
      most the lock time, and a mined lock time is at most the block. */
  ghost predicate Gates(validKey: Key -> bool, owners: seq<Key>, l: Ledger, height: nat, op: Op, tx: Tx)
    requires Targets(op) ==> op.vault in l.vaults
  {
    && (TokenAfter(op).Some? ==>
          && l.issuer.Some? && l.issuer.value.anchor <= TokenAfter(op).value.1
          && TokenAfter(op).value.1 <= tx.lockTime && TokenAfter(op).value.1 <= height)
    && (PotGift(op).Some? ==> l.pot.Some? && l.pot.value.value <= PotGift(op).value)
    && (ReserveGift(op).Some? ==> l.reserve.Some?)
    && match op
       case Open(at, amount, owner, published, _, _, _) =>
         && Live(l) && at > 0 && 0 < amount <= l.pot.value.value
         && (published <==> Learnable(validKey, owners, tx, at, owner))
       case Repay(v, amount, _) => amount <= l.vaults[v].state.debt
       case Draw(v, at, amount, tick, _) =>
         && at > 0 && l.pot.Some? && 0 < amount <= l.pot.value.value
         && l.vaults[v].state.debt + amount <= U32_MAX
       case Ratchet(v, tick, _, _, _) =>
         l.vaults[v].state.lastHeight < tick && tick <= tx.lockTime && tick <= height
       case Deleverage(v, amount, _, _) => amount <= l.vaults[v].state.debt
       case Donate(_, _) => Gifts(op)
       case _ => true
  }

  /** A transaction outside the protocol may pay the constant addresses, and before the ceremony
      such a payment is the birth of the singleton. */
  ghost predicate BirthsMatch(l: Ledger, height: nat, op: Op, tx: Tx)
    requires op.Outside?
  {
    && (l.pot.Some? ==> op.potBirth.None?)
    && (l.reserve.Some? ==> op.reserveBirth.None?)
    && (l.issuer.Some? ==> op.issuerBirth.None?)
    && (op.potBirth.Some? ==> FirstAt(tx, PotSpk, Obol, op.potBirth.value.0, op.potBirth.value.1))
    && (op.reserveBirth.Some? ==>
          FirstAt(tx, ReserveSpk, Policy, op.reserveBirth.value.0, op.reserveBirth.value.1))
    && (op.issuerBirth.Some? ==>
          OnlyToken(tx, op.issuerBirth.value.0, op.issuerBirth.value.1) && op.issuerBirth.value.1 <= height)
    && (l.pot.None? && op.potBirth.None? ==> !Earlier(tx, PotSpk, Obol, |tx.outputs|))
    && (l.reserve.None? && op.reserveBirth.None? ==> !Earlier(tx, ReserveSpk, Policy, |tx.outputs|))
    && (op.issuerBirth.None? ==> forall i :: 0 <= i < |tx.outputs| ==> tx.outputs[i].asset != Some(IssuerToken))
  }

  /** The txid is new to the ledger. */
  ghost predicate NewTxid(l: Ledger, tx: Tx) {
    && (l.pot.Some? ==> l.pot.value.outpoint.txid != tx.txid)
    && (l.reserve.Some? ==> l.reserve.value.outpoint.txid != tx.txid)
    && (l.issuer.Some? ==> l.issuer.value.outpoint.txid != tx.txid)
    && (forall op :: op in l.vaults ==> op.txid != tx.txid)
  }

  /** The transaction is an instance of the operation: it meets every pin and gate of the
      covenants that run, and does nothing else to the protocol's coins. */
  ghost predicate Conforms(validKey: Key -> bool, owners: seq<Key>, l: Ledger, height: nat, op: Op, tx: Tx) {
    && (Targets(op) ==> op.vault in l.vaults)
    && NewTxid(l, tx)
    && InputsPinned(l, op, tx)
    && Gates(validKey, owners, l, height, op, tx)
    && (if op.Outside? then BirthsMatch(l, height, op, tx) else OutputsPinned(l, op, tx))
  }

  /** Vaults exist only while the singletons live, and no two coins share an outpoint. */
  ghost predicate WellFormed(l: Ledger) {
    && (l.vaults != map[] ==> Live(l))
    && (l.issuer.Some? ==> l.issuer.value.value == 1)
    && (l.pot.Some? ==> l.pot.value.outpoint !in l.vaults)
    && (l.reserve.Some? ==> l.reserve.value.outpoint !in l.vaults)
    && (l.issuer.Some? ==> l.issuer.value.outpoint !in l.vaults)
    && (l.pot.Some? && l.reserve.Some? ==> l.pot.value.outpoint != l.reserve.value.outpoint)
    && (l.pot.Some? && l.issuer.Some? ==> l.pot.value.outpoint != l.issuer.value.outpoint)
    && (l.reserve.Some? && l.issuer.Some? ==> l.reserve.value.outpoint != l.issuer.value.outpoint)
  }

  lemma StepKeepsWellFormed(validKey: Key -> bool, owners: seq<Key>, l: Ledger, height: nat, op: Op, tx: Tx)
    requires WellFormed(l) && Conforms(validKey, owners, l, height, op, tx)
    ensures WellFormed(Step(l, op, tx.txid))
  {
  }

  // ----- the simulation relation

  /** A record agrees with the truth: debt, value and address are exact, and the owner is known
      exactly when it was published. A resolved record has the true ratchet, an opaque one a
      ratchet no lower than the true one. */
  ghost predicate Agrees(t: TrackedVault, v: TrueVault) {
    && t.debt == v.state.debt && t.value == v.value && t.spk == SpkOf(v.state)
    && (if v.published then t.owner == Some(v.state.owner) && t.lastHeight == v.state.lastHeight
        else t.owner.None? && t.lastHeight >= v.state.lastHeight)
  }

  /** The index shows the ledger: every singleton, every vault that is not a husk, nothing else,
      and no vault is lost. */
  ghost predicate Shows(st: Index, l: Ledger) {
    && st.pot == l.pot && st.reserve == l.reserve && st.issuer == l.issuer
    && st.lost == map[]
    && (forall op :: op in st.vaults <==> op in l.vaults && !l.vaults[op].husk)
    && (forall op :: op in st.vaults ==> Agrees(st.vaults[op], l.vaults[op]))
  }
}
