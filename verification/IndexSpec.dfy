/** What the indexer computes, on values: the protocol state read off the layout of one
    transaction. The operations of the indexer are proved against these functions, and the
    theorems about runs are about them. */
module IndexSpec {
  import opened Prelude
  import opened Chain
  import opened WitnessScan

  /** The pot or the reserve: a coin at a constant address. */
  datatype Singleton = Singleton(outpoint: OutPoint, value: nat)

  datatype IssuerCoin = IssuerCoin(anchor: nat, outpoint: OutPoint, value: nat)

  /** A tracked vault; an absent owner means opaque. */
  datatype TrackedVault = TrackedVault(debt: nat, lastHeight: nat, value: nat, owner: Option<Key>, spk: Script)

  datatype Reason =
    | OutsideLayout
    | NoOutputs
    | NotExplicitPolicy
    | SpkMismatch
    | RepayWithoutPot
    | LiqWithoutPot
    | SurvivingDebt

  datatype Lost = Lost(txid: nat, reason: Reason)

  datatype Role = PotRole | ReserveRole | IssuerRole

  datatype What =
    | NoAnchorFound
    | PokeOffInput0
    | OpenWithoutPins
    | DrawWithoutPins
    | AttestWithoutPins
    | UnpinnedOutput
    | OpenWithoutOutputs
    | OpenNotExplicit
    | PotWithoutSuccessor
    | ReserveWithoutSuccessor
    | MintWithoutShrink
    | RepaymentWithoutGrow
    | UnderivableIssuer

  datatype Event =
    | PotBorn(outpoint: OutPoint, value: nat)
    | ReserveBorn(outpoint: OutPoint, value: nat)
    | IssuerBorn(outpoint: OutPoint, anchor: nat)
    | Poked(anchor: nat)
    | Opened(vault: OutPoint, debt: nat, value: nat, lastHeight: nat, owner: Option<Key>)
    | Repaid(vault: OutPoint, successor: OutPoint, amount: nat)
    | Drawn(vault: OutPoint, successor: OutPoint, amount: nat)
    | Refreshed(vault: OutPoint, successor: OutPoint, lastHeight: nat)
    | Deleveraged(vault: OutPoint, successor: OutPoint, amount: nat)
    | Closed(vault: OutPoint)
    | FullyLiquidated(vault: OutPoint)
    | BadDebtClosed(vault: OutPoint)
    | VaultLost(vault: OutPoint, reason: Reason)
    | PotGrew(value: nat)
    | ReserveGrew(value: nat)
    | Fragment(role: Role)
    | Anomaly(what: What)

  datatype Index = Index(pot: Option<Singleton>, reserve: Option<Singleton>, issuer: Option<IssuerCoin>,
                         vaults: map<OutPoint, TrackedVault>, lost: map<OutPoint, Lost>)

  /** A state and the events that led to it. */
  datatype Out = Out(st: Index, ev: seq<Event>)

  const EMPTY: Index := Index(None, None, None, map[], map[])

  // ----- layout helpers

  predicate Pays(out: TxOut, spk: Script, asset: Asset) { out.spk == spk && Explicit(out, asset).Some? }

  /** The first output from `n` on that pays (spk, asset). */
  function FirstPaying(outs: seq<TxOut>, spk: Script, asset: Asset, n: nat): (r: Option<nat>)
    requires n <= |outs|
    ensures r.Some? ==> n <= r.value < |outs| && Pays(outs[r.value], spk, asset)
    ensures r.Some? ==> forall i :: n <= i < r.value ==> !Pays(outs[i], spk, asset)
    ensures r.None? ==> forall i :: n <= i < |outs| ==> !Pays(outs[i], spk, asset)
    decreases |outs| - n
  {
    if n == |outs| then None
    else if Pays(outs[n], spk, asset) then Some(n)
    else FirstPaying(outs, spk, asset, n + 1)
  }

  datatype Hit = Hit(vout: nat, value: nat, extra: bool)

  /** The first output paying (spk, asset), and whether another one does too. */
  function LocateCounted(tx: Tx, spk: Script, asset: Asset): (r: Option<Hit>)
    ensures r.Some? ==> && r.value.vout < |tx.outputs| && Pays(tx.outputs[r.value.vout], spk, asset)
                        && Explicit(tx.outputs[r.value.vout], asset) == Some(r.value.value)
                        && forall i :: 0 <= i < r.value.vout ==> !Pays(tx.outputs[i], spk, asset)
    ensures r.None? ==> forall i :: 0 <= i < |tx.outputs| ==> !Pays(tx.outputs[i], spk, asset)
  {
    match FirstPaying(tx.outputs, spk, asset, 0)
    case None => None
    case Some(n) => Some(Hit(n, Explicit(tx.outputs[n], asset).value,
                             FirstPaying(tx.outputs, spk, asset, n + 1).Some?))
  }

  /** The position of the first input spending an outpoint. */
  function InputFrom(tx: Tx, op: OutPoint, n: nat): (r: Option<nat>)
    requires n <= |tx.inputs|
    ensures r.Some? ==> n <= r.value < |tx.inputs| && tx.inputs[r.value].prev == op
    ensures r.Some? ==> forall i :: n <= i < r.value ==> tx.inputs[i].prev != op
    ensures r.None? ==> forall i :: n <= i < |tx.inputs| ==> tx.inputs[i].prev != op
    decreases |tx.inputs| - n
  {
    if n == |tx.inputs| then None
    else if tx.inputs[n].prev == op then Some(n)
    else InputFrom(tx, op, n + 1)
  }

  /** The inputs, from `n` on, that spend a tracked vault. */
  function VaultInputs(tx: Tx, vaults: map<OutPoint, TrackedVault>, n: nat): (r: seq<nat>)
    requires n <= |tx.inputs|
    ensures forall i :: 0 <= i < |r| ==> n <= r[i] < |tx.inputs| && tx.inputs[r[i]].prev in vaults
    ensures forall i, j :: 0 <= i < j < |r| ==> r[i] < r[j]
    ensures forall k :: n <= k < |tx.inputs| && tx.inputs[k].prev in vaults ==> k in r
    decreases |tx.inputs| - n
  {
    if n == |tx.inputs| then []
    else
      var rest := VaultInputs(tx, vaults, n + 1);
      if tx.inputs[n].prev in vaults then [n] + rest else rest
  }

  /** Where a transaction spends the tracked state. */
  datatype Spends = Spends(issuer: Option<nat>, pot: Option<nat>, reserve: Option<nat>, vaults: seq<nat>)

  function SpendsOf(st: Index, tx: Tx): Spends {
    Spends(if st.issuer.Some? then InputFrom(tx, st.issuer.value.outpoint, 0) else None,
           if st.pot.Some? then InputFrom(tx, st.pot.value.outpoint, 0) else None,
           if st.reserve.Some? then InputFrom(tx, st.reserve.value.outpoint, 0) else None,
           VaultInputs(tx, st.vaults, 0))
  }

  // ----- following the singletons

  /** A followed singleton: the new state, the events, and the successor's value if found. */
  datatype Followed = Followed(st: Index, ev: seq<Event>, value: Option<nat>)

  function FragmentIf(extra: bool, role: Role): seq<Event> { if extra then [Fragment(role)] else [] }

  function FollowPot(st: Index, tx: Tx): Followed {
    match LocateCounted(tx, PotSpk, Obol)
    case Some(hit) =>
      Followed(st.(pot := Some(Singleton(OutPoint(tx.txid, hit.vout), hit.value))),
               FragmentIf(hit.extra, PotRole), Some(hit.value))
    case None => Followed(st.(pot := None), [Anomaly(PotWithoutSuccessor)], None)
  }

  function FollowReserve(st: Index, tx: Tx): Followed {
    match LocateCounted(tx, ReserveSpk, Policy)
    case Some(hit) =>
      Followed(st.(reserve := Some(Singleton(OutPoint(tx.txid, hit.vout), hit.value))),
               FragmentIf(hit.extra, ReserveRole), Some(hit.value))
    case None => Followed(st.(reserve := None), [Anomaly(ReserveWithoutSuccessor)], None)
  }

  /** Follow whichever singletons were spent. */
  function FollowSpent(st: Index, tx: Tx, pot: Option<nat>, reserve: Option<nat>): Out {
    var p := if pot.Some? then FollowPot(st, tx) else Followed(st, [], None);
    var r := if reserve.Some? then FollowReserve(p.st, tx) else Followed(p.st, [], None);
    Out(r.st, p.ev + r.ev)
  }

  /** The pot delta: the old value against the successor's, which must differ in the direction
      the operation claims. */
  function PotDelta(st: Index, tx: Tx, grow: bool): Followed {
    if st.pot.None? then Followed(st, [], None)
    else
      var old_ := st.pot.value.value;
      var f := FollowPot(st, tx);
      if f.value.None? then f
      else if grow && f.value.value > old_ then f.(value := Some(f.value.value - old_))
      else if !grow && old_ > f.value.value then f.(value := Some(old_ - f.value.value))
      else Followed(f.st, f.ev + [Anomaly(if grow then RepaymentWithoutGrow else MintWithoutShrink)], None)
  }

  // ----- vaults

  function MarkLost(st: Index, vop: OutPoint, txid: nat, reason: Reason): Out {
    Out(st.(vaults := st.vaults - {vop}, lost := st.lost[vop := Lost(txid, reason)]), [VaultLost(vop, reason)])
  }

  /** Which transition a successor completes. */
  datatype Move = MRepay(amount: nat) | MDraw(amount: nat) | MRefresh(lastHeight: nat) | MDeleverage(amount: nat)

  function MoveEvent(m: Move, vop: OutPoint, successor: OutPoint): Event {
    match m
    case MRepay(amount) => Repaid(vop, successor, amount)
    case MDraw(amount) => Drawn(vop, successor, amount)
    case MRefresh(h) => Refreshed(vop, successor, h)
    case MDeleverage(amount) => Deleveraged(vop, successor, amount)
  }

  /** Install a successor at output 0; a resolved owner's derived script must match it. */
  function Successor(st: Index, vop: OutPoint, next: TrackedVault, tx: Tx, move: Move): Out {
    if tx.outputs == [] then MarkLost(st, vop, tx.txid, NoOutputs)
    else
      var out0 := tx.outputs[0];
      if Explicit(out0, Policy).None? then MarkLost(st, vop, tx.txid, NotExplicitPolicy)
      else if next.owner.Some? && VaultSpk(next.debt, next.owner.value, next.lastHeight) != out0.spk
        then MarkLost(st, vop, tx.txid, SpkMismatch)
      else
        var op := OutPoint(tx.txid, 0);
        Out(st.(vaults := st.vaults[op := next.(value := Explicit(out0, Policy).value, spk := out0.spk)]),
            [MoveEvent(move, vop, op)])
  }

  /** The owner a birth resolves to: the key its address commits to, if that key is a
      configured candidate or a valid key carried by the issuer input's witness. */
  ghost function OwnerOf(validKey: Key -> bool, owners: seq<Key>, tx: Tx, issuerInput: nat,
                         debt: nat, lastHeight: nat, spk: Script): Option<Key>
  {
    if && spk.VaultSpk? && spk.debt == debt && spk.lastHeight == lastHeight
       && (|| spk.owner in owners
           || (&& issuerInput < |tx.inputs| && validKey(spk.owner)
               && StackCarries(tx.inputs[issuerInput].stack, spk.owner)))
    then Some(spk.owner) else None
  }

  ghost function Born(validKey: Key -> bool, owners: seq<Key>, st: Index, tx: Tx, issuerInput: nat,
                      debt: nat, lastHeight: nat): Out
  {
    if tx.outputs == [] then Out(st, [Anomaly(OpenWithoutOutputs)])
    else
      var out0 := tx.outputs[0];
      if Explicit(out0, Policy).None? then Out(st, [Anomaly(OpenNotExplicit)])
      else
        var value := Explicit(out0, Policy).value;
        var owner := OwnerOf(validKey, owners, tx, issuerInput, debt, lastHeight, out0.spk);
        var op := OutPoint(tx.txid, 0);
        Out(st.(vaults := st.vaults[op := TrackedVault(debt, lastHeight, value, owner, out0.spk)]),
            [Opened(op, debt, value, lastHeight, owner)])
  }

  // ----- issuer-gated operations

  function HeightCap(tx: Tx, height: nat): nat { Min(tx.lockTime, height) }

  /** The token's successor output, if its script commits to anchor `h`. */
  function TokenAt(tx: Tx, h: nat): Option<nat> {
    match LocateCounted(tx, IssuerSpk(h), IssuerToken)
    case Some(hit) => if hit.value == 1 then Some(hit.vout) else None
    case None => None
  }

  /** The highest anchor between `floor` and `h` that derives the token's successor. */
  function FindAnchor(tx: Tx, h: nat, floor: nat): (r: Option<nat>)
    ensures r.Some? ==> floor <= r.value <= h && TokenAt(tx, r.value).Some?
    ensures r.Some? ==> forall i :: r.value < i <= h ==> TokenAt(tx, i).None?
    ensures r.None? ==> forall i :: floor <= i <= h ==> TokenAt(tx, i).None?
    decreases h
  {
    if h < floor then None
    else if TokenAt(tx, h).Some? then Some(h)
    else if h == 0 then None
    else FindAnchor(tx, h - 1, floor)
  }

  ghost function OpenArm(validKey: Key -> bool, owners: seq<Key>, st: Index, tx: Tx, idx: nat, anchor: nat,
                         sp: Spends): Out {
    if idx == 0 || sp.pot != Some(idx - 1) || sp.reserve != Some(3) then Strayed(st, tx, sp, OpenWithoutPins)
    else
      var minted := PotDelta(st, tx, false);
      if minted.value.None? then Out(minted.st, minted.ev)
      else
        var r := FollowReserve(minted.st, tx);
        var b := Born(validKey, owners, r.st, tx, idx, minted.value.value, anchor);
        Out(b.st, minted.ev + r.ev + b.ev)
  }

  /** A shape no covenant arm produces: report it, and follow what was spent. */
  function Strayed(st: Index, tx: Tx, sp: Spends, what: What): Out {
    var f := FollowSpent(st, tx, sp.pot, sp.reserve);
    Out(f.st, [Anomaly(what)] + f.ev)
  }

  function DrawArm(st: Index, tx: Tx, idx: nat, anchor: nat, sp: Spends): Out
    requires forall i :: 0 <= i < |sp.vaults| ==> sp.vaults[i] < |tx.inputs|
  {
    if sp.vaults == [] || sp.vaults[0] != 0 || idx == 0 || sp.pot != Some(idx - 1)
      then Strayed(st, tx, sp, DrawWithoutPins)
    else
      var vop := tx.inputs[0].prev;
      var drawn := PotDelta(st, tx, false);
      if drawn.value.None? || vop !in drawn.st.vaults then Out(drawn.st, drawn.ev)
      else
        var v := drawn.st.vaults[vop];
        var next := v.(debt := SatAdd(v.debt, drawn.value.value, U64_MAX), lastHeight := anchor);
        var s := Successor(drawn.st.(vaults := drawn.st.vaults - {vop}), vop, next, tx, MDraw(drawn.value.value));
        Out(s.st, drawn.ev + s.ev)
  }

  function AttestArm(st: Index, tx: Tx, idx: nat, sp: Spends): Out
    requires forall i :: 0 <= i < |sp.vaults| ==> sp.vaults[i] < |tx.inputs|
  {
    if idx != 4 || sp.vaults == [] || sp.vaults[0] != 0 || sp.pot != Some(1) || sp.reserve != Some(3)
      then Strayed(st, tx, sp, AttestWithoutPins)
    else
      var vop := tx.inputs[0].prev;
      var p := FollowPot(st, tx);
      var r := FollowReserve(p.st, tx);
      Out(r.st.(vaults := r.st.vaults - {vop}), p.ev + r.ev + [BadDebtClosed(vop)])
  }

  /** Any spend of the issuer token: recover the anchor, then dispatch on the output the token
      moved to. */
  ghost function IssuerOp(validKey: Key -> bool, owners: seq<Key>, height: nat, st: Index, tx: Tx, sp: Spends): Out
    requires st.issuer.Some? && sp.issuer.Some?
    requires forall i :: 0 <= i < |sp.vaults| ==> sp.vaults[i] < |tx.inputs|
  {
    match FindAnchor(tx, HeightCap(tx, height), st.issuer.value.anchor)
    case None => Out(st.(issuer := None), [Anomaly(NoAnchorFound)])
    case Some(anchor) =>
      var vout := TokenAt(tx, anchor).value;
      var st1 := st.(issuer := Some(IssuerCoin(anchor, OutPoint(tx.txid, vout), 1)));
      var idx := sp.issuer.value;
      if vout == 0 then
        if idx != 0 then Strayed(st1, tx, sp, PokeOffInput0) else Out(st1, [Poked(anchor)])
      else if vout == 4 then OpenArm(validKey, owners, st1, tx, idx, anchor, sp)
      else if vout == 3 && sp.reserve.None? then DrawArm(st1, tx, idx, anchor, sp)
      else if vout == 3 then AttestArm(st1, tx, idx, sp)
      else Strayed(st1, tx, sp, UnpinnedOutput)
  }

  // ----- vault operations without the issuer

  /** The highest ratchet in [lo, h] that derives output 0 for a resolved vault. */
  function FindRatchet(spk: Script, debt: nat, owner: Key, h: nat, lo: nat): (r: Option<nat>)
    ensures r.Some? ==> lo <= r.value <= h && spk == VaultSpk(debt, owner, r.value)
    ensures r.None? ==> forall i :: lo <= i <= h ==> spk != VaultSpk(debt, owner, i)
    decreases h
  {
    if h < lo then None
    else if spk == VaultSpk(debt, owner, h) then Some(h)
    else if h == 0 then None
    else FindRatchet(spk, debt, owner, h - 1, lo)
  }

  function RefreshArm(st: Index, tx: Tx, height: nat, vop: OutPoint, v: TrackedVault): Out {
    var st1 := st.(vaults := st.vaults - {vop});
    var cap := HeightCap(tx, height);
    if v.owner.Some? && tx.outputs != [] then
      match FindRatchet(tx.outputs[0].spk, v.debt, v.owner.value, cap, SatAdd(v.lastHeight, 1, U32_MAX))
      case None => MarkLost(st1, vop, tx.txid, SpkMismatch)
      case Some(h) => Successor(st1, vop, v.(lastHeight := h), tx, MRefresh(h))
    else Successor(st1, vop, v.(lastHeight := cap), tx, MRefresh(cap))
  }

  function RepayArm(st: Index, tx: Tx, vop: OutPoint, v: TrackedVault): Out {
    var d := PotDelta(st, tx, true);
    if d.value.None? then
      var l := MarkLost(d.st, vop, tx.txid, RepayWithoutPot);
      Out(l.st, d.ev + l.ev)
    else
      var next := v.(debt := SatSub(v.debt, d.value.value));
      var s := Successor(d.st.(vaults := d.st.vaults - {vop}), vop, next, tx, MRepay(d.value.value));
      Out(s.st, d.ev + s.ev)
  }

  /** LIQUIDATE, REDEEM and FULL-LIQ share a layout: a resolved vault's derived script tells
      whether it survives; an opaque one survives unless its whole debt was repaid. */
  function LiqArm(st: Index, tx: Tx, vop: OutPoint, v: TrackedVault): Out {
    var d := PotDelta(st, tx, true);
    if d.value.None? then
      var l := MarkLost(d.st, vop, tx.txid, LiqWithoutPot);
      Out(l.st, d.ev + l.ev)
    else
      var amount := d.value.value;
      var r := FollowReserve(d.st, tx);
      var st1 := r.st.(vaults := r.st.vaults - {vop});
      var debt := SatSub(v.debt, amount);
      var removed := if v.owner.Some?
                     then tx.outputs == [] || !Pays(tx.outputs[0], VaultSpk(debt, v.owner.value, v.lastHeight), Policy)
                     else amount == v.debt;
      var s := if !removed then Successor(st1, vop, v.(debt := debt), tx, MDeleverage(amount))
               else if amount != v.debt then MarkLost(st1, vop, tx.txid, SurvivingDebt)
               else Out(st1, [FullyLiquidated(vop)]);
      Out(s.st, d.ev + r.ev + s.ev)
  }

  /** A tracked vault spent at input 0 with no issuer, told apart by input count and pins. */
  function VaultOp(height: nat, st: Index, tx: Tx, vop: OutPoint, sp: Spends): Out
    requires vop in st.vaults
  {
    var v := st.vaults[vop];
    if |tx.inputs| == 2 && sp.pot.None? && sp.reserve.None? then RefreshArm(st, tx, height, vop, v)
    else if |tx.inputs| == 3 && sp.pot == Some(1) && sp.reserve.None? then
      var p := FollowPot(st, tx);
      Out(p.st.(vaults := p.st.vaults - {vop}), p.ev + [Closed(vop)])
    else if |tx.inputs| == 4 && sp.pot == Some(1) && sp.reserve.None? then RepayArm(st, tx, vop, v)
    else if |tx.inputs| == 4 && sp.pot == Some(1) && sp.reserve == Some(3) then LiqArm(st, tx, vop, v)
    else
      var l := MarkLost(st, vop, tx.txid, OutsideLayout);
      var f := FollowSpent(l.st, tx, sp.pot, sp.reserve);
      Out(f.st, l.ev + f.ev)
  }

  /** Lose the vaults spent at the given inputs, in order. */
  function LoseAll(st: Index, tx: Tx, at: seq<nat>): Out
    requires forall i :: 0 <= i < |at| ==> at[i] < |tx.inputs|
  {
    if at == [] then Out(st, [])
    else
      var rest := LoseAll(st, tx, at[..|at| - 1]);
      var l := MarkLost(rest.st, tx.inputs[at[|at| - 1]].prev, tx.txid, OutsideLayout);
      Out(l.st, rest.ev + l.ev)
  }

  // ----- everything else

  /** The permissionless grow-only arms. */
  function Donation(st: Index, tx: Tx, sp: Spends): Out {
    var p := if sp.pot.Some? then FollowPot(st, tx) else Followed(st, [], None);
    var pe := if p.value.Some? then [PotGrew(p.value.value)] else [];
    var r := if sp.reserve.Some? then FollowReserve(p.st, tx) else Followed(p.st, [], None);
    var re := if r.value.Some? then [ReserveGrew(r.value.value)] else [];
    Out(r.st, p.ev + pe + r.ev + re)
  }

  function PotBirth(st: Index, tx: Tx): Out {
    match LocateCounted(tx, PotSpk, Obol)
    case None => Out(st, [])
    case Some(hit) =>
      if st.pot.Some? then Out(st, [Fragment(PotRole)])
      else
        var op := OutPoint(tx.txid, hit.vout);
        Out(st.(pot := Some(Singleton(op, hit.value))), [PotBorn(op, hit.value)])
  }

  function ReserveBirth(st: Index, tx: Tx): Out {
    match LocateCounted(tx, ReserveSpk, Policy)
    case None => Out(st, [])
    case Some(hit) =>
      if st.reserve.Some? then Out(st, [Fragment(ReserveRole)])
      else
        var op := OutPoint(tx.txid, hit.vout);
        Out(st.(reserve := Some(Singleton(op, hit.value))), [ReserveBorn(op, hit.value)])
  }

  /** The anchor an output's script commits to, if it is at or below the height. */
  function AnchorOf(out: TxOut, height: nat): Option<nat> {
    if out.spk.IssuerSpk? && out.spk.lastMintHeight <= height then Some(out.spk.lastMintHeight) else None
  }

  /** The first one-unit token output, from `n` on, at a derivable script is the issuer; each
      underivable one before it is an anomaly. */
  function IssuerBirth(st: Index, tx: Tx, height: nat, n: nat): Out
    requires n <= |tx.outputs|
    decreases |tx.outputs| - n
  {
    if n == |tx.outputs| then Out(st, [])
    else if Explicit(tx.outputs[n], IssuerToken) != Some(1) then IssuerBirth(st, tx, height, n + 1)
    else match AnchorOf(tx.outputs[n], height)
         case Some(h) =>
           var op := OutPoint(tx.txid, n);
           Out(st.(issuer := Some(IssuerCoin(h, op, 1))), [IssuerBorn(op, h)])
         case None =>
           var rest := IssuerBirth(st, tx, height, n + 1);
           Out(rest.st, [Anomaly(UnderivableIssuer)] + rest.ev)
  }

  function IssuerWatch(st: Index, tx: Tx, height: nat): Out {
    if st.issuer.Some? then
      Out(st, if LocateCounted(tx, IssuerSpk(st.issuer.value.anchor), IssuerToken).Some?
              then [Fragment(IssuerRole)] else [])
    else IssuerBirth(st, tx, height, 0)
  }

  /** No protocol input spent: births and fragments. */
  function NonProtocol(height: nat, st: Index, tx: Tx): Out {
    var p := PotBirth(st, tx);
    var r := ReserveBirth(p.st, tx);
    var i := IssuerWatch(r.st, tx, height);
    Out(i.st, p.ev + r.ev + i.ev)
  }

  /** One transaction, in chain order, at the height of its block. */
  ghost function Apply(validKey: Key -> bool, owners: seq<Key>, height: nat, st: Index, tx: Tx): Out {
    var sp := SpendsOf(st, tx);
    if sp.issuer.Some? then IssuerOp(validKey, owners, height, st, tx, sp)
    else if sp.vaults != [] then
      if |sp.vaults| > 1 || sp.vaults[0] != 0 then
        var l := LoseAll(st, tx, sp.vaults);
        var f := FollowSpent(l.st, tx, sp.pot, sp.reserve);
        Out(f.st, l.ev + f.ev)
      else VaultOp(height, st, tx, tx.inputs[0].prev, sp)
    else if sp.pot.Some? || sp.reserve.Some? then Donation(st, tx, sp)
    else NonProtocol(height, st, tx)
  }
}
