/** What the indexer reports of a conforming transaction is what the operation did, all of it and
    nothing else. */
module Reports {
  import opened Prelude
  import opened Chain
  import opened IndexSpec
  import opened IndexTheorems
  import opened Ledger
  import opened Refinement

  /** The one fact of an operation. An opaque vault's REFRESH is told with the bound that the lock
      time and the block give. */
  function Fact(l: Ledger, op: Op, tx: Tx, height: nat): Event
    requires !op.Outside? && !op.Donate? && (Targets(op) ==> op.vault in l.vaults)
  {
    var next := Newborn(tx);
    match op
    case Poke(tick, _, _) => Poked(tick)
    case Open(_, amount, owner, published, collateral, tick, _) =>
      Opened(next, amount, collateral, tick, if published then Some(owner) else None)
    case Repay(v, amount, _) => Repaid(v, next, amount)
    case Draw(v, _, amount, _, _) => Drawn(v, next, amount)
    case Ratchet(v, tick, _, _, _) =>
      Refreshed(v, next, if l.vaults[v].published then tick else LatestTick(tx, height))
    case Deleverage(v, amount, _, _) =>
      if NextVault(l, op).value.husk then FullyLiquidated(v) else Deleveraged(v, next, amount)
    case FullLiquidate(v, _) => FullyLiquidated(v)
    case AttestBadDebt(v, _, _) => BadDebtClosed(v)
    case Close(v) => Closed(v)
  }

  /** A singleton's share of what a transaction outside the protocol gives to tell: its birth, or,
      once it lives, a fragment if the transaction pays its address. */
  ghost function BirthOrFragment(tx: Tx, lives: bool, born: Option<Event>, spk: Script, asset: Asset, role: Role)
    : seq<Event>
  {
    if lives then if Earlier(tx, spk, asset, |tx.outputs|) then [Fragment(role)] else []
    else if born.Some? then [born.value]
    else []
  }

  function PotBirthTold(op: Op, txid: nat): Option<Event>
    requires op.Outside?
  {
    if op.potBirth.Some? then Some(PotBorn(OutPoint(txid, op.potBirth.value.0), op.potBirth.value.1)) else None
  }

  function ReserveBirthTold(op: Op, txid: nat): Option<Event>
    requires op.Outside?
  {
    if op.reserveBirth.Some? then Some(ReserveBorn(OutPoint(txid, op.reserveBirth.value.0), op.reserveBirth.value.1))
    else None
  }

  function IssuerBirthTold(op: Op, txid: nat): seq<Event>
    requires op.Outside?
  {
    if op.issuerBirth.Some? then [IssuerBorn(OutPoint(txid, op.issuerBirth.value.0), op.issuerBirth.value.1)] else []
  }

  /** Everything there is to tell of an operation, in order: fragments of the singletons it moves
      and its fact; what a donation left in them; the births of a transaction outside. */
  ghost function Told(l: Ledger, op: Op, tx: Tx, height: nat): seq<Event>
    requires Targets(op) ==> op.vault in l.vaults
  {
    if op.Outside? then
      BirthOrFragment(tx, l.pot.Some?, PotBirthTold(op, tx.txid), PotSpk, Obol, PotRole)
      + BirthOrFragment(tx, l.reserve.Some?, ReserveBirthTold(op, tx.txid), ReserveSpk, Policy, ReserveRole)
      + IssuerBirthTold(op, tx.txid)
    else if op.Donate? then Gratitude(tx, op.potTo, op.reserveGift)
    else
      (if PotAfter(l, op).Some? then Extra(tx, PotSpk, Obol, 1, PotRole) else [])
      + (if ReserveAfter(op).Some? then Extra(tx, ReserveSpk, Policy, ReserveAfter(op).value.0, ReserveRole) else [])
      + [Fact(l, op, tx, height)]
  }

  lemma VaultNotices(validKey: Key -> bool, owners: seq<Key>, l: Ledger, height: nat, op: Op, tx: Tx,
                     st: Index)
    requires Clear(validKey, owners, l, height, op, tx, st) && Targets(op) && TokenAfter(op).None?
    requires op.vault in st.vaults && !Gifts(op)
    ensures Apply(validKey, owners, height, st, tx).ev == Told(l, op, tx, height)
  {
    VaultFacts(validKey, owners, l, height, op, tx, st);
    match op
    case Repay(_, _, _) => RepayShown(validKey, owners, l, height, op, tx, st);
    case Ratchet(_, _, _, _, _) => RatchetShown(validKey, owners, l, height, op, tx, st);
    case Deleverage(_, _, _, _) => DeleverageShown(validKey, owners, l, height, op, tx, st);
    case FullLiquidate(_, _) => FullLiquidateShown(validKey, owners, l, height, op, tx, st);
    case Close(_) => CloseShown(validKey, owners, l, height, op, tx, st);
  }

  lemma IssuerNotices(validKey: Key -> bool, owners: seq<Key>, l: Ledger, height: nat, op: Op, tx: Tx,
                      st: Index)
    requires Clear(validKey, owners, l, height, op, tx, st) && TokenAfter(op).Some?
    requires Targets(op) ==> op.vault in st.vaults
    ensures Apply(validKey, owners, height, st, tx).ev == Told(l, op, tx, height)
  {
    match op
    case Poke(_, _, _) => PokeShown(validKey, owners, l, height, op, tx, st);
    case Open(_, _, _, _, _, _, _) => OpenShown(validKey, owners, l, height, op, tx, st);
    case Draw(_, _, _, _, _) => DrawShown(validKey, owners, l, height, op, tx, st);
    case AttestBadDebt(_, _, _) => AttestShown(validKey, owners, l, height, op, tx, st);
  }

  lemma OutsideTold(validKey: Key -> bool, owners: seq<Key>, l: Ledger, height: nat, op: Op, tx: Tx, st: Index)
    requires Clear(validKey, owners, l, height, op, tx, st) && op.Outside?
    ensures Apply(validKey, owners, height, st, tx).ev == Told(l, op, tx, height)
  {
    PinnedSpends(l, st, op, tx);
    PotBirthShown(l, height, op, tx, st);
    ReserveBirthShown(l, height, op, tx, PotBirth(st, tx).st);
    BirthsTold(l, height, op, tx, st);
  }

  lemma BirthsTold(l: Ledger, height: nat, op: Op, tx: Tx, st: Index)
    requires op.Outside? && BirthsMatch(l, height, op, tx)
    requires st.pot == l.pot && st.reserve == l.reserve && st.issuer == l.issuer
    ensures NonProtocol(height, st, tx).ev == Told(l, op, tx, height)
  {
    var p := PotBirth(st, tx);
    PotBirthShown(l, height, op, tx, st);
    ReserveBirthShown(l, height, op, tx, p.st);
    PotTold(l, height, op, tx, st);
    ReserveTold(l, height, op, tx, p.st);
    IssuerTold(l, height, op, tx, ReserveBirth(p.st, tx).st);
  }

  lemma PotTold(l: Ledger, height: nat, op: Op, tx: Tx, st: Index)
    requires op.Outside? && BirthsMatch(l, height, op, tx) && st.pot == l.pot
    ensures PotBirth(st, tx).ev
            == BirthOrFragment(tx, l.pot.Some?, PotBirthTold(op, tx.txid), PotSpk, Obol, PotRole)
  {
    AnyPaying(tx, PotSpk, Obol);
    if op.potBirth.Some? {
      LocateFirst(tx, PotSpk, Obol, op.potBirth.value.0, op.potBirth.value.1);
    }
  }

  lemma ReserveTold(l: Ledger, height: nat, op: Op, tx: Tx, st: Index)
    requires op.Outside? && BirthsMatch(l, height, op, tx) && st.reserve == l.reserve
    ensures ReserveBirth(st, tx).ev
            == BirthOrFragment(tx, l.reserve.Some?, ReserveBirthTold(op, tx.txid), ReserveSpk, Policy, ReserveRole)
  {
    AnyPaying(tx, ReserveSpk, Policy);
    if op.reserveBirth.Some? {
      LocateFirst(tx, ReserveSpk, Policy, op.reserveBirth.value.0, op.reserveBirth.value.1);
    }
  }

  lemma IssuerTold(l: Ledger, height: nat, op: Op, tx: Tx, st: Index)
    requires op.Outside? && BirthsMatch(l, height, op, tx) && st.issuer == l.issuer
    ensures IssuerWatch(st, tx, height).ev == IssuerBirthTold(op, tx.txid)
  {
    if op.issuerBirth.Some? {
      IssuerBirthFound(st, tx, height, 0, op.issuerBirth.value.0, op.issuerBirth.value.1);
    } else {
      NoIssuerBirth(st, tx, height, 0);
    }
  }

  lemma AnyPaying(tx: Tx, spk: Script, asset: Asset)
    ensures LocateCounted(tx, spk, asset).Some? <==> Earlier(tx, spk, asset, |tx.outputs|)
  {
  }

  /** The notices of a conforming transaction that is not misread, on a tracked vault or on none,
      are exactly these: the operation, the vault, its successor and the amount, owner or height
      as they were, and a fragment for each followed singleton that the transaction pays twice. */
  lemma NoticesTellTheTruth(validKey: Key -> bool, owners: seq<Key>, l: Ledger, height: nat, op: Op, tx: Tx,
                            st: Index)
    requires Clear(validKey, owners, l, height, op, tx, st) && (Targets(op) ==> op.vault in st.vaults && !Gifts(op))
    ensures Apply(validKey, owners, height, st, tx).ev == Told(l, op, tx, height)
  {
    if op.Outside? {
      OutsideTold(validKey, owners, l, height, op, tx, st);
    } else if op.Donate? {
      DonationShown(validKey, owners, l, height, op, tx, st);
    } else if TokenAfter(op).Some? {
      IssuerNotices(validKey, owners, l, height, op, tx, st);
    } else {
      VaultNotices(validKey, owners, l, height, op, tx, st);
    }
  }
}
