/** Short conforming histories at which the promises of the indexer end: a draw on a husk goes
    unseen, a repayment of nothing loses a live vault, a payout to the reserve's address hides
    the next vault, and a failed scan drops the notices of the ceremony. */
module Stories {
  import opened Prelude
  import opened Chain
  import opened IndexSpec
  import opened IndexTheorems
  import opened Ledger
  import opened Refinement
  import opened Misreads
  import opened Conservation
  import opened Indexer
  import opened Snapshot
  import opened Sync
  import opened Resumption

  const KEY: Key := [1, 2, 3]
  const PLAIN: TxOut := TxOut(Some(Policy), Some(1), ForeignSpk(0))

  function Coin(txid: nat, vout: nat): TxIn { TxIn(OutPoint(txid, vout), []) }

  /** The ceremony. */
  const CEREMONY: Item :=
    Item(10, Tx(100, 0, [], [TxOut(Some(Obol), Some(1000), PotSpk), TxOut(Some(Policy), Some(5), ReserveSpk),
                             TxOut(Some(IssuerToken), Some(1), IssuerSpk(0))]))

  /** An OPEN for 100 by a key nobody can read off, whose lock time is past its tick. */
  const OPENING: Item :=
    Item(11, Tx(101, 9, [Coin(0, 0), Coin(100, 0), Coin(100, 2), Coin(100, 1)],
                [TxOut(Some(Policy), Some(50), VaultSpk(100, KEY, 8)), TxOut(Some(Obol), Some(900), PotSpk), PLAIN,
                 TxOut(Some(Policy), Some(6), ReserveSpk), TxOut(Some(IssuerToken), Some(1), IssuerSpk(8))]))

  /** A REDEEM of the whole debt. */
  const REDEMPTION: Item :=
    Item(12, Tx(102, 9, [Coin(101, 0), Coin(101, 1), Coin(0, 1), Coin(101, 3)],
                [TxOut(Some(Policy), Some(20), VaultSpk(0, KEY, 8)), TxOut(Some(Obol), Some(1000), PotSpk), PLAIN,
                 TxOut(Some(Policy), Some(7), ReserveSpk)]))

  /** A DRAW of 7 on what the redemption left. */
  const DRAWING: Item :=
    Item(13, Tx(103, 12, [Coin(102, 0), Coin(102, 1), Coin(101, 4)],
                [TxOut(Some(Policy), Some(19), VaultSpk(7, KEY, 12)), TxOut(Some(Obol), Some(993), PotSpk), PLAIN,
                 TxOut(Some(IssuerToken), Some(1), IssuerSpk(12))]))

  const STORY: seq<Item> := [CEREMONY, OPENING, REDEMPTION, DRAWING]

  const DEEDS: seq<Op> :=
    [Outside(Some((0, 1000)), Some((1, 5)), Some((2, 0))), Open(2, 100, KEY, false, 50, 8, 6),
     Deleverage(OutPoint(101, 0), 100, 20, 7), Draw(OutPoint(102, 0), 2, 7, 12, 19)]

  const BORN: Ledger :=
    Ledger(Some(Singleton(OutPoint(100, 0), 1000)), Some(Singleton(OutPoint(100, 1), 5)),
           Some(IssuerCoin(0, OutPoint(100, 2), 1)), map[])

  const OPENED: Ledger :=
    Ledger(Some(Singleton(OutPoint(101, 1), 900)), Some(Singleton(OutPoint(101, 3), 6)),
           Some(IssuerCoin(8, OutPoint(101, 4), 1)),
           map[OutPoint(101, 0) := TrueVault(VaultState(100, KEY, 8), 50, false, false)])

  const REDEEMED: Ledger :=
    Ledger(Some(Singleton(OutPoint(102, 1), 1000)), Some(Singleton(OutPoint(102, 3), 7)),
           Some(IssuerCoin(8, OutPoint(101, 4), 1)),
           map[OutPoint(102, 0) := TrueVault(VaultState(0, KEY, 8), 20, false, true)])

  const REDRAWN: Ledger :=
    Ledger(Some(Singleton(OutPoint(103, 1), 993)), Some(Singleton(OutPoint(102, 3), 7)),
           Some(IssuerCoin(12, OutPoint(103, 3), 1)),
           map[OutPoint(103, 0) := TrueVault(VaultState(7, KEY, 12), 19, false, true)])

  ghost const NOKEY: Key -> bool := k => false

  lemma CeremonyConforms()
    ensures Transition(NOKEY, [], GENESIS, CEREMONY, DEEDS[0], BORN)
  {
  }

  lemma OpeningConforms()
    ensures Transition(NOKEY, [], BORN, OPENING, DEEDS[1], OPENED)
  {
  }

  lemma RedemptionConforms()
    ensures Transition(NOKEY, [], OPENED, REDEMPTION, DEEDS[2], REDEEMED)
  {
  }

  lemma DrawingConforms()
    ensures Transition(NOKEY, [], REDEEMED, DRAWING, DEEDS[3], REDRAWN)
  {
  }

  const LEDGERS: seq<Ledger> := [GENESIS, BORN, OPENED, REDEEMED, REDRAWN]

  lemma DrawingHistory()
    ensures History(NOKEY, [], STORY, DEEDS, LEDGERS)
  {
    CeremonyConforms();
    OpeningConforms();
    RedemptionConforms();
    DrawingConforms();
  }

  /** None of these transactions is misread. */
  lemma DrawingIsRead(k: nat)
    requires History(NOKEY, [], STORY, DEEDS, LEDGERS) && k < 4
    ensures !MisreadAt(NOKEY, [], STORY, DEEDS, LEDGERS, k)
  {
    assert Transition(NOKEY, [], LEDGERS[k], STORY[k], DEEDS[k], LEDGERS[k + 1]);
    ReadPlainly(Scan(NOKEY, [], STORY[..k]), k);
  }

  lemma ReadPlainly(st: Index, k: nat)
    requires k < 4 && (Targets(DEEDS[k]) ==> DEEDS[k].vault in LEDGERS[k].vaults)
    ensures !Misread(st, LEDGERS[k], DEEDS[k], STORY[k].tx)
  {
    if k == 0 {
      assert !Misread(st, GENESIS, DEEDS[0], CEREMONY.tx);
    } else if k == 1 {
      assert !Misread(st, BORN, DEEDS[1], OPENING.tx);
    } else if k == 2 {
      assert !Misread(st, OPENED, DEEDS[2], REDEMPTION.tx);
    } else {
      assert !Misread(st, REDEEMED, DEEDS[3], DRAWING.tx);
    }
  }

  /** On a conforming history, a draw on a husk leaves 7 of the supply out of sight. */
  lemma DrawOnAHuskIsNotTracked()
    ensures History(NOKEY, [], STORY, DEEDS, LEDGERS)
    ensures TrackedSupply(Scan(NOKEY, [], STORY)) + 7 == Entered(DEEDS, LEDGERS, 4)
  {
    DrawingHistory();
    forall k | 0 <= k < 4 ensures !MisreadAt(NOKEY, [], STORY, DEEDS, LEDGERS, k) {
      DrawingIsRead(k);
    }
    assert STORY[..4] == STORY;
    TrackedConservation(NOKEY, [], STORY, DEEDS, LEDGERS, 4);
    HuskOwesSeven();
  }

  lemma HuskOwesSeven()
    ensures Total(HuskDebts(REDRAWN)) == 7
  {
    TotalRemove(HuskDebts(REDRAWN), OutPoint(103, 0));
    assert HuskDebts(REDRAWN) - {OutPoint(103, 0)} == map[];
  }

  // ----- the index after the opening

  lemma AfterOpening()
    ensures WellFormed(OPENED) && Shows(Scan(NOKEY, [], [CEREMONY, OPENING]), OPENED)
  {
    DrawingHistory();
    DrawingIsRead(0);
    DrawingIsRead(1);
    EveryHistoryIsShown(NOKEY, [], STORY, DEEDS, LEDGERS, 2);
    HistoryWellFormed(NOKEY, [], STORY, DEEDS, LEDGERS, 2);
    assert STORY[..2] == [CEREMONY, OPENING];
  }

  // ----- a repayment of nothing

  /** A REPAY of nothing on the vault just opened. */
  const NONPAYMENT: Item :=
    Item(12, Tx(104, 0, [Coin(101, 0), Coin(101, 1), Coin(0, 1), Coin(0, 2)],
                [TxOut(Some(Policy), Some(50), VaultSpk(100, KEY, 8)), TxOut(Some(Obol), Some(900), PotSpk), PLAIN]))

  const UNPAID: Ledger :=
    OPENED.(pot := Some(Singleton(OutPoint(104, 1), 900)),
            vaults := map[OutPoint(104, 0) := TrueVault(VaultState(100, KEY, 8), 50, false, false)])

  lemma NonpaymentConforms()
    ensures Transition(NOKEY, [], OPENED, NONPAYMENT, Repay(OutPoint(101, 0), 0, 50), UNPAID)
  {
  }

  const STORY2: seq<Item> := [CEREMONY, OPENING, NONPAYMENT]
  const DEEDS2: seq<Op> := [DEEDS[0], DEEDS[1], Repay(OutPoint(101, 0), 0, 50)]
  const LEDGERS2: seq<Ledger> := [GENESIS, BORN, OPENED, UNPAID]

  lemma NonpaymentHistory()
    ensures History(NOKEY, [], STORY2, DEEDS2, LEDGERS2)
  {
    CeremonyConforms();
    OpeningConforms();
    NonpaymentConforms();
  }

  /** A conforming history after which the vault is live on the ledger and lost in the index. */
  lemma ARepaymentOfNothingLosesTheVault()
    ensures History(NOKEY, [], STORY2, DEEDS2, LEDGERS2) && OutPoint(104, 0) in LEDGERS2[3].vaults
    ensures Scan(NOKEY, [], STORY2).lost == map[OutPoint(101, 0) := Lost(104, RepayWithoutPot)]
    ensures Scan(NOKEY, [], STORY2).vaults == map[]
  {
    NonpaymentHistory();
    AfterOpening();
    OpenedThenUnpaid(Scan(NOKEY, [], [CEREMONY, OPENING]));
    assert STORY2[..2] == [CEREMONY, OPENING];
  }

  lemma OpenedThenUnpaid(st: Index)
    requires Shows(st, OPENED) && WellFormed(OPENED)
    ensures var s := Apply(NOKEY, [], 12, st, NONPAYMENT.tx).st;
            s.vaults == map[] && s.lost == map[OutPoint(101, 0) := Lost(104, RepayWithoutPot)]
  {
    NonpaymentConforms();
    assert OutPoint(101, 0) in st.vaults;
    EmptyRepayLoses(NOKEY, [], OPENED, 12, Repay(OutPoint(101, 0), 0, 50), NONPAYMENT.tx, st);
    assert st.vaults - {OutPoint(101, 0)} == map[];
  }

  // ----- a payout to the reserve's address

  /** A LIQUIDATE of 40 whose keeper takes the payout, output 2, at the reserve's address. */
  const SHADOWING: Item :=
    Item(12, Tx(105, 9, [Coin(101, 0), Coin(101, 1), Coin(0, 1), Coin(101, 3)],
                [TxOut(Some(Policy), Some(30), VaultSpk(60, KEY, 8)), TxOut(Some(Obol), Some(940), PotSpk),
                 TxOut(Some(Policy), Some(5), ReserveSpk), TxOut(Some(Policy), Some(7), ReserveSpk)]))

  /** The next OPEN, for 50, which spends the reserve that the covenants moved. */
  const OPENING2: Item :=
    Item(13, Tx(106, 12, [Coin(0, 2), Coin(105, 1), Coin(101, 4), Coin(105, 3)],
                [TxOut(Some(Policy), Some(25), VaultSpk(50, KEY, 10)), TxOut(Some(Obol), Some(890), PotSpk), PLAIN,
                 TxOut(Some(Policy), Some(8), ReserveSpk), TxOut(Some(IssuerToken), Some(1), IssuerSpk(10))]))

  const STORY3: seq<Item> := [CEREMONY, OPENING, SHADOWING, OPENING2]
  const DEEDS3: seq<Op> :=
    [DEEDS[0], DEEDS[1], Deleverage(OutPoint(101, 0), 40, 30, 7), Open(2, 50, KEY, false, 25, 10, 8)]

  const SURVIVOR: TrueVault := TrueVault(VaultState(60, KEY, 8), 30, false, false)

  const LIQUIDATED: Ledger :=
    Ledger(Some(Singleton(OutPoint(105, 1), 940)), Some(Singleton(OutPoint(105, 3), 7)),
           Some(IssuerCoin(8, OutPoint(101, 4), 1)), map[OutPoint(105, 0) := SURVIVOR])

  const REOPENED: Ledger :=
    Ledger(Some(Singleton(OutPoint(106, 1), 890)), Some(Singleton(OutPoint(106, 3), 8)),
           Some(IssuerCoin(10, OutPoint(106, 4), 1)),
           map[OutPoint(105, 0) := SURVIVOR, OutPoint(106, 0) := TrueVault(VaultState(50, KEY, 10), 25, false, false)])

  const LEDGERS3: seq<Ledger> := [GENESIS, BORN, OPENED, LIQUIDATED, REOPENED]

  lemma ShadowingConforms()
    ensures Transition(NOKEY, [], OPENED, SHADOWING, DEEDS3[2], LIQUIDATED)
    ensures Shadowed(OPENED, DEEDS3[2], SHADOWING.tx)
  {
    assert Pays(SHADOWING.tx.outputs[2], ReserveSpk, Policy);
  }

  lemma ReopeningConforms()
    ensures Transition(NOKEY, [], LIQUIDATED, OPENING2, DEEDS3[3], REOPENED)
  {
  }

  /** The index after the payout: the reserve is taken to be the payout. */
  lemma AfterShadowing(st: Index)
    requires Shows(st, OPENED) && WellFormed(OPENED)
    ensures var s := Apply(NOKEY, [], 12, st, SHADOWING.tx).st;
            && s.reserve == Some(Singleton(OutPoint(105, 2), 5)) && s.pot == LIQUIDATED.pot && s.issuer == OPENED.issuer
            && s.vaults.Keys == {OutPoint(105, 0)} && s.vaults[OutPoint(105, 0)].debt == 60
  {
    ShadowingReached(st);
    assert st.vaults.Keys == {OutPoint(101, 0)};
    ShadowingArm(st, st.vaults[OutPoint(101, 0)]);
  }

  lemma ShadowingReached(st: Index)
    requires Shows(st, OPENED) && WellFormed(OPENED)
    ensures OutPoint(101, 0) in st.vaults
    ensures Apply(NOKEY, [], 12, st, SHADOWING.tx)
            == LiqArm(st, SHADOWING.tx, OutPoint(101, 0), st.vaults[OutPoint(101, 0)])
  {
    ShadowingConforms();
    assert OutPoint(101, 0) in st.vaults;
    TargetFacts(NOKEY, [], OPENED, 12, DEEDS3[2], SHADOWING.tx, st);
    VaultReached(NOKEY, [], 12, st, SHADOWING.tx, OutPoint(101, 0));
  }

  lemma ShadowingArm(st: Index, v: TrackedVault)
    requires st.pot == OPENED.pot && st.issuer == OPENED.issuer && v.owner.None? && v.debt == 100
    requires st.vaults == map[OutPoint(101, 0) := v]
    ensures var s := LiqArm(st, SHADOWING.tx, OutPoint(101, 0), v).st;
            && s.reserve == Some(Singleton(OutPoint(105, 2), 5)) && s.pot == LIQUIDATED.pot && s.issuer == OPENED.issuer
            && s.vaults.Keys == {OutPoint(105, 0)} && s.vaults[OutPoint(105, 0)].debt == 60
  {
    var tx := SHADOWING.tx;
    DeltaRead(st, tx, true, 900, 940);
    ReserveFollowed(st.(pot := Some(Singleton(OutPoint(105, 1), 940))), tx, 2, 5);
  }

  /** The next OPEN strays: its reserve input is not the one the index watches. */
  lemma AfterReopening(st: Index)
    requires st.reserve == Some(Singleton(OutPoint(105, 2), 5)) && st.pot == LIQUIDATED.pot
    requires st.issuer == OPENED.issuer
    requires st.vaults.Keys == {OutPoint(105, 0)}
    ensures var s := Apply(NOKEY, [], 13, st, OPENING2.tx).st; s.pot == REOPENED.pot && s.vaults == st.vaults
  {
    var tx := OPENING2.tx;
    NoVaultInputs(tx, st.vaults, 0);
    PinnedInput(tx, OutPoint(101, 4), Some(2));
    PinnedInput(tx, OutPoint(105, 1), Some(1));
    PinnedInput(tx, OutPoint(105, 2), None);
    assert OnlyToken(tx, 4, 10);
    IssuerReached(NOKEY, [], 13, st, tx, 2, 4, 10);
    var st1 := TokenAtOutput(st, 106, 4, 10);
    PotFollowed(st1, tx, 890);
  }

  lemma ShadowingHistory()
    ensures History(NOKEY, [], STORY3, DEEDS3, LEDGERS3)
  {
    CeremonyConforms();
    OpeningConforms();
    ShadowingConforms();
    ReopeningConforms();
  }

  lemma ScanOfStory3()
    ensures var st := Scan(NOKEY, [], STORY3);
            st.pot == REOPENED.pot && st.vaults.Keys == {OutPoint(105, 0)} && st.vaults[OutPoint(105, 0)].debt == 60
  {
    var two, three := [CEREMONY, OPENING], [CEREMONY, OPENING, SHADOWING];
    AfterOpening();
    AfterShadowing(Scan(NOKEY, [], two));
    assert three == two + [SHADOWING] && STORY3 == three + [OPENING2];
    ScanLast(NOKEY, [], two, SHADOWING);
    AfterReopening(Scan(NOKEY, [], three));
    ScanLast(NOKEY, [], three, OPENING2);
  }

  /** A conforming history in which the payout hides a vault of 50: it is live on the ledger,
      unknown to the index, and missing from the tracked supply. */
  lemma AShadowedReserveHidesAVault()
    ensures History(NOKEY, [], STORY3, DEEDS3, LEDGERS3)
    ensures var st := Scan(NOKEY, [], STORY3);
            && OutPoint(106, 0) in LEDGERS3[4].vaults && OutPoint(106, 0) !in st.vaults
            && TrackedSupply(st) + 50 == Supply(LEDGERS3[4])
  {
    ShadowingHistory();
    ScanOfStory3();
    SixtyTracked(Scan(NOKEY, [], STORY3));
    TwoVaultsOwe();
  }

  lemma SixtyTracked(st: Index)
    requires st.vaults.Keys == {OutPoint(105, 0)} && st.vaults[OutPoint(105, 0)].debt == 60
    ensures Total(TrackedDebts(st)) == 60
  {
    TotalRemove(TrackedDebts(st), OutPoint(105, 0));
    assert TrackedDebts(st) - {OutPoint(105, 0)} == map[];
  }

  lemma TwoVaultsOwe()
    ensures Total(Debts(REOPENED.vaults)) == 110
  {
    var m := Debts(REOPENED.vaults);
    TotalRemove(m, OutPoint(105, 0));
    TotalRemove(m - {OutPoint(105, 0)}, OutPoint(106, 0));
    assert m - {OutPoint(105, 0)} - {OutPoint(106, 0)} == map[];
  }

  // ----- notices dropped by a failed scan

  const FIRST: Block := Block(0, [CEREMONY.tx])
  const SECOND: Block := Block(1, [])
  const CHAIN: Blockchain := Blockchain(0, [Link(1, FIRST), Link(2, SECOND)])

  /** A node that serves the ceremony's block and fails on the next, and one that serves both. */
  const FAILING: Node := Node(Some(2), (h: nat) => if h == 1 then Got(1, FIRST) else NoHash)
  const SERVING: Node :=
    Node(Some(2), (h: nat) => if h == 1 then Got(1, FIRST) else if h == 2 then Got(2, SECOND) else NoHash)

  lemma CeremonyIsNoticed()
    ensures NoticesOf(PlayerOf(NOKEY, []), CHAIN, 0, 1) != []
  {
    var tx := CEREMONY.tx;
    CeremonyEvents();
    assert [tx][..0] == [];
    assert BlockNotices(NOKEY, [], 1, EMPTY, [tx]) == [] + Stamp(1, 100, Apply(NOKEY, [], 1, EMPTY, tx).ev);
  }

  lemma CeremonyEvents()
    ensures Apply(NOKEY, [], 1, EMPTY, CEREMONY.tx).ev != []
  {
    LocateFirst(CEREMONY.tx, PotSpk, Obol, 0, 1000);
  }

  lemma ChainIsServed()
    ensures CHAIN.Linked() && Serves(FAILING, CHAIN) && Serves(SERVING, CHAIN)
  {
  }

  /** A life in which the births of the three singletons are never reported: the first scan
      seals the ceremony's block and fails, the second succeeds with nothing to tell. */
  lemma AFailedScanDropsTheCeremony(p: Player, start: Sealed)
    requires p == PlayerOf(NOKEY, []) && start == Sealed(0, 0, EMPTY)
    ensures var mid := Caught(p, FAILING, start);
            var end := Caught(p, SERVING, mid.s);
            && mid.r == Err(NodeError) && mid.s.height == 1
            && end.r.Ok? && end.s == ScanTo(p, CHAIN, 2)
            && end.r.value == [] && NoticesOf(p, CHAIN, 0, 2) != []
  {
    ChainIsServed();
    CeremonyIsNoticed();
    var mid := TwoScans(p, start);
    CaughtStaysOnChain(p, CHAIN, FAILING, start);
    CaughtStaysOnChain(p, CHAIN, SERVING, mid);
    EmptyBlockIsSilent(p);
    NoticesJoin(p, CHAIN, 0, 1, 2);
  }

  lemma TwoScans(p: Player, start: Sealed) returns (mid: Sealed)
    requires start == Sealed(0, 0, EMPTY)
    ensures mid == Extended(p, start, 1, FIRST) && Caught(p, FAILING, start) == Ended(mid, Err(NodeError))
    ensures Caught(p, SERVING, mid).r.Ok? && Caught(p, SERVING, mid).s.height == 2
  {
    mid := Extended(p, start, 1, FIRST);
    assert Walk(p, FAILING, mid, 2, [] + p.tell(1, EMPTY, FIRST.txs)) == Ended(mid, Err(NodeError));
    var end := Extended(p, mid, 2, SECOND);
    assert Walk(p, SERVING, mid, 2, []) == Walk(p, SERVING, end, 2, [] + p.tell(2, mid.st, SECOND.txs));
  }

  lemma EmptyBlockIsSilent(p: Player)
    requires p == PlayerOf(NOKEY, [])
    ensures NoticesOf(p, CHAIN, 1, 2) == []
  {
    assert NoticesOf(p, CHAIN, 1, 1) == [];
    assert BlockNotices(NOKEY, [], 2, ScanTo(p, CHAIN, 1).st, []) == [];
  }
}
