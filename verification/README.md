# STYX off-chain core, verified

A Dafny model of the deterministic half of STYX, a collateralised-debt protocol on Liquid, and
proofs about it: the chain indexer that rebuilds the protocol state from transaction layouts,
the catch-up scan and the snapshot that keep it across failures, the liquidation planner and
its decision ladder, the keeper's step machine, the 3-of-5 quote book, the wallet's coin
selection and self-spends, and the app's keeper loop.

Files, bottom up:

- `Prelude`, `Chain`: options, results, saturating arithmetic; outpoints, transactions, scripts.
- `CovenantMath`, `Oracle`, `Planner`, `Builders`: floor-division laws, ticks, the partial
  liquidation planner, the ladder, the builders' gates and the fee paid.
- `Quotes`: the quote book and its fault model.
- `Coins`, `Retry`: coin selection, self-spends, the conflict-retry policy.
- `Keeper` (module `KeeperStep`), `KeeperLoop`: the step machine and the loop's lifecycle.
- `Witness` (module `WitnessScan`): the bit-granular search for an owner key.
- `IndexSpec`, `Index` (module `Indexer`), `IndexTheorems`: what one transaction does to the
  index, as functions; the indexer itself, as a class proved equal to them; what holds for
  arbitrary transactions.
- `AnyTransaction`: laws for arbitrary transactions, well formed or not.
- `Ledger`, `Refinement`, `Misreads`, `Reports`, `Conservation`, `Stories`: a reference ledger and
  the transactions the covenants allow for its operations; the indexer simulates it on each; the
  transactions it misreads, exactly; what it reports; conservation; concrete histories where the
  promises end.
- `Snapshot`, `Sync`, `Resumption`: the snapshot document, the block loop, and the theorem that
  any mix of failures, saves and restarts ends where one uninterrupted scan ends.

Conventions. A taproot script is a commitment, so `Script` is a free datatype: issuer and vault
scripts are injective in the state they commit to and differ from the constant addresses.
Signature checks, key validity, text encodings, node answers and broadcast outcomes are
parameters. Heights, amounts and txids are unbounded naturals; saturation at 32 or 64 bits is
written out where the code saturates.

A transaction conforms to an operation if it meets every pin and gate of the covenants that run:
positions of pot, reserve, token and vault, the amounts they fix, and the heights. Input counts
and payout scripts are not pinned by any covenant, and the grow-only arms of the pot
(`covenants/reserve_repay.simf`) and of the reserve (`covenants/stability.simf`) may ride along, so
none of these is assumed.

Results where the code, a comment and a promise part ways:

- `Misreads.StepShown` proves which conforming transactions the indexer misreads, if and only if:
  - a payout to the pot's or the reserve's address ahead of the successor. The keeper's script is
    free (`crates/styx-pset/src/intent.rs:101`) and sits before the reserve's successor, so the
    comment at `crates/styx-watch/src/index.rs:597-601` holds for the pot in the builders' layouts
    and fails for the reserve. The next OPEN is then not tracked at all
    (`Stories.AShadowedReserveHidesAVault`);
  - on a tracked vault, a repayment that leaves the pot unchanged. A REPAY of zero passes the
    builder (`crates/styx-pset/src/build/repay.rs:31-40`) and the covenant, and the live vault is
    given up as lost (`Stories.ARepaymentOfNothingLosesTheVault`);
  - on a tracked vault, another number of inputs than the builders' layouts have;
  - a POKE, or a REFRESH of a tracked vault, with the pot or the reserve riding along, but for one
    lucky reading that comes out right (`Refinement.LuckyRatchetShown`);
  - a FULL-LIQ that pays the vault's own address with zero debt, which is pin for pin a REDEEM of
    the whole debt and is shown as one (`Misreads.RebornIsARedemption`).
- A full-debt REDEEM of an opaque vault leaves a live, debtless vault that the indexer drops.
  Comments call it worthless; a DRAW on it borrows again, unseen. `Conservation` proves that
  pot plus tracked debts is the whole supply exactly while no such husk owes anything.
- `crates/styx-watch/src/sync.rs:22-23` says that a failure mid-scan loses nothing. The state
  loses nothing; the notices of the blocks sealed before the failure are never returned
  (`Sync.FailedScanDropsNotices`, `Stories.AFailedScanDropsTheCeremony`).
- `crates/styx-keeper/src/decide.rs:105-109` expects the linear walk to claim what floor jitter
  re-opens. It never moves (`Planner.PlanPartial`). The jitter is there exactly at prices without a
  multiple in [1150000, 1370000] (`Planner.ReachFallsIffSteady`), and at such a price the planner can
  refuse a vault that could be liquidated (`Planner.IncompleteAtAnUnsteadyPrice`).
- `crates/styx-keeper/src/keeper.rs:313` says dd shrinks with the fee. It does not depend on the
  fee (`Planner.PlanStableUnderLowerFee`), so only a failed signature takes the fallback of the
  estimated-fee rebuild (`Builders.PaysTheNetworkFee`).
- `crates/styx-core/src/math.rs:56` bounds each term by 2^33. The bound is wrong at low prices;
  the sum still cannot saturate (`CovenantMath.BadDebtPayExact`).

## Model

| member | source | states |
|---|---|---|
| `Misreads.EveryHistoryIsShown` | crates/styx-watch/src/index.rs:219-587 | Along every history of conforming transactions from the start, after each one the index has exactly the ledger's pot, reserve and issuer, tracks exactly its vaults other than husks, with exact debt, value and address; owners are known iff published, resolved ratchets exact, opaque ones never below the committed height; nothing is lost. Holds for every lock time at or above the committed tick, as long as no transaction so far was a misread one |
| `Misreads.FirstMisreadIsSeen` | crates/styx-watch/src/index.rs:219-587 | The converse: the first misread transaction is where index and ledger part |
| `Misreads.StepShown` | crates/styx-watch/src/index.rs:219-271 | One conforming transaction: the index shows the ledger afterwards iff the transaction is not misread: no shadowed successor, no rider on a POKE, and on a tracked vault the input count, growth and riders of the layout |
| `Misreads.ShadowIsSeen` | crates/styx-watch/src/index.rs:595-642 | An earlier output at the pot's or the reserve's address in its asset is taken for the successor, so index and ledger part |
| `Misreads.SingletonsLocated` | crates/styx-watch/src/index.rs:602-660 | Every operation that spends the pot, POKE aside, leaves it at the first matching output; the same for the reserve where the pot delta is read |
| `Misreads.MuddleIsSeen` | crates/styx-watch/src/index.rs:403-503 | On a tracked vault an unchanged pot, another input count, a rider on a REFRESH or a payout to the vault's own zero-debt address parts index and ledger |
| `Misreads.PokeRiderIsSeen` | crates/styx-watch/src/index.rs:330-337 | A POKE with the pot or the reserve riding along leaves it at a spent outpoint |
| `Misreads.RebornIsARedemption` | crates/styx-watch/src/index.rs:475-496 | A FULL-LIQ that pays the vault's own address with zero debt also conforms as a REDEEM of the whole debt, and that reading is shown iff it is not itself misread |
| `Misreads.EmptyRepayLoses` | crates/styx-watch/src/index.rs:448-452 | A zero repayment moves the tracked vault to the lost set while its successor is live on the ledger |
| `Refinement.OpenShown` | crates/styx-watch/src/index.rs:341-353 | Unless misread, an OPEN at any issuer input with the pot before it tracks and reports the newborn vault, with its owner iff configured or carried by the witness |
| `Refinement.DrawShown` | crates/styx-watch/src/index.rs:356-374 | Unless misread, a DRAW moves the tracked vault to the higher debt at the committed tick, recovered below any lock time |
| `Refinement.HuskDrawShown` | crates/styx-watch/src/index.rs:357-361 | A DRAW on an untracked husk still follows pot and issuer exactly |
| `Refinement.AttestShown` | crates/styx-watch/src/index.rs:376-391 | Unless misread, a bad-debt attestation removes the vault from index and ledger alike and follows all three singletons |
| `Refinement.RatchetShown` | crates/styx-watch/src/index.rs:418-439 | Unless misread, a REFRESH recovers the committed tick of a resolved vault exactly and records the cap for an opaque one |
| `Refinement.LuckyRatchetShown` | crates/styx-watch/src/index.rs:448-497 | The one REFRESH with a rider whose record comes out right: opaque, debtless, four inputs, a grown pot and a recorded ratchet late enough |
| `Refinement.RepayShown` | crates/styx-watch/src/index.rs:448-458 | Unless misread, a REPAY lowers the tracked debt by the pot delta and keeps owner and ratchet |
| `Refinement.DeleverageShown` | crates/styx-watch/src/index.rs:461-497 | Unless misread, LIQUIDATE or REDEEM keeps the vault at the reduced debt, or drops it iff it is opaque and fully repaid |
| `Refinement.FullLiquidateShown` | crates/styx-watch/src/index.rs:475-491 | Unless misread, FULL-LIQ, told from its layout twins by the derived script or the surviving debt, removes the vault |
| `Refinement.CloseShown` | crates/styx-watch/src/index.rs:442-446 | Unless misread, a CLOSE removes the vault and follows the pot that grew by its debt |
| `Refinement.PokeShown` | crates/styx-watch/src/index.rs:330-337 | Without riders a POKE advances the anchor to the committed tick and touches nothing else |
| `Refinement.DonationShown` | crates/styx-watch/src/index.rs:257-268 | Unless shadowed, the grow-only arms alone, and any operation on an untracked vault, leave every singleton and every tracked vault right |
| `Refinement.OutsideShown` | crates/styx-watch/src/index.rs:695-744 | A transaction outside the protocol changes the index only by the births it carries |
| `Refinement.TokenFound` | crates/styx-watch/src/index.rs:293-326 | The descending anchor scan finds the committed tick wherever the cap lies above it |
| `Reports.NoticesTellTheTruth` | crates/styx-watch/src/index.rs:219-744 | The exact notices of a conforming transaction that is not misread, on a tracked vault or on none: a fragment for each followed singleton that the transaction pays twice, and the operation with its vault, successor and true amount, owner or height (the smaller of lock time and block for an opaque REFRESH); what donations left; births |
| `Ledger.StepKeepsWellFormed` | crates/styx-watch/src/index.rs:328-396 | Conforming operations keep the ledger's outpoints distinct, the token a single unit, and vaults only while all singletons live |
| `Conservation.HistoryConserves` | crates/styx-watch/src/index.rs:664-688 | On every conforming history the pot plus all true debts equals everything issued and donated |
| `Conservation.StepConserves` | crates/styx-watch/src/index.rs:664-688 | Each operation moves pot and debts against each other; only births and donations add |
| `Conservation.TrackedConservation` | crates/styx-watch/src/index.rs:257-269 | While no transaction was misread, tracked pot plus tracked debts plus what husks owe equals issued plus donated; without the husk term iff no husk owes anything |
| `Conservation.StepKeepsHusksFree` | crates/styx-watch/src/index.rs:469-480 | An operation makes a debt-free husk owe something iff it is a DRAW on a husk |
| `Conservation.HusksStayFree` | crates/styx-watch/src/index.rs:469-480 | On histories without such draws no husk ever owes anything, so tracked conservation is exact |
| `Conservation.NoVaultsFullPot` | crates/styx-watch/src/index.rs:349-374 | An index without vaults, on such a history without misread transactions, has the whole supply in its pot |
| `Conservation.IssuedOnce` | crates/styx-watch/src/index.rs:695-708 | Without donations the supply is exactly what the ceremony put into the pot, once |
| `Stories.DrawOnAHuskIsNotTracked` | crates/styx-watch/src/index.rs:469-480 | A concrete conforming history after which tracked pot and debts fall 7 short of the supply |
| `Stories.AShadowedReserveHidesAVault` | crates/styx-watch/src/index.rs:595-642 | A concrete conforming history: a keeper's payout to the reserve's address, then an OPEN whose vault of 50 is live, unknown to the index and missing from the tracked supply |
| `Stories.AFailedScanDropsTheCeremony` | crates/styx-watch/src/sync.rs:22-43 | A concrete pair of scans, the first failing after the ceremony's block, after which state and tip are right and the births were never reported |
| `Stories.ARepaymentOfNothingLosesTheVault` | crates/styx-watch/src/index.rs:448-452 | A concrete conforming history after which a live vault is in the lost set |
| `IndexTheorems.VaultAccounting` | crates/styx-watch/src/index.rs:244-271 | For any transaction with distinct inputs and a new txid: vaults that leave were spent and get exactly one notice, all spent ones leave if the issuer is not spent, every other vault is untouched, at most output 0 appears |
| `IndexTheorems.ApplyKeepsTrust` | crates/styx-watch/src/index.rs:514-587 | Any transaction, well formed or not, keeps every resolved record equal to what its address commits to |
| `IndexTheorems.EveryRunKeepsInv` | crates/styx-watch/src/index.rs:514-593 | On every chain, whatever its transactions, resolved records are proven by their addresses, tracked and lost are disjoint, the anchor is at most the last block and the token one unit |
| `IndexTheorems.AnchorAdvances` | crates/styx-watch/src/index.rs:293-326 | Under any transaction a tracked anchor never decreases and never passes the block |
| `AnyTransaction.AnchorIsTheHighest` | crates/styx-watch/src/index.rs:293-326 | For any transaction that spends the token: it is at the highest anchor from the last one up to lock time and block that derives its output, and given up iff there is none |
| `AnyTransaction.AnomaliesAreTold` | crates/styx-watch/src/index.rs:315-396 | Every issuer spend outside the pins is told first, as the anomaly of its output, and leaves every vault; an unfound token is told as that alone |
| `AnyTransaction.UnspentSingletonsStay` | crates/styx-watch/src/index.rs:219-271 | Under any transaction a live singleton that is not spent stays where it is |
| `AnyTransaction.SpentPotIsFollowed` | crates/styx-watch/src/index.rs:602-660 | Under any transaction but a POKE or one whose token is not found, a spent pot goes to the first output that pays it, or is given up |
| `AnyTransaction.SpentReserveIsFollowed` | crates/styx-watch/src/index.rs:620-660 | The same for a spent reserve, except in an OPEN or the liquidation layout whose pot does not show the delta they look for |
| `AnyTransaction.ManyVaultsAreLost` | crates/styx-watch/src/index.rs:246-252 | Two vaults in one transaction, or a vault away from input 0, without the issuer: each is lost, recorded and told with that transaction |
| `AnyTransaction.RefreshIsStrict` | crates/styx-watch/src/index.rs:418-439 | A resolved vault is tracked on after a REFRESH iff output 0 commits to its debt and owner at a strictly later ratchet within lock time and block |
| `AnyTransaction.LiquidationIsRead` | crates/styx-watch/src/index.rs:461-497 | The shared liquidation layout on any vault: goes on, was liquidated in full, or is lost, in plain conditions on output 0 and the amount |
| `AnyTransaction.SuccessorIsRead` | crates/styx-watch/src/index.rs:557-587 | A successor is tracked iff output 0 is there, explicit policy and at the derived address; else lost for the first that fails |
| `AnyTransaction.BirthIsRead` | crates/styx-watch/src/index.rs:514-552 | A newborn vault is tracked iff output 0 is explicit policy, with exactly its debt, ratchet, value and script; else the anomaly that says why |
| `AnyTransaction.DeltaIsRead` | crates/styx-watch/src/index.rs:664-688 | The pot delta is there iff a successor differs in the claimed direction; else the anomaly that says which is missing |
| `AnyTransaction.FragmentsAreTold` | crates/styx-watch/src/index.rs:695-724 | A transaction that spends nothing tracked is a fragment of a live singleton iff it pays its address in its asset |
| `AnyTransaction.IssuerIsBornFirst` | crates/styx-watch/src/index.rs:728-744 | The issuer is born at the first derivable unit of the token, after one anomaly for each unit before it |
| `AnyTransaction.NoIssuerIsBorn` | crates/styx-watch/src/index.rs:728-744 | Without a derivable unit no issuer is born and each unit is an anomaly |
| `Indexer.IndexState.ApplyTx` | crates/styx-watch/src/index.rs:219-271 | The in-place dispatcher leaves exactly the specified state and returns the specified events stamped with height and txid; what that state is, is pinned by `Misreads.StepShown`, `Reports.NoticesTellTheTruth` and the laws of `AnyTransaction` |
| `Indexer.IndexState.ResolveOwner` | crates/styx-watch/src/index.rs:531-540 | Configured keys first, then the witness: finds the committed owner iff it is either |
| `Indexer.IndexState.Locate` | crates/styx-watch/src/index.rs:787-793 | The first output paying script and asset, and whether another does |
| `Indexer.IndexState.WatchIssuerBirth` | crates/styx-watch/src/index.rs:728-744 | The first one-unit token output at a derivable anchor is the issuer; underivable ones before it are anomalies |
| `WitnessScan.ScanForOwner` | crates/styx-watch/src/index.rs:812-841 | Returns a valid matching key the stack carries; None only if no scanned element carries one at any bit offset |
| `WitnessScan.Window` | crates/styx-watch/src/index.rs:820-830 | The 32 bytes assembled by shifts are exactly the 256-bit slice at the offset, with no read past the element |
| `WitnessScan.SliceIsUnique` | crates/styx-watch/src/index.rs:820-830 | A slice determines its key, so the window test misses nothing |
| `Sync.CatchUp` | crates/styx-watch/src/sync.rs:24-44 | The block loop: sealed state and result are those of the specified walk, for any node answers; what that walk reaches and reports is pinned by `Sync.ScanSucceedsIffAnswered` and `Resumption.NoticesAreTheChains` |
| `Sync.WalkStaysOnChain` | crates/styx-watch/src/sync.rs:30-43 | Against a node that serves a chain, with any calls failing, a scan stays on the chain's one scan, never reports a reorg, never moves back; success means the tip and exactly the new blocks' notices |
| `Sync.ScanSucceedsIffAnswered` | crates/styx-watch/src/sync.rs:30-43 | A scan of a served chain succeeds iff the node tells its tip and answers for every height up to it; it has then sealed the tip with the notices of the new blocks |
| `Sync.ReorgIsSeen` | crates/styx-watch/src/sync.rs:34-36 | With the next block in hand a scan stops at once for a reorg iff the sealed tip is not the chain's hash |
| `Sync.FailedScanDropsNotices` | crates/styx-watch/src/sync.rs:22-43 | A failed scan and the next successful one return all notices iff the blocks sealed by the failed one had none |
| `Resumption.EveryLifeResumes` | crates/styx-watch/src/sync.rs:24-44 | Over every sequence of scans against failing nodes, saves and restarts, memory and file are always states of the one uninterrupted scan, and a successful scan brings memory to that scan's state at the tip |
| `Resumption.ScanToIsScan` | crates/styx-watch/src/sync.rs:31-41 | The uninterrupted scan applies every transaction of the chain once, in order |
| `Resumption.NoticesAreTheChains` | crates/styx-watch/src/sync.rs:37-43 | What a scan reports of blocks (lo, hi] is the chain's notices up to hi after those up to lo: every transaction's events, once, in order, stamped with height and txid |
| `Resumption.BlockIsNoticed` | crates/styx-watch/src/sync.rs:38-40 | A block's notices are those of its transactions, in order |
| `Resumption.StampKeeps` | crates/styx-watch/src/index.rs:763-765 | Stamping keeps every event, in order, with its height and its transaction |
| `Resumption.RestartResumes` | crates/styx-watch/src/snapshot.rs:186-202 | A restart right after a save goes on from exactly the saved state |
| `Resumption.EmptyStays` | crates/styx-watch/src/index.rs:695-744 | An empty index stays empty on a transaction iff no output of it can be a birth |
| `Resumption.AnchorStartIsGenesis` | crates/styx-watch/src/index.rs:184-204 | Starting sealed at a height with nothing relevant at or below it is the same as starting at genesis |
| `Resumption.ReachableIsStorable` | crates/styx-watch/src/snapshot.rs:88-122 | Every state a scan reaches has a one-unit token and valid owners, so a document holds all of it |
| `Snapshot.RoundTrip` | crates/styx-watch/src/snapshot.rs:88-184 | Loading a saved document is the identity on every storable state, in any iteration order |
| `Snapshot.LoadedIsStorable` | crates/styx-watch/src/snapshot.rs:124-184 | A document loads iff its version is 1 and every text field reads; what loads can be saved again without loss |
| `Snapshot.Load` | crates/styx-watch/src/snapshot.rs:124-184 | The rebuild with early returns gives the specified state or the first error in field order |
| `Snapshot.Rebuild` | crates/styx-watch/src/snapshot.rs:156-182 | Inserting entries in order: later duplicates win, the first unreadable entry decides the error |
| `Snapshot.HeadErrorsInOrder` | crates/styx-watch/src/snapshot.rs:124-155 | Wrong version, then unreadable tip, then the first unreadable singleton outpoint decides the error |
| `Snapshot.FirstBadVaultDecides` | crates/styx-watch/src/snapshot.rs:156-177 | The first unreadable vault decides: its owner, then its script, then its outpoint |
| `Snapshot.FirstBadLostDecides` | crates/styx-watch/src/snapshot.rs:178-182 | With every vault read, the first unreadable lost record decides: its transaction, then its vault |
| `Snapshot.LastEntryWins` | crates/styx-watch/src/snapshot.rs:156-182 | Of two entries for one outpoint the later one counts |
| `Planner.PlanIsComplete` | crates/styx-keeper/src/decide.rs:95-141 | At every steady price the planner returns nothing iff no amount and residual meet the band, the cap and a positive payout |
| `Planner.ReachFallsIffSteady` | crates/styx-keeper/src/decide.rs:105-110 | The reach that the search compares with never rises, for every debt and amount, iff some multiple of the price lies in [1150000, 1370000] |
| `Planner.CapOutgrowsShare` | crates/styx-keeper/src/decide.rs:128-137 | The extraction cap less the reserve's share never falls with the amount, at any price |
| `Planner.LowPricesAreSteady` | crates/styx-keeper/src/decide.rs:105-109 | Every price up to 220,000 is steady |
| `Planner.IncompleteAtAnUnsteadyPrice` | crates/styx-keeper/src/decide.rs:105-127 | At 1,000,000 and the flat fee a vault of 15,627 cents in the partial band is refused although 9,094 of them could be liquidated at a profit |
| `Planner.SearchNearlyOptimal` | crates/styx-keeper/src/decide.rs:112-127 | The amount found is at most ceil(price/220000) cents below any that fits, and the largest at prices up to 220,000 |
| `Planner.PlanNearlyOptimal` | crates/styx-keeper/src/decide.rs:95-141 | The amount a plan repays is at most ceil(price/220000) cents below any feasible one, and the largest at prices up to 220,000 |
| `Planner.PlanPartial` | crates/styx-keeper/src/decide.rs:95-141 | The two loops compute the plan; the search terminates and the tail walk takes no step |
| `Planner.Search` | crates/styx-keeper/src/decide.rs:112-123 | For any predicate at all the result satisfies it and its successor, if a candidate, does not |
| `Planner.TailWalk` | crates/styx-keeper/src/decide.rs:124-127 | The walk stops at the first candidate that does not fit, and moves only onto ones that do |
| `Planner.PlanIsFeasible` | crates/styx-keeper/src/decide.rs:128-140 | Every plan has 0 < dd < debt, the residual in [132%, 137%], extraction at most 115% of dd and a positive payout |
| `Planner.PlanTakesTheMost` | crates/styx-keeper/src/decide.rs:128-132 | For the amount planned no lower residual would be accepted, so the keeper takes the most the covenant allows |
| `Planner.PlanStableUnderLowerFee` | crates/styx-keeper/src/keeper.rs:313-345 | The same pair is found at every lower fee |
| `Planner.HealingConverges` | crates/styx-keeper/src/decide.rs:60-81 | After a partial verdict is carried out, the same tick asks for a refresh or nothing, at every price |
| `Planner.BandRefusalIsUnprofitable` | crates/styx-keeper/src/decide.rs:69-75 | In the partial band from four cents up, at any positive price, the first test passes, the residual interval is not empty, and the plan is refused iff it does not pay |
| `Planner.FirstCentNeedsFourCents` | crates/styx-keeper/src/decide.rs:112-115 | With two or three cents some vault in the band fails the first test |
| `CovenantMath.CollSplit` | crates/styx-core/src/math.rs:32-39 | Pricing a debt whole is worth at least its parts and at most one satoshi more |
| `CovenantMath.CollIsAPercentage` | crates/styx-core/src/consts.rs:19-42 | The collateral at a percentage of a debt is that percentage of its worth at 1,000,000 / price satoshis a cent, floored, and nothing at no price; the named ratios are 100, 115, 130, 132, 137, 5 and 20 percent |
| `CovenantMath.CollMonotone` | crates/styx-core/src/math.rs:32-39 | The floored collateral is monotone in debt times ratio |
| `CovenantMath.BadDebtPayExact` | crates/styx-core/src/math.rs:50-59 | On the 32-bit domain the sum never saturates: the payout is the least of shortfall plus 5% bounty, a fifth of par and the reserve, so the keeper recovers at most par plus bounty |
| `CovenantMath.TermsExceedTwoToThe33` | crates/styx-core/src/math.rs:55-57 | A term above 2^33 exists at a price of one |
| `Builders.EveryVerdictBuilds` | crates/styx-pset/src/build/liquidate.rs:29-72 | Every verdict of the ladder, decided at the flat fee, is decided again at any lower fee and passes every gate of its builder |
| `Builders.IdleMeansNothingBuilds` | crates/styx-keeper/src/decide.rs:44-81 | Where the ladder sees no liquidation on an indebted vault, the bad-debt and full-liquidation builders refuse, and the partial builder refuses every amount and residual, but for an underwater vault under a tick below the anchor and a vault in the partial band at an unsteady price |
| `Builders.LadderIsTheBuilders` | crates/styx-keeper/src/decide.rs:44-81 | Verdict by verdict, iff: bad debt and full liquidation when their builders accept; Refresh when its builder accepts above the full-liquidation band and the tick is more than the lag past the ratchet; Partial, at a steady price, when its builder accepts some pair above that band; nothing without debt |
| `Builders.PaysTheNetworkFee` | crates/styx-keeper/src/keeper.rs:123-136 | The estimated-fee broadcast sends the action decided at the flat fee, at exactly the network fee if the rebuild is signed and at the flat fee if not; nothing iff the provisional one is not signed |
| `Builders.NetworkFee` | crates/styx-keeper/src/keeper.rs:106-114 | The fee is between 300 satoshis and the flat fee whatever the node answers |
| `Builders.NetworkFeeIsTwiceTheRelayFee` | crates/styx-keeper/src/keeper.rs:106-114 | The fee is twice the rounded-up relay fee, never under 300 nor over 10,000; 10,000 without a rate |
| `KeeperStep.Keeper.Step` | crates/styx-keeper/src/keeper.rs:210-272 | One pass leaves the specified bookkeeping and result, for any view and any attempt outcomes; which they are is stated by `KeeperStep.EveryStepIsPrescribed` |
| `KeeperStep.EveryStepIsPrescribed` | crates/styx-keeper/src/keeper.rs:210-290 | From view, book and outcome alone: a due liquidation on a vault not held runs, the worst and last of its kind, and is reported with its own constructor, vault, dd and txid; else a poke if none is held and the anchor lags; else the first refresh; else nothing; and exactly how the book is kept |
| `KeeperStep.VerdictsAreTheLadders` | crates/styx-keeper/src/keeper.rs:241-244 | The verdicts a step goes by are the ladder's on every known vault at a fee of 10,000 |
| `KeeperStep.Keeper.MostUrgent` | crates/styx-keeper/src/keeper.rs:232-248 | The last of the most severe liquidations on vaults that are not pending |
| `KeeperStep.LiquidationsComeFirst` | crates/styx-keeper/src/keeper.rs:232-271 | Poke and refresh run only when no liquidation is due on a vault not pending, and a liquidation that runs is a most severe one |
| `KeeperStep.ReportedActionIsBooked` | crates/styx-keeper/src/keeper.rs:222-290 | A report moves the bookkeeping to this height and was not about a pending vault or anchor |
| `KeeperStep.OneActionPerHeight` | crates/styx-keeper/src/keeper.rs:222-225 | Over any run with nondecreasing heights at most one step per height reports an action |
| `KeeperStep.RepeatActionsAreSixBlocksApart` | crates/styx-keeper/src/keeper.rs:226-229 | Two actions on one vault that stays indexed are at least six blocks apart |
| `KeeperStep.RepeatPokesAreSixBlocksApart` | crates/styx-keeper/src/keeper.rs:252-263 | Two pokes under an unchanged anchor are at least six blocks apart |
| `Retry.RetryConflicts` | crates/styx-wallet/src/wallet.rs:120-152 | At most three attempts, another only after a conflict and a good resync; the outcome is the verdict on the attempt that ends it, exhaustion iff none does |
| `Retry.TheDecidingAttempt` | crates/styx-wallet/src/wallet.rs:127-150 | The first of three attempts that is not a resynced conflict decides, case by case; a vanished target is benign iff the policy says so and a conflict came before |
| `Retry.ThreeConflictsExhaust` | crates/styx-wallet/src/wallet.rs:151-151 | Three resynced conflicts exhaust |
| `Retry.BenignMeansLostRace` | crates/styx-wallet/src/wallet.rs:137-147 | A benign lost race is reported only after a conflict, a resync and a rebuild that found its target gone |
| `Quotes.QuoteBook.Insert` | crates/styx-watch/src/quotes.rs:132-157 | Ok iff the slot is below 5, the price positive, the height within horizon below and drift above the tip and 32 bits, and the signature decodes and verifies those fields; the book then holds exactly that quote there, every other entry in the window as before, and nothing below it; refusals leave no trace |
| `Quotes.TakenIffAcceptable` | crates/styx-watch/src/quotes.rs:132-157 | The same for the book as a value: taken iff acceptable, filed exactly, unchanged otherwise |
| `Quotes.RefusalsInOrder` | crates/styx-watch/src/quotes.rs:133-150 | The reason given is the first that applies, in plain arithmetic |
| `Quotes.QuoteBook.AssembleTick` | crates/styx-watch/src/quotes.rs:168-188 | A tick assembles iff some ratio has three supporters below the height threshold; it holds the three lowest supporters of the only such ratio |
| `Quotes.RatiosShareSlots` | crates/styx-watch/src/quotes.rs:176-179 | No two ratios have three supporters each |
| `Quotes.TickBracketsAnHonestPrice` | crates/styx-watch/src/quotes.rs:125-188 | With at most two Byzantine slots, after any arrivals, an assembled tick's price range contains a price an honest oracle signed for that height and ratio, and its minimum is positive |
| `Quotes.ThreeHonestQuotesMakeAQuorum` | crates/styx-watch/src/quotes.rs:132-188 | Three accepted honest quotes sharing a ratio keep a quorum while their height is in the window |
| `Quotes.HonestQuoteStays` | crates/styx-watch/src/quotes.rs:152-155 | The slot of an accepted honest quote keeps its ratio until the window moves past it; an oracle may sign a height again at a new price |
| `Quotes.BookIsBounded` | crates/styx-watch/src/quotes.rs:137-155 | With nondecreasing tips the book holds at most horizon + drift + 1 heights |
| `Quotes.RunsAreGenuine` | crates/styx-watch/src/quotes.rs:144-154 | Every filed quote is positive and verifies for the very slot and height it is filed at |
| `Oracle.NewTick` | crates/styx-core/src/oracle.rs:84-100 | A tick is built iff the height is below the threshold and the slots are distinct; it holds exactly those quotes |
| `Oracle.PriceRange` | crates/styx-core/src/oracle.rs:114-122 | The loop computes the two folds |
| `Oracle.RangeIsTight` | crates/styx-core/src/oracle.rs:114-122 | The range brackets every active price and both ends are quoted |
| `Coins.SelectAccumulate` | crates/styx-wallet/src/wallet.rs:321-334 | Succeeds iff there is a coin and the total reaches the need; takes a prefix of the largest-first order, for a positive need the fewest coins that cover it, for none one coin |
| `Coins.SortIsStable` | crates/styx-wallet/src/wallet.rs:322-323 | Coins of equal value keep their order |
| `Coins.SelectAtLeast` | crates/styx-wallet/src/wallet.rs:316-318 | The first of the smallest coins that cover the need, iff one does |
| `Coins.PrefixDominates` | crates/styx-wallet/src/wallet.rs:322-332 | In largest-first order a prefix outweighs any pick of the same size |
| `Coins.ChangeLegs` | crates/styx-wallet/src/wallet.rs:404-410 | Change and fee absorb the excess exactly; change is never under the dust floor |
| `Coins.PayLbtc` | crates/styx-wallet/src/ops.rs:267-302 | Succeeds iff the coins reach amount plus fee; spends held coins, balances each asset, no dust change |
| `Coins.ConsolidateObol` | crates/styx-wallet/src/wallet.rs:372-395 | Spends every OBOL coin and one fee coin into one output of the total; balanced, no dust change |
| `Coins.EnsureObol` | crates/styx-wallet/src/ops.rs:46-56 | Gives the smallest coin that covers the need, else a sound merge of all coins iff their total covers it and a fee coin exists, else the exact shortfall |
| `Coins.PayObol` | crates/styx-wallet/src/ops.rs:231-264 | The whole payment: succeeds iff the amount can be covered and a fee coin is left; merges first iff no single coin covers it; both transactions balanced, or the exact shortfall |
| `Coins.SendObol` | crates/styx-wallet/src/ops.rs:231-264 | Pays the amount from one coin and one fee coin iff a fee coin exists; balanced, no dust change |
| `KeeperLoop.EveryRunKeepsInv` | crates/styx-app/src/api.rs:133-205 | In every interleaving the mode is Running iff exactly one loop is live, and the stored flag is that loop's |
| `KeeperLoop.ARejectionAlerts` | crates/styx-app/src/api.rs:186-193 | A rejected step's only next move parks the loop in the alert with its own message |
| `KeeperLoop.RequestsDoTheirWork` | crates/styx-app/src/api.rs:133-176 | From every mode, exactly what a start and a stop do |
| `KeeperLoop.AnUnstoppedLoopGoesOn` | crates/styx-app/src/api.rs:181-198 | A loop neither stopped nor rejected stays live and running, and every check begins a step |
| `KeeperLoop.OnlyRequestsMoveAnAlert` | crates/styx-app/src/api.rs:135-192 | In an alert only an acknowledgement or a restart can happen next |
| `KeeperLoop.StopEndsTheLoop` | crates/styx-app/src/api.rs:181-202 | A loop whose flag is up ends at most the step it is in and is gone after at most three of its own moves, whatever else happens |
| `KeeperLoop.AcceptedStopReachesTheLoop` | crates/styx-app/src/api.rs:133-139 | A stop accepted while running raises the live loop's own flag, and that loop is never stuck |
| `KeeperLoop.AppState.RequestKeeperStop` | crates/styx-app/src/api.rs:133-147 | The stop request is the atomic step of the protocol, with its answer |
| `KeeperLoop.AppState.StartKeeper` | crates/styx-app/src/api.rs:166-176 | The start request refuses iff running, else installs a fresh flag and one loop |

## Left out

- Cryptography and Simplicity: signatures, hashes, taproot derivation, covenant programs, transaction finalisation.
- Covenant programs: the ledger takes their pins and gates as the meaning of a conforming transaction; that they enforce them is not part of this model.
- Two covenant operations in one transaction: a conforming transaction is one operation, with the grow-only arms of pot and reserve riding along where their pins allow it.
- Vaults conjured by paying a vault address directly: the ledger has only vaults that an OPEN created.
- Snapshot files: JSON syntax and the atomic rename; the document and its text fields are modelled.
- Planner.PlanIsComplete: stated at steady prices; that the reach rises somewhere at every other price is proved, that each of them has a refused vault within 32-bit debts is not, one that has is given.
- Planner.PlanPartial: share plus fee is an unbounded sum, where the code adds 64-bit integers.
- Coins.PayLbtc: models both the payment and the shaping of an exact coin, which differ only in the script paid; coin totals are unbounded sums, where the code adds 64-bit integers.
- KeeperStep.Keeper.Step: attempts are outcomes per attempt number; the rebuild inside an attempt is modelled by the builders' gates, and locks and logging are left out.
- KeeperStep.RepeatActionsAreSixBlocksApart: heights saturate at the 32-bit maximum, as in the code.
- KeeperLoop: the tick's age, the poll delay and the event stream.
- Iteration order of maps: known vaults arrive in outpoint order as a parameter, and the snapshot is proved for every order.
- Node RPC, deployment ceremony, Nostr transport, exchange feeds, HTTP surface, explorer, JavaScript client and desktop shell: input and output with easy invariants only.
- Witness encoders and data leaves: their injectivity is settled by their types.
