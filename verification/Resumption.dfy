/** Any mix of scans, failures, saves and restarts ends where one uninterrupted scan ends. */
module Resumption {
  import opened Prelude
  import opened Chain
  import opened WitnessScan
  import opened IndexSpec
  import opened IndexTheorems
  import opened Indexer
  import opened Snapshot
  import opened Sync

  // ----- block by block is transaction by transaction

  ghost function ItemsOf(h: nat, txs: seq<Tx>): seq<Item> { seq(|txs|, i requires 0 <= i < |txs| => Item(h, txs[i])) }

  /** The transactions of the first `h` blocks, in order. */
  ghost function Items(c: Blockchain, h: nat): seq<Item>
    requires h <= |c.links|
  {
    if h == 0 then [] else Items(c, h - 1) + ItemsOf(h, c.links[h - 1].block.txs)
  }

  /** Folding a block's transactions and folding the whole run are the same fold. */
  lemma {:induction false} PlayIsScanFold(apply: (nat, Index, Tx) -> Index, play: seq<Tx> -> Index,
                                          scan: seq<Item> -> Index,
                                          run: seq<Item>, h: nat, txs: seq<Tx>)
    requires play([]) == scan(run)
    requires forall ts, t :: play(ts + [t]) == apply(h, play(ts), t)
    requires forall r, i :: scan(r + [i]) == apply(i.height, scan(r), i.tx)
    ensures play(txs) == scan(run + ItemsOf(h, txs))
  {
    if txs == [] {
      assert run + ItemsOf(h, txs) == run;
    } else {
      var n := |txs| - 1;
      PlayIsScanFold(apply, play, scan, run, h, txs[..n]);
      assert txs == txs[..n] + [txs[n]];
      assert run + ItemsOf(h, txs) == (run + ItemsOf(h, txs[..n])) + [Item(h, txs[n])];
    }
  }

  lemma PlayLast(validKey: Key -> bool, owners: seq<Key>, h: nat, st: Index, ts: seq<Tx>, t: Tx)
    ensures PlayBlock(validKey, owners, h, st, ts + [t])
            == Apply(validKey, owners, h, PlayBlock(validKey, owners, h, st, ts), t).st
  {
    assert (ts + [t])[..|ts|] == ts;
  }

  lemma ScanLast(validKey: Key -> bool, owners: seq<Key>, r: seq<Item>, i: Item)
    ensures Scan(validKey, owners, r + [i]) == Apply(validKey, owners, i.height, Scan(validKey, owners, r), i.tx).st
  {
    assert (r + [i])[..|r|] == r;
  }

  /** Playing a block is scanning its transactions, each once and in order. */
  lemma PlayIsScan(validKey: Key -> bool, owners: seq<Key>, run: seq<Item>, h: nat, txs: seq<Tx>)
    ensures PlayBlock(validKey, owners, h, Scan(validKey, owners, run), txs)
            == Scan(validKey, owners, run + ItemsOf(h, txs))
  {
    var st := Scan(validKey, owners, run);
    var apply := (h: nat, st: Index, t: Tx) => Apply(validKey, owners, h, st, t).st;
    var play := (ts: seq<Tx>) => PlayBlock(validKey, owners, h, st, ts);
    var scan := (r: seq<Item>) => Scan(validKey, owners, r);
    forall ts, t ensures play(ts + [t]) == apply(h, play(ts), t) { PlayLast(validKey, owners, h, st, ts, t); }
    forall r, i ensures scan(r + [i]) == apply(i.height, scan(r), i.tx) { ScanLast(validKey, owners, r, i); }
    PlayIsScanFold(apply, play, scan, run, h, txs);
  }

  lemma {:induction false} ScanToFold(p: Player, scan: seq<Item> -> Index, c: Blockchain, h: nat)
    requires h <= |c.links| && scan([]) == EMPTY
    requires forall run, k: nat, txs {:trigger scan(run + ItemsOf(k, txs))} ::
               p.play(k, scan(run), txs) == scan(run + ItemsOf(k, txs))
    ensures ScanTo(p, c, h) == Sealed(h, c.HashAt(h), scan(Items(c, h)))
  {
    if h > 0 {
      ScanToFold(p, scan, c, h - 1);
    }
  }

  /** One uninterrupted scan applies every transaction of the chain once, in chain order. */
  lemma ScanToIsScan(validKey: Key -> bool, owners: seq<Key>, c: Blockchain, h: nat)
    requires h <= |c.links|
    ensures ScanTo(PlayerOf(validKey, owners), c, h) == Sealed(h, c.HashAt(h), Scan(validKey, owners, Items(c, h)))
  {
    var p, scan := PlayerOf(validKey, owners), (r: seq<Item>) => Scan(validKey, owners, r);
    forall run, k: nat, txs ensures p.play(k, scan(run), txs) == scan(run + ItemsOf(k, txs)) {
      PlayIsScan(validKey, owners, run, k, txs);
    }
    ScanToFold(p, scan, c, h);
  }

  /** The notices of a run: every transaction's events, in order, each stamped with its height and
      its transaction. */
  ghost function RunNotices(validKey: Key -> bool, owners: seq<Key>, run: seq<Item>): seq<Notice> {
    if run == [] then []
    else
      var n := |run| - 1;
      RunNotices(validKey, owners, run[..n]) + Stamp(run[n].height, run[n].tx.txid, EventsAt(validKey, owners, run, n))
  }

  /** The events of the transaction at position `k` of a run. */
  ghost function EventsAt(validKey: Key -> bool, owners: seq<Key>, run: seq<Item>, k: nat): seq<Event>
    requires k < |run|
  {
    Apply(validKey, owners, run[k].height, Scan(validKey, owners, run[..k]), run[k].tx).ev
  }

  /** Stamping keeps every event, in order, with its height and its transaction. */
  lemma StampKeeps(height: nat, txid: nat, ev: seq<Event>)
    ensures |Stamp(height, txid, ev)| == |ev|
    ensures forall i :: 0 <= i < |ev| ==> Stamp(height, txid, ev)[i] == Notice(height, txid, ev[i])
  {
  }

  lemma RunNoticesLast(validKey: Key -> bool, owners: seq<Key>, r: seq<Item>, i: Item)
    ensures RunNotices(validKey, owners, r + [i])
            == RunNotices(validKey, owners, r)
               + Stamp(i.height, i.tx.txid, Apply(validKey, owners, i.height, Scan(validKey, owners, r), i.tx).ev)
  {
    assert (r + [i])[..|r|] == r;
  }

  lemma BlockNoticesLast(validKey: Key -> bool, owners: seq<Key>, h: nat, st: Index, ts: seq<Tx>, t: Tx)
    ensures BlockNotices(validKey, owners, h, st, ts + [t])
            == BlockNotices(validKey, owners, h, st, ts)
               + Stamp(h, t.txid, Apply(validKey, owners, h, PlayBlock(validKey, owners, h, st, ts), t).ev)
  {
    assert (ts + [t])[..|ts|] == ts;
  }

  /** Two folds over the same transactions, the block's and the run's, tell the same. */
  lemma {:induction false} NoticedFold(tell: (nat, Index, Tx) -> seq<Notice>, play: seq<Tx> -> Index,
                                       scan: seq<Item> -> Index, block: seq<Tx> -> seq<Notice>,
                                       notices: seq<Item> -> seq<Notice>, run: seq<Item>, h: nat, txs: seq<Tx>)
    requires block([]) == []
    requires forall ts, t :: block(ts + [t]) == block(ts) + tell(h, play(ts), t)
    requires forall r, i :: notices(r + [i]) == notices(r) + tell(i.height, scan(r), i.tx)
    requires forall ts :: play(ts) == scan(run + ItemsOf(h, ts))
    ensures notices(run + ItemsOf(h, txs)) == notices(run) + block(txs)
  {
    if txs == [] {
      assert run + ItemsOf(h, txs) == run;
    } else {
      var n := |txs| - 1;
      NoticedFold(tell, play, scan, block, notices, run, h, txs[..n]);
      assert txs == txs[..n] + [txs[n]];
      assert run + ItemsOf(h, txs) == (run + ItemsOf(h, txs[..n])) + [Item(h, txs[n])];
    }
  }

  /** A block's notices are those of its transactions, in order. */
  lemma BlockIsNoticed(validKey: Key -> bool, owners: seq<Key>, run: seq<Item>, h: nat, txs: seq<Tx>)
    ensures RunNotices(validKey, owners, run + ItemsOf(h, txs))
            == RunNotices(validKey, owners, run) + BlockNotices(validKey, owners, h, Scan(validKey, owners, run), txs)
  {
    var st := Scan(validKey, owners, run);
    var tell := (h: nat, st: Index, t: Tx) => Stamp(h, t.txid, Apply(validKey, owners, h, st, t).ev);
    var play := (ts: seq<Tx>) => PlayBlock(validKey, owners, h, st, ts);
    var scan := (r: seq<Item>) => Scan(validKey, owners, r);
    var block := (ts: seq<Tx>) => BlockNotices(validKey, owners, h, st, ts);
    var notices := (r: seq<Item>) => RunNotices(validKey, owners, r);
    forall ts, t ensures block(ts + [t]) == block(ts) + tell(h, play(ts), t) {
      BlockNoticesLast(validKey, owners, h, st, ts, t);
    }
    forall r, i ensures notices(r + [i]) == notices(r) + tell(i.height, scan(r), i.tx) {
      RunNoticesLast(validKey, owners, r, i);
    }
    forall ts ensures play(ts) == scan(run + ItemsOf(h, ts)) { PlayIsScan(validKey, owners, run, h, ts); }
    NoticedFold(tell, play, scan, block, notices, run, h, txs);
  }

  /** The sealed state at a height is the fold of the transactions up to it. */
  ghost predicate Shown(p: Player, scan: seq<Item> -> Index, c: Blockchain, h: nat)
    requires h <= |c.links|
  {
    ScanTo(p, c, h).st == scan(Items(c, h))
  }

  lemma {:induction false} ChainFold(p: Player, scan: seq<Item> -> Index, notices: seq<Item> -> seq<Notice>,
                                     c: Blockchain, lo: nat, hi: nat)
    requires lo <= hi && hi <= |c.links|
    requires forall run, k: nat, txs {:trigger notices(run + ItemsOf(k, txs))} ::
               notices(run + ItemsOf(k, txs)) == notices(run) + p.tell(k, scan(run), txs)
    requires forall h: nat :: h <= |c.links| ==> Shown(p, scan, c, h)
    ensures notices(Items(c, hi)) == notices(Items(c, lo)) + NoticesOf(p, c, lo, hi)
    decreases hi
  {
    if lo < hi {
      ChainFold(p, scan, notices, c, lo, hi - 1);
      assert Shown(p, scan, c, hi - 1);
    }
  }

  /** What a scan reports of the blocks in (lo, hi]: the notices of the chain up to `hi`, after
      those up to `lo`. Every transaction's events are there, once, in order. */
  lemma NoticesAreTheChains(validKey: Key -> bool, owners: seq<Key>, c: Blockchain, lo: nat, hi: nat)
    requires lo <= hi && hi <= |c.links|
    ensures RunNotices(validKey, owners, Items(c, hi))
            == RunNotices(validKey, owners, Items(c, lo)) + NoticesOf(PlayerOf(validKey, owners), c, lo, hi)
  {
    var p := PlayerOf(validKey, owners);
    var scan := (r: seq<Item>) => Scan(validKey, owners, r);
    var notices := (r: seq<Item>) => RunNotices(validKey, owners, r);
    forall run, k: nat, txs ensures notices(run + ItemsOf(k, txs)) == notices(run) + p.tell(k, scan(run), txs) {
      BlockIsNoticed(validKey, owners, run, k, txs);
    }
    forall h: nat | h <= |c.links| ensures Shown(p, scan, c, h) {
      ScanToIsScan(validKey, owners, c, h);
    }
    ChainFold(p, scan, notices, c, lo, hi);
  }

  lemma {:induction false} ItemsPrefix(c: Blockchain, h: nat, n: nat)
    requires h <= n && n <= |c.links|
    ensures Items(c, h) <= Items(c, n)
  {
    if h < n {
      ItemsPrefix(c, h, n - 1);
    }
  }

  // ----- starting above genesis

  /** Nothing in the transaction can be the birth of a singleton. */
  ghost predicate Irrelevant(tx: Tx, height: nat) {
    forall i :: 0 <= i < |tx.outputs| ==>
      && !Pays(tx.outputs[i], PotSpk, Obol) && !Pays(tx.outputs[i], ReserveSpk, Policy)
      && !(Explicit(tx.outputs[i], IssuerToken) == Some(1) && AnchorOf(tx.outputs[i], height).Some?)
  }

  lemma {:induction false} NoBirth(st: Index, tx: Tx, height: nat, n: nat)
    requires n <= |tx.outputs| && st.issuer.None?
    ensures IssuerBirth(st, tx, height, n).st == st.(issuer := IssuerBirth(st, tx, height, n).st.issuer)
    ensures IssuerBirth(st, tx, height, n).st == st <==>
            forall i :: n <= i < |tx.outputs| ==>
              !(Explicit(tx.outputs[i], IssuerToken) == Some(1) && AnchorOf(tx.outputs[i], height).Some?)
    decreases |tx.outputs| - n
  {
    if n < |tx.outputs| {
      NoBirth(st, tx, height, n + 1);
    }
  }

  /** An empty index stays empty exactly on irrelevant transactions. */
  lemma EmptyStays(validKey: Key -> bool, owners: seq<Key>, height: nat, tx: Tx)
    ensures Apply(validKey, owners, height, EMPTY, tx).st == EMPTY <==> Irrelevant(tx, height)
  {
    NothingSpent(tx, 0);
    NoBirth(ReserveBirth(PotBirth(EMPTY, tx).st, tx).st, tx, height, 0);
  }

  lemma {:induction false} NothingSpent(tx: Tx, n: nat)
    requires n <= |tx.inputs|
    ensures VaultInputs(tx, map[], n) == []
    decreases |tx.inputs| - n
  {
    if n < |tx.inputs| {
      NothingSpent(tx, n + 1);
    }
  }

  lemma {:induction false} IrrelevantRun(validKey: Key -> bool, owners: seq<Key>, run: seq<Item>)
    requires forall i :: 0 <= i < |run| ==> Irrelevant(run[i].tx, run[i].height)
    ensures Scan(validKey, owners, run) == EMPTY
  {
    if run != [] {
      var n := |run| - 1;
      IrrelevantRun(validKey, owners, run[..n]);
      EmptyStays(validKey, owners, run[n].height, run[n].tx);
    }
  }

  /** Starting sealed at a height with nothing relevant at or below it is starting at genesis. */
  lemma AnchorStartIsGenesis(validKey: Key -> bool, owners: seq<Key>, c: Blockchain, h: nat)
    requires h <= |c.links|
    requires forall i :: 0 <= i < |Items(c, h)| ==> Irrelevant(Items(c, h)[i].tx, Items(c, h)[i].height)
    ensures OnChain(PlayerOf(validKey, owners), c, Sealed(h, c.HashAt(h), EMPTY))
  {
    ScanToIsScan(validKey, owners, c, h);
    IrrelevantRun(validKey, owners, Items(c, h));
  }

  // ----- every reachable state can be stored

  /** Every known owner is a valid key. */
  ghost predicate ValidOwners(vaults: map<OutPoint, TrackedVault>, validKey: Key -> bool) {
    forall op :: op in vaults && vaults[op].owner.Some? ==> validKey(vaults[op].owner.value)
  }

  lemma BornOwner(validKey: Key -> bool, owners: seq<Key>, st: Index, tx: Tx, idx: nat, debt: nat, h: nat)
    requires ValidOwners(st.vaults, validKey) && forall k :: k in owners ==> validKey(k)
    ensures ValidOwners(Born(validKey, owners, st, tx, idx, debt, h).st.vaults, validKey)
  {
  }

  lemma IssuerOpOwners(validKey: Key -> bool, owners: seq<Key>, height: nat, st: Index, tx: Tx, sp: Spends)
    requires ValidOwners(st.vaults, validKey) && (forall k :: k in owners ==> validKey(k))
    requires st.issuer.Some? && sp.issuer.Some? && sp.vaults == VaultInputs(tx, st.vaults, 0)
    ensures ValidOwners(IssuerOp(validKey, owners, height, st, tx, sp).st.vaults, validKey)
  {
    var found := FindAnchor(tx, HeightCap(tx, height), st.issuer.value.anchor);
    if found.Some? {
      var vout := TokenAt(tx, found.value).value;
      var st1 := st.(issuer := Some(IssuerCoin(found.value, OutPoint(tx.txid, vout), 1)));
      FollowSpentKeeps(st1, tx, sp.pot, sp.reserve);
      if vout == 4 {
        OpenOwners(validKey, owners, st1, tx, sp.issuer.value, found.value, sp);
      } else if vout == 3 && sp.reserve.None? {
        DrawOwners(validKey, st1, tx, sp.issuer.value, found.value, sp);
      } else if vout == 3 {
        AttestOwners(validKey, st1, tx, sp.issuer.value, sp);
      }
    }
  }

  lemma OpenOwners(validKey: Key -> bool, owners: seq<Key>, st: Index, tx: Tx, idx: nat, anchor: nat, sp: Spends)
    requires ValidOwners(st.vaults, validKey) && (forall k :: k in owners ==> validKey(k))
    ensures ValidOwners(OpenArm(validKey, owners, st, tx, idx, anchor, sp).st.vaults, validKey)
  {
    FollowSpentKeeps(st, tx, sp.pot, sp.reserve);
    var minted := PotDelta(st, tx, false);
    PotDeltaKeeps(st, tx, false);
    FollowReserveKeeps(minted.st, tx);
    if minted.value.Some? {
      BornOwner(validKey, owners, FollowReserve(minted.st, tx).st, tx, idx, minted.value.value, anchor);
    }
  }

  lemma DrawOwners(validKey: Key -> bool, st: Index, tx: Tx, idx: nat, anchor: nat, sp: Spends)
    requires ValidOwners(st.vaults, validKey) && sp.vaults == VaultInputs(tx, st.vaults, 0)
    ensures ValidOwners(DrawArm(st, tx, idx, anchor, sp).st.vaults, validKey)
  {
    FollowSpentKeeps(st, tx, sp.pot, sp.reserve);
    PotDeltaKeeps(st, tx, false);
  }

  lemma AttestOwners(validKey: Key -> bool, st: Index, tx: Tx, idx: nat, sp: Spends)
    requires ValidOwners(st.vaults, validKey) && sp.vaults == VaultInputs(tx, st.vaults, 0)
    ensures ValidOwners(AttestArm(st, tx, idx, sp).st.vaults, validKey)
  {
    FollowSpentKeeps(st, tx, sp.pot, sp.reserve);
    FollowPotKeeps(st, tx);
    FollowReserveKeeps(FollowPot(st, tx).st, tx);
  }

  lemma VaultOpOwners(validKey: Key -> bool, height: nat, st: Index, tx: Tx, vop: OutPoint, sp: Spends)
    requires ValidOwners(st.vaults, validKey) && vop in st.vaults
    ensures ValidOwners(VaultOp(height, st, tx, vop, sp).st.vaults, validKey)
  {
    var v, o := st.vaults[vop], VaultOp(height, st, tx, vop, sp);
    if |tx.inputs| == 2 && sp.pot.None? && sp.reserve.None? {
      RefreshOwners(validKey, st, tx, height, vop);
      assert o == RefreshArm(st, tx, height, vop, v);
    } else if |tx.inputs| == 4 && sp.pot == Some(1) && sp.reserve.None? {
      RepayOwners(validKey, st, tx, vop);
      assert o == RepayArm(st, tx, vop, v);
    } else if |tx.inputs| == 4 && sp.pot == Some(1) && sp.reserve == Some(3) {
      LiqOwners(validKey, st, tx, vop);
      assert o == LiqArm(st, tx, vop, v);
    } else {
      FollowPotKeeps(st, tx);
      FollowSpentKeeps(MarkLost(st, vop, tx.txid, OutsideLayout).st, tx, sp.pot, sp.reserve);
    }
  }

  lemma RefreshOwners(validKey: Key -> bool, st: Index, tx: Tx, height: nat, vop: OutPoint)
    requires ValidOwners(st.vaults, validKey) && vop in st.vaults
    ensures ValidOwners(RefreshArm(st, tx, height, vop, st.vaults[vop]).st.vaults, validKey)
  {
  }

  lemma RepayOwners(validKey: Key -> bool, st: Index, tx: Tx, vop: OutPoint)
    requires ValidOwners(st.vaults, validKey) && vop in st.vaults
    ensures ValidOwners(RepayArm(st, tx, vop, st.vaults[vop]).st.vaults, validKey)
  {
    PotDeltaKeeps(st, tx, true);
  }

  lemma LiqOwners(validKey: Key -> bool, st: Index, tx: Tx, vop: OutPoint)
    requires ValidOwners(st.vaults, validKey) && vop in st.vaults
    ensures ValidOwners(LiqArm(st, tx, vop, st.vaults[vop]).st.vaults, validKey)
  {
    PotDeltaKeeps(st, tx, true);
    FollowReserveKeeps(PotDelta(st, tx, true).st, tx);
  }

  lemma {:induction false} LoseOwners(validKey: Key -> bool, st: Index, tx: Tx, at: seq<nat>)
    requires ValidOwners(st.vaults, validKey) && forall i :: 0 <= i < |at| ==> at[i] < |tx.inputs|
    ensures ValidOwners(LoseAll(st, tx, at).st.vaults, validKey)
  {
    if at != [] {
      LoseOwners(validKey, st, tx, at[..|at| - 1]);
    }
  }

  lemma ApplyOwners(validKey: Key -> bool, owners: seq<Key>, height: nat, st: Index, tx: Tx)
    requires ValidOwners(st.vaults, validKey) && (forall k :: k in owners ==> validKey(k))
    ensures ValidOwners(Apply(validKey, owners, height, st, tx).st.vaults, validKey)
  {
    var sp := SpendsOf(st, tx);
    if sp.issuer.Some? {
      IssuerOpOwners(validKey, owners, height, st, tx, sp);
    } else {
      OtherOwners(validKey, owners, height, st, tx, sp);
    }
  }

  lemma OtherOwners(validKey: Key -> bool, owners: seq<Key>, height: nat, st: Index, tx: Tx, sp: Spends)
    requires ValidOwners(st.vaults, validKey) && sp == SpendsOf(st, tx) && sp.issuer.None?
    ensures ValidOwners(Apply(validKey, owners, height, st, tx).st.vaults, validKey)
  {
    if |sp.vaults| > 1 || (sp.vaults != [] && sp.vaults[0] != 0) {
      LoseOwners(validKey, st, tx, sp.vaults);
      FollowSpentKeeps(LoseAll(st, tx, sp.vaults).st, tx, sp.pot, sp.reserve);
    } else if sp.vaults != [] {
      VaultOpOwners(validKey, height, st, tx, tx.inputs[0].prev, sp);
    } else {
      AwayFromVaults(st, tx, height, sp);
    }
  }

  lemma AwayFromVaults(st: Index, tx: Tx, height: nat, sp: Spends)
    ensures Donation(st, tx, sp).st.vaults == st.vaults
    ensures NonProtocol(height, st, tx).st.vaults == st.vaults
  {
    NonProtocolKeeps(st, tx, height);
  }

  lemma {:induction false} ScanOwners(validKey: Key -> bool, owners: seq<Key>, run: seq<Item>)
    requires forall k :: k in owners ==> validKey(k)
    ensures ValidOwners(Scan(validKey, owners, run).vaults, validKey)
  {
    if run != [] {
      var n := |run| - 1;
      ScanOwners(validKey, owners, run[..n]);
      ApplyOwners(validKey, owners, run[n].height, Scan(validKey, owners, run[..n]), run[n].tx);
    }
  }

  /** The setting: valid configured keys, lawful encodings, and a chain as consensus makes it. */
  ghost predicate Setting(codec: Codec, validKey: Key -> bool, owners: seq<Key>, c: Blockchain) {
    && Lawful(codec, validKey) && (forall k :: k in owners ==> validKey(k))
    && c.Linked() && ChainOrder(Items(c, |c.links|))
  }

  /** Every state a scan can reach can be stored. */
  lemma ReachableIsStorable(codec: Codec, validKey: Key -> bool, owners: seq<Key>, c: Blockchain, s: Sealed)
    requires Setting(codec, validKey, owners, c) && OnChain(PlayerOf(validKey, owners), c, s)
    ensures Storable(s.st, validKey)
  {
    var run, all := Items(c, s.height), Items(c, |c.links|);
    ScanToIsScan(validKey, owners, c, s.height);
    ItemsPrefix(c, s.height, |c.links|);
    assert forall i :: 0 <= i < |run| ==> run[i] == all[i];
    EveryRunKeepsInv(validKey, owners, run);
    ScanOwners(validKey, owners, run);
  }

  // ----- sessions

  /** A daemon: its state in memory and the snapshot file. */
  datatype Daemon = Daemon(live: Sealed, disk: Option<Doc>)

  /** What happens to it: a scan against some node, a save in some iteration order, a restart. A
      save that fails leaves the file as it was, so it is no event. */
  datatype Act = Fetch(node: Node) | Save(vaultOrder: seq<OutPoint>, lostOrder: seq<OutPoint>) | Restart

  ghost predicate Possible(c: Blockchain, d: Daemon, a: Act) {
    match a
    case Fetch(node) => Serves(node, c)
    case Save(vs, ls) => Lists(vs, d.live.st.vaults.Keys) && Lists(ls, d.live.st.lost.Keys)
    case Restart => true
  }

  /** A restart loads the snapshot if there is one and starts from `start` if not. */
  function After(p: Player, codec: Codec, start: Sealed, d: Daemon, a: Act): Daemon
    requires a.Save? ==> forall op :: op in a.vaultOrder ==> op in d.live.st.vaults
    requires a.Save? ==> forall op :: op in a.lostOrder ==> op in d.live.st.lost
  {
    match a
    case Fetch(node) => d.(live := Caught(p, node, d.live).s)
    case Save(vs, ls) => d.(disk := Some(ShowDoc(codec, d.live, vs, ls)))
    case Restart =>
      if d.disk.None? then d.(live := start)
      else
        var loaded := ReadDoc(codec, d.disk.value);
        if loaded.Ok? then d.(live := loaded.value) else d
  }

  /** The live state, and whatever the file holds, is a state of the one uninterrupted scan. */
  ghost predicate Sound(p: Player, codec: Codec, c: Blockchain, d: Daemon) {
    && OnChain(p, c, d.live)
    && (d.disk.Some? ==> ReadDoc(codec, d.disk.value).Ok? && OnChain(p, c, ReadDoc(codec, d.disk.value).value))
  }

  lemma ActKeepsSound(codec: Codec, validKey: Key -> bool, owners: seq<Key>, c: Blockchain, start: Sealed, d: Daemon,
                      a: Act)
    requires Setting(codec, validKey, owners, c) && OnChain(PlayerOf(validKey, owners), c, start)
    requires Sound(PlayerOf(validKey, owners), codec, c, d) && Possible(c, d, a)
    ensures Sound(PlayerOf(validKey, owners), codec, c, After(PlayerOf(validKey, owners), codec, start, d, a))
  {
    match a
    case Fetch(node) => CaughtStaysOnChain(PlayerOf(validKey, owners), c, node, d.live);
    case Save(vs, ls) => {
      ReachableIsStorable(codec, validKey, owners, c, d.live);
      RoundTrip(codec, validKey, d.live, vs, ls);
    }
    case Restart => {}
  }

  /** A restart right after a save goes on from where the save was made. */
  lemma RestartResumes(codec: Codec, validKey: Key -> bool, owners: seq<Key>, c: Blockchain, start: Sealed, d: Daemon,
                       a: Act)
    requires Setting(codec, validKey, owners, c) && Sound(PlayerOf(validKey, owners), codec, c, d)
    requires a.Save? && Possible(c, d, a)
    ensures var p := PlayerOf(validKey, owners);
            After(p, codec, start, After(p, codec, start, d, a), Restart).live == d.live
  {
    ReachableIsStorable(codec, validKey, owners, c, d.live);
    RoundTrip(codec, validKey, d.live, a.vaultOrder, a.lostOrder);
  }

  /** A whole life of the daemon: its states along a sequence of acts. */
  ghost predicate Life(p: Player, codec: Codec, c: Blockchain, start: Sealed, acts: seq<Act>, ds: seq<Daemon>) {
    && |ds| == |acts| + 1 && ds[0] == Daemon(start, None)
    && forall k :: 0 <= k < |acts| ==>
         Possible(c, ds[k], acts[k]) && ds[k + 1] == After(p, codec, start, ds[k], acts[k])
  }

  /** Resumption. However scans fail and whenever the daemon saves and restarts, its state is
      always a state of the one uninterrupted scan, and a scan that succeeds has brought it to
      that scan's state at the node's tip (or leaves it above a lagging one). */
  lemma {:induction false} EveryLifeResumes(codec: Codec, validKey: Key -> bool, owners: seq<Key>, c: Blockchain,
                                            start: Sealed,
                                            acts: seq<Act>, ds: seq<Daemon>, n: nat)
    requires Setting(codec, validKey, owners, c) && OnChain(PlayerOf(validKey, owners), c, start)
    requires Life(PlayerOf(validKey, owners), codec, c, start, acts, ds) && n <= |acts|
    ensures Sound(PlayerOf(validKey, owners), codec, c, ds[n])
    ensures n > 0 && acts[n - 1].Fetch? ==>
              var (p, node, was) := (PlayerOf(validKey, owners), acts[n - 1].node, ds[n - 1].live);
              Caught(p, node, was).r.Ok? ==>
                node.tip.Some? && ds[n].live == ScanTo(p, c, Max(was.height, node.tip.value))
  {
    if n > 0 {
      EveryLifeResumes(codec, validKey, owners, c, start, acts, ds, n - 1);
      ActKeepsSound(codec, validKey, owners, c, start, ds[n - 1], acts[n - 1]);
      if acts[n - 1].Fetch? {
        CaughtStaysOnChain(PlayerOf(validKey, owners), c, acts[n - 1].node, ds[n - 1].live);
      }
    }
  }
}
