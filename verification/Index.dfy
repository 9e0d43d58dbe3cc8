/** The chain indexer as it runs: protocol state updated in place, one transaction at a time.
    Every operation is proved to leave exactly the state, and report exactly the events, that
    its function in `IndexSpec` gives. */
module Indexer {
  import opened Prelude
  import opened Chain
  import opened WitnessScan
  import opened IndexSpec

  /** An event stamped with where it happened. */
  datatype Notice = Notice(height: nat, txid: nat, event: Event)

  function Stamp(height: nat, txid: nat, ev: seq<Event>): seq<Notice> {
    seq(|ev|, i requires 0 <= i < |ev| => Notice(height, txid, ev[i]))
  }

  class IndexState {
    const validKey: Key -> bool
    var height: nat
    var tip: nat
    var pot: Option<Singleton>
    var reserve: Option<Singleton>
    var issuer: Option<IssuerCoin>
    var vaults: map<OutPoint, TrackedVault>
    var lost: map<OutPoint, Lost>

    /** An empty index sealed at a height: the scan starts one block above it. */
    constructor AtHeight(validKey: Key -> bool, height: nat, tip: nat)
      ensures this.validKey == validKey && this.height == height && this.tip == tip && View() == EMPTY
    {
      this.validKey := validKey;
      this.height, this.tip := height, tip;
      pot, reserve, issuer, vaults, lost := None, None, None, map[], map[];
    }

    function View(): Index reads this { Index(pot, reserve, issuer, vaults, lost) }

    /** Mark a block fully processed. */
    method Seal(height: nat, hash: nat)
      modifies this`height, this`tip
      ensures this.height == height && tip == hash
    {
      this.height, tip := height, hash;
    }

    method ApplyTx(owners: seq<Key>, height: nat, tx: Tx) returns (notices: seq<Notice>)
      modifies this
      ensures this.height == old(this.height) && tip == old(tip)
      ensures View() == Apply(validKey, owners, height, old(View()), tx).st
      ensures notices == Stamp(height, tx.txid, Apply(validKey, owners, height, old(View()), tx).ev)
    {
      var ev := Dispatch(owners, height, tx);
      notices := Stamp(height, tx.txid, ev);
    }

    method Dispatch(owners: seq<Key>, height: nat, tx: Tx) returns (ev: seq<Event>)
      modifies this`pot, this`reserve, this`issuer, this`vaults, this`lost
      ensures Out(View(), ev) == Apply(validKey, owners, height, old(View()), tx)
    {
      var sp := FindSpends(tx);
      if sp.issuer.Some? {
        ev := IssuerSpend(owners, height, tx, sp);
      } else if sp.vaults != [] {
        if |sp.vaults| > 1 || sp.vaults[0] != 0 {
          var lostEv := LoseVaults(tx, sp.vaults);
          var rest := FollowSingletons(tx, sp);
          ev := lostEv + rest;
        } else {
          ev := VaultSpend(height, tx, tx.inputs[0].prev, sp);
        }
      } else if sp.pot.Some? || sp.reserve.Some? {
        ev := GrowOnly(tx, sp);
      } else {
        ev := NonProtocolTx(height, tx);
      }
    }

    method InputIndex(tx: Tx, op: OutPoint) returns (r: Option<nat>)
      ensures r == InputFrom(tx, op, 0)
    {
      for n := 0 to |tx.inputs|
        invariant InputFrom(tx, op, n) == InputFrom(tx, op, 0)
      {
        if tx.inputs[n].prev == op { return Some(n); }
      }
      return None;
    }

    method FindSpends(tx: Tx) returns (sp: Spends)
      ensures sp == SpendsOf(View(), tx)
    {
      var i, p, r: Option<nat> := None, None, None;
      if issuer.Some? { i := InputIndex(tx, issuer.value.outpoint); }
      if pot.Some? { p := InputIndex(tx, pot.value.outpoint); }
      if reserve.Some? { r := InputIndex(tx, reserve.value.outpoint); }
      var vs := FindVaultInputs(tx);
      sp := Spends(i, p, r, vs);
    }

    method FindVaultInputs(tx: Tx) returns (vs: seq<nat>)
      ensures vs == VaultInputs(tx, vaults, 0)
    {
      vs := [];
      var n := |tx.inputs|;
      while n > 0
        invariant 0 <= n <= |tx.inputs| && vs == VaultInputs(tx, vaults, n)
      {
        n := n - 1;
        if tx.inputs[n].prev in vaults { vs := [n] + vs; }
      }
    }

    // ----- issuer-gated operations

    /** The descending scan for the anchor the token's successor commits to. */
    method ScanAnchor(tx: Tx, cap: nat, floor: nat) returns (r: Option<(nat, nat)>)
      ensures r.None? <==> FindAnchor(tx, cap, floor).None?
      ensures r.Some? ==> FindAnchor(tx, cap, floor) == Some(r.value.0) && TokenAt(tx, r.value.0) == Some(r.value.1)
    {
      var h: nat := cap;
      while h >= floor
        invariant FindAnchor(tx, h, floor) == FindAnchor(tx, cap, floor)
      {
        var at := TokenAt(tx, h);
        if at.Some? { return Some((h, at.value)); }
        if h == 0 { break; }
        h := h - 1;
      }
      return None;
    }

    method IssuerSpend(owners: seq<Key>, height: nat, tx: Tx, sp: Spends) returns (ev: seq<Event>)
      requires issuer.Some? && sp.issuer.Some?
      requires forall i :: 0 <= i < |sp.vaults| ==> sp.vaults[i] < |tx.inputs|
      modifies this`pot, this`reserve, this`issuer, this`vaults, this`lost
      ensures Out(View(), ev) == IssuerOp(validKey, owners, height, old(View()), tx, sp)
    {
      var found := ScanAnchor(tx, HeightCap(tx, height), issuer.value.anchor);
      if found.None? {
        issuer := None;
        return [Anomaly(NoAnchorFound)];
      }
      var (anchor, vout) := found.value;
      issuer := Some(IssuerCoin(anchor, OutPoint(tx.txid, vout), 1));
      var idx := sp.issuer.value;
      if vout == 0 {
        if idx != 0 {
          ev := Stray(tx, sp, PokeOffInput0);
        } else {
          ev := [Poked(anchor)];
        }
      } else if vout == 4 {
        ev := Open(owners, tx, idx, anchor, sp);
      } else if vout == 3 && sp.reserve.None? {
        ev := Draw(tx, idx, anchor, sp);
      } else if vout == 3 {
        ev := Attest(tx, idx, sp);
      } else {
        ev := Stray(tx, sp, UnpinnedOutput);
      }
    }

    method Stray(tx: Tx, sp: Spends, what: What) returns (ev: seq<Event>)
      modifies this`pot, this`reserve
      ensures Out(View(), ev) == Strayed(old(View()), tx, sp, what)
    {
      var rest := FollowSingletons(tx, sp);
      ev := [Anomaly(what)] + rest;
    }

    method Open(owners: seq<Key>, tx: Tx, idx: nat, anchor: nat, sp: Spends) returns (ev: seq<Event>)
      modifies this`pot, this`reserve, this`vaults
      ensures Out(View(), ev) == OpenArm(validKey, owners, old(View()), tx, idx, anchor, sp)
    {
      if idx == 0 || sp.pot != Some(idx - 1) || sp.reserve != Some(3) {
        ev := Stray(tx, sp, OpenWithoutPins);
        return;
      }
      var minted, pe := PotChange(tx, false);
      if minted.None? { return pe; }
      var _, re := TrackReserve(tx);
      var be := VaultBorn(owners, tx, idx, minted.value, anchor);
      ev := pe + re + be;
    }

    method Draw(tx: Tx, idx: nat, anchor: nat, sp: Spends) returns (ev: seq<Event>)
      requires forall i :: 0 <= i < |sp.vaults| ==> sp.vaults[i] < |tx.inputs|
      modifies this`pot, this`reserve, this`vaults, this`lost
      ensures Out(View(), ev) == DrawArm(old(View()), tx, idx, anchor, sp)
    {
      if sp.vaults == [] || sp.vaults[0] != 0 || idx == 0 || sp.pot != Some(idx - 1) {
        ev := Stray(tx, sp, DrawWithoutPins);
        return;
      }
      var vop := tx.inputs[0].prev;
      var amount, pe := PotChange(tx, false);
      if amount.None? || vop !in vaults { return pe; }
      var v := vaults[vop];
      vaults := vaults - {vop};
      var next := v.(debt := SatAdd(v.debt, amount.value, U64_MAX), lastHeight := anchor);
      var se := InstallSuccessor(vop, next, tx, MDraw(amount.value));
      ev := pe + se;
    }

    method Attest(tx: Tx, idx: nat, sp: Spends) returns (ev: seq<Event>)
      requires forall i :: 0 <= i < |sp.vaults| ==> sp.vaults[i] < |tx.inputs|
      modifies this`pot, this`reserve, this`vaults
      ensures Out(View(), ev) == AttestArm(old(View()), tx, idx, sp)
    {
      if idx != 4 || sp.vaults == [] || sp.vaults[0] != 0 || sp.pot != Some(1) || sp.reserve != Some(3) {
        ev := Stray(tx, sp, AttestWithoutPins);
        return;
      }
      var vop := tx.inputs[0].prev;
      var _, pe := TrackPot(tx);
      var _, re := TrackReserve(tx);
      vaults := vaults - {vop};
      ev := pe + re + [BadDebtClosed(vop)];
    }

    // ----- vault operations without the issuer

    /** The descending scan for the ratchet a refreshed vault commits to. */
    method ScanRatchet(spk: Script, debt: nat, owner: Key, cap: nat, lo: nat) returns (r: Option<nat>)
      ensures r == FindRatchet(spk, debt, owner, cap, lo)
    {
      var h: nat := cap;
      while h >= lo
        invariant FindRatchet(spk, debt, owner, h, lo) == FindRatchet(spk, debt, owner, cap, lo)
      {
        if spk == VaultSpk(debt, owner, h) { return Some(h); }
        if h == 0 { break; }
        h := h - 1;
      }
      return None;
    }

    method VaultSpend(height: nat, tx: Tx, vop: OutPoint, sp: Spends) returns (ev: seq<Event>)
      requires vop in vaults
      modifies this`pot, this`reserve, this`vaults, this`lost
      ensures Out(View(), ev) == VaultOp(height, old(View()), tx, vop, sp)
    {
      var v := vaults[vop];
      if |tx.inputs| == 2 && sp.pot.None? && sp.reserve.None? {
        ev := RefreshVault(tx, height, vop, v);
      } else if |tx.inputs| == 3 && sp.pot == Some(1) && sp.reserve.None? {
        var _, pe := TrackPot(tx);
        vaults := vaults - {vop};
        ev := pe + [Closed(vop)];
      } else if |tx.inputs| == 4 && sp.pot == Some(1) && sp.reserve.None? {
        ev := RepayVault(tx, vop, v);
      } else if |tx.inputs| == 4 && sp.pot == Some(1) && sp.reserve == Some(3) {
        ev := LiquidateVault(tx, vop, v);
      } else {
        var le := Lose(vop, tx.txid, OutsideLayout);
        var rest := FollowSingletons(tx, sp);
        ev := le + rest;
      }
    }

    method RefreshVault(tx: Tx, height: nat, vop: OutPoint, v: TrackedVault) returns (ev: seq<Event>)
      modifies this`vaults, this`lost
      ensures Out(View(), ev) == RefreshArm(old(View()), tx, height, vop, v)
    {
      var cap := HeightCap(tx, height);
      vaults := vaults - {vop};
      var lastHeight := cap;
      if v.owner.Some? && tx.outputs != [] {
        var found := ScanRatchet(tx.outputs[0].spk, v.debt, v.owner.value, cap, SatAdd(v.lastHeight, 1, U32_MAX));
        if found.None? {
          ev := Lose(vop, tx.txid, SpkMismatch);
          return;
        }
        lastHeight := found.value;
      }
      ev := InstallSuccessor(vop, v.(lastHeight := lastHeight), tx, MRefresh(lastHeight));
    }

    method RepayVault(tx: Tx, vop: OutPoint, v: TrackedVault) returns (ev: seq<Event>)
      modifies this`pot, this`vaults, this`lost
      ensures Out(View(), ev) == RepayArm(old(View()), tx, vop, v)
    {
      var amount, pe := PotChange(tx, true);
      if amount.None? {
        var le := Lose(vop, tx.txid, RepayWithoutPot);
        return pe + le;
      }
      vaults := vaults - {vop};
      var se := InstallSuccessor(vop, v.(debt := SatSub(v.debt, amount.value)), tx, MRepay(amount.value));
      ev := pe + se;
    }

    method LiquidateVault(tx: Tx, vop: OutPoint, v: TrackedVault) returns (ev: seq<Event>)
      modifies this`pot, this`reserve, this`vaults, this`lost
      ensures Out(View(), ev) == LiqArm(old(View()), tx, vop, v)
    {
      var amount, pe := PotChange(tx, true);
      if amount.None? {
        var le := Lose(vop, tx.txid, LiqWithoutPot);
        return pe + le;
      }
      var _, re := TrackReserve(tx);
      vaults := vaults - {vop};
      var debt := SatSub(v.debt, amount.value);
      var removed;
      if v.owner.Some? {
        var successor := VaultSpk(debt, v.owner.value, v.lastHeight);
        removed := tx.outputs == [] || !Pays(tx.outputs[0], successor, Policy);
      } else {
        removed := amount.value == v.debt;
      }
      var se: seq<Event>;
      if removed {
        if amount.value != v.debt {
          se := Lose(vop, tx.txid, SurvivingDebt);
        } else {
          se := [FullyLiquidated(vop)];
        }
      } else {
        se := InstallSuccessor(vop, v.(debt := debt), tx, MDeleverage(amount.value));
      }
      ev := pe + re + se;
    }

    // ----- births and successors

    /** Owner resolution: the configured candidates first, then the witness of the issuer input. */
    method ResolveOwner(owners: seq<Key>, tx: Tx, issuerInput: nat, debt: nat, lastHeight: nat, spk: Script)
      returns (owner: Option<Key>)
      ensures owner == OwnerOf(validKey, owners, tx, issuerInput, debt, lastHeight, spk)
    {
      for n := 0 to |owners|
        invariant forall i :: 0 <= i < n ==> VaultSpk(debt, owners[i], lastHeight) != spk
      {
        if VaultSpk(debt, owners[n], lastHeight) == spk { return Some(owners[n]); }
      }
      if issuerInput >= |tx.inputs| { return None; }
      var matches := (cand: Key) => VaultSpk(debt, cand, lastHeight) == spk;
      owner := ScanForOwner(tx.inputs[issuerInput].stack, validKey, matches);
    }

    method VaultBorn(owners: seq<Key>, tx: Tx, issuerInput: nat, debt: nat, lastHeight: nat) returns (ev: seq<Event>)
      modifies this`vaults
      ensures Out(View(), ev) == Born(validKey, owners, old(View()), tx, issuerInput, debt, lastHeight)
    {
      if tx.outputs == [] { return [Anomaly(OpenWithoutOutputs)]; }
      var out0 := tx.outputs[0];
      var value := Explicit(out0, Policy);
      if value.None? { return [Anomaly(OpenNotExplicit)]; }
      var owner := ResolveOwner(owners, tx, issuerInput, debt, lastHeight, out0.spk);
      var vault := OutPoint(tx.txid, 0);
      vaults := vaults[vault := TrackedVault(debt, lastHeight, value.value, owner, out0.spk)];
      ev := [Opened(vault, debt, value.value, lastHeight, owner)];
    }

    method InstallSuccessor(vop: OutPoint, next: TrackedVault, tx: Tx, move: Move) returns (ev: seq<Event>)
      modifies this`vaults, this`lost
      ensures Out(View(), ev) == Successor(old(View()), vop, next, tx, move)
    {
      if tx.outputs == [] {
        ev := Lose(vop, tx.txid, NoOutputs);
        return;
      }
      var out0 := tx.outputs[0];
      var value := Explicit(out0, Policy);
      if value.None? {
        ev := Lose(vop, tx.txid, NotExplicitPolicy);
        return;
      }
      if next.owner.Some? && VaultSpk(next.debt, next.owner.value, next.lastHeight) != out0.spk {
        ev := Lose(vop, tx.txid, SpkMismatch);
        return;
      }
      var successor := OutPoint(tx.txid, 0);
      vaults := vaults[successor := next.(value := value.value, spk := out0.spk)];
      ev := [MoveEvent(move, vop, successor)];
    }

    method Lose(vop: OutPoint, txid: nat, reason: Reason) returns (ev: seq<Event>)
      modifies this`vaults, this`lost
      ensures Out(View(), ev) == MarkLost(old(View()), vop, txid, reason)
    {
      vaults := vaults - {vop};
      lost := lost[vop := Lost(txid, reason)];
      ev := [VaultLost(vop, reason)];
    }

    method LoseVaults(tx: Tx, at: seq<nat>) returns (ev: seq<Event>)
      requires forall i :: 0 <= i < |at| ==> at[i] < |tx.inputs|
      modifies this`vaults, this`lost
      ensures Out(View(), ev) == LoseAll(old(View()), tx, at)
    {
      ev := [];
      ghost var was := View();
      for n := 0 to |at|
        invariant Out(View(), ev) == LoseAll(was, tx, at[..n])
      {
        assert at[..n + 1][..n] == at[..n];
        var le := Lose(tx.inputs[at[n]].prev, tx.txid, OutsideLayout);
        ev := ev + le;
      }
      assert at[..|at|] == at;
    }

    // ----- singleton following

    method TrackPot(tx: Tx) returns (value: Option<nat>, ev: seq<Event>)
      modifies this`pot
      ensures Followed(View(), ev, value) == FollowPot(old(View()), tx)
    {
      var hit := Locate(tx, PotSpk, Obol);
      if hit.None? {
        pot := None;
        return None, [Anomaly(PotWithoutSuccessor)];
      }
      pot := Some(Singleton(OutPoint(tx.txid, hit.value.vout), hit.value.value));
      return Some(hit.value.value), FragmentIf(hit.value.extra, PotRole);
    }

    method TrackReserve(tx: Tx) returns (value: Option<nat>, ev: seq<Event>)
      modifies this`reserve
      ensures Followed(View(), ev, value) == FollowReserve(old(View()), tx)
    {
      var hit := Locate(tx, ReserveSpk, Policy);
      if hit.None? {
        reserve := None;
        return None, [Anomaly(ReserveWithoutSuccessor)];
      }
      reserve := Some(Singleton(OutPoint(tx.txid, hit.value.vout), hit.value.value));
      return Some(hit.value.value), FragmentIf(hit.value.extra, ReserveRole);
    }

    /** The first output paying (spk, asset), counting whether a second one follows. */
    method Locate(tx: Tx, spk: Script, asset: Asset) returns (r: Option<Hit>)
      ensures r == LocateCounted(tx, spk, asset)
    {
      var first := NextPaying(tx.outputs, spk, asset, 0);
      if first.None? { return None; }
      var second := NextPaying(tx.outputs, spk, asset, first.value + 1);
      return Some(Hit(first.value, Explicit(tx.outputs[first.value], asset).value, second.Some?));
    }

    method NextPaying(outs: seq<TxOut>, spk: Script, asset: Asset, start: nat) returns (r: Option<nat>)
      requires start <= |outs|
      ensures r == FirstPaying(outs, spk, asset, start)
    {
      for n := start to |outs|
        invariant FirstPaying(outs, spk, asset, n) == FirstPaying(outs, spk, asset, start)
      {
        if Pays(outs[n], spk, asset) { return Some(n); }
      }
      return None;
    }

    method FollowSingletons(tx: Tx, sp: Spends) returns (ev: seq<Event>)
      modifies this`pot, this`reserve
      ensures Out(View(), ev) == FollowSpent(old(View()), tx, sp.pot, sp.reserve)
    {
      ev := [];
      if sp.pot.Some? {
        var _, pe := TrackPot(tx);
        ev := ev + pe;
      }
      if sp.reserve.Some? {
        var _, re := TrackReserve(tx);
        ev := ev + re;
      }
    }

    /** The pot delta of a minting operation (shrink) or a repayment (grow). */
    method PotChange(tx: Tx, grow: bool) returns (delta: Option<nat>, ev: seq<Event>)
      modifies this`pot
      ensures Followed(View(), ev, delta) == PotDelta(old(View()), tx, grow)
    {
      if pot.None? { return None, []; }
      var before := pot.value.value;
      var now, pe := TrackPot(tx);
      if now.None? { return None, pe; }
      if grow && now.value > before { return Some(now.value - before), pe; }
      if !grow && before > now.value { return Some(before - now.value), pe; }
      return None, pe + [Anomaly(if grow then RepaymentWithoutGrow else MintWithoutShrink)];
    }

    // ----- donations and non-protocol transactions

    method GrowOnly(tx: Tx, sp: Spends) returns (ev: seq<Event>)
      modifies this`pot, this`reserve
      ensures Out(View(), ev) == Donation(old(View()), tx, sp)
    {
      ev := [];
      if sp.pot.Some? {
        var v, pe := TrackPot(tx);
        ev := ev + pe;
        if v.Some? { ev := ev + [PotGrew(v.value)]; }
      }
      if sp.reserve.Some? {
        var v, re := TrackReserve(tx);
        ev := ev + re;
        if v.Some? { ev := ev + [ReserveGrew(v.value)]; }
      }
    }

    method NonProtocolTx(height: nat, tx: Tx) returns (ev: seq<Event>)
      modifies this`pot, this`reserve, this`issuer
      ensures Out(View(), ev) == NonProtocol(height, old(View()), tx)
    {
      var pe := WatchPotBirth(tx);
      var re := WatchReserveBirth(tx);
      var ie := WatchIssuer(height, tx);
      ev := pe + re + ie;
    }

    method WatchPotBirth(tx: Tx) returns (ev: seq<Event>)
      modifies this`pot
      ensures Out(View(), ev) == PotBirth(old(View()), tx)
    {
      var hit := Locate(tx, PotSpk, Obol);
      if hit.None? { return []; }
      if pot.Some? { return [Fragment(PotRole)]; }
      var op := OutPoint(tx.txid, hit.value.vout);
      pot := Some(Singleton(op, hit.value.value));
      ev := [PotBorn(op, hit.value.value)];
    }

    method WatchReserveBirth(tx: Tx) returns (ev: seq<Event>)
      modifies this`reserve
      ensures Out(View(), ev) == ReserveBirth(old(View()), tx)
    {
      var hit := Locate(tx, ReserveSpk, Policy);
      if hit.None? { return []; }
      if reserve.Some? { return [Fragment(ReserveRole)]; }
      var op := OutPoint(tx.txid, hit.value.vout);
      reserve := Some(Singleton(op, hit.value.value));
      ev := [ReserveBorn(op, hit.value.value)];
    }

    method WatchIssuer(height: nat, tx: Tx) returns (ev: seq<Event>)
      modifies this`issuer
      ensures Out(View(), ev) == IssuerWatch(old(View()), tx, height)
    {
      if issuer.Some? {
        var hit := Locate(tx, IssuerSpk(issuer.value.anchor), IssuerToken);
        if hit.Some? { return [Fragment(IssuerRole)]; }
        return [];
      }
      ev := WatchIssuerBirth(height, tx);
    }

    method WatchIssuerBirth(height: nat, tx: Tx) returns (ev: seq<Event>)
      modifies this`issuer
      ensures Out(View(), ev) == IssuerBirth(old(View()), tx, height, 0)
    {
      ev := [];
      ghost var was := View();
      for n := 0 to |tx.outputs|
        invariant View() == was
        invariant var rest := IssuerBirth(was, tx, height, n);
                  IssuerBirth(was, tx, height, 0) == Out(rest.st, ev + rest.ev)
      {
        if Explicit(tx.outputs[n], IssuerToken) == Some(1) {
          var h := DerivesAnchor(tx.outputs[n], height);
          if h.Some? {
            var op := OutPoint(tx.txid, n);
            issuer := Some(IssuerCoin(h.value, op, 1));
            return ev + [IssuerBorn(op, h.value)];
          }
          ghost var rest := IssuerBirth(was, tx, height, n + 1);
          assert ev + ([Anomaly(UnderivableIssuer)] + rest.ev) == (ev + [Anomaly(UnderivableIssuer)]) + rest.ev;
          ev := ev + [Anomaly(UnderivableIssuer)];
        }
      }
      assert ev + [] == ev;
    }

    /** The descending search for the anchor an output's script commits to. */
    method DerivesAnchor(out: TxOut, height: nat) returns (r: Option<nat>)
      ensures r == AnchorOf(out, height)
    {
      var h: nat := height;
      while true
        invariant h <= height && forall i: nat :: h < i <= height ==> out.spk != IssuerSpk(i)
        decreases h
      {
        if out.spk == IssuerSpk(h) { return Some(h); }
        if h == 0 { return None; }
        h := h - 1;
      }
    }
  }
}
