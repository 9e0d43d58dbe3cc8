/** Conservation of the stablecoin: what the pot holds and what the vaults owe add up to the
    issued supply and the donations, on the ledger and in the index. */
module Conservation {
  import opened Prelude
  import opened Chain
  import opened IndexSpec
  import opened IndexTheorems
  import opened Ledger
  import opened Refinement
  import opened Misreads

  // ----- sums over maps

  ghost function Total(m: map<OutPoint, nat>): nat {
    if m == map[] then 0
    else
      var k :| k in m;
      m[k] + Total(m - {k})
  }

  lemma {:induction false} TotalRemove(m: map<OutPoint, nat>, k: OutPoint)
    requires k in m
    ensures Total(m) == m[k] + Total(m - {k})
  {
    var j :| j in m && Total(m) == m[j] + Total(m - {j});
    if j != k {
      TotalRemove(m - {j}, k);
      TotalRemove(m - {k}, j);
      assert m - {j} - {k} == m - {k} - {j};
    }
  }

  lemma TotalInsert(m: map<OutPoint, nat>, k: OutPoint, v: nat)
    requires k !in m
    ensures Total(m[k := v]) == Total(m) + v
  {
    TotalRemove(m[k := v], k);
    assert m[k := v] - {k} == m;
  }

  lemma {:induction false} TotalSplit(m: map<OutPoint, nat>, a: map<OutPoint, nat>, b: map<OutPoint, nat>)
    requires a.Keys !! b.Keys && m == a + b
    ensures Total(m) == Total(a) + Total(b)
  {
    if b == map[] {
      assert m == a;
    } else {
      var k :| k in b;
      TotalSplit(m - {k}, a, b - {k});
      TotalRemove(m, k);
      TotalRemove(b, k);
    }
  }

  lemma {:induction false} TotalZero(m: map<OutPoint, nat>)
    ensures Total(m) == 0 <==> forall k :: k in m ==> m[k] == 0
  {
    if m != map[] {
      var k :| k in m && Total(m) == m[k] + Total(m - {k});
      TotalZero(m - {k});
      if Total(m) == 0 {
        assert forall j :: j in m && j != k ==> j in m - {k} && (m - {k})[j] == m[j];
      }
    }
  }

  // ----- the ledger

  ghost function Debts(vaults: map<OutPoint, TrueVault>): map<OutPoint, nat> {
    map op | op in vaults :: vaults[op].state.debt
  }

  ghost function Supply(l: Ledger): nat { (if l.pot.Some? then l.pot.value.value else 0) + Total(Debts(l.vaults)) }

  /** What an operation adds to the supply in circulation around the pot: the ceremony's
      issuance into the pot, or a donation, alone or riding along. */
  function Inflow(l: Ledger, op: Op): nat {
    if op.Outside? then if op.potBirth.Some? then op.potBirth.value.1 else 0
    else if PotGift(op).Some? && l.pot.Some? then SatSub(PotGift(op).value, l.pot.value.value)
    else 0
  }

  /** Replacing one vault by at most one other moves the total by the difference. */
  lemma DebtsMove(vaults: map<OutPoint, TrueVault>, vop: OutPoint, at: OutPoint, v: TrueVault)
    requires vop in vaults && at !in vaults
    ensures Total(Debts(vaults - {vop})) + vaults[vop].state.debt == Total(Debts(vaults))
    ensures Total(Debts((vaults - {vop})[at := v])) + vaults[vop].state.debt == Total(Debts(vaults)) + v.state.debt
  {
    TotalRemove(Debts(vaults), vop);
    assert Debts(vaults - {vop}) == Debts(vaults) - {vop};
    TotalInsert(Debts(vaults - {vop}), at, v.state.debt);
    assert Debts((vaults - {vop})[at := v]) == Debts(vaults - {vop})[at := v.state.debt];
  }

  lemma DebtsGrow(vaults: map<OutPoint, TrueVault>, at: OutPoint, v: TrueVault)
    requires at !in vaults
    ensures Total(Debts(vaults[at := v])) == Total(Debts(vaults)) + v.state.debt
  {
    TotalInsert(Debts(vaults), at, v.state.debt);
    assert Debts(vaults[at := v]) == Debts(vaults)[at := v.state.debt];
  }

  /** The debts after an operation, against the debts before. */
  lemma DebtsStep(validKey: Key -> bool, owners: seq<Key>, l: Ledger, height: nat, op: Op, tx: Tx)
    requires WellFormed(l) && Conforms(validKey, owners, l, height, op, tx)
    ensures Total(Debts(Step(l, op, tx.txid).vaults)) + (if Targets(op) then l.vaults[op.vault].state.debt else 0)
            == Total(Debts(l.vaults)) + (if NextVault(l, op).Some? then NextVault(l, op).value.state.debt else 0)
  {
    var next := NextVault(l, op);
    if Targets(op) {
      DebtsMove(l.vaults, op.vault, Newborn(tx), if next.Some? then next.value else l.vaults[op.vault]);
    } else if op.Open? {
      DebtsGrow(l.vaults, Newborn(tx), next.value);
    }
  }

  /** One operation: the pot and the debts move against each other. */
  lemma StepConserves(validKey: Key -> bool, owners: seq<Key>, l: Ledger, height: nat, op: Op, tx: Tx)
    requires WellFormed(l) && Conforms(validKey, owners, l, height, op, tx)
    ensures Supply(Step(l, op, tx.txid)) == Supply(l) + Inflow(l, op)
  {
    DebtsStep(validKey, owners, l, height, op, tx);
  }

  /** Everything that entered during the first `n` operations of a history. */
  function Entered(ops: seq<Op>, ls: seq<Ledger>, n: nat): nat
    requires n <= |ops| && n <= |ls|
  {
    if n == 0 then 0 else Entered(ops, ls, n - 1) + Inflow(ls[n - 1], ops[n - 1])
  }

  /** On every conforming history the pot and the true debts add up to the issued supply and
      the donations. */
  lemma {:induction false} HistoryConserves(validKey: Key -> bool, owners: seq<Key>, run: seq<Item>, ops: seq<Op>,
                                            ls: seq<Ledger>, n: nat)
    requires History(validKey, owners, run, ops, ls) && n <= |run|
    ensures Supply(ls[n]) == Entered(ops, ls, n)
  {
    if n > 0 {
      HistoryConserves(validKey, owners, run, ops, ls, n - 1);
      HistoryWellFormed(validKey, owners, run, ops, ls, n - 1);
      assert Transition(validKey, owners, ls[n - 1], run[n - 1], ops[n - 1], ls[n]);
      StepConserves(validKey, owners, ls[n - 1], run[n - 1].height, ops[n - 1], run[n - 1].tx);
    }
  }

  // ----- the index

  ghost function TrackedDebts(st: Index): map<OutPoint, nat> { map op | op in st.vaults :: st.vaults[op].debt }

  ghost function TrackedSupply(st: Index): nat {
    (if st.pot.Some? then st.pot.value.value else 0) + Total(TrackedDebts(st))
  }

  ghost function HuskDebts(l: Ledger): map<OutPoint, nat> {
    map op | op in l.vaults && l.vaults[op].husk :: l.vaults[op].state.debt
  }

  /** An index that shows the ledger sees its supply, less what husks owe. */
  lemma ShownSupply(st: Index, l: Ledger)
    requires Shows(st, l)
    ensures TrackedSupply(st) + Total(HuskDebts(l)) == Supply(l)
  {
    assert Debts(l.vaults) == TrackedDebts(st) + HuskDebts(l);
    TotalSplit(Debts(l.vaults), TrackedDebts(st), HuskDebts(l));
  }

  /** No husk owes anything. */
  ghost predicate HusksAreFree(l: Ledger) {
    forall op :: op in l.vaults && l.vaults[op].husk ==> l.vaults[op].state.debt == 0
  }

  /** The tracked supply is the whole supply exactly when no husk owes anything. */
  lemma TrackedConservation(validKey: Key -> bool, owners: seq<Key>, run: seq<Item>, ops: seq<Op>, ls: seq<Ledger>,
                            n: nat)
    requires History(validKey, owners, run, ops, ls) && n <= |run|
    requires forall k :: 0 <= k < n ==> !MisreadAt(validKey, owners, run, ops, ls, k)
    ensures TrackedSupply(Scan(validKey, owners, run[..n])) + Total(HuskDebts(ls[n])) == Entered(ops, ls, n)
    ensures TrackedSupply(Scan(validKey, owners, run[..n])) == Entered(ops, ls, n) <==> HusksAreFree(ls[n])
  {
    EveryHistoryIsShown(validKey, owners, run, ops, ls, n);
    ShownSupply(Scan(validKey, owners, run[..n]), ls[n]);
    HistoryConserves(validKey, owners, run, ops, ls, n);
    FreeHusksOweNothing(ls[n]);
  }

  lemma FreeHusksOweNothing(l: Ledger)
    ensures Total(HuskDebts(l)) == 0 <==> HusksAreFree(l)
  {
    var m := HuskDebts(l);
    TotalZero(m);
    if HusksAreFree(l) {
      assert forall k :: k in m ==> m[k] == 0;
    } else {
      var k :| k in l.vaults && l.vaults[k].husk && l.vaults[k].state.debt != 0;
      assert m[k] != 0;
    }
  }

  /** The operation borrows more on a husk. */
  ghost predicate DrawsOnHusk(l: Ledger, op: Op) { op.Draw? && op.vault in l.vaults && l.vaults[op.vault].husk }

  /** Drawing on a husk is the only way a husk comes to owe something. */
  lemma StepKeepsHusksFree(validKey: Key -> bool, owners: seq<Key>, l: Ledger, height: nat, op: Op, tx: Tx)
    requires Conforms(validKey, owners, l, height, op, tx) && HusksAreFree(l)
    ensures HusksAreFree(Step(l, op, tx.txid)) <==> !DrawsOnHusk(l, op)
  {
    var m := Step(l, op, tx.txid);
    if DrawsOnHusk(l, op) {
      assert m.vaults[Newborn(tx)].state.debt > 0;
    }
  }

  lemma {:induction false} HusksStayFree(validKey: Key -> bool, owners: seq<Key>, run: seq<Item>, ops: seq<Op>,
                                         ls: seq<Ledger>, n: nat)
    requires History(validKey, owners, run, ops, ls) && n <= |run|
    requires forall k :: 0 <= k < n ==> !DrawsOnHusk(ls[k], ops[k])
    ensures HusksAreFree(ls[n])
  {
    if n > 0 {
      HusksStayFree(validKey, owners, run, ops, ls, n - 1);
      assert Transition(validKey, owners, ls[n - 1], run[n - 1], ops[n - 1], ls[n]);
      StepKeepsHusksFree(validKey, owners, ls[n - 1], run[n - 1].height, ops[n - 1], run[n - 1].tx);
    }
  }

  /** An index without vaults has everything in the pot. */
  lemma NoVaultsFullPot(validKey: Key -> bool, owners: seq<Key>, run: seq<Item>, ops: seq<Op>, ls: seq<Ledger>, n: nat)
    requires History(validKey, owners, run, ops, ls) && n <= |run|
    requires forall k :: 0 <= k < n ==> !MisreadAt(validKey, owners, run, ops, ls, k) && !DrawsOnHusk(ls[k], ops[k])
    requires Scan(validKey, owners, run[..n]).vaults == map[] && Scan(validKey, owners, run[..n]).pot.Some?
    ensures Scan(validKey, owners, run[..n]).pot.value.value == Entered(ops, ls, n)
  {
    HusksStayFree(validKey, owners, run, ops, ls, n);
    TrackedConservation(validKey, owners, run, ops, ls, n);
    var st := Scan(validKey, owners, run[..n]);
    assert TrackedDebts(st) == map[];
  }

  /** A born pot stays, and only a donation adds to it from outside. */
  lemma BornPotStays(validKey: Key -> bool, owners: seq<Key>, l: Ledger, item: Item, op: Op, m: Ledger)
    requires Transition(validKey, owners, l, item, op, m) && l.pot.Some? && PotGift(op).None?
    ensures m.pot.Some? && Inflow(l, op) == 0
  {
  }

  /** The pot is born from nothing. */
  lemma BornFromNothing(validKey: Key -> bool, owners: seq<Key>, l: Ledger, item: Item, op: Op, m: Ledger)
    requires Transition(validKey, owners, l, item, op, m) && WellFormed(l) && op.Outside? && op.potBirth.Some?
    ensures m.pot.Some? && Supply(l) == 0
  {
    assert Debts(l.vaults) == map[];
  }

  /** The pot is born once: the issued supply is what the ceremony put into it. */
  lemma {:induction false} IssuedOnce(validKey: Key -> bool, owners: seq<Key>, run: seq<Item>, ops: seq<Op>,
                                      ls: seq<Ledger>,
                                      n: nat, j: nat)
    requires History(validKey, owners, run, ops, ls) && j < n <= |run|
    requires ops[j].Outside? && ops[j].potBirth.Some?
    requires forall k :: 0 <= k < n ==> PotGift(ops[k]).None?
    ensures ls[n].pot.Some? && Entered(ops, ls, n) == ops[j].potBirth.value.1
  {
    var m := n - 1;
    assert Transition(validKey, owners, ls[m], run[m], ops[m], ls[n]);
    if j == m {
      HistoryConserves(validKey, owners, run, ops, ls, m);
      HistoryWellFormed(validKey, owners, run, ops, ls, m);
      BornFromNothing(validKey, owners, ls[m], run[m], ops[m], ls[n]);
    } else {
      IssuedOnce(validKey, owners, run, ops, ls, m, j);
      BornPotStays(validKey, owners, ls[m], run[m], ops[m], ls[n]);
    }
  }
}
