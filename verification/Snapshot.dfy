/** The snapshot file's document and its two directions. Text encodings of hashes, keys and
    scripts are a parameter, with the laws the libraries promise for them. */
module Snapshot {
  import opened Prelude
  import opened Chain
  import opened IndexSpec

  /** An index sealed at a block: the whole of what a daemon keeps. */
  datatype Sealed = Sealed(height: nat, tip: nat, st: Index)

  const VERSION: nat := 1

  datatype SnapshotError = Field(field: string, text: string) | Version(found: nat)

  datatype OutPointDoc = OutPointDoc(txid: string, vout: nat)
  datatype SingletonDoc = SingletonDoc(outpoint: OutPointDoc, value: nat)
  datatype IssuerDoc = IssuerDoc(outpoint: OutPointDoc, anchor: nat)
  datatype VaultDoc = VaultDoc(outpoint: OutPointDoc, debt: nat, lastHeight: nat, value: nat, owner: Option<string>,
                               spk: string)
  datatype LostDoc = LostDoc(vault: OutPointDoc, txid: string, reason: Reason)
  datatype Doc = Doc(version: nat, height: nat, tip: string, pot: Option<SingletonDoc>, reserve: Option<SingletonDoc>,
                     issuer: Option<IssuerDoc>, vaults: seq<VaultDoc>, lost: seq<LostDoc>)

  // ----- text encodings

  datatype Codec = Codec(showHash: nat -> string, readHash: string -> Option<nat>,
                         showKey: Key -> string, readKey: string -> Option<Key>,
                         showSpk: Script -> string, readSpk: string -> Option<Script>)

  /** Each encoding reads back what it shows; a key reads back only if it is a valid one. */
  ghost predicate Lawful(c: Codec, validKey: Key -> bool) {
    && (forall h: nat :: c.readHash(c.showHash(h)) == Some(h))
    && (forall k :: validKey(k) ==> c.readKey(c.showKey(k)) == Some(k))
    && (forall t :: c.readKey(t).Some? ==> validKey(c.readKey(t).value))
    && (forall s :: c.readSpk(c.showSpk(s)) == Some(s))
  }

  // ----- state to document

  function ShowOp(c: Codec, op: OutPoint): OutPointDoc { OutPointDoc(c.showHash(op.txid), op.vout) }

  function ShowCoin(c: Codec, coin: Option<Singleton>): Option<SingletonDoc> {
    if coin.Some? then Some(SingletonDoc(ShowOp(c, coin.value.outpoint), coin.value.value)) else None
  }

  function ShowIssuer(c: Codec, coin: Option<IssuerCoin>): Option<IssuerDoc> {
    if coin.Some? then Some(IssuerDoc(ShowOp(c, coin.value.outpoint), coin.value.anchor)) else None
  }

  function ShowVault(c: Codec, op: OutPoint, v: TrackedVault): VaultDoc {
    VaultDoc(ShowOp(c, op), v.debt, v.lastHeight, v.value,
             if v.owner.Some? then Some(c.showKey(v.owner.value)) else None, c.showSpk(v.spk))
  }

  function ShowLost(c: Codec, op: OutPoint, l: Lost): LostDoc { LostDoc(ShowOp(c, op), c.showHash(l.txid), l.reason) }

  /** A listing of a map's keys, each once: the order the map is iterated in. */
  ghost predicate Lists(order: seq<OutPoint>, keys: set<OutPoint>) {
    && (forall op :: op in order <==> op in keys)
    && (forall i, j :: 0 <= i < j < |order| ==> order[i] != order[j])
  }

  function ShowDoc(c: Codec, s: Sealed, vaultOrder: seq<OutPoint>, lostOrder: seq<OutPoint>): Doc
    requires forall op :: op in vaultOrder ==> op in s.st.vaults
    requires forall op :: op in lostOrder ==> op in s.st.lost
  {
    Doc(VERSION, s.height, c.showHash(s.tip), ShowCoin(c, s.st.pot), ShowCoin(c, s.st.reserve),
        ShowIssuer(c, s.st.issuer),
        seq(|vaultOrder|, i requires 0 <= i < |vaultOrder| => ShowVault(c, vaultOrder[i], s.st.vaults[vaultOrder[i]])),
        seq(|lostOrder|, i requires 0 <= i < |lostOrder| => ShowLost(c, lostOrder[i], s.st.lost[lostOrder[i]])))
  }

  // ----- document to state

  function ReadOp(c: Codec, d: OutPointDoc): Result<OutPoint, SnapshotError> {
    var h := c.readHash(d.txid);
    if h.Some? then Ok(OutPoint(h.value, d.vout)) else Err(Field("txid", d.txid))
  }

  function ReadCoin(c: Codec, d: Option<SingletonDoc>): Result<Option<Singleton>, SnapshotError> {
    if d.None? then Ok(None)
    else
      var op := ReadOp(c, d.value.outpoint);
      if op.Ok? then Ok(Some(Singleton(op.value, d.value.value))) else Err(op.error)
  }

  /** The token's value is not written: a token is one unit. */
  function ReadIssuer(c: Codec, d: Option<IssuerDoc>): Result<Option<IssuerCoin>, SnapshotError> {
    if d.None? then Ok(None)
    else
      var op := ReadOp(c, d.value.outpoint);
      if op.Ok? then Ok(Some(IssuerCoin(d.value.anchor, op.value, 1))) else Err(op.error)
  }

  function ReadVault(c: Codec, d: VaultDoc): Result<(OutPoint, TrackedVault), SnapshotError> {
    if d.owner.Some? && c.readKey(d.owner.value).None? then Err(Field("owner", d.owner.value))
    else if c.readSpk(d.spk).None? then Err(Field("spk", d.spk))
    else
      var op := ReadOp(c, d.outpoint);
      if op.Err? then Err(op.error)
      else Ok((op.value, TrackedVault(d.debt, d.lastHeight, d.value,
                                      if d.owner.Some? then c.readKey(d.owner.value) else None,
                                      c.readSpk(d.spk).value)))
  }

  function ReadLost(c: Codec, d: LostDoc): Result<(OutPoint, Lost), SnapshotError> {
    if c.readHash(d.txid).None? then Err(Field("lost txid", d.txid))
    else
      var op := ReadOp(c, d.vault);
      if op.Err? then Err(op.error) else Ok((op.value, Lost(c.readHash(d.txid).value, d.reason)))
  }

  /** Insert entries in order; the first that does not read decides the error. */
  function ReadAll<D, V>(read: D -> Result<(OutPoint, V), SnapshotError>, ds: seq<D>): Result<map<OutPoint, V>,
                         SnapshotError> {
    if ds == [] then Ok(map[])
    else
      var rest := ReadAll(read, ds[..|ds| - 1]);
      if rest.Err? then rest
      else
        var e := read(ds[|ds| - 1]);
        if e.Err? then Err(e.error) else Ok(rest.value[e.value.0 := e.value.1])
  }

  function VaultReader(c: Codec): VaultDoc -> Result<(OutPoint, TrackedVault), SnapshotError> { d => ReadVault(c, d) }

  function LostReader(c: Codec): LostDoc -> Result<(OutPoint, Lost), SnapshotError> { d => ReadLost(c, d) }

  function ReadDoc(c: Codec, d: Doc): Result<Sealed, SnapshotError> {
    if d.version != VERSION then Err(Version(d.version))
    else if c.readHash(d.tip).None? then Err(Field("tip", d.tip))
    else
      var pot := ReadCoin(c, d.pot);
      if pot.Err? then Err(pot.error) else
      var reserve := ReadCoin(c, d.reserve);
      if reserve.Err? then Err(reserve.error) else
      var issuer := ReadIssuer(c, d.issuer);
      if issuer.Err? then Err(issuer.error) else
      var vaults := ReadAll(VaultReader(c), d.vaults);
      if vaults.Err? then Err(vaults.error) else
      var lost := ReadAll(LostReader(c), d.lost);
      if lost.Err? then Err(lost.error) else
      Ok(Sealed(d.height, c.readHash(d.tip).value,
                Index(pot.value, reserve.value, issuer.value, vaults.value, lost.value)))
  }

  /** Rebuild a map by inserting the entries one by one, stopping at the first bad one. */
  method Rebuild<D, V>(read: D -> Result<(OutPoint, V), SnapshotError>, ds: seq<D>)
    returns (r: Result<map<OutPoint, V>, SnapshotError>)
    ensures r == ReadAll(read, ds)
  {
    var m: map<OutPoint, V> := map[];
    for i := 0 to |ds|
      invariant ReadAll(read, ds[..i]) == Ok(m)
    {
      assert ds[..i + 1][..i] == ds[..i];
      var e := read(ds[i]);
      if e.Err? {
        BadEntryDecides(read, ds, i, e.error);
        return Err(e.error);
      }
      m := m[e.value.0 := e.value.1];
    }
    assert ds[..|ds|] == ds;
    r := Ok(m);
  }

  lemma {:induction false} BadEntryDecides<D, V>(read: D -> Result<(OutPoint, V), SnapshotError>, ds: seq<D>, i: nat,
                                                 e: SnapshotError)
    requires i < |ds| && ReadAll(read, ds[..i]).Ok? && read(ds[i]) == Err(e)
    ensures ReadAll(read, ds) == Err(e)
    decreases |ds|
  {
    var n := |ds| - 1;
    if i < n {
      assert ds[..n][..i] == ds[..i];
      BadEntryDecides(read, ds[..n], i, e);
    }
  }

  /** Load: the document back into a state, or the first error. */
  method Load(c: Codec, d: Doc) returns (r: Result<Sealed, SnapshotError>)
    ensures r == ReadDoc(c, d)
  {
    if d.version != VERSION { return Err(Version(d.version)); }
    if c.readHash(d.tip).None? { return Err(Field("tip", d.tip)); }
    var st := Sealed(d.height, c.readHash(d.tip).value, EMPTY);
    var pot := ReadCoin(c, d.pot);
    if pot.Err? { return Err(pot.error); }
    st := st.(st := st.st.(pot := pot.value));
    var reserve := ReadCoin(c, d.reserve);
    if reserve.Err? { return Err(reserve.error); }
    st := st.(st := st.st.(reserve := reserve.value));
    var issuer := ReadIssuer(c, d.issuer);
    if issuer.Err? { return Err(issuer.error); }
    st := st.(st := st.st.(issuer := issuer.value));
    var vaults := Rebuild(VaultReader(c), d.vaults);
    if vaults.Err? { return Err(vaults.error); }
    st := st.(st := st.st.(vaults := vaults.value));
    var lost := Rebuild(LostReader(c), d.lost);
    if lost.Err? { return Err(lost.error); }
    r := Ok(st.(st := st.st.(lost := lost.value)));
  }

  // ----- the two directions undo each other

  /** What a document can hold: a one-unit token, and owners that are valid keys. */
  ghost predicate Storable(st: Index, validKey: Key -> bool) {
    && (st.issuer.Some? ==> st.issuer.value.value == 1)
    && (forall op :: op in st.vaults && st.vaults[op].owner.Some? ==> validKey(st.vaults[op].owner.value))
  }

  /** Reading a listing of shown entries rebuilds the map, whatever the order. */
  lemma {:induction false} ReadListing<D, V>(read: D -> Result<(OutPoint, V), SnapshotError>, ds: seq<D>,
                                             order: seq<OutPoint>, m: map<OutPoint, V>)
    requires |ds| == |order|
    requires forall op :: op in order ==> op in m
    requires forall i :: 0 <= i < |ds| ==> read(ds[i]) == Ok((order[i], m[order[i]]))
    ensures ReadAll(read, ds) == Ok(map op | op in m && op in order :: m[op])
  {
    if ds != [] {
      var n := |ds| - 1;
      ReadListing(read, ds[..n], order[..n], m);
      assert order == order[..n] + [order[n]];
      assert (map op | op in m && op in order[..n] :: m[op])[order[n] := m[order[n]]]
          == map op | op in m && op in order :: m[op];
    } else {
      assert (map op | op in m && op in order :: m[op]) == map[];
    }
  }

  /** Saving then loading is the identity on every storable state, in any iteration order. */
  lemma RoundTrip(c: Codec, validKey: Key -> bool, s: Sealed, vaultOrder: seq<OutPoint>, lostOrder: seq<OutPoint>)
    requires Lawful(c, validKey) && Storable(s.st, validKey)
    requires Lists(vaultOrder, s.st.vaults.Keys) && Lists(lostOrder, s.st.lost.Keys)
    ensures ReadDoc(c, ShowDoc(c, s, vaultOrder, lostOrder)) == Ok(s)
  {
    VaultsReadBack(c, validKey, s, vaultOrder, lostOrder);
    LostReadBack(c, validKey, s, vaultOrder, lostOrder);
    CoinsReadBack(c, validKey, s.st);
  }

  lemma CoinsReadBack(c: Codec, validKey: Key -> bool, st: Index)
    requires Lawful(c, validKey) && (st.issuer.Some? ==> st.issuer.value.value == 1)
    ensures ReadCoin(c, ShowCoin(c, st.pot)) == Ok(st.pot) && ReadCoin(c, ShowCoin(c, st.reserve)) == Ok(st.reserve)
    ensures ReadIssuer(c, ShowIssuer(c, st.issuer)) == Ok(st.issuer)
  {
  }

  lemma VaultsReadBack(c: Codec, validKey: Key -> bool, s: Sealed, vaultOrder: seq<OutPoint>, lostOrder: seq<OutPoint>)
    requires Lawful(c, validKey) && Storable(s.st, validKey)
    requires Lists(vaultOrder, s.st.vaults.Keys) && forall op :: op in lostOrder ==> op in s.st.lost
    ensures ReadAll(VaultReader(c), ShowDoc(c, s, vaultOrder, lostOrder).vaults) == Ok(s.st.vaults)
  {
    var ds, m := ShowDoc(c, s, vaultOrder, lostOrder).vaults, s.st.vaults;
    forall i | 0 <= i < |ds| ensures VaultReader(c)(ds[i]) == Ok((vaultOrder[i], m[vaultOrder[i]])) {
      VaultReadsBack(c, validKey, vaultOrder[i], m[vaultOrder[i]]);
    }
    ReadListing(VaultReader(c), ds, vaultOrder, m);
    assert (map op | op in m && op in vaultOrder :: m[op]) == m;
  }

  lemma VaultReadsBack(c: Codec, validKey: Key -> bool, op: OutPoint, v: TrackedVault)
    requires Lawful(c, validKey) && (v.owner.Some? ==> validKey(v.owner.value))
    ensures ReadVault(c, ShowVault(c, op, v)) == Ok((op, v))
  {
  }

  lemma LostReadBack(c: Codec, validKey: Key -> bool, s: Sealed, vaultOrder: seq<OutPoint>, lostOrder: seq<OutPoint>)
    requires Lawful(c, validKey) && Lists(lostOrder, s.st.lost.Keys)
    requires forall op :: op in vaultOrder ==> op in s.st.vaults
    ensures ReadAll(LostReader(c), ShowDoc(c, s, vaultOrder, lostOrder).lost) == Ok(s.st.lost)
  {
    var ds, m := ShowDoc(c, s, vaultOrder, lostOrder).lost, s.st.lost;
    forall i | 0 <= i < |ds| ensures LostReader(c)(ds[i]) == Ok((lostOrder[i], m[lostOrder[i]])) {
      assert ReadLost(c, ShowLost(c, lostOrder[i], m[lostOrder[i]])) == Ok((lostOrder[i], m[lostOrder[i]]));
    }
    ReadListing(LostReader(c), ds, lostOrder, m);
    assert (map op | op in m && op in lostOrder :: m[op]) == m;
  }

  lemma {:induction false} ReadAllFrom<D, V>(read: D -> Result<(OutPoint, V), SnapshotError>, ds: seq<D>)
    ensures ReadAll(read, ds).Ok? <==> forall i :: 0 <= i < |ds| ==> read(ds[i]).Ok?
    ensures ReadAll(read, ds).Ok? ==> forall op :: op in ReadAll(read, ds).value ==>
              exists i :: 0 <= i < |ds| && read(ds[i]) == Ok((op, ReadAll(read, ds).value[op]))
  {
    if ds != [] {
      var n := |ds| - 1;
      ReadAllFrom(read, ds[..n]);
      if ReadAll(read, ds).Ok? {
        var m, last := ReadAll(read, ds).value, read(ds[n]).value;
        forall op | op in m ensures exists i :: 0 <= i < |ds| && read(ds[i]) == Ok((op, m[op])) {
          if op == last.0 {
            assert read(ds[n]) == Ok((op, m[op]));
          } else {
            var i :| 0 <= i < n && read(ds[..n][i]) == Ok((op, m[op]));
            assert read(ds[i]) == Ok((op, m[op]));
          }
        }
      }
    }
  }

  ghost predicate VaultReadable(c: Codec, d: VaultDoc) {
    && (d.owner.Some? ==> c.readKey(d.owner.value).Some?)
    && c.readSpk(d.spk).Some? && c.readHash(d.outpoint.txid).Some?
  }

  ghost predicate LostReadable(c: Codec, d: LostDoc) { c.readHash(d.txid).Some? && c.readHash(d.vault.txid).Some? }

  /** Exactly which documents load: the right version, and every text field readable. */
  ghost predicate Readable(c: Codec, d: Doc) {
    && d.version == VERSION && c.readHash(d.tip).Some?
    && (d.pot.Some? ==> c.readHash(d.pot.value.outpoint.txid).Some?)
    && (d.reserve.Some? ==> c.readHash(d.reserve.value.outpoint.txid).Some?)
    && (d.issuer.Some? ==> c.readHash(d.issuer.value.outpoint.txid).Some?)
    && (forall i :: 0 <= i < |d.vaults| ==> VaultReadable(c, d.vaults[i]))
    && (forall i :: 0 <= i < |d.lost| ==> LostReadable(c, d.lost[i]))
  }

  lemma VaultsLoad(c: Codec, validKey: Key -> bool, ds: seq<VaultDoc>)
    requires Lawful(c, validKey)
    ensures var r := ReadAll(VaultReader(c), ds);
            && (r.Ok? <==> forall i :: 0 <= i < |ds| ==> VaultReadable(c, ds[i]))
            && (r.Ok? ==> forall op :: op in r.value && r.value[op].owner.Some? ==> validKey(r.value[op].owner.value))
  {
    ReadAllFrom(VaultReader(c), ds);
    assert forall i :: 0 <= i < |ds| ==> VaultReader(c)(ds[i]) == ReadVault(c, ds[i]);
    assert forall i :: 0 <= i < |ds| ==> (ReadVault(c, ds[i]).Ok? <==> VaultReadable(c, ds[i]));
  }

  lemma LostLoad(c: Codec, ds: seq<LostDoc>)
    ensures ReadAll(LostReader(c), ds).Ok? <==> forall i :: 0 <= i < |ds| ==> LostReadable(c, ds[i])
  {
    ReadAllFrom(LostReader(c), ds);
    assert forall i :: 0 <= i < |ds| ==> LostReader(c)(ds[i]) == ReadLost(c, ds[i]);
    assert forall i :: 0 <= i < |ds| ==> (ReadLost(c, ds[i]).Ok? <==> LostReadable(c, ds[i]));
  }

  /** Whatever document loads gives a storable state, so saving it again loses nothing. */
  lemma LoadedIsStorable(c: Codec, validKey: Key -> bool, d: Doc)
    requires Lawful(c, validKey)
    ensures ReadDoc(c, d).Ok? <==> Readable(c, d)
    ensures ReadDoc(c, d).Ok? ==> Storable(ReadDoc(c, d).value.st, validKey)
  {
    VaultsLoad(c, validKey, d.vaults);
    LostLoad(c, d.lost);
  }

  // ----- the first error, and the last entry

  /** Everything before the lists reads. */
  ghost predicate HeadReadable(c: Codec, d: Doc) {
    && d.version == 1 && c.readHash(d.tip).Some?
    && (d.pot.Some? ==> c.readHash(d.pot.value.outpoint.txid).Some?)
    && (d.reserve.Some? ==> c.readHash(d.reserve.value.outpoint.txid).Some?)
    && (d.issuer.Some? ==> c.readHash(d.issuer.value.outpoint.txid).Some?)
  }

  /** What is wrong with the head of a document, in the order it is looked at. */
  lemma HeadErrorsInOrder(c: Codec, d: Doc)
    ensures d.version != 1 ==> ReadDoc(c, d) == Err(Version(d.version))
    ensures d.version == 1 && c.readHash(d.tip).None? ==> ReadDoc(c, d) == Err(Field("tip", d.tip))
    ensures d.version == 1 && c.readHash(d.tip).Some? && !HeadReadable(c, d) ==>
              ReadDoc(c, d)
              == Err(Field("txid",
                           if d.pot.Some? && c.readHash(d.pot.value.outpoint.txid).None? then d.pot.value.outpoint.txid
                           else if d.reserve.Some? && c.readHash(d.reserve.value.outpoint.txid).None?
                             then d.reserve.value.outpoint.txid
                           else d.issuer.value.outpoint.txid))
  {
  }

  /** The first vault that does not read decides: its owner, then its script, then its outpoint. */
  lemma FirstBadVaultDecides(c: Codec, d: Doc, i: nat)
    requires HeadReadable(c, d) && i < |d.vaults| && !VaultReadable(c, d.vaults[i])
    requires forall j :: 0 <= j < i ==> VaultReadable(c, d.vaults[j])
    ensures var v := d.vaults[i];
            ReadDoc(c, d) == Err(if v.owner.Some? && c.readKey(v.owner.value).None? then Field("owner", v.owner.value)
                                 else if c.readSpk(v.spk).None? then Field("spk", v.spk)
                                 else Field("txid", v.outpoint.txid))
  {
    ReadAllFrom(VaultReader(c), d.vaults[..i]);
    assert forall j :: 0 <= j < i ==> VaultReader(c)(d.vaults[..i][j]) == ReadVault(c, d.vaults[j]);
    BadEntryDecides(VaultReader(c), d.vaults, i, ReadVault(c, d.vaults[i]).error);
  }

  /** With every vault read, the first lost record that does not decides: its transaction, then its
      vault. */
  lemma FirstBadLostDecides(c: Codec, validKey: Key -> bool, d: Doc, i: nat)
    requires Lawful(c, validKey) && HeadReadable(c, d) && i < |d.lost| && !LostReadable(c, d.lost[i])
    requires forall j :: 0 <= j < |d.vaults| ==> VaultReadable(c, d.vaults[j])
    requires forall j :: 0 <= j < i ==> LostReadable(c, d.lost[j])
    ensures var l := d.lost[i];
            ReadDoc(c, d)
            == Err(if c.readHash(l.txid).None? then Field("lost txid", l.txid) else Field("txid", l.vault.txid))
  {
    VaultsLoad(c, validKey, d.vaults);
    ReadAllFrom(LostReader(c), d.lost[..i]);
    assert forall j :: 0 <= j < i ==> LostReader(c)(d.lost[..i][j]) == ReadLost(c, d.lost[j]);
    BadEntryDecides(LostReader(c), d.lost, i, ReadLost(c, d.lost[i]).error);
  }

  /** Of two entries for one outpoint the later one counts. */
  lemma {:induction false} LastEntryWins<D, V>(read: D -> Result<(OutPoint, V), SnapshotError>, ds: seq<D>, i: nat)
    requires ReadAll(read, ds).Ok? && i < |ds| && read(ds[i]).Ok?
    requires forall j :: i < j < |ds| && read(ds[j]).Ok? ==> read(ds[j]).value.0 != read(ds[i]).value.0
    ensures var m := ReadAll(read, ds).value;
            read(ds[i]).value.0 in m && m[read(ds[i]).value.0] == read(ds[i]).value.1
  {
    var n := |ds| - 1;
    if i < n {
      assert ds[..n][i] == ds[i];
      LastEntryWins(read, ds[..n], i);
    }
  }
}
