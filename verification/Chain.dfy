/** Chain vocabulary: outpoints, transactions, and the scripts the protocol derives.

    A taproot script is a commitment to the state it was derived from. The model makes that
    literal: `Script` is a free datatype, so issuer and vault scripts are injective in the
    state they commit to and never collide with each other or with the constant addresses. */
module Chain {
  import opened Prelude

  /** An x-only key, or any 32 bytes claimed to be one. */
  type Key = seq<bv8>

  datatype OutPoint = OutPoint(txid: nat, vout: nat)

  datatype Script =
    | PotSpk
    | ReserveSpk
    | IssuerSpk(lastMintHeight: nat)
    | VaultSpk(debt: nat, owner: Key, lastHeight: nat)
    | ForeignSpk(id: nat)

  datatype Asset = Obol | Policy | IssuerToken | ForeignAsset(id: nat)

  /** Absent asset or value means the field is blinded. */
  datatype TxOut = TxOut(asset: Option<Asset>, value: Option<nat>, spk: Script)

  datatype TxIn = TxIn(prev: OutPoint, stack: seq<seq<bv8>>)

  datatype Tx = Tx(txid: nat, lockTime: nat, inputs: seq<TxIn>, outputs: seq<TxOut>)

  /** A vault's identity, as its address commits to it. */
  datatype VaultState = VaultState(debt: nat, owner: Key, lastHeight: nat)

  datatype OnChainVault = OnChainVault(state: VaultState, outpoint: OutPoint, value: nat)

  /** The derived address of a vault state. */
  function SpkOf(v: VaultState): Script { VaultSpk(v.debt, v.owner, v.lastHeight) }

  /** The explicit value of an output iff it pays the given asset. */
  function Explicit(out: TxOut, asset: Asset): Option<nat> {
    if out.asset == Some(asset) then out.value else None
  }
}
