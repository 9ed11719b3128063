/**
 The ledger's vocabulary. Hashes are free constructors, as injective functions
 are: a covenant script is the state its redeem script encodes (different states
 have different redeem scripts, MembershipContract.RedeemBytesInjective), and a
 covenant id is the outpoint and outputs it was created from.
 */
module Chain {
  import opened Wrappers
  import opened Bytes
  import opened MembershipContract

  type TxId = nat

  datatype Outpoint = Outpoint(transactionId: TxId, index: nat)

  datatype Script =
    | PayToKey(key: Key)
    | PayToCovenant(state: State)
    | OtherScript(raw: Data)

  datatype AuthorizedOutput = AuthorizedOutput(index: nat, value: int, script: Script)

  datatype CovenantId = CovenantId(genesis: Outpoint, outputs: seq<AuthorizedOutput>)

  /** The covenant an output belongs to and the input that vouches for it. */
  datatype Binding = Binding(covenantId: CovenantId, authorizingInput: nat)

  datatype Output = Output(value: int, script: Script, binding: Option<Binding>)

  /** One entry of an address's list of unspent outputs. */
  datatype Utxo = Utxo(outpoint: Outpoint, output: Output)

  /** The covenant entry an input's signature script calls, with its arguments. */
  datatype Entry =
    | Mint(minter: State, member: State, funding: nat, payment: nat, platform: nat, ownerIndex: nat)
    | Update(newPrice: int, funding: nat)
    | Cancel(funding: nat)

  /** What the payload of a transaction says, as far as the verifier reads it. */
  datatype Payload =
    | MembershipNote(memberRedeemScript: Data, createdAtDaa: int, expiresAtDaa: int)
    | OtherPayload(raw: Data)

  /** `entry` is what the first input's signature script calls, if it calls one. */
  datatype Tx = Tx(
    version: nat, inputs: seq<Outpoint>, outputs: seq<Output>, lockTime: int,
    payload: Payload, entry: Option<Entry>)
}
