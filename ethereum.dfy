/** The boundary between the relay and go-ethereum: the values that cross
    it and the library and ledger calls, taken as opaque oracles. */
module Ethereum {
  import opened Wrappers

  type Bytes = seq<bv8>

  /** A 20-byte account or contract address (`common.Address`). */
  type Address = a: Bytes | |a| == 20
    witness [0, 0, 0, 0, 0, 0, 0, 0, 0, 0, 0, 0, 0, 0, 0, 0, 0, 0, 0, 0]

  /** The NFT contract, 0x0e075058f9d07a328c5b84ad1e1e18d159fee1e8. */
  const NFT_ADDRESS: Address :=
    [0x0e, 0x07, 0x50, 0x58, 0xf9, 0xd0, 0x7a, 0x32, 0x8c, 0x5b,
     0x84, 0xad, 0x1e, 0x1e, 0x18, 0xd1, 0x59, 0xfe, 0xe1, 0xe8]

  /** The Sepolia chain identifier every transaction is signed under (EIP-155). */
  const CHAIN_ID: nat := 11155111

  /** An unsigned legacy transaction, as `types.NewTransaction` builds it.
      A transaction without call data has `data == []`. */
  datatype Tx = Tx(nonce: nat, to: Address, value: nat, gasLimit: nat, gasPrice: nat, data: Bytes)

  /** A transaction with the signature produced for it under `chainId`. */
  datatype SignedTx = SignedTx(tx: Tx, chainId: nat, signature: Bytes)

  /** The calls that leave the process (the ledger client) or use the
      signing key, in the order the relay makes them. */
  datatype Event =
    | CallContract(to: Address, data: Bytes)
    | SuggestGasPrice
    | SignTx(tx: Tx)
    | SendTransaction(stx: SignedTx)

  /** What the outside world answers during one request. Each field stands
      for one library or ledger call; a `Result` or `Outcome` field is the
      call's success or failure.
      The signing key is fixed for the process and lives inside `signTx`. */
  datatype Env = Env(
    abiParse: Outcome,                             // abi.JSON(abiJSON)
    hexToAddress: string -> Address,               // common.HexToAddress
    packBalanceOf: Address -> Result<Bytes>,       // parsedABI.Pack("balanceOf", a)
    packAwardItem: (Address, string) -> Result<Bytes>,  // parsedABI.Pack("awardItem", a, uri)
    unpackBalanceOf: Bytes -> Result<nat>,         // parsedABI.UnpackIntoInterface(.., "balanceOf", ..)
    callContract: (Address, Bytes) -> Result<Bytes>,    // client.CallContract
    suggestGasPrice: Result<nat>,                  // client.SuggestGasPrice
    signTx: (Tx, nat) -> Result<Bytes>,            // types.SignTx with the process key
    sendTransaction: SignedTx -> Outcome,          // client.SendTransaction
    txHash: SignedTx -> string)                    // signedTx.Hash().Hex()
}
