/**
 * The life of a token handle over several calls, as the network tests of
 * token_test.go drive it: minting on a fresh handle, transferring what was
 * minted, and minting again.
 */
module TokenScenarios {
  import opened Wrappers
  import opened Units
  import opened Instructions
  import opened TokenManager

  /** Every collaborator Mint consults on the way to a sent transaction answers without error. */
  predicate MintCanSucceed(sdk: Sdk, owner: PublicKey, mint: PublicKey, rpc: MintRpc)
  {
    && rpc.rent.Success?
    && sdk.findAssociatedTokenAddress(owner, mint).failure.None?
    && rpc.blockhash.Success?
    && sdk.findProgramAddress(MetadataSeeds(sdk, mint), sdk.metadataProgramId).failure.None?
    && rpc.build.Pass?
    && rpc.send.Success?
  }

  /**
   * TestMintAndTransfer: mint a supply of 1000 on a handle with no token,
   * transfer 250 of it, then try to mint again on the same handle.
   */
  method MintThenTransfer(sdk: Sdk, owner: PublicKey, absent: PublicKey, meta: Metadata, mint: PublicKey,
                          mintRpc: MintRpc, recipient: PublicKey, transferRpc: TransferRpc,
                          again: MintParams, mint2: PublicKey, againRpc: MintRpc)
    returns (minted: Result<MintReceipt, Error>, mintTx: Option<Transaction>,
             transferred: Result<string, Error>, transferTx: Option<Transaction>,
             remint: Result<MintReceipt, Error>, remintTx: Option<Transaction>)
    requires !sdk.hasBytes(absent) && sdk.hasBytes(mint)
    requires meta.supply == 1000.0
    requires Convertible(again.metadata.supply, DefaultDecimals)
    ensures MintCanSucceed(sdk, owner, mint, mintRpc) ==> minted == Success(MintReceipt(mint, mintRpc.send.value))
    // the supply reaches the owner's account as 1000 * 10^10 base units
    ensures mintTx.Some? ==>
              && |mintTx.value.instructions| == 5
              && mintTx.value.instructions[3].MintTo?
              && mintTx.value.instructions[3].amount == 10_000_000_000_000
    // without a token there is nothing to transfer
    ensures minted.Failure? ==> transferred == Failure(NotMinted) && transferTx == None
    // the transfer debits the account the supply was minted into, by 250 * 10^10 base units
    ensures minted.Success? ==> mintTx.Some?
    ensures minted.Success? && transferTx.Some? ==>
              && |transferTx.value.instructions| == 2
              && transferTx.value.instructions[0].CreateAssociatedTokenAccount?
              && transferTx.value.instructions[1].Transfer?
              && transferTx.value.instructions[1].from == mintTx.value.instructions[3].to
              && transferTx.value.instructions[1].amount == 2_500_000_000_000
              && transferTx.value.instructions[0].mint == mint
    // the transfer that follows a successful mint succeeds when its own collaborators do
    ensures MintCanSucceed(sdk, owner, mint, mintRpc) && transferRpc.wait.Pass? && transferRpc.blockhash.Success? &&
            transferRpc.build.Pass? && transferRpc.send.Success? ==>
              transferred == Success(transferRpc.send.value)
    // a handle mints at most once
    ensures minted.Success? ==> remint == Failure(AlreadyMinted) && remintTx == None
  {
    var t := new Token(sdk, owner, owner, absent);
    ScenarioAmounts();
    minted, mintTx := t.Mint(MintParams(meta, false, false), mint, mintRpc);
    transferred, transferTx := t.Transfer(TransferParams(recipient, 250.0, true), transferRpc);
    remint, remintTx := t.Mint(again, mint2, againRpc);
  }

  /**
   * TestMint as written: its cases mint one after another on ONE shared
   * handle. Even when every collaborator succeeds, the second case is refused.
   */
  method MintCasesOnSharedHandle(sdk: Sdk, owner: PublicKey, absent: PublicKey,
                                 first: MintParams, mint1: PublicKey, rpc1: MintRpc,
                                 second: MintParams, mint2: PublicKey, rpc2: MintRpc)
    returns (r1: Result<MintReceipt, Error>, r2: Result<MintReceipt, Error>)
    requires !sdk.hasBytes(absent) && sdk.hasBytes(mint1)
    requires Convertible(first.metadata.supply, DefaultDecimals)
    requires Convertible(second.metadata.supply, DefaultDecimals)
    ensures MintCanSucceed(sdk, owner, mint1, rpc1) ==> r1.Success?
    ensures MintCanSucceed(sdk, owner, mint1, rpc1) && MintCanSucceed(sdk, owner, mint2, rpc2) ==>
              r2 == Failure(AlreadyMinted)
  {
    var tok := new Token(sdk, owner, owner, absent);
    var sent;
    r1, sent := tok.Mint(first, mint1, rpc1);
    r2, sent := tok.Mint(second, mint2, rpc2);
  }

  /**
   * TestMint as intended: each case mints on a handle of its own, so every
   * case succeeds when its collaborators do.
   */
  method MintCasesOnFreshHandles(sdk: Sdk, owner: PublicKey, absent: PublicKey,
                                 first: MintParams, mint1: PublicKey, rpc1: MintRpc,
                                 second: MintParams, mint2: PublicKey, rpc2: MintRpc)
    returns (r1: Result<MintReceipt, Error>, r2: Result<MintReceipt, Error>)
    requires !sdk.hasBytes(absent)
    requires Convertible(first.metadata.supply, DefaultDecimals)
    requires Convertible(second.metadata.supply, DefaultDecimals)
    ensures MintCanSucceed(sdk, owner, mint1, rpc1) ==> r1 == Success(MintReceipt(mint1, rpc1.send.value))
    ensures MintCanSucceed(sdk, owner, mint2, rpc2) ==> r2 == Success(MintReceipt(mint2, rpc2.send.value))
  {
    var sent;
    var tok1 := new Token(sdk, owner, owner, absent);
    r1, sent := tok1.Mint(first, mint1, rpc1);
    var tok2 := new Token(sdk, owner, owner, absent);
    r2, sent := tok2.Mint(second, mint2, rpc2);
  }
}
