/**
 * The token handle (token.go): it remembers the address of the token it
 * manages, which is absent until the handle mints one. Minting is allowed
 * only while the address is absent and records the new address only once the
 * transaction has been sent; transferring is allowed only once the address is
 * present and never changes it.
 *
 * Every answer of the chain client (rent minimum, latest block hash, whether
 * the transaction could be built, the result of sending it, the outcome of
 * waiting for the mint account) and the freshly generated mint key are
 * parameters of the operations.
 */
module TokenManager {
  import opened Wrappers
  import opened Units
  import opened Instructions

  /** The errors Mint and Transfer return; each carries the cause reported by the collaborator. */
  datatype Error =
    | AlreadyMinted                      // "token already exists, cannot mint"
    | NotMinted                          // "token is not initialized, please mint new token"
    | RentQuery(cause: string)           // rent-exemption query failed
    | AtaDerivation(cause: string)       // associated-token-address derivation failed
    | Blockhash(cause: string)           // "failed to get blockhash"
    | MetadataDerivation(cause: string)  // "failed to derive metadata account"
    | BuildTransaction(cause: string)    // "failed to build transaction" / "failed to build transfer tx"
    | SendTransaction(cause: string)     // "failed to send transaction" / "failed to send transfer tx"
    | WaitForAccount(cause: string)      // the mint account did not become visible in time

  /** The chain client's answers during Mint, in the order Mint asks for them. */
  datatype MintRpc = MintRpc(
    rent: Result<u64, string>, blockhash: Result<string, string>,
    build: Outcome<string>, send: Result<string, string>)

  /** The chain client's answers during Transfer, in the order Transfer asks for them. */
  datatype TransferRpc = TransferRpc(
    wait: Outcome<string>, blockhash: Result<string, string>,
    build: Outcome<string>, send: Result<string, string>)

  /** What a successful Mint returns: the new token's address and the transaction signature. */
  datatype MintReceipt = MintReceipt(tokenAddr: PublicKey, txHash: string)

  /**
   * getATA: the owner's associated token address for a mint. A derivation
   * error is dropped and whatever address the SDK returned alongside it is used.
   */
  function GetAta(sdk: Sdk, owner: PublicKey, mint: PublicKey): PublicKey
  {
    var d := sdk.findAssociatedTokenAddress(owner, mint);
    d.address
  }

  /**
   * The account a transfer debits is the owner's associated account that
   * minting created and credited with the supply.
   */
  lemma TransferDebitsMintedAccount(sdk: Sdk, payer: PublicKey, owner: PublicKey, mint: PublicKey, rent: u64,
                                    metadata: PublicKey, params: MintParams, recipient: PublicKey, amount: real)
    requires Convertible(params.metadata.supply, DefaultDecimals) && Convertible(amount, DefaultDecimals)
    requires sdk.findAssociatedTokenAddress(owner, mint).failure.None?
    ensures var minted := MintInstructions(sdk, payer, owner, mint, rent,
                                           sdk.findAssociatedTokenAddress(owner, mint).address, metadata, params);
            var moved := TransferInstructions(payer, owner, mint, recipient,
                                              GetAta(sdk, owner, mint), GetAta(sdk, recipient, mint), amount);
            && minted[2].CreateAssociatedTokenAccount? && minted[2].owner == owner
            && moved[1].from == minted[2].associatedTokenAccount
            && moved[1].from == minted[3].to
  {
  }

  class Token {
    const sdk: Sdk
    const owner: PublicKey
    const payer: PublicKey
    var token: PublicKey

    /** The handle has a token: the `Bytes() != nil` test on its address. */
    predicate HasToken()
      reads this
    {
      sdk.hasBytes(token)
    }

    /** NewTokenManager: a handle for an existing token, or for none yet. */
    constructor (sdk: Sdk, owner: PublicKey, payer: PublicKey, tokenAddr: PublicKey)
      ensures this.sdk == sdk && this.owner == owner && this.payer == payer
      ensures token == tokenAddr
    {
      this.sdk := sdk;
      this.owner := owner;
      this.payer := payer;
      this.token := tokenAddr;
    }

    /** The owner's associated account for a new mint, as Mint derives it. */
    function OwnerAta(mint: PublicKey): Derived
    {
      sdk.findAssociatedTokenAddress(owner, mint)
    }

    /** The metadata address of a new mint, as Mint derives it. */
    function MetadataAccount(mint: PublicKey): Derived
    {
      sdk.findProgramAddress(MetadataSeeds(sdk, mint), sdk.metadataProgramId)
    }

    /**
     * Mint creates a new token with key `mint`. It fails at once on a handle
     * that already has a token; otherwise it builds the mint instructions and
     * stops at the first failing collaborator. `sent` is the transaction handed
     * to the chain client, if any. The handle records `mint` only on success.
     */
    method Mint(params: MintParams, mint: PublicKey, rpc: MintRpc)
      returns (res: Result<MintReceipt, Error>, sent: Option<Transaction>)
      requires Convertible(params.metadata.supply, DefaultDecimals)
      modifies this
      ensures token == (if res.Success? then mint else old(token))
      ensures old(HasToken()) ==> res == Failure(AlreadyMinted) && sent == None
      ensures !old(HasToken()) && rpc.rent.Failure? ==>
                res == Failure(RentQuery(rpc.rent.error)) && sent == None
      ensures !old(HasToken()) && rpc.rent.Success? && OwnerAta(mint).failure.Some? ==>
                res == Failure(AtaDerivation(OwnerAta(mint).failure.value)) && sent == None
      ensures !old(HasToken()) && rpc.rent.Success? && OwnerAta(mint).failure.None? && rpc.blockhash.Failure? ==>
                res == Failure(Blockhash(rpc.blockhash.error)) && sent == None
      ensures !old(HasToken()) && rpc.rent.Success? && OwnerAta(mint).failure.None? && rpc.blockhash.Success? &&
              MetadataAccount(mint).failure.Some? ==>
                res == Failure(MetadataDerivation(MetadataAccount(mint).failure.value)) && sent == None
      ensures !old(HasToken()) && rpc.rent.Success? && OwnerAta(mint).failure.None? && rpc.blockhash.Success? &&
              MetadataAccount(mint).failure.None? && rpc.build.Fail? ==>
                res == Failure(BuildTransaction(rpc.build.error)) && sent == None
      ensures sent.Some? <==>
                !old(HasToken()) && rpc.rent.Success? && OwnerAta(mint).failure.None? && rpc.blockhash.Success? &&
                MetadataAccount(mint).failure.None? && rpc.build.Pass?
      ensures sent.Some? ==>
                sent.value == Transaction([payer, mint], payer, rpc.blockhash.value,
                                          MintInstructions(sdk, payer, owner, mint, rpc.rent.value,
                                                           OwnerAta(mint).address, MetadataAccount(mint).address, params))
      ensures sent.Some? && rpc.send.Failure? ==> res == Failure(SendTransaction(rpc.send.error))
      ensures res.Success? <==> sent.Some? && rpc.send.Success?
      ensures res.Success? ==> res.value == MintReceipt(mint, rpc.send.value)
    {
      sent := None;
      if HasToken() {
        return Failure(AlreadyMinted), None;
      }

      if rpc.rent.Failure? {
        return Failure(RentQuery(rpc.rent.error)), None;
      }
      var rent := rpc.rent.value;

      var instructions: seq<Instruction> := [];

      var createMint := CreateAccount(payer, mint, rent, MintAccountSize, sdk.tokenProgramId);
      instructions := instructions + [createMint];

      var freezeAuth: Option<PublicKey> := None;
      if params.enableFreeze {
        freezeAuth := Some(payer);
      }
      var initMint := InitializeMint(mint, DefaultDecimals, payer, freezeAuth);
      instructions := instructions + [initMint];

      var ownerAta := OwnerAta(mint);
      if ownerAta.failure.Some? {
        return Failure(AtaDerivation(ownerAta.failure.value)), None;
      }

      var createAta := CreateAssociatedTokenAccount(payer, owner, mint, ownerAta.address);
      instructions := instructions + [createAta];

      var mintTo := MintTo(mint, ownerAta.address, payer, ConvertToDecimals(params.metadata.supply, DefaultDecimals), []);
      instructions := instructions + [mintTo];

      if rpc.blockhash.Failure? {
        return Failure(Blockhash(rpc.blockhash.error)), None;
      }
      var blockhash := rpc.blockhash.value;

      var metadataAccount := MetadataAccount(mint);
      if metadataAccount.failure.Some? {
        return Failure(MetadataDerivation(metadataAccount.failure.value)), None;
      }

      var createMetadata := CreateMetadataAccountV3(metadataAccount.address, mint, payer, payer, owner,
                                                    TokenData(owner, params.metadata), true);
      instructions := instructions + [createMetadata];

      if params.disableFutureMinting {
        var setAuth := SetAuthority(mint, None, MintTokens, payer);
        instructions := instructions + [setAuth];
      }

      if rpc.build.Fail? {
        return Failure(BuildTransaction(rpc.build.error)), None;
      }
      var tx := Transaction([payer, mint], payer, blockhash, instructions);

      sent := Some(tx);
      if rpc.send.Failure? {
        return Failure(SendTransaction(rpc.send.error)), sent;
      }

      token := mint;
      res := Success(MintReceipt(mint, rpc.send.value));
    }

    /**
     * Transfer moves `params.amount` tokens from the owner to the recipient.
     * It fails at once on a handle without a token, optionally waits for the
     * mint account first, and stops at the first failing collaborator. `sent`
     * is the transaction handed to the chain client, if any.
     */
    method Transfer(params: TransferParams, rpc: TransferRpc)
      returns (res: Result<string, Error>, sent: Option<Transaction>)
      requires Convertible(params.amount, DefaultDecimals)
      ensures !HasToken() ==> res == Failure(NotMinted) && sent == None
      ensures HasToken() && params.checkTokenProgram && rpc.wait.Fail? ==>
                res == Failure(WaitForAccount(rpc.wait.error)) && sent == None
      ensures HasToken() && (params.checkTokenProgram ==> rpc.wait.Pass?) && rpc.blockhash.Failure? ==>
                res == Failure(Blockhash(rpc.blockhash.error)) && sent == None
      ensures HasToken() && (params.checkTokenProgram ==> rpc.wait.Pass?) && rpc.blockhash.Success? && rpc.build.Fail? ==>
                res == Failure(BuildTransaction(rpc.build.error)) && sent == None
      ensures sent.Some? <==>
                HasToken() && (params.checkTokenProgram ==> rpc.wait.Pass?) && rpc.blockhash.Success? && rpc.build.Pass?
      ensures sent.Some? ==>
                sent.value == Transaction([payer, owner], payer, rpc.blockhash.value,
                                          TransferInstructions(payer, owner, token, params.recipient,
                                                               GetAta(sdk, owner, token), GetAta(sdk, params.recipient, token),
                                                               params.amount))
      ensures sent.Some? && rpc.send.Failure? ==> res == Failure(SendTransaction(rpc.send.error))
      ensures res.Success? <==> sent.Some? && rpc.send.Success?
      ensures res.Success? ==> res.value == rpc.send.value
    {
      sent := None;
      if !HasToken() {
        return Failure(NotMinted), None;
      }

      if params.checkTokenProgram {
        if rpc.wait.Fail? {
          return Failure(WaitForAccount(rpc.wait.error)), None;
        }
      }

      var senderAta := GetAta(sdk, owner, token);
      var receiverAta := GetAta(sdk, params.recipient, token);

      var instructions: seq<Instruction> := [];

      var createReceiverAta := CreateAssociatedTokenAccount(payer, params.recipient, token, receiverAta);
      instructions := instructions + [createReceiverAta];

      var transfer := Instruction.Transfer(senderAta, receiverAta, owner, ConvertToDecimals(params.amount, DefaultDecimals));
      instructions := instructions + [transfer];

      if rpc.blockhash.Failure? {
        return Failure(Blockhash(rpc.blockhash.error)), None;
      }

      if rpc.build.Fail? {
        return Failure(BuildTransaction(rpc.build.error)), None;
      }
      var tx := Transaction([payer, owner], payer, rpc.blockhash.value, instructions);

      sent := Some(tx);
      if rpc.send.Failure? {
        return Failure(SendTransaction(rpc.send.error)), sent;
      }
      res := Success(rpc.send.value);
    }
  }

  /**
   * A failing associated-address derivation stops Mint, which checks the
   * error, but not Transfer, which drops it and sends with whatever address
   * the SDK returned.
   */
  method AtaDerivationFailure(sdk: Sdk, owner: PublicKey, payer: PublicKey, absent: PublicKey,
                              params: MintParams, mint: PublicKey, mintRpc: MintRpc,
                              present: PublicKey, transferParams: TransferParams, transferRpc: TransferRpc)
    returns (minted: Result<MintReceipt, Error>, mintTx: Option<Transaction>,
             transferred: Result<string, Error>, transferTx: Option<Transaction>)
    requires !sdk.hasBytes(absent) && sdk.hasBytes(present)
    requires sdk.findAssociatedTokenAddress(owner, mint).failure.Some?
    requires sdk.findAssociatedTokenAddress(owner, present).failure.Some?
    requires Convertible(params.metadata.supply, DefaultDecimals)
    requires Convertible(transferParams.amount, DefaultDecimals)
    ensures mintRpc.rent.Success? ==>
              minted == Failure(AtaDerivation(sdk.findAssociatedTokenAddress(owner, mint).failure.value))
    ensures mintTx == None
    ensures (transferParams.checkTokenProgram ==> transferRpc.wait.Pass?) &&
            transferRpc.blockhash.Success? && transferRpc.build.Pass? ==>
              && transferTx.Some?
              && |transferTx.value.instructions| == 2
              && transferTx.value.instructions[1].Transfer?
              && transferTx.value.instructions[1].from == sdk.findAssociatedTokenAddress(owner, present).address
    ensures (transferParams.checkTokenProgram ==> transferRpc.wait.Pass?) &&
            transferRpc.blockhash.Success? && transferRpc.build.Pass? && transferRpc.send.Success? ==>
              transferred == Success(transferRpc.send.value)
  {
    var unminted := new Token(sdk, owner, payer, absent);
    minted, mintTx := unminted.Mint(params, mint, mintRpc);
    var existing := new Token(sdk, owner, payer, present);
    transferred, transferTx := existing.Transfer(transferParams, transferRpc);
  }
}
