/**
 * The on-chain instructions a token handle submits (token.go), as values, and
 * the two fixed instruction sequences: the one that creates a new token and
 * the one that transfers an existing token.
 */
module Instructions {
  import opened Wrappers
  import opened Units

  /** An account address. Its bytes and how it is derived are the SDK's. */
  type PublicKey(==)

  /** What an SDK address derivation returns: the address and the error it reports, if any. */
  datatype Derived = Derived(address: PublicKey, failure: Option<string>)

  /** One seed of a program-derived address. */
  datatype Seed = Text(text: string) | KeyBytes(key: PublicKey)

  /**
   * The SDK behaviour the handle depends on, left uninterpreted: the test
   * `PublicKey.Bytes() != nil`, associated-token-address derivation
   * (owner, mint), program-derived-address search (seeds, program), and the
   * token and metadata program identifiers.
   */
  datatype Sdk = Sdk(
    hasBytes: PublicKey -> bool,
    findAssociatedTokenAddress: (PublicKey, PublicKey) -> Derived,
    findProgramAddress: (seq<Seed>, PublicKey) -> Derived,
    tokenProgramId: PublicKey,
    metadataProgramId: PublicKey)

  /** Decimal places of every token this system mints (_defaultDecimals). */
  const DefaultDecimals: u8 := 10

  /** Size in bytes of a token-program mint account. */
  const MintAccountSize: nat := 82

  /** Share, in percent, given to the single metadata creator. */
  const CreatorShare: nat := 100

  /** The authorities of the token program. */
  datatype AuthorityType = MintTokens | FreezeAccount | AccountOwner | CloseAccount

  datatype Creator = Creator(address: PublicKey, verified: bool, share: nat)

  /** The metadata record stored for a token. */
  datatype DataV2 = DataV2(
    name: string, symbol: string, uri: string,
    sellerFeeBasisPoints: nat, creators: seq<Creator>)

  /** The instructions the handle issues, with the parameters it passes to each. */
  datatype Instruction =
    | CreateAccount(from: PublicKey, newAccount: PublicKey, lamports: u64, space: nat, programOwner: PublicKey)
    | InitializeMint(mint: PublicKey, decimals: u8, mintAuth: PublicKey, freezeAuth: Option<PublicKey>)
    | CreateAssociatedTokenAccount(funder: PublicKey, owner: PublicKey, mint: PublicKey, associatedTokenAccount: PublicKey)
    | MintTo(mint: PublicKey, to: PublicKey, auth: PublicKey, amount: u64, signers: seq<PublicKey>)
    | CreateMetadataAccountV3(metadata: PublicKey, mint: PublicKey, mintAuthority: PublicKey, payer: PublicKey,
                              updateAuthority: PublicKey, data: DataV2, isMutable: bool)
    | SetAuthority(account: PublicKey, newAuth: Option<PublicKey>, authType: AuthorityType, auth: PublicKey)
    | Transfer(from: PublicKey, to: PublicKey, auth: PublicKey, amount: u64)

  /** A transaction as handed to the chain client: signers, fee payer, block reference, instructions. */
  datatype Transaction = Transaction(
    signers: seq<PublicKey>, feePayer: PublicKey, recentBlockhash: string, instructions: seq<Instruction>)

  /** MintParams and its Metadata; the supply is a human-readable amount. */
  datatype Metadata = Metadata(name: string, symbol: string, uri: string, supply: real)
  datatype MintParams = MintParams(metadata: Metadata, disableFutureMinting: bool, enableFreeze: bool)

  /** TransferParams; the amount is a human-readable amount. */
  datatype TransferParams = TransferParams(recipient: PublicKey, amount: real, checkTokenProgram: bool)

  /** The accounts an instruction brings into existence. */
  function Creates(ins: Instruction): set<PublicKey>
  {
    match ins
    case CreateAccount(_, newAccount, _, _, _) => {newAccount}
    case CreateAssociatedTokenAccount(_, _, _, ata) => {ata}
    case CreateMetadataAccountV3(metadata, _, _, _, _, _, _) => {metadata}
    case _ => {}
  }

  /**
   * The accounts an instruction writes to or debits, which must exist when it
   * runs: the mint and token accounts it operates on and the wallet that pays
   * for a new account. Signing authorities and the owners named in new
   * accounts are keys, not accounts the instruction touches, and are not listed.
   */
  function Needs(ins: Instruction): set<PublicKey>
  {
    match ins
    case CreateAccount(from, _, _, _, _) => {from}
    case InitializeMint(mint, _, _, _) => {mint}
    case CreateAssociatedTokenAccount(funder, _, mint, _) => {funder, mint}
    case MintTo(mint, to, _, _, _) => {mint, to}
    case CreateMetadataAccountV3(_, mint, _, payer, _, _, _) => {mint, payer}
    case SetAuthority(account, _, _, _) => {account}
    case Transfer(from, to, _, _) => {from, to}
  }

  /**
   * Every account an instruction needs either existed before the transaction
   * or is created by an earlier instruction of the same sequence.
   */
  ghost predicate CreatedBeforeUse(s: seq<Instruction>, existing: set<PublicKey>)
  {
    forall i, a :: 0 <= i < |s| && a in Needs(s[i]) ==>
      a in existing || exists j :: 0 <= j < i && a in Creates(s[j])
  }

  /** The seeds of a token's metadata address: "metadata", the metadata program, the mint. */
  function MetadataSeeds(sdk: Sdk, mint: PublicKey): seq<Seed>
  {
    [Text("metadata"), KeyBytes(sdk.metadataProgramId), KeyBytes(mint)]
  }

  /** The metadata record of a new token: no seller fee and the owner as sole, verified creator. */
  function TokenData(owner: PublicKey, meta: Metadata): (d: DataV2)
    ensures d.name == meta.name && d.symbol == meta.symbol && d.uri == meta.uri
    ensures d.sellerFeeBasisPoints == 0
    ensures |d.creators| == 1 && d.creators[0].address == owner && d.creators[0].verified
    ensures d.creators[0].share == CreatorShare
  {
    DataV2(meta.name, meta.symbol, meta.uri, 0, [Creator(owner, true, CreatorShare)])
  }

  /**
   * The instructions that create a token, in submission order: create the
   * mint account, initialise it, create the owner's associated account, mint
   * the supply into it, create the metadata, and (when asked) revoke the
   * mint authority.
   */
  function MintInstructions(sdk: Sdk, payer: PublicKey, owner: PublicKey, mint: PublicKey, rent: u64,
                            ownerAta: PublicKey, metadata: PublicKey, params: MintParams): (r: seq<Instruction>)
    requires Convertible(params.metadata.supply, DefaultDecimals)
    ensures |r| == (if params.disableFutureMinting then 6 else 5)
    // only the payer's wallet exists beforehand; every other account is created earlier in the sequence
    ensures CreatedBeforeUse(r, {payer})
    // the mint account is created with the rent-exempt balance and size, owned by the token program
    ensures r[0] == CreateAccount(payer, mint, rent, MintAccountSize, sdk.tokenProgramId)
    // ten decimals, the payer may mint, and the payer may freeze exactly when freezing is enabled
    ensures r[1].InitializeMint? && r[1].mint == mint && r[1].decimals == DefaultDecimals && r[1].mintAuth == payer
    ensures r[1].freezeAuth.Some? <==> params.enableFreeze
    ensures r[1].freezeAuth.Some? ==> r[1].freezeAuth.value == payer
    // the supply goes to the associated account created just before, signed by the mint authority
    ensures r[2] == CreateAssociatedTokenAccount(payer, owner, mint, ownerAta)
    ensures r[3].MintTo? && r[3].mint == mint && r[3].to == r[2].associatedTokenAccount && r[3].auth == r[1].mintAuth
    ensures r[3].amount == ConvertToDecimals(params.metadata.supply, DefaultDecimals)
    ensures r[4].CreateMetadataAccountV3? && r[4].metadata == metadata && r[4].mint == mint
    ensures r[4].mintAuthority == payer && r[4].payer == payer && r[4].updateAuthority == owner && r[4].isMutable
    ensures r[4].data == TokenData(owner, params.metadata)
    // the mint authority is revoked only on request, and then by the last instruction
    ensures forall i :: 0 <= i < |r| && r[i].SetAuthority? ==> i == |r| - 1 && params.disableFutureMinting
    ensures params.disableFutureMinting ==> r[5] == SetAuthority(mint, None, MintTokens, payer)
  {
    var freezeAuth := if params.enableFreeze then Some(payer) else None;
    var amount := ConvertToDecimals(params.metadata.supply, DefaultDecimals);
    var base := [
      CreateAccount(payer, mint, rent, MintAccountSize, sdk.tokenProgramId),
      InitializeMint(mint, DefaultDecimals, payer, freezeAuth),
      CreateAssociatedTokenAccount(payer, owner, mint, ownerAta),
      MintTo(mint, ownerAta, payer, amount, []),
      CreateMetadataAccountV3(metadata, mint, payer, payer, owner, TokenData(owner, params.metadata), true)
    ];
    var r := if params.disableFutureMinting then base + [SetAuthority(mint, None, MintTokens, payer)] else base;
    assert CreatedBeforeUse(r, {payer}) by {
      forall i, a | 0 <= i < |r| && a in Needs(r[i]) && a != payer
        ensures exists j :: 0 <= j < i && a in Creates(r[j])
      {
        if a == mint {
          assert a in Creates(r[0]);
        } else {
          assert i == 3 && a in Creates(r[2]);
        }
      }
    }
    r
  }

  /**
   * The instructions that move tokens: create the recipient's associated
   * account, then transfer from the owner's associated account into it.
   */
  function TransferInstructions(payer: PublicKey, owner: PublicKey, mint: PublicKey, recipient: PublicKey,
                                senderAta: PublicKey, receiverAta: PublicKey, amount: real): (r: seq<Instruction>)
    requires Convertible(amount, DefaultDecimals)
    ensures |r| == 2
    // only the payer, the mint and the sender's account exist beforehand
    ensures CreatedBeforeUse(r, {payer, mint, senderAta})
    ensures r[0] == CreateAssociatedTokenAccount(payer, recipient, mint, receiverAta)
    ensures r[1].Transfer? && r[1].from == senderAta && r[1].to == r[0].associatedTokenAccount && r[1].auth == owner
    ensures r[1].amount == ConvertToDecimals(amount, DefaultDecimals)
    // a transfer neither mints nor touches an authority
    ensures forall i :: 0 <= i < |r| ==> !r[i].MintTo? && !r[i].SetAuthority? && !r[i].InitializeMint?
  {
    var r := [ CreateAssociatedTokenAccount(payer, recipient, mint, receiverAta),
               Transfer(senderAta, receiverAta, owner, ConvertToDecimals(amount, DefaultDecimals)) ];
    assert CreatedBeforeUse(r, {payer, mint, senderAta}) by {
      forall i, a | 0 <= i < |r| && a in Needs(r[i]) && a !in {payer, mint, senderAta}
        ensures exists j :: 0 <= j < i && a in Creates(r[j])
      {
        assert i == 1 && a in Creates(r[0]);
      }
    }
    r
  }
}
