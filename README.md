# sol-token: token handle and unit conversion, modelled in Dafny

This project models the core of a small Go library that creates and moves
fungible tokens on the Solana chain. A token handle (`Token`) remembers the
address of the token it manages. A handle is created either for an existing
token or with no token yet; in the second case the address stays absent
until the handle mints one. `Mint` builds a fixed sequence of instructions, sends it as
one transaction, and records the new mint address only once the send
succeeded. `Transfer` works only on a handle that has a token and builds two
instructions: create the recipient's associated token account, then transfer
into it. Human-readable amounts become on-chain base units by
`ConvertToDecimals` (scale by 10^decimals and round) and `ConvertToLamport`
(the same at nine decimals).

Files:

- `wrappers.dfy` (module `Wrappers`): `Option`, `Result` and `Outcome`, used for Go's `(value, error)` returns.
- `units.dfy` (module `Units`): the conversion functions over exact reals, with their lemmas.
- `instructions.dfy` (module `Instructions`): addresses, the SDK behaviour the handle relies on, the instruction and transaction values, and the two instruction sequences as functions.
- `token.dfy` (module `TokenManager`): the handle as a class whose `token` field `Mint` updates, with `Mint` and `Transfer` as methods that append instructions one by one.
- `scenarios.dfy` (module `TokenScenarios`): client methods that drive one handle through several calls, as the network tests do.

Collaborators are parameters. The chain client's answers are inputs of each
operation: the rent minimum, the latest block hash, whether the transaction
could be built, the result of sending it, and the outcome of waiting for the
mint account. The freshly generated mint key is an input too. Address
derivation is a field of the `Sdk` value: associated token addresses,
program-derived addresses and the `Bytes() != nil` presence test. The model
leaves these functions uninterpreted, so every property holds whatever they
compute. Each method returns the transaction it handed to the client as
`sent`, or `None` when it sent nothing.

## Model

| member | source | states |
|---|---|---|
| Units.Pow10 | utils.go:10 | the scaling factor 10^d is a positive integer |
| Units.Round | utils.go:12 | the result is the nearest integer to a non-negative value, and a value exactly halfway rounds up |
| Units.ConvertToDecimals | utils.go:9-13 | the result is a uint64 within half a unit of human · 10^decimals, with halves rounded up |
| Units.ConvertToLamport | utils.go:5-7 | converting to lamports equals converting at nine decimals, for every amount |
| Units.RoundUnique | utils.go:12 | any integer within half a unit of the value, ties going up, is the rounded value, so the rounding has exactly one answer |
| Units.ConvertZero | utils.go:9-13 | zero converts to zero base units at every precision |
| Units.ConvertMonotone | utils.go:10-12 | at a fixed precision, a larger amount never converts to fewer base units |
| Units.ConvertExact | utils.go:10-12 | an amount with at most d decimal places, k / 10^d, converts to exactly k base units |
| Units.ConvertWhole | utils.go:9-13 | a whole amount n converts to exactly n · 10^d base units |
| Units.ConversionVectors | utils_test.go:9-41 | (1.0, 6) gives 1000000, (0.5, 6) gives 500000, (2.345, 3) gives 2345 and (1.23456789, 8) gives 123456789; lamports of 1.0, 0.5 and 0.000000001 are 1000000000, 500000000 and 1 |
| Units.ScenarioAmounts | token_test.go:104-126 | a supply of 1000 and a transfer of 250, at ten decimals, are 10000000000000 and 2500000000000 base units |
| Instructions.TokenData | token.go:124-136 | the metadata carries the caller's name, symbol and URI, has zero seller fee, and has a single creator: the owner, verified, with a 100% share |
| Instructions.MintInstructions | token.go:50-150 | the mint sequence has five instructions, or six exactly when future minting is disabled; apart from the payer's wallet, every account an instruction writes to or debits is created earlier in the sequence; the mint account is created with the rent minimum and the mint-account size; the mint has ten decimals, the payer as mint authority, and the payer as freeze authority exactly when freezing is enabled; the supply is minted into the owner's associated account created just before, signed by the mint authority, in ConvertToDecimals(supply, 10) base units; the metadata names the owner as update authority; a SetAuthority appears only when requested, only as the last instruction, and it clears the mint-tokens authority, signed by the payer |
| Instructions.TransferInstructions | token.go:190-210 | the transfer sequence has exactly two instructions: creating the recipient's associated account (funded by the payer) and then a transfer from the sender's account into that same account, authorised by the owner, of ConvertToDecimals(amount, 10) base units; only the payer, the mint and the sender's account need to exist beforehand; nothing is minted and no authority changes |
| TokenManager.TransferDebitsMintedAccount | token.go:190-204 | the account Transfer debits, getATA(owner, token), is the owner's associated account that Mint created (token.go:79-91) and minted the supply into |
| TokenManager.AtaDerivationFailure | token.go:264-266 | when associated-address derivation reports an error, Mint fails with that error and sends nothing (token.go:79-82), while Transfer, whose getATA drops the error, still sends its two instructions from the address the SDK returned and succeeds when the send does |
| TokenManager.Token.constructor | token.go:26-35 | a new handle holds the given SDK, owner, payer and token address |
| TokenManager.Token.Mint | token.go:37-174 | on a handle that already has a token, Mint fails with AlreadyMinted and sends nothing; otherwise it fails with the first failing collaborator's error (rent, owner's account derivation, block hash, metadata derivation, building) and sends nothing; else it sends the mint sequence, signed by the payer and the new mint, with the payer as fee payer; it succeeds exactly when the send succeeds; the handle's token becomes the new mint on success and is unchanged on every failure |
| TokenManager.Token.Transfer | token.go:176-235 | on a handle without a token, Transfer fails with NotMinted and sends nothing; when the pre-check is requested and the wait fails, it fails before building anything; a block hash or build failure sends nothing; otherwise it sends the two transfer instructions for the handle's token, signed by the payer and the owner; it succeeds exactly when the send succeeds; it never changes the handle |
| TokenScenarios.MintThenTransfer | token_test.go:94-137 | on a fresh handle, a successful mint of 1000 credits 10000000000000 base units to the owner's account; a failed mint makes the transfer fail with NotMinted; after a successful mint, the transfer succeeds whenever its wait, block hash, build and send succeed; it debits exactly the account the supply was minted into, by 2500000000000 base units; a second mint on the same handle fails with AlreadyMinted and sends nothing |
| TokenScenarios.MintCasesOnSharedHandle | token_test.go:19-91 | with every collaborator succeeding, the first mint on the shared handle succeeds and the second is refused with AlreadyMinted |
| TokenScenarios.MintCasesOnFreshHandles | token_test.go:19-91 | with one handle per case, each case's mint succeeds whenever its own collaborators do |

## Left out

- waitForAccount (token.go:241-262): the 500 ms ticker, the 30-second deadline and context cancellation are timing, not sequential logic. `Transfer` receives the wait's outcome as an input.
- The `Token()` accessor (token.go:237-239) returns the field unchanged; the model reads `token` directly.
- Instruction encoding, transaction signing and sending, `GetLatestBlockhash` and `GetMinimumBalanceForRentExemption` are SDK and RPC calls. Their results are inputs. `NewTransaction` is reduced to success or an error.
- Address hashing and bump-seed search are the SDK's. `FindAssociatedTokenAddress` and `FindProgramAddress` are uninterpreted functions that may report an error. What `PublicKey.Bytes()` returns, and so which keys count as "having a token", is also the SDK's. The model keeps it as one uninterpreted test, used by both `Mint` and `Transfer`.
- Key generation (`NewAccount`) is an input. client.go (`IsHealthy`, `GetFaucet`) and account.go (key import from hex or base58) are thin wrappers over the SDK and are not part of this model.
- Error messages are constructors of `TokenManager.Error` carrying the collaborator's cause; the text of the wrapped Go errors is not modelled.
- Concurrent calls on one handle are not modelled. Two racing `Mint` calls can both see no token; the model is sequential.
- Units.ConvertToDecimals: models exact real arithmetic, not float64. It requires a non-negative amount whose rounded result fits in a uint64. Representation error in the float input, negative amounts, and Go's conversion of an out-of-range float to uint64 are not modelled.
- Units.ConvertToLamport: the same restriction as ConvertToDecimals, at nine decimals.
- TokenManager.Token.Mint: requires the supply to be convertible even on the paths that fail before the conversion. The model has no float conversion to fall back on.
- TokenManager.Token.Transfer: requires the amount to be convertible even on the paths that fail before the conversion, for the same reason.

## Findings

| source | as written | input that shows it | evidently intended | confidence | as-written member | corrected member |
|---|---|---|---|---|---|---|
| token_test.go:19-91 | TestMint creates one handle and runs all four mint cases on it, requiring each mint to succeed | every collaborator answers without error and a new key passes the `Bytes() != nil` test (as TestMintAndTransfer needs): the first case records its mint on the handle, so the second case is refused with "token already exists" | one handle per case, so that each case can succeed | medium, not executed | TokenScenarios.MintCasesOnSharedHandle | TokenScenarios.MintCasesOnFreshHandles |
