# A Dafny model of the cosmFI CosmWasm contracts

This project models the two contracts at the heart of the cosmFI repository and proves properties of them:

- **`cw721-base`**: a tiered NFT registry.
  - A minter mints tokens of rank base, silver (`"S"`) or gold (`"G"`). Each rank has its own counter and its own cap.
  - Token ids are generated as `symbol + letter + count`.
  - Owners approve spenders per token, or name operators for all their tokens.
  - Burn-to-upgrade handlers hand any three (or five) tokens the caller may transfer to the contract's own address. The tokens' rank is not checked.
- **`cw20-base`**: a fungible ledger.
  - Instantiation creates the initial balances.
  - Holders transfer, burn, and send with a receive notification.
  - An optional minter mints, bounded by an optional cap.

Each handler is a pure function from a state, the call environment and a message to either an error or the new state with its response. An error aborts the call: the host discards its writes. `Run` applies a sequence of calls, skipping failed ones, so the invariants are proved over any sequence of calls, not just one.

Files:
- `host.dfy`: addresses, `Uint128`/`u64` amounts with checked arithmetic, expirations, the call environment and responses.
- `decimal.dfy`: decimal printing of counters, with its inverse.
- `lexicographic.dfy`: key order.
- `pagination.dfy`: the `start_after`/`limit` range scans.
- `token_id.dfy`: ranks and the id format.
- `cw721_state.dfy`: the registry's store.
- `cw721_contract.dfy`: the registry's handlers and queries.
- `cw721_invariants.dfy`: the registry's invariants.
- `cw20_contract.dfy`: the ledger's handlers and queries.
- `cw20_conservation.dfy`: the ledger's conservation invariant.
- `cw20_examples.dfy`: concrete ledger runs.

The code is modelled as written, including behaviour that looks unintended. Each quirk is stated and proved:

- **The upgrade handlers mint nothing.** `handle_base_to_silver` and `handle_silver_to_gold` build a self-mint message and then return `messages: vec![]`. The listed tokens go to the contract address and no higher-rank token appears (`UpgradeMintsNothing`). Both handlers log the action `"base_to_gold"`.
- **The upgrade handlers do not check rank.** Neither handler reads the rank of the tokens it takes. Any three (or five) distinct tokens the caller may transfer are accepted, gold ones included (`BaseToSilverSucceeds`, `SilverToGoldSucceeds`).
- **The mintability check is an equality test.** `query_mintable` compares the count to the cap with `==`. Under the registry invariant this equals "strictly below the cap" (`MintableIffBelowCap`).
- **The rank listings ignore rank.** `query_all_base_tokens`, `query_all_silver_tokens` and `query_all_gold_tokens` are the same code: each pages through all token ids.
- **Duplicate initial balances break conservation.** `create_accounts` overwrites the balance of an address listed twice but adds both amounts to the supply. Conservation is proved for distinct addresses, and `DuplicateInitBreaksConservation` exhibits the gap.
- **Owner queries return expired approvals.** `query_owner_of` and `query_all_nft_info` return all stored approvals, expired ones included.

Where the unit tests inside `cw721-base/src/contract.rs` expect other behaviour, the model follows the code. For example, the `minting` test expects a second mint to fail with `token_id already claimed`, but ids come from the rank counter, so a repeated mint gets a fresh id. The same test also expects a token to be counted out and owned by a burn address, and no handler does that.

## Model

| member | source | states |
|---|---|---|
| Host.Add128 | contracts/cw20-base/src/contract.rs:60-72 | `Uint128` addition succeeds exactly when the sum fits in 128 bits, and then yields the sum; otherwise the call aborts |
| Host.Sub128 | contracts/cw20-base/src/contract.rs:133-135 | `Uint128` subtraction succeeds exactly when it does not go below zero, and then yields the difference; otherwise it reports `Underflow` |
| Decimal.NatToString | contracts/cw721-base/src/contract.rs:526-555 | the printed counter is a non-empty digit string with no leading zero whose decimal value is the number |
| Decimal.ParseThenPrint | contracts/cw721-base/src/contract.rs:526-555 | every canonical digit string is the printing of its own value, so printing is onto the canonical strings |
| Decimal.PrintThenParse | contracts/cw721-base/src/contract.rs:526-555 | parsing the printed number gives the number back |
| Decimal.NatToStringInjective | contracts/cw721-base/src/contract.rs:526-555 | distinct counters print differently |
| TokenId.TierOf | contracts/cw721-base/src/contract.rs:596-614 | a rank is silver exactly when the string is `"S"`, gold exactly when it is `"G"`, and base otherwise |
| TokenId.TokenIdRoundTrip | contracts/cw721-base/src/contract.rs:526-555 | an id built from symbol, rank letter and number parses back to that rank and number |
| TokenId.TokenIdParsedIsMade | contracts/cw721-base/src/contract.rs:526-555 | every string that parses as an id is exactly the id built from its parts |
| TokenId.TokenIdInjective | contracts/cw721-base/src/contract.rs:526-555 | ids built from different (rank, number) pairs are different |
| Lexicographic.LessTransitive | contracts/cw721-base/src/contract.rs:703-717 | the key order used by range scans is transitive |
| Lexicographic.LessTotal | contracts/cw721-base/src/contract.rs:703-717 | any two distinct keys are ordered one way or the other |
| Lexicographic.LeastExists | contracts/cw721-base/src/contract.rs:703-717 | every non-empty key set has a least key, so ascending iteration is well defined |
| Pagination.PageSize | contracts/cw721-base/src/contract.rs:675-685 | the page size is the requested limit (default 10) capped at 30 |
| Pagination.Page | contracts/cw721-base/src/contract.rs:703-717 | a page holds at most the page size of keys, all strictly after the cursor, in strictly ascending order; a key it leaves out means the page is full and comes after every key in it; the cursor itself is never returned |
| Cw721State.IncrementTokens | contracts/cw721-base/src/state.rs:78-124 | a rank's counter (0 if never written) goes up by one and the new value is returned; `u64` overflow aborts; no other counter or field changes |
| Cw721.Init | contracts/cw721-base/src/contract.rs:26-44 | instantiation stores the name, symbol, minter and caps; every rank count starts at 0; there are no tokens and no operators |
| Cw721.AnyLiveApproval | contracts/cw721-base/src/contract.rs:503-510 | true exactly when some approval on the token names the sender and has not expired |
| Cw721.GenerateTokenId | contracts/cw721-base/src/contract.rs:526-555 | the new id starts with the symbol and parses as the rank's count plus one; `u64` overflow aborts |
| Cw721.HandleMint | contracts/cw721-base/src/contract.rs:93-148 | minting is refused to anyone but the minter or the contract; it fails with the cap message when the count equals the cap, and with `token_id already claimed` when the generated id is already stored; it succeeds exactly when the caller is allowed, the count is not the cap, the count is below the `u64` limit of the counter, and the next id is free; on success it adds that id owned by `owner` with no approvals and the given rank, raises that rank's counter by one and changes nothing else |
| Cw721.HandleUpdateMinter | contracts/cw721-base/src/contract.rs:150-173 | only the current minter may replace the minter; nothing else changes |
| Cw721.TransferToken | contracts/cw721-base/src/contract.rs:312-326 | fails with `NotFound` for an unknown id and `Unauthorized` unless the transfer check passes; on success the token has the new owner and no approvals, keeps its rank, and no other token changes |
| Cw721.HandleTransferNft | contracts/cw721-base/src/contract.rs:263-281 | succeeds exactly when the transfer does, failing with the same error otherwise; the new state is exactly the transfer's, so the recipient owns the token, its approvals are cleared and nothing else changes; no message is emitted |
| Cw721.HandleSendNft | contracts/cw721-base/src/contract.rs:283-310 | succeeds exactly when the transfer does, failing with the same error otherwise; the new state is exactly the transfer's, so the contract owns the token, its approvals are cleared and nothing else changes; the caller's message, if any, is the only message emitted |
| Cw721.TransferAll | contracts/cw721-base/src/contract.rs:186-188 | transferring a batch fails if any listed id is missing or if the caller may not transfer a listed token (judged before the batch, at its first listing); on success every listed token belongs to the recipient with no approvals, unlisted tokens are untouched, ranks and the id set are unchanged |
| Cw721.HandleBaseToSilver | contracts/cw721-base/src/contract.rs:175-214 | succeeds exactly when the three tokens can be transferred to the contract address, with that as the only effect and no messages |
| Cw721.HandleSilverToGold | contracts/cw721-base/src/contract.rs:216-261 | succeeds exactly when the five tokens can be transferred to the contract address, with that as the only effect and no messages |
| Cw721.RemoveSpender | contracts/cw721-base/src/contract.rs:384-388 | the filtered approval list holds exactly the approvals for other spenders, and is unchanged if the spender had none |
| Cw721.RemoveSpenderNoDup | contracts/cw721-base/src/contract.rs:384-388 | filtering keeps at most one approval per spender |
| Cw721.ApprovalsAfter | contracts/cw721-base/src/contract.rs:383-405 | after an update the approvals for other spenders are exactly as before; when adding, the new approval is last and is the only one for its spender; when revoking, none is left for the spender |
| Cw721.ApprovalsAfterNoDup | contracts/cw721-base/src/contract.rs:383-405 | an update keeps at most one approval per spender |
| Cw721.UpdateApprovals | contracts/cw721-base/src/contract.rs:369-409 | `NotFound` for an unknown id, `Unauthorized` unless the sender is the owner or a live operator, and `Cannot set approval that is already expired` for an already expired new approval; on success only that token's approvals change |
| Cw721.HandleApprove | contracts/cw721-base/src/contract.rs:328-347 | approve is the approval update with `add` set, and emits no message |
| Cw721.HandleRevoke | contracts/cw721-base/src/contract.rs:349-367 | revoke is the approval update with `add` cleared, and emits no message |
| Cw721.HandleApproveAll | contracts/cw721-base/src/contract.rs:411-439 | succeeds exactly when the expiration (default never) has not passed, failing with the expiry message otherwise; it sets the sender's grant to the operator and leaves every other grant and field as it was |
| Cw721.HandleRevokeAll | contracts/cw721-base/src/contract.rs:441-459 | always succeeds; the grant is gone afterwards and every other grant and field is as it was |
| Cw721.QueryOwnerOf | contracts/cw721-base/src/contract.rs:664-673 | fails exactly for an unknown id; otherwise returns the owner and every stored approval |
| Cw721.QueryNftInfo | contracts/cw721-base/src/contract.rs:654-662 | fails exactly for an unknown id; otherwise returns the raw rank string |
| Cw721.QueryAllNftInfo | contracts/cw721-base/src/contract.rs:751-765 | fails exactly for an unknown id; otherwise the answer combines the owner query and the info query |
| Cw721.QueryAllTokens | contracts/cw721-base/src/contract.rs:703-749 | each rank listing returns a page of all token ids, whatever their rank, ascending and after the cursor; an id it leaves out means the page is full and every listed id comes before it, so the page is the first ids after the cursor; the cursor id itself is never listed |
| Cw721.OperatorsOf | contracts/cw721-base/src/state.rs:134-146 | an address is among an owner's operators exactly when the owner has a stored grant for it |
| Cw721.QueryAllApprovals | contracts/cw721-base/src/contract.rs:678-701 | a page of the owner's grants in operator order after the cursor, expired ones included, each with its stored expiration; a grant it leaves out means the page is full and every listed operator comes before it, so the page is the first grants after the cursor |
| Cw721Invariants.InitValid | contracts/cw721-base/src/contract.rs:26-44 | instantiation establishes the registry invariant |
| Cw721Invariants.MintableIffBelowCap | contracts/cw721-base/src/contract.rs:588-617 | under the invariant, a rank is mintable exactly when its count is below its cap |
| Cw721Invariants.NextIdFresh | contracts/cw721-base/src/contract.rs:125-128 | under the invariant the next generated id of any rank is not yet stored |
| Cw721Invariants.MintNeverClaimed | contracts/cw721-base/src/contract.rs:125-128 | under the invariant mint never fails with "token_id already claimed" |
| Cw721Invariants.MintPreservesValid | contracts/cw721-base/src/contract.rs:93-148 | a successful mint keeps every count within its cap, every id issued and one approval per spender |
| Cw721Invariants.UpdateApprovalsPreservesValid | contracts/cw721-base/src/contract.rs:369-409 | approval updates keep the invariant |
| Cw721Invariants.TransferAllPreservesValid | contracts/cw721-base/src/contract.rs:175-261 | batch transfers keep the invariant |
| Cw721Invariants.TransferTokenPreservesValid | contracts/cw721-base/src/contract.rs:312-326 | single transfers keep the invariant |
| Cw721Invariants.HandlePreservesValid | contracts/cw721-base/src/contract.rs:46-91 | every successful call of the entry point keeps the invariant |
| Cw721Invariants.RunPreservesValid | contracts/cw721-base/src/contract.rs:46-91 | any sequence of calls keeps the invariant |
| Cw721Invariants.ReachableValid | contracts/cw721-base/src/contract.rs:26-91 | every state reachable from instantiation keeps every count within its cap, every id issued by mint and one approval per spender |
| Cw721Invariants.TransferAllAuthorized | contracts/cw721-base/src/contract.rs:487-524 | any token a batch transfer changes was transferable by the caller in the starting state |
| Cw721Invariants.OwnershipChangeAuthorized | contracts/cw721-base/src/contract.rs:487-524 | no call removes a token or changes its rank, and a change of owner implies the caller was the owner, the contract, a live approval holder or a live operator |
| Cw721Invariants.TransferAllSucceeds | contracts/cw721-base/src/contract.rs:312-326 | a batch of distinct present tokens, each transferable by the caller, is transferred without error |
| Cw721Invariants.UpgradeMintsNothing | contracts/cw721-base/src/contract.rs:175-261 | an upgrade emits no message, keeps the id set, every rank counter, the operators and the minter |
| Cw721Invariants.BaseToSilverBurns | contracts/cw721-base/src/contract.rs:186-188 | after a base-to-silver upgrade the three tokens belong to the contract address |
| Cw721Invariants.BaseToSilverSucceeds | contracts/cw721-base/src/contract.rs:175-214 | three distinct tokens the caller may transfer are always accepted, whatever their rank strings |
| Cw721Invariants.SilverToGoldBurns | contracts/cw721-base/src/contract.rs:229-233 | after a silver-to-gold upgrade the five tokens belong to the contract address |
| Cw721Invariants.SilverToGoldSucceeds | contracts/cw721-base/src/contract.rs:216-261 | five distinct tokens the caller may transfer are always accepted, whatever their rank strings |
| Cw721Invariants.UpgradeRequiresAuthority | contracts/cw721-base/src/contract.rs:175-261 | either upgrade succeeds only if every named token exists and the caller may transfer it |
| Cw721Invariants.ApprovalGrantsTransfer | contracts/cw721-base/src/contract.rs:487-524 | after an approval, the spender may transfer the token at any block where the approval has not expired |
| Cw721Invariants.RevokeWithdrawsTransfer | contracts/cw721-base/src/contract.rs:487-524 | after a revocation, the spender holds no live approval on the token |
| Cw721Invariants.ApproveAllGrantsApprove | contracts/cw721-base/src/contract.rs:462-484 | after an owner grants an operator, the operator may approve on any of the owner's tokens while the grant has not expired |
| Cw721Invariants.RevokeAllWithdrawsApprove | contracts/cw721-base/src/contract.rs:462-484 | after an owner revokes an operator, that operator may no longer approve on the owner's tokens |
| Cw721Invariants.RemoveSpenderAt | contracts/cw721-base/src/contract.rs:384-388 | with one approval per spender, filtering removes exactly the spender's entry and keeps the rest in order |
| Cw721Invariants.ApproveReplaces | contracts/cw721-base/src/contract.rs:383-405 | re-approving a spender removes its old entry from its place and appends the new one |
| Cw721Invariants.ApproveAppends | contracts/cw721-base/src/contract.rs:383-405 | approving a new spender appends exactly one approval |
| Cw721Invariants.RevokeAbsentIsNoop | contracts/cw721-base/src/contract.rs:349-367 | revoking a spender with no approval succeeds and changes nothing |
| Cw721Invariants.TransferClearsApprovals | contracts/cw721-base/src/contract.rs:312-326 | after a transfer or send the token has no approvals |
| Cw20.CreateAccounts | contracts/cw20-base/src/contract.rs:60-72 | creating accounts succeeds exactly when the running total fits in 128 bits, and returns the sum of all listed amounts |
| Cw20.CreateAccountsWrites | contracts/cw20-base/src/contract.rs:60-72 | afterwards the store holds exactly the old and the listed addresses; unlisted ones keep their balance; a listed one holds its last row's amount |
| Cw20.Init | contracts/cw20-base/src/contract.rs:23-58 | instantiation succeeds exactly when the summed initial amounts fit in 128 bits and do not exceed the cap, if there is one, failing with the cap message otherwise; the supply is that sum, and the stored token info keeps the given name, symbol, decimals and minter data |
| Cw20.InitBalances | contracts/cw20-base/src/contract.rs:23-72 | after instantiation exactly the listed addresses hold a balance, each the amount of its last row |
| Cw20.MoveBalance | contracts/cw20-base/src/contract.rs:133-139 | debiting the sender then crediting the recipient underflows when the balance is short; otherwise every balance changes by exactly the amount moved |
| Cw20.HandleTransfer | contracts/cw20-base/src/contract.rs:119-151 | a zero amount is refused; an insufficient balance underflows; on success the sender loses and the recipient gains the amount, supply and token info stay, and no message is emitted |
| Cw20.HandleBurn | contracts/cw20-base/src/contract.rs:153-185 | a zero amount is refused; an insufficient balance underflows; on success the sender's balance and the supply both fall by the amount, and no other balance changes |
| Cw20.HandleMint | contracts/cw20-base/src/contract.rs:187-230 | a zero amount is refused; anyone but the configured minter is `Unauthorized`; a supply over the cap is refused with the cap message; on success supply and the recipient's balance rise by the amount and nothing else changes |
| Cw20.DepositAmount | contracts/cw20-base/src/contract.rs:256-262 | the logged deposit is the amount of the first attached `uusd` coin, or zero if there is none |
| Cw20.HandleSend | contracts/cw20-base/src/contract.rs:232-287 | balances change exactly as for a transfer to the contract, and the only message is the receive notification carrying sender, amount and payload |
| Cw20.QueryBalance | contracts/cw20-base/src/contract.rs:383-392 | an address without a record has balance zero; otherwise the stored balance |
| Cw20.QueryTokenInfo | contracts/cw20-base/src/contract.rs:394-405 | reports the stored name, symbol, decimals and total supply |
| Cw20.QueryMinter | contracts/cw20-base/src/contract.rs:407-419 | none exactly when no minter is configured; otherwise the minter and its cap |
| Cw20Conservation.SumUpdate | contracts/cw20-base/src/contract.rs:133-139 | writing a balance changes the sum of balances by the new value minus the old one |
| Cw20Conservation.BalanceBoundedBySupply | contracts/cw20-base/src/contract.rs:153-185 | under the invariant no balance exceeds the total supply |
| Cw20Conservation.CreateAccountsSum | contracts/cw20-base/src/contract.rs:60-72 | with distinct new addresses, the balances written add up to the supply counted |
| Cw20Conservation.InitValid | contracts/cw20-base/src/contract.rs:23-72 | with distinct initial addresses, instantiation leaves balances summing to the supply, within the cap |
| Cw20Conservation.DuplicateInitBreaksConservation | contracts/cw20-base/src/contract.rs:60-72 | with one address listed twice (1 then 2), the supply is 3 while the only balance is 2 |
| Cw20Conservation.MoveNeverOverflows | contracts/cw20-base/src/contract.rs:136-138 | under the invariant crediting the recipient of a transfer or send cannot overflow |
| Cw20Conservation.TransferSucceedsIff | contracts/cw20-base/src/contract.rs:119-151 | under the invariant a transfer succeeds exactly when the amount is positive and covered by the sender's balance |
| Cw20Conservation.MovePreservesSum | contracts/cw20-base/src/contract.rs:133-139 | moving an amount between accounts leaves the sum of balances unchanged |
| Cw20Conservation.TransferPreservesValid | contracts/cw20-base/src/contract.rs:119-151 | a transfer keeps the balances summing to the unchanged supply |
| Cw20Conservation.SendPreservesValid | contracts/cw20-base/src/contract.rs:232-287 | a send keeps the balances summing to the unchanged supply |
| Cw20Conservation.BurnSucceedsIff | contracts/cw20-base/src/contract.rs:153-185 | under the invariant a burn succeeds exactly when the amount is positive and covered by the sender's balance; the supply cannot underflow |
| Cw20Conservation.BurnPreservesValid | contracts/cw20-base/src/contract.rs:153-185 | a burn keeps the balances summing to the supply |
| Cw20Conservation.MintSucceedsIff | contracts/cw20-base/src/contract.rs:187-230 | under the invariant a mint succeeds exactly when the amount is positive, the sender is the minter and the new supply fits in 128 bits and the cap; the recipient's balance cannot overflow |
| Cw20Conservation.MintPreservesValid | contracts/cw20-base/src/contract.rs:187-230 | a mint keeps the balances summing to the supply and the supply within the cap |
| Cw20Conservation.HandlePreservesValid | contracts/cw20-base/src/contract.rs:74-117 | every successful transfer, burn, send or mint keeps the invariant |
| Cw20Conservation.RunPreservesValid | contracts/cw20-base/src/contract.rs:74-117 | any sequence of those calls keeps the invariant |
| Cw20Conservation.ReachableValid | contracts/cw20-base/src/contract.rs:23-117 | after instantiation with distinct addresses, every reachable state has balances summing to the supply and the supply within the cap |
| Cw20Examples.TransferScenario | contracts/cw20-base/src/contract.rs:797-857 | from 12340000, a zero transfer is refused, too much or from an empty account underflows, and moving 76543 leaves 12263457 and 76543 with the supply unchanged |
| Cw20Examples.BurnScenario | contracts/cw20-base/src/contract.rs:859-900 | burning too much underflows; burning 76543 of 12340000 leaves 12263457 as both balance and supply |
| Cw20Examples.CappedMintScenario | contracts/cw20-base/src/contract.rs:630-703 | with cap 511223344 over 11223344, a stranger cannot mint, the minter mints 222222222, a zero mint is refused with the zero-amount message, and a further 333222222 is refused with the cap message |

## Left out

- Allowances are not modelled: `IncreaseAllowance`, `DecreaseAllowance`, `TransferFrom`, `BurnFrom` and `SendFrom`, with their queries. They live outside the ledger's core handlers.
- The `cw20-base` handlers `DepositStable` and `Increment` (`deposit.rs`, `increment.rs`) are not modelled. They build calls to other contracts and touch no ledger state.
- `querier.rs`, `migrate`, contract-version bookkeeping and the `query` dispatchers' JSON encoding are left out.
- `InitMsg::validate`, the name, symbol and decimals checks, is not part of this model. Instantiation accepts any name, symbol and decimals.
- Address canonicalisation is not modelled. Human and canonical addresses are one `Addr`, and its failure paths are left out. Key order is string order, standing for the byte order of canonical keys.
- Cw721.HandleSendNft: the caller's payload is taken as an already decoded message. A payload that fails to decode is not modelled.
- Cw721.QueryAllTokens: the three rank listings share this one member, because their source bodies are identical.
- `query_minter`, `query_contract_info` and `query_base_tokens`, `query_silver_tokens` and `query_gold_tokens` of `cw721-base` are not modelled as members. They read `State.minter`, `State.info` and `NumTokens` directly.
- Cw20.HandleSend: logged attribute values are modelled, but the receive notification's JSON wrapping is abstracted to one message constructor.
- Expiration checks follow the published `cw0` definition: a height or time bound has passed once the block reaches it. `cw0` is not part of this model.
- Cw20Conservation.InitValid: conservation at instantiation is proved only for distinct initial addresses. With repeated addresses it does not hold (`DuplicateInitBreaksConservation`).
- Overflow of `Uint128` addition is modelled as an error that aborts the call. `Uint128 + Uint128` is a plain `u128` addition, so this matches a build with overflow checks on; a build without them would wrap. The build profile is not part of this model.
- Cw721State.IncrementTokens, Cw721.GenerateTokenId: the `u64` rank counter's `+ 1` is modelled as aborting the call at the `u64` limit. That matches a build with overflow checks on; a build without them would wrap to 0. The build profile is not part of this model.
- Storage failures, gas and the host's message dispatch are not modelled.
