# CW721 simple NFT registry, modelled in Dafny

This project models the core of `cw-nfts-simple`: a CosmWasm contract that keeps a registry of
non-fungible tokens. Each token has one owner, an optional metadata URI, an opaque extension and
a list of per-token approvals. An owner may also name operators that act for it on all of its
tokens. A single minter address creates tokens. The contract exposes three entry points:

- `instantiate` stores the contract info and the minter.
- `execute` handles mint, approve, revoke, approve-all, revoke-all, transfer, send and burn.
- `query` answers the read-only queries, including paged listings.

Two variants of the core share one model. `packages/cw721-simple` holds the handlers, the queries
and the contract. `packages/cw721-simple-base` holds the storage layer (`state.rs`) and a second
copy of the handlers and the contract. The two copies of the handlers behave the same. The only
differences are the error type (the base has no generic custom-error parameter) and whether
`_update_approvals` is public.

The table under "## Model" cites the `packages/cw721-simple` copy. Each member also models its
counterpart in `packages/cw721-simple-base`:

- In `src/execute.rs`: `mint` at 11-47, `approve` at 49-68, `revoke` at 70-88, `approve_all` at
  90-114, `revoke_all` at 116-132 and `burn` at 134-154.
- Also in `src/execute.rs`: `transfer_nft` at 156-174, `send_nft` at 176-204, `_transfer_nft` at
  206-224 and `_update_approvals` at 227-269.
- Also in `src/execute.rs`: `check_can_approve` at 271-297 and `check_can_send` at 299-335.
- In `src/contract.rs`: `instantiate` at 17-36 and `execute` at 38-76.

Modules, one per source concern:

- `Types` holds the shared values: options and results, errors, addresses, the host's address
  validator, blocks, expirations and responses.
- `Msg` holds the instantiate, execute and query messages.
- `State` holds the storage layer: token records, the owner index, the operator grants, the
  token counter and the two singletons. Its `Store` class mutates these in place. Its `Valid`
  invariant says the counter equals the number of live records and no token lists a spender twice.
- `KeyOrder` holds the ascending byte order in which storage iterates keys, and paging.
- `ApprovalList` holds the approval-list update that approve and revoke share.
- `Commands` holds the authorization checks and the command handlers. Each handler is a method
  that either commits all of its writes or returns an error with the store untouched.
- `Queries` holds the queries as pure functions over the stored values.
- `Contract` holds the three entry points.
- `ContractTests` restates the repository's unit tests as scenarios whose outcomes are proved.

Expiration is lazy. A lapsed approval or operator grant is never deleted; every authorization
check and every query ignores it at read time. The owner index (`State.OwnedTokens`) is defined
from the records themselves, so it cannot go stale.

Keys are strings. Dafny orders characters by Unicode scalar value, which is the same order as the
bytes of their UTF-8 encoding. So `KeyOrder.Less` is the storage's ascending key order.

Behaviour of the code worth noting:

- `mint` validates the owner address (packages/cw721-simple/src/execute.rs:32) before it claims
  the id (lines 38-41). A mint to an invalid owner under an id already in use reports the invalid
  address.
- `revoke` goes through `_update_approvals`, which validates the spender address
  (packages/cw721-simple/src/execute.rs:257). Revoking an invalid address is an error.
- Every listing computes its page size as `limit.unwrap_or(10).min(100)`
  (packages/cw721-simple/src/query.rs:92, 181 and 204). A `limit` of `Some(0)` gives an empty
  page.
- The `approval` query reports a spender with no qualifying entry as the standard not-found
  error with the text `"Approval not found"` (packages/cw721-simple/src/query.rs:139-141). The
  `ApprovalNotFound` contract error (packages/cw721-simple/src/error.rs:23-24) is never
  constructed in the core.
- `_transfer_nft` (packages/cw721-simple/src/execute.rs:227-233) accepts the current owner as
  recipient. It stores the token with its approvals cleared. So a spender with a per-token
  approval can wipe that token's other approvals by sending it to its owner.
  `Commands.RecordsAuthorized` therefore allows an approval list to change under the right to
  send as well as the right to approve.
- In the base variant, `burn` (packages/cw721-simple-base/src/execute.rs:147) removes the record
  through `tokens::<T>()`. Its import (line 4) names `tokens`, but the storage layer defines only
  `get_tokens` (packages/cw721-simple-base/src/state.rs:69). The model reads both as the one
  token map.

## Model

| member | source | states |
|---|---|---|
| State.OwnedTokens | packages/cw721-simple-base/src/state.rs:51-81 | The owner index entry of an address: only live ids, those whose record names that owner. |
| State.OwnerIndexPartitions | packages/cw721-simple-base/src/state.rs:51-81 | Every live id lies in its owner's index entry, and no id lies in the entries of two different owners. |
| State.Approval.IsExpired | packages/cw721-simple-base/src/state.rs:45-49 | An approval has lapsed exactly when its expiration has. |
| State.LapsedStaysLapsed | packages/cw721-simple-base/src/state.rs:45-49 | At any later block, with no lower height and no earlier time, a lapsed approval is still lapsed. |
| State.Store.Valid | packages/cw721-simple-base/src/state.rs:83-97 | The ledger invariant: the stored count equals the number of live records, and no token lists a spender twice. The constructor establishes it and every handler keeps it. |
| State.OwnedTokensAfterTransfer | packages/cw721-simple-base/src/state.rs:51-81 | Changing a token's owner moves exactly that id from the old owner's index entry to the recipient's. No other owner's entry changes. |
| State.OwnedTokensAfterRemove | packages/cw721-simple-base/src/state.rs:51-81 | Removing a record removes its id from every index entry and removes nothing else. |
| State.ClaimTokenId | packages/cw721-simple/src/execute.rs:38-41 | The mint update fails with `Claimed` exactly when the id is in use, leaving the map alone. Otherwise it inserts the record and the map grows by one. |
| State.ClaimTwiceFails | packages/cw721-simple-base/src/state.rs:166-191 | After a successful claim, the first record is stored and a second claim of the same id is `Claimed`. |
| State.Store.constructor | packages/cw721-simple-base/src/state.rs:16-19 | Empty storage has no singletons, no grants and no records. The count reads 0, the minter reads empty, and the invariant holds. |
| State.Store.TokenCount | packages/cw721-simple-base/src/state.rs:83-85 | The stored counter, or 0 when it was never saved. |
| State.Store.GetMinter | packages/cw721-simple-base/src/state.rs:118-120 | The stored minter, or the empty address when none is stored. |
| State.Store.IncrementTokens | packages/cw721-simple-base/src/state.rs:87-91 | Stores and returns the old count plus one. |
| State.Store.DecrementTokens | packages/cw721-simple-base/src/state.rs:93-97 | Stores and returns the old count minus one. |
| State.Store.SetContractInfo | packages/cw721-simple-base/src/state.rs:99-108 | A successful save stores the info and returns an empty response. A failed save is `ContractInfoSaveError` and leaves the singleton alone. |
| State.Store.SetMinter | packages/cw721-simple-base/src/state.rs:110-116 | A successful save stores the minter. A failed save is `MinterSaveError` and leaves the old minter. |
| KeyOrder.EffectiveLimit | packages/cw721-simple/src/query.rs:15-16 | The page size is at most 100. It is 10 when no limit is given, the requested limit when that is at most 100, and exactly 100 for any larger request. |
| KeyOrder.LessIrreflexive | packages/cw721-simple/src/query.rs:196-214 | No key sorts before itself. |
| KeyOrder.LessTransitive | packages/cw721-simple/src/query.rs:196-214 | The key order is transitive. |
| KeyOrder.LessTotal | packages/cw721-simple/src/query.rs:196-214 | Any two distinct keys are ordered one way or the other. |
| KeyOrder.LessAsymmetric | packages/cw721-simple/src/query.rs:196-214 | No two keys each sort before the other. |
| KeyOrder.LeastExists | packages/cw721-simple/src/query.rs:196-214 | Every non-empty key set has a least key, which is where an ascending range starts. |
| KeyOrder.LeastUnique | packages/cw721-simple/src/query.rs:196-214 | The least key of a set is unique. |
| KeyOrder.Least | packages/cw721-simple/src/query.rs:196-214 | Picks the least key of a non-empty set. |
| KeyOrder.SortedKeys | packages/cw721-simple/src/query.rs:196-214 | Ascending iteration over a key set yields every key of the set exactly once, strictly ascending. |
| KeyOrder.After | packages/cw721-simple/src/query.rs:205 | The exclusive start bound keeps exactly the keys after the cursor, in their order. |
| KeyOrder.AscendingUnique | packages/cw721-simple/src/query.rs:196-214 | Two strictly ascending sequences with the same members are equal. So a listing is determined by the set it lists. |
| KeyOrder.FilterAscending | packages/cw721-simple/src/query.rs:97-101 | Filtering an ascending range keeps it ascending. |
| Queries.FilteredRangeIsPage | packages/cw721-simple/src/query.rs:97-103 | Scanning the owner's grants in ascending order after the cursor, keeping the qualifying ones and taking the limit yields the same page as paging over the qualifying grantees. |
| KeyOrder.NextPageContinues | packages/cw721-simple/src/query.rs:196-214 | Restarting after the last key of the first `n` matches yields exactly the remaining matches. |
| KeyOrder.Take | packages/cw721-simple/src/query.rs:209 | `take(n)` yields the first `min(n, len)` elements. |
| KeyOrder.PageOfAscending | packages/cw721-simple/src/query.rs:196-214 | A key that matches but is left out of a page means the page is full and the key sorts after its last entry. |
| Seqs.FilterMembers | packages/cw721-simple/src/query.rs:61-74 | A filter keeps exactly the members that pass. |
| Seqs.FilterSubsequence | packages/cw721-simple/src/query.rs:61-74 | A filter keeps the stored order. |
| Seqs.FilterKeepsAll | packages/cw721-simple/src/query.rs:61-74 | A filter that everything passes changes nothing. |
| Seqs.FilterHead | packages/cw721-simple/src/query.rs:128-143 | The filtered list is non-empty iff some entry passes, and its head is the first entry that passes. |
| ApprovalList.WithoutSpender | packages/cw721-simple/src/execute.rs:258-262 | Dropping a spender's entries never lengthens the list; the lemmas below give its contents and order. |
| ApprovalList.WithoutSpenderMembers | packages/cw721-simple/src/execute.rs:256-262 | Dropping a spender's entries keeps exactly the other spenders' entries. |
| ApprovalList.WithoutSpenderSubsequence | packages/cw721-simple/src/execute.rs:256-262 | Dropping a spender's entries keeps the order of the rest. |
| ApprovalList.WithoutSpenderUnique | packages/cw721-simple/src/execute.rs:256-262 | Dropping entries keeps spenders unique. |
| ApprovalList.WithoutAbsentSpender | packages/cw721-simple/src/execute.rs:256-262 | Dropping a spender with no entry changes nothing. |
| ApprovalList.WithoutSpenderAppend | packages/cw721-simple/src/execute.rs:256-262 | Dropping entries distributes over concatenation. |
| ApprovalList.Updated | packages/cw721-simple/src/execute.rs:256-276 | The update keeps spenders unique and leaves other spenders' entries alone. Approve appends the one new entry for the spender, last. Revoke leaves the spender with no entry. The rest keeps its order. |
| ApprovalList.ApproveFresh | packages/cw721-simple/src/execute.rs:256-276 | Approving on an empty list yields the one new entry. |
| ApprovalList.ReapproveReplaces | packages/cw721-simple/src/execute.rs:256-276 | Approving the same spender twice leaves one entry with the second expiration, same as approving once with it. |
| ApprovalList.RevokeUndoesApprove | packages/cw721-simple/src/execute.rs:256-276 | Revoking after approving leaves the list as if the spender had been revoked at the start. |
| ApprovalList.RevokeAbsentIsNoop | packages/cw721-simple/src/execute.rs:256-276 | Revoking a spender with no entry leaves the list unchanged. |
| Commands.AnyLiveApproval | packages/cw721-simple/src/execute.rs:329-335 | The scan finds an entry iff the sender holds an approval on the token that has not lapsed. |
| Commands.CheckOperator | packages/cw721-simple/src/execute.rs:298-309 | Passes iff the owner granted the sender an operator grant that has not lapsed. Otherwise `Unauthorized`. |
| Commands.CheckCanApprove | packages/cw721-simple/src/execute.rs:284-310 | Passes iff the sender is the owner or a live operator of the owner. Otherwise `Unauthorized`. |
| Commands.CheckCanSend | packages/cw721-simple/src/execute.rs:313-349 | Passes iff the sender is the owner, holds a live approval on the token, or is a live operator of the owner. Otherwise `Unauthorized`. |
| Commands.ApproveRightGivesSendRight | packages/cw721-simple/src/execute.rs:284-349 | Whoever may approve on a token may also send it. |
| Commands.SpenderMaySendButNotApprove | packages/cw721-simple/src/execute.rs:284-349 | A spender with a live per-token approval may send the token but not approve others on it. |
| Commands.LapsedGrantsGiveNoRight | packages/cw721-simple/src/execute.rs:284-349 | A non-owner whose grants have all lapsed may neither send nor approve. |
| Commands.UntouchedRecordsAuthorized | packages/cw721-simple/src/execute.rs:95-139 | A command that leaves every record alone, such as mint or revoke-all, keeps the custody and record guarantees. |
| Commands.ApprovalEditAuthorized | packages/cw721-simple/src/execute.rs:238-281 | Rewriting one token's approval list, by someone allowed to approve on it, creates no id and keeps the custody and record guarantees. |
| Commands.Mint | packages/cw721-simple/src/execute.rs:13-50 | Only the minter may mint. The owner must be valid and the id free, checked in that order. Then the record is stored with no approvals, the counter goes up by one and the mint attributes are returned. Any error leaves the store untouched, and the invariant is kept. |
| Commands.Approve | packages/cw721-simple/src/execute.rs:52-72 | Runs the shared approval update with `add`, then returns the approve attributes. No id appears, and custody, record and grant guarantees hold. |
| Commands.Revoke | packages/cw721-simple/src/execute.rs:74-93 | Runs the shared approval update without `add`, then returns the revoke attributes. No id appears, and the guarantees hold. |
| Commands.ApproveAll | packages/cw721-simple/src/execute.rs:95-120 | A lapsed expiration is `Expired`, checked before the operator is validated. Then the grant under the sender's key is set, replacing any earlier one. Nothing else changes. |
| Commands.RevokeAll | packages/cw721-simple/src/execute.rs:122-139 | An invalid operator is an error. Otherwise the grant under the sender's key is removed; a missing grant is no error. The records are untouched. |
| Commands.Burn | packages/cw721-simple/src/execute.rs:141-162 | A missing token is not-found, and a sender who may not send it is `Unauthorized`. Otherwise exactly that record is removed and the counter goes down by one. The invariant is kept. |
| Commands.TransferNft | packages/cw721-simple/src/execute.rs:164-183 | The shared transfer runs, then the transfer attributes are returned. Custody moves only under the right to send. |
| Commands.SendNft | packages/cw721-simple/src/execute.rs:185-214 | The shared transfer to the contract runs. Exactly one receive message goes to the contract, carrying the sender, the id and the payload. |
| Commands.TransferToken | packages/cw721-simple/src/execute.rs:216-235 | A missing token is not-found, an unauthorized sender is `Unauthorized`, and an invalid recipient is an error. Otherwise the recipient owns the token, its approvals are cleared and the saved record is returned. |
| Commands.UpdateApprovals | packages/cw721-simple/src/execute.rs:238-281 | Checks run in order: the token exists, the sender may approve, the spender is valid, and when adding the expiration has not lapsed. Then the token's list becomes the `Updated` list and the saved record is returned. Nothing else changes. |
| Queries.LoadContractInfo | packages/cw721-simple/src/query.rs:24-26 | The stored info, or not-found before instantiation. |
| Queries.LoadToken | packages/cw721-simple/src/query.rs:34-43 | The record under the id, or not-found with kind `TokenInfo`. |
| Queries.Unexpired | packages/cw721-simple/src/query.rs:61-74 | The listed approvals are exactly the stored ones that have not lapsed, or all of them with `include_expired`, in stored order. |
| Queries.NftInfo | packages/cw721-simple/src/query.rs:34-43 | Succeeds iff the token exists, and returns its URI and extension. |
| Queries.OwnerOf | packages/cw721-simple/src/query.rs:45-59 | Succeeds iff the token exists, and returns its owner and the approvals that qualify, in stored order. |
| Queries.AllNftInfo | packages/cw721-simple/src/query.rs:216-236 | Succeeds iff the token exists, and returns the same views as `owner_of` and `nft_info`. |
| Queries.OwnerOfAgreesWithIndex | packages/cw721-simple/src/query.rs:45-59 | `owner_of` names an address exactly for the ids in that address's index entry. |
| Queries.MetadataSurvivesTransfer | packages/cw721-simple/src/execute.rs:216-235 | Changing a token's owner or approvals never changes what `nft_info` returns for any id. |
| Queries.Page | packages/cw721-simple/src/query.rs:196-214 | A page is ascending and at most the effective limit long. It lists only keys after the cursor and skips none: a matching key left out means the page is full and the key sorts after the page's last key. |
| Queries.PagesConcatenate | packages/cw721-simple/src/query.rs:196-214 | A full page followed by the page that resumes after its last key equals one page as long as both together. A client walking the pages sees every key once, in order. |
| Queries.TakeAfterPrefix | packages/cw721-simple/src/query.rs:209 | Taking `m` after the first `n` continues the first `n + m`. |
| Queries.Tokens | packages/cw721-simple/src/query.rs:172-194 | Fails iff the owner address is invalid. Otherwise returns a page of exactly that owner's ids, with the paging guarantees of `Page`. |
| Queries.AllTokens | packages/cw721-simple/src/query.rs:196-214 | A page of every live id, with the paging guarantees of `Page`. |
| Queries.TokensPartitionAllTokens | packages/cw721-simple/src/query.rs:172-214 | A live id appears in an owner's full listing iff that owner holds it, provided the owner holds at most 100 tokens; an id in an owner's full listing is also in the full `all_tokens` listing when at most 100 tokens exist. |
| Queries.ListedOperators | packages/cw721-simple/src/query.rs:83-105 | The grantees listed for an owner are exactly those with a grant from it, unexpired unless `include_expired`. |
| Queries.GrantsOf | packages/cw721-simple/src/query.rs:238-243 | Pairs each listed operator with its stored expiration, in listed order. |
| Queries.Operators | packages/cw721-simple/src/query.rs:83-105 | An invalid cursor fails first, then an invalid owner. Otherwise the owner's grants are scanned ascending after the cursor, filtered and cut at the limit. The result holds only qualifying grants, ascending, each with its stored expiration, and skips none. |
| Queries.Approvals | packages/cw721-simple/src/query.rs:148-170 | Succeeds iff the token exists, and returns its qualifying approvals in stored order. |
| Queries.ApprovalOf | packages/cw721-simple/src/query.rs:107-146 | A missing token is not-found. The owner is reported as approved forever. Otherwise returns the first qualifying entry of the spender, or not-found with kind `Approval not found` iff there is none. |
| Queries.ApprovalOfAgreesWithApprovals | packages/cw721-simple/src/query.rs:107-170 | With unique spenders, `approval` returns an entry iff `approvals` lists it. |
| Contract.Instantiate | packages/cw721-simple/src/contract.rs:19-38 | An invalid minter fails first, then a failed info save, then a failed minter save; each leaves storage untouched. Otherwise the info and minter are stored and nothing else changes. |
| Contract.Execute | packages/cw721-simple/src/contract.rs:40-80 | Each command behaves as its handler's contract states, and the extension command does nothing. Ledger-wide, whatever the command: new ids appear only when the minter mints them, and a token changes hands or is burned only by someone who may send it. Approvals change only by someone who may approve or send, metadata never changes, grants change only under the sender's key, and the invariant is kept. |
| Contract.Query | packages/cw721-simple/src/contract.rs:82-139 | Each query answers with the result of its query function, errors passed through unchanged, with a missing `include_expired` read as false. `minter`, `num_tokens`, `all_tokens` and the extension query always answer. `nft_info`, `owner_of`, `all_nft_info` and `approvals` succeed iff the token exists. Every error is not-found or an invalid address. |
| Contract.MissingFlagReadsFalse | packages/cw721-simple/src/contract.rs:82-139 | Every query answers the same when a missing `include_expired` is written out as `Some(false)`. |
| ContractTests.OperatorListing | packages/cw721-simple/src/contract.rs:389-410 | With one grant from `addr1` to `addr2` until height 50000, the operators query at the test height lists exactly that grant. |
| ContractTests.OwnerListing | packages/cw721-simple/src/contract.rs:497-513 | An owner of tokens "1" and "2" is listed `["1", "2"]`. |
| ContractTests.SoleListing | packages/cw721-simple/src/contract.rs:525-539 | A ledger whose only token is "1" lists `["1"]`. |
| ContractTests.TestExecuteMint | packages/cw721-simple/src/contract.rs:223-251 | The first mint returns its attributes. After a second mint the first token's owner is `addr1` and two tokens are counted. |
| ContractTests.TestApprove | packages/cw721-simple/src/contract.rs:253-328 | After an approval, both approval queries report the grant. |
| ContractTests.TestApproveExpired | packages/cw721-simple/src/contract.rs:253-328 | Approving with an expiration already past is `Expired`. |
| ContractTests.TestApproveBySpender | packages/cw721-simple/src/contract.rs:253-328 | A spender may not approve on the owner's behalf. |
| ContractTests.TestRevoke | packages/cw721-simple/src/contract.rs:330-359 | Revoking a spender that holds nothing succeeds with the revoke attributes. |
| ContractTests.TestApproveAll | packages/cw721-simple/src/contract.rs:361-424 | An operator grant returns its attributes and is listed by the operators query. |
| ContractTests.TestApproveAllExpired | packages/cw721-simple/src/contract.rs:361-424 | An operator grant with an expiration already past is `Expired`. |
| ContractTests.TestRevokeAll | packages/cw721-simple/src/contract.rs:426-454 | Revoking an operator succeeds with the revoke-all attributes. |
| ContractTests.TestTransferNft | packages/cw721-simple/src/contract.rs:456-514 | After a transfer, the recipient owns the token with no approvals. |
| ContractTests.TestTransferNftAgain | packages/cw721-simple/src/contract.rs:456-514 | The previous owner may not move the token again. |
| ContractTests.TestTransferNftListing | packages/cw721-simple/src/contract.rs:456-514 | The recipient's listing holds the transferred token and the one minted to it later. |
| ContractTests.TestApproveAndTransfer | packages/cw721-simple/src/contract.rs:516-540 | An approved spender moves the token to itself, and the token is still the only one listed. |
| ContractTests.TestSendNft | packages/cw721-simple/src/contract.rs:542-569 | Sending to a contract returns one receive message with the payload and the send attributes. |
| ContractTests.TestBurn | packages/cw721-simple/src/contract.rs:571-597 | A token burns once. A second burn is not-found, and no token is counted. |
| ContractTests.QueryContractInfo | packages/cw721-simple/src/contract.rs:599-663 | After instantiation, the contract info and a token's metadata are reported. |
| ContractTests.QueryAllNftInfo | packages/cw721-simple/src/contract.rs:599-663 | After two mints and an approval of token "1", the combined view of "1" shows the owner, the grant and the metadata. |
| ContractTests.TestQueryMinter | packages/cw721-simple/src/contract.rs:665-682 | The minter query names the instantiating minter. |
| ContractTests.StateTest | packages/cw721-simple-base/src/state.rs:132-209 | Working directly on storage: claiming an id that is already claimed is `Claimed`. The counter reads 1, 2, 2, then 1 after one decrement. Both records load back with owner `ADDR1`, the first with extension `test_nft`. |

## Left out

- Serialization is not modelled: queries return values rather than `to_binary` payloads, and a payload is carried as opaque bytes. The `cw2` contract-version write in `instantiate` is left out, since it is bookkeeping outside the registry.
- The `CustomError` pass-through variant and the generic error parameter are left out; no handler in the core raises them.
- Error display strings are not modelled, only the error variants. A failed `load` in the source reports the full Rust type name of what it loaded. The model abbreviates these to `TokenInfo` and `ContractInfoResponse`. Only `Approval not found` is the source's text verbatim.
- The token extension is a type parameter the model never inspects, as in the source.
- Only the saves of contract info and minter can fail in the model, through a flag passed to `Contract.Instantiate`. Every other storage read or write is taken to succeed, since the host gives no failure for them apart from a corrupt store.
- State.Store.DecrementTokens: requires a positive count. The source has no guard, and a `u64` at zero would underflow. Its only caller, `Commands.Burn`, always has a live record, so `Valid` keeps the count positive there.
- Integer widths are not modelled: the `u64` counter, the `u32` limits and block heights and times are unbounded naturals. No operation of the core comes near the bounds.
- Address validation is the host's capability and is abstract here: a predicate on strings, with the canonical address being the input itself. Case normalisation is not modelled.
- The query dispatcher of the base variant is commented out (packages/cw721-simple-base/src/contract.rs:78-84), and its `query.rs` is not part of the core. Queries are modelled from the `packages/cw721-simple` variant only.
- The `contracts/` directory, which wraps these packages for particular extensions, is not part of this model.
- Converting a receive message into a host message can fail in the source; the model treats it as infallible and returns the message as a value.
- Storage iteration errors inside listings are not modelled, since iteration over a consistent store does not fail.
- ContractTests: the source tests fix two addresses and a mock environment. The scenarios take any two distinct addresses the validator accepts and keep the mock block height 12345. The `state_test` scenario stores both tokens with one extension type, since a Dafny map holds one value type; the second token's `Empty` extension becomes the empty string.
- ContractTests.ApproveFirst: calls the approve handler directly rather than through `Contract.Execute`; `Contract.Execute` sends an approve command to that same handler.
