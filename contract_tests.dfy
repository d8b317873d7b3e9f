/** The repository's own end-to-end tests, as scenarios whose outcomes follow from the
    contracts alone: each scenario starts from fresh storage, runs the same commands and
    queries, and its postcondition is what the test asserts. The tests use two fixed user
    addresses; the scenarios hold for any two distinct addresses the validator accepts. */
module ContractTests {
  import opened Types
  import Msg
  import opened State
  import opened KeyOrder
  import opened ApprovalList
  import opened Queries
  import opened Commands
  import opened Contract

  /** The tests' extension payload (`Option<Empty>`) and custom message type (`Empty`). */
  type Extension = Option<()>
  type Command = Msg.ExecuteMsg<Extension, ()>
  type Request = Msg.QueryMsg<()>
  type QueryResult = Result<QueryResponse<Extension>, StdError>
  type Outcome = Result<Response, ContractError>

  /** The host's test environment: block height 12345 and this contract's address. */
  const TestEnv: Env := Env(BlockInfo(12345, 1571797419879305533), "cosmos2contract")

  /** The two users of the tests, `addr1` (the minter and first owner) and `addr2`. */
  predicate Users(api: Api, addr1: Addr, addr2: Addr) {
    api.isValid(addr1) && api.isValid(addr2) && addr1 != addr2
  }

  function MintOf(owner: Addr, tokenId: string): Command {
    Msg.Mint(Msg.MintMsg(tokenId, owner, None, None))
  }

  /** The tests' `approve` helper: approve `spender` on token "1" until height 50000. */
  function ApproveOf(spender: Addr): Command {
    Msg.Approve(spender, "1", Some(AtHeight(50000)))
  }

  /** The record `mint(addr1, "1")` stores. */
  function FirstToken(addr1: Addr): TokenInfo<Extension> {
    TokenInfo(addr1, [], None, None)
  }

  /** The approval `approve(addr2)` grants. */
  function Grant(addr2: Addr): Approval {
    Approval(addr2, AtHeight(50000))
  }

  /** With one operator grant from `addr1` to `addr2` until height 50000, the operators query
      at the test height lists exactly that grant. */
  lemma OperatorListing(api: Api, addr1: Addr, addr2: Addr)
    requires Users(api, addr1, addr2)
    ensures Queries.Operators(api, TestEnv.block, map[(addr1, addr2) := AtHeight(50000)], addr1, false, None, None)
         == Ok([Grant(addr2)])
  {
    var operators := map[(addr1, addr2) := AtHeight(50000)];
    assert ListedOperators(operators, addr1, TestEnv.block, false) == {addr2};
    var listed := Queries.Operators(api, TestEnv.block, operators, addr1, false, None, None).value;
    assert addr2 in Spenders(listed);
    assert |listed| == 1;
    assert listed[0] in listed;
    assert (addr1, listed[0].spender) in operators;
    assert listed == [Grant(addr2)];
  }

  /** With tokens "1" and "2" both owned by `addr2`, its listing is `["1", "2"]`. */
  lemma OwnerListing(api: Api, addr1: Addr, addr2: Addr)
    requires Users(api, addr1, addr2)
    ensures Tokens(api, map["1" := FirstToken(addr2), "2" := FirstToken(addr2)], addr2, None, None)
         == Ok(["1", "2"])
  {
    var tokens := map["1" := FirstToken(addr2), "2" := FirstToken(addr2)];
    assert OwnedTokens(tokens, addr2) == {"1", "2"};
    assert |OwnedTokens(tokens, addr2)| == 2;
    var ids := Tokens(api, tokens, addr2, None, None).value;
    assert "1" in ids && "2" in ids;
    assert forall k :: k in ids <==> k in ["1", "2"];
    assert Less("1", "2");
    AscendingUnique(ids, ["1", "2"]);
  }

  /** A ledger whose only token is "1" lists just that id. */
  lemma SoleListing(tokens: map<string, TokenInfo<Extension>>)
    requires tokens.Keys == {"1"}
    ensures AllTokens(tokens, None, None) == ["1"]
  {
    var ids := AllTokens(tokens, None, None);
    assert "1" in ids;
    AscendingUnique(ids, ["1"]);
  }

  /** `init`: instantiation by the tests, with `addr1` as minter. */
  method Init(api: Api, addr1: Addr) returns (store: Store<Extension>)
    requires api.isValid(addr1)
    ensures fresh(store) && store.Valid()
    ensures store.minter == Some(addr1) && store.contractInfo == Some(ContractInfo("cw721-contract", "cw721"))
    ensures store.tokens == map[] && store.operators == map[]
  {
    store := new Store();
    var r := Instantiate(store, api, Msg.InstantiateMsg("cw721-contract", "cw721", addr1), true, true);
  }

  /** `init` then `mint(addr1, "1")`. */
  method MintFirst(api: Api, addr1: Addr) returns (store: Store<Extension>, res: Outcome)
    requires api.isValid(addr1)
    ensures fresh(store) && store.Valid()
    ensures res == Ok(Response([], [Attribute("action", "mint"), Attribute("minter", addr1),
                                    Attribute("owner", addr1), Attribute("token_id", "1")]))
    ensures store.minter == Some(addr1) && store.contractInfo == Some(ContractInfo("cw721-contract", "cw721"))
    ensures store.tokens == map["1" := FirstToken(addr1)] && store.operators == map[]
  {
    store := Init(api, addr1);
    assert store.GetMinter() == addr1 && "1" !in store.tokens;
    res := Execute(store, api, TestEnv, addr1, MintOf(addr1, "1"));
  }

  /** `init`, then `mint(addr1, "1")` and `mint(addr1, "2")`. */
  method MintBoth(api: Api, addr1: Addr) returns (store: Store<Extension>)
    requires api.isValid(addr1)
    ensures fresh(store) && store.Valid()
    ensures store.tokens == map["1" := FirstToken(addr1), "2" := FirstToken(addr1)]
    ensures store.operators == map[]
  {
    var minted;
    store, minted := MintFirst(api, addr1);
    assert store.GetMinter() == addr1 && "2" !in store.tokens;
    minted := Execute(store, api, TestEnv, addr1, MintOf(addr1, "2"));
  }

  /** `init`, `mint(addr1, "1")`, then `approve(addr1, spender)`, handed straight to the
      approve handler (`Execute` routes an approve command to the same handler). */
  method ApproveFirst(api: Api, addr1: Addr, spender: Addr) returns (store: Store<Extension>, res: Outcome)
    requires api.isValid(addr1) && api.isValid(spender)
    ensures fresh(store) && store.Valid()
    ensures res == Ok(Response([], [Attribute("action", "approve"), Attribute("sender", addr1),
                                    Attribute("spender", spender), Attribute("token_id", "1")]))
    ensures store.tokens == map["1" := FirstToken(addr1).(approvals := [Grant(spender)])]
    ensures store.operators == map[]
  {
    var minted;
    store, minted := MintFirst(api, addr1);
    ApproveFresh(spender, AtHeight(50000));
    assert MayApprove(store.operators, TestEnv.block, addr1, store.tokens["1"]);
    assert !AtHeight(50000).IsExpired(TestEnv.block);
    res := Commands.Approve(store, api, TestEnv.block, addr1, spender, "1", Some(AtHeight(50000)));
  }

  /** `test_execute_mint`: the first mint reports its attributes; after a second mint, the
      first token's owner is `addr1` and two tokens are counted. */
  method TestExecuteMint(api: Api, addr1: Addr) returns (res: Outcome, owner: Addr, count: QueryResult)
    requires api.isValid(addr1)
    ensures res == Ok(Response([], [Attribute("action", "mint"), Attribute("minter", addr1),
                                    Attribute("owner", addr1), Attribute("token_id", "1")]))
    ensures owner == addr1
    ensures count == Ok(NumTokensResponse(2))
  {
    var store;
    store, res := MintFirst(api, addr1);
    assert store.GetMinter() == addr1 && "2" !in store.tokens;
    var second := Execute(store, api, TestEnv, addr1, MintOf(addr1, "2"));
    owner := store.tokens["1"].owner;
    var request: Request := Msg.NumTokens;
    count := Query(store, api, TestEnv, request);
  }

  /** `test_approve`: an approval is reported by both approval queries. */
  method TestApprove(api: Api, addr1: Addr, addr2: Addr) returns (res: Outcome, approval: QueryResult, approvals: QueryResult)
    requires Users(api, addr1, addr2)
    ensures res == Ok(Response([], [Attribute("action", "approve"), Attribute("sender", addr1),
                                    Attribute("spender", addr2), Attribute("token_id", "1")]))
    ensures approval == Ok(ApprovalResponse(Grant(addr2)))
    ensures approvals == Ok(ApprovalsResponse([Grant(addr2)]))
  {
    var store;
    store, res := ApproveFirst(api, addr1, addr2);
    var request: Request := Msg.ApprovalOf("1", addr2, None);
    approval := Query(store, api, TestEnv, request);
    request := Msg.Approvals("1", Some(true));
    approvals := Query(store, api, TestEnv, request);
  }

  /** `test_approve`: an approval whose expiration has already passed is refused. */
  method TestApproveExpired(api: Api, addr1: Addr, addr2: Addr) returns (expired: Outcome)
    requires Users(api, addr1, addr2)
    ensures expired == Err(Expired)
  {
    var store, approved := ApproveFirst(api, addr1, addr2);
    var command: Command := Msg.Approve(addr2, "1", Some(AtHeight(100)));
    assert MayApprove(store.operators, TestEnv.block, addr1, store.tokens["1"]);
    assert AtHeight(100).IsExpired(TestEnv.block);
    expired := Execute(store, api, TestEnv, addr1, command);
  }

  /** `test_approve`: a spender may not approve on the owner's behalf. */
  method TestApproveBySpender(api: Api, addr1: Addr, addr2: Addr) returns (unauthorized: Outcome)
    requires Users(api, addr1, addr2)
    ensures unauthorized == Err(Unauthorized)
  {
    var store, approved := ApproveFirst(api, addr1, addr2);
    assert !MayApprove(store.operators, TestEnv.block, addr2, store.tokens["1"]);
    unauthorized := Execute(store, api, TestEnv, addr2, ApproveOf(addr2));
  }

  /** `test_revoke`: revoking a spender that holds no approval succeeds. */
  method TestRevoke(api: Api, addr1: Addr, addr2: Addr) returns (res: Outcome)
    requires Users(api, addr1, addr2)
    ensures res == Ok(Response([], [Attribute("action", "revoke"), Attribute("sender", addr1),
                                    Attribute("spender", addr1), Attribute("token_id", "1")]))
  {
    var store, approved := ApproveFirst(api, addr1, addr2);
    var command: Command := Msg.Revoke(addr1, "1");
    assert MayApprove(store.operators, TestEnv.block, addr1, store.tokens["1"]);
    res := Execute(store, api, TestEnv, addr1, command);
  }

  /** `init`, `mint(addr1, "1")`, then `addr1` makes `addr2` its operator until height 50000. */
  method ApproveAllFirst(api: Api, addr1: Addr, addr2: Addr) returns (store: Store<Extension>, res: Outcome)
    requires Users(api, addr1, addr2)
    ensures fresh(store) && store.Valid()
    ensures res == Ok(Response([], [Attribute("action", "approve_all"), Attribute("sender", addr1), Attribute("operator", addr2)]))
    ensures store.operators == map[(addr1, addr2) := AtHeight(50000)]
  {
    var minted;
    store, minted := MintFirst(api, addr1);
    var command: Command := Msg.ApproveAll(addr2, Some(AtHeight(50000)));
    assert !AtHeight(50000).IsExpired(TestEnv.block);
    res := Execute(store, api, TestEnv, addr1, command);
  }

  /** `test_approve_all`: the grant is listed by the operators query. */
  method TestApproveAll(api: Api, addr1: Addr, addr2: Addr) returns (res: Outcome, operators: QueryResult)
    requires Users(api, addr1, addr2)
    ensures res == Ok(Response([], [Attribute("action", "approve_all"), Attribute("sender", addr1), Attribute("operator", addr2)]))
    ensures operators == Ok(OperatorsResponse([Grant(addr2)]))
  {
    var store;
    store, res := ApproveAllFirst(api, addr1, addr2);
    var request: Request := Msg.AllOperators(addr1, None, None, None);
    operators := Query(store, api, TestEnv, request);
    OperatorListing(api, addr1, addr2);
  }

  /** `test_approve_all`: an operator grant whose expiration has already passed is refused. */
  method TestApproveAllExpired(api: Api, addr1: Addr, addr2: Addr) returns (expired: Outcome)
    requires Users(api, addr1, addr2)
    ensures expired == Err(Expired)
  {
    var store, minted := MintFirst(api, addr1);
    var command: Command := Msg.ApproveAll(addr2, Some(AtHeight(10)));
    assert AtHeight(10).IsExpired(TestEnv.block);
    expired := Execute(store, api, TestEnv, addr1, command);
  }

  /** `test_revoke_all`: revoking an operator succeeds. */
  method TestRevokeAll(api: Api, addr1: Addr, addr2: Addr) returns (res: Outcome)
    requires Users(api, addr1, addr2)
    ensures res == Ok(Response([], [Attribute("action", "revoke_all"), Attribute("sender", addr1), Attribute("operator", addr2)]))
  {
    var store, approved := ApproveFirst(api, addr1, addr2);
    var command: Command := Msg.RevokeAll(addr2);
    res := Execute(store, api, TestEnv, addr1, command);
  }

  /** `init`, `mint(addr1, "1")`, then `addr1` transfers the token to `addr2`. */
  method TransferFirst(api: Api, addr1: Addr, addr2: Addr) returns (store: Store<Extension>, res: Outcome)
    requires Users(api, addr1, addr2)
    ensures fresh(store) && store.Valid()
    ensures res == Ok(Response([], [Attribute("action", "transfer_nft"), Attribute("sender", addr1),
                                    Attribute("recipient", addr2), Attribute("token_id", "1")]))
    ensures store.minter == Some(addr1)
    ensures store.tokens == map["1" := FirstToken(addr2)] && store.operators == map[]
  {
    var minted;
    store, minted := MintFirst(api, addr1);
    var command: Command := Msg.TransferNft(addr2, "1");
    assert MaySend(store.operators, TestEnv.block, addr1, store.tokens["1"]);
    res := Execute(store, api, TestEnv, addr1, command);
  }

  /** `test_transfer_nft`: after a transfer the recipient owns the token with no approvals. */
  method TestTransferNft(api: Api, addr1: Addr, addr2: Addr) returns (res: Outcome, ownerOf: QueryResult)
    requires Users(api, addr1, addr2)
    ensures res == Ok(Response([], [Attribute("action", "transfer_nft"), Attribute("sender", addr1),
                                    Attribute("recipient", addr2), Attribute("token_id", "1")]))
    ensures ownerOf == Ok(OwnerOfAnswer(OwnerOfResponse(addr2, [])))
  {
    var store;
    store, res := TransferFirst(api, addr1, addr2);
    var request: Request := Msg.OwnerOf("1", None);
    ownerOf := Query(store, api, TestEnv, request);
  }

  /** `test_transfer_nft`: the old owner may not move the token again. */
  method TestTransferNftAgain(api: Api, addr1: Addr, addr2: Addr) returns (again: Outcome)
    requires Users(api, addr1, addr2)
    ensures again == Err(Unauthorized)
  {
    var store, transferred := TransferFirst(api, addr1, addr2);
    var command: Command := Msg.TransferNft(addr2, "1");
    assert !MaySend(store.operators, TestEnv.block, addr1, store.tokens["1"]);
    again := Execute(store, api, TestEnv, addr1, command);
  }

  /** `TransferFirst`, then `addr1` mints token "2" to `addr2`. */
  method TransferThenMint(api: Api, addr1: Addr, addr2: Addr) returns (store: Store<Extension>)
    requires Users(api, addr1, addr2)
    ensures fresh(store) && store.Valid()
    ensures store.tokens == map["1" := FirstToken(addr2), "2" := FirstToken(addr2)]
  {
    var transferred;
    store, transferred := TransferFirst(api, addr1, addr2);
    assert store.GetMinter() == addr1 && "2" !in store.tokens;
    var minted := Execute(store, api, TestEnv, addr1, MintOf(addr2, "2"));
  }

  /** `test_transfer_nft`: the recipient's listing holds the transferred token and the one
      minted to it afterwards. */
  method TestTransferNftListing(api: Api, addr1: Addr, addr2: Addr) returns (owned: QueryResult)
    requires Users(api, addr1, addr2)
    ensures owned == Ok(TokensResponse(["1", "2"]))
  {
    var store := TransferThenMint(api, addr1, addr2);
    OwnerListing(api, addr1, addr2);
    assert Tokens(api, store.tokens, addr2, None, None) == Ok(["1", "2"]);
    var request: Request := Msg.Tokens(addr2, None, None);
    owned := Query(store, api, TestEnv, request);
  }

  /** `ApproveFirst(addr1, addr2)`, then `addr2` uses its approval to move the token to itself. */
  method SpenderTransfer(api: Api, addr1: Addr, addr2: Addr) returns (store: Store<Extension>, res: Outcome)
    requires Users(api, addr1, addr2)
    ensures fresh(store) && store.Valid()
    ensures res == Ok(Response([], [Attribute("action", "transfer_nft"), Attribute("sender", addr2),
                                    Attribute("recipient", addr2), Attribute("token_id", "1")]))
    ensures store.tokens == map["1" := FirstToken(addr2)]
  {
    var approved;
    store, approved := ApproveFirst(api, addr1, addr2);
    var command: Command := Msg.TransferNft(addr2, "1");
    assert store.tokens["1"].approvals[0] == Grant(addr2);
    assert MaySend(store.operators, TestEnv.block, addr2, store.tokens["1"]);
    res := Execute(store, api, TestEnv, addr2, command);
  }

  /** `test_approve_and_transfer`: an approved spender moves the token to itself; the token
      is still the only one listed. */
  method TestApproveAndTransfer(api: Api, addr1: Addr, addr2: Addr) returns (res: Outcome, all: QueryResult)
    requires Users(api, addr1, addr2)
    ensures res == Ok(Response([], [Attribute("action", "transfer_nft"), Attribute("sender", addr2),
                                    Attribute("recipient", addr2), Attribute("token_id", "1")]))
    ensures all == Ok(TokensResponse(["1"]))
  {
    var store;
    store, res := SpenderTransfer(api, addr1, addr2);
    SoleListing(store.tokens);
    var request: Request := Msg.AllTokens(None, None);
    all := Query(store, api, TestEnv, request);
  }

  /** `test_send_nft`: the owner sends a token to a contract it approved, which receives one
      message carrying the payload. */
  method TestSendNft(api: Api, addr1: Addr, contract: Addr, payload: Binary) returns (res: Outcome)
    requires Users(api, addr1, contract)
    ensures res == Ok(Response([ReceiveMsg(contract, addr1, "1", payload)],
                               [Attribute("action", "send_nft"), Attribute("sender", addr1),
                                Attribute("recipient", contract), Attribute("token_id", "1")]))
  {
    var store, approved := ApproveFirst(api, addr1, contract);
    var command: Command := Msg.SendNft(contract, "1", payload);
    assert MaySend(store.operators, TestEnv.block, addr1, store.tokens["1"]);
    res := Execute(store, api, TestEnv, addr1, command);
  }

  /** `test_burn`: a token burns once; the second burn finds nothing, and no token is counted. */
  method TestBurn(api: Api, addr1: Addr, addr2: Addr) returns (first: Outcome, second: Outcome, count: QueryResult)
    requires Users(api, addr1, addr2)
    ensures first == Ok(Response([], [Attribute("action", "burn"), Attribute("sender", addr1), Attribute("token_id", "1")]))
    ensures second == Err(Std(NotFound(TokenInfoKind)))
    ensures count == Ok(NumTokensResponse(0))
  {
    var store, approved := ApproveFirst(api, addr1, addr2);
    var command: Command := Msg.Burn("1");
    assert MaySend(store.operators, TestEnv.block, addr1, store.tokens["1"]);
    first := Execute(store, api, TestEnv, addr1, command);
    assert "1" !in store.tokens;
    second := Execute(store, api, TestEnv, addr1, command);
    var request: Request := Msg.NumTokens;
    count := Query(store, api, TestEnv, request);
  }

  /** `query_contract_info`: contract info and a token's metadata. */
  method QueryContractInfo(api: Api, addr1: Addr) returns (info: QueryResult, nft: QueryResult)
    requires api.isValid(addr1)
    ensures info == Ok(ContractInfoResponse(ContractInfo("cw721-contract", "cw721")))
    ensures nft == Ok(NftInfoAnswer(NftInfoResponse(None, None)))
  {
    var store, minted := MintFirst(api, addr1);
    assert store.GetMinter() == addr1 && "2" !in store.tokens;
    minted := Execute(store, api, TestEnv, addr1, MintOf(addr1, "2"));
    var request: Request := Msg.ContractInfo;
    info := Query(store, api, TestEnv, request);
    request := Msg.NftInfo("1");
    nft := Query(store, api, TestEnv, request);
  }

  /** `query_contract_info`, last part: after a second mint, the combined view of token "1"
      once it is approved. */
  method QueryAllNftInfo(api: Api, addr1: Addr, addr2: Addr) returns (all: QueryResult)
    requires Users(api, addr1, addr2)
    ensures all == Ok(AllNftInfoAnswer(AllNftInfoResponse(OwnerOfResponse(addr1, [Grant(addr2)]), NftInfoResponse(None, None))))
  {
    var store := MintBoth(api, addr1);
    ApproveFresh(addr2, AtHeight(50000));
    assert MayApprove(store.operators, TestEnv.block, addr1, store.tokens["1"]);
    assert !AtHeight(50000).IsExpired(TestEnv.block);
    var approved := Commands.Approve(store, api, TestEnv.block, addr1, addr2, "1", Some(AtHeight(50000)));
    var request: Request := Msg.AllNftInfo("1", Some(true));
    all := Query(store, api, TestEnv, request);
  }

  /** `test_query_minter`: the minter query names the instantiating minter. */
  method TestQueryMinter(api: Api, addr1: Addr) returns (minter: QueryResult)
    requires api.isValid(addr1)
    ensures minter == Ok(MinterResponse(addr1))
  {
    var store := Init(api, addr1);
    var request: Request := Msg.Minter;
    minter := Query(store, api, TestEnv, request);
  }

  /** `state_test`: claiming ids and moving the counter directly on the storage layer; a
      second claim of the same id is refused, and both records load back as stored. */
  method StateTest() returns (wrongUpdate: Result<map<string, TokenInfo<string>>, ContractError>,
                              afterFirst: nat, afterSecond: nat, count: nat, afterDecrement: nat,
                              owner1: Addr, extension1: string, owner2: Addr, extension2: string)
    ensures wrongUpdate == Err(Claimed)
    ensures afterFirst == 1 && afterSecond == 2 && count == 2 && afterDecrement == 1
    ensures owner1 == "ADDR1" && extension1 == "test_nft"
    ensures owner2 == "ADDR1" && extension2 == ""
  {
    var store := new Store<string>();
    var first := ClaimTokenId(store.tokens, "1", TokenInfo("ADDR1", [], None, "test_nft"));
    store.tokens := first.value;
    afterFirst := store.IncrementTokens();
    var second := ClaimTokenId(store.tokens, "2", TokenInfo("ADDR1", [], None, ""));
    store.tokens := second.value;
    wrongUpdate := ClaimTokenId(store.tokens, "1", TokenInfo("ADDR1", [], None, "test_nft"));
    afterSecond := store.IncrementTokens();
    owner1, extension1 := store.tokens["1"].owner, store.tokens["1"].extension;
    owner2, extension2 := store.tokens["2"].owner, store.tokens["2"].extension;
    count := store.TokenCount();
    afterDecrement := store.DecrementTokens();
  }
}
