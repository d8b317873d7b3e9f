/** The three entry points: instantiation, the command dispatcher and the query dispatcher,
    with the ledger-wide guarantees every command keeps. */
module Contract {
  import opened Types
  import Msg
  import opened State
  import opened Commands
  import opened KeyOrder
  import opened Queries

  // ---------------------------------------------------------------------------------------
  // Instantiation
  // ---------------------------------------------------------------------------------------

  /** `instantiate`: the minter address is validated first; then contract info and minter are
      saved. `infoSaves`/`minterSaves` say whether the host's storage accepts each write; a
      failed call leaves nothing behind, as the host discards the writes of a failed call. */
  method Instantiate<T>(store: Store<T>, api: Api, msg: Msg.InstantiateMsg, infoSaves: bool, minterSaves: bool)
    returns (r: Result<Response, ContractError>)
    requires store.Valid()
    modifies store
    ensures store.Valid()
    ensures !api.isValid(msg.minter) ==> r == Err(Std(InvalidAddress(msg.minter))) && unchanged(store)
    ensures api.isValid(msg.minter) && !infoSaves ==> r == Err(ContractInfoSaveError) && unchanged(store)
    ensures api.isValid(msg.minter) && infoSaves && !minterSaves ==> r == Err(MinterSaveError) && unchanged(store)
    ensures api.isValid(msg.minter) && infoSaves && minterSaves ==>
      && r == Ok(EmptyResponse)
      && store.contractInfo == Some(ContractInfo(msg.name, msg.symbol))
      && store.minter == Some(msg.minter)
      && store.tokens == old(store.tokens) && store.operators == old(store.operators)
      && store.tokenCount == old(store.tokenCount)
  {
    var minter := AddrValidate(api, msg.minter);
    if minter.Err? {
      return Err(Std(minter.error));
    }
    var previous := store.contractInfo;
    r := store.SetContractInfo(ContractInfo(msg.name, msg.symbol), infoSaves);
    if r.Err? {
      return;
    }
    r := store.SetMinter(minter.value, minterSaves);
    if r.Err? {
      store.contractInfo := previous;
    }
  }

  // ---------------------------------------------------------------------------------------
  // Ledger-wide guarantees
  // ---------------------------------------------------------------------------------------

  /** New ids appear only by the minter minting them. */
  ghost predicate CreationAuthorized<T, M>(before: map<string, TokenInfo<T>>, after: map<string, TokenInfo<T>>,
                                           msg: Msg.ExecuteMsg<T, M>, sender: Addr, minter: Addr)
  {
    forall id :: id in after && id !in before ==> msg.Mint? && sender == minter && id == msg.mint.tokenId
  }

  // ---------------------------------------------------------------------------------------
  // The command dispatcher
  // ---------------------------------------------------------------------------------------

  /** `execute`: routes each command to its handler; the extension command does nothing. */
  method Execute<T, M>(store: Store<T>, api: Api, env: Env, sender: Addr, msg: Msg.ExecuteMsg<T, M>)
    returns (r: Result<Response, ContractError>)
    requires store.Valid()
    modifies store
    ensures store.Valid()
    ensures r.Err? ==> unchanged(store)
    ensures match msg
      case Mint(mint) => Minted(store, api, sender, mint, r)
      case Approve(spender, tokenId, expires) => Approved(store, api, env.block, sender, spender, tokenId, expires, r)
      case Revoke(spender, tokenId) => Revoked(store, api, env.block, sender, spender, tokenId, r)
      case ApproveAll(operator, expires) => OperatorApproved(store, api, env.block, sender, operator, expires, r)
      case RevokeAll(operator) => OperatorRevoked(store, api, sender, operator, r)
      case TransferNft(recipient, tokenId) => Transferred(store, api, env.block, sender, recipient, tokenId, r)
      case SendNft(contract, tokenId, payload) => Sent(store, api, env.block, sender, contract, tokenId, payload, r)
      case Burn(tokenId) => Burned(store, env.block, sender, tokenId, r)
      case ExecuteExtension(_) => r == Ok(EmptyResponse) && unchanged(store)
    ensures store.minter == old(store.minter) && store.contractInfo == old(store.contractInfo)
    ensures CreationAuthorized(old(store.tokens), store.tokens, msg, sender, old(store.GetMinter()))
    ensures CustodyAuthorized(old(store.tokens), store.tokens, old(store.operators), env.block, sender)
    ensures RecordsAuthorized(old(store.tokens), store.tokens, old(store.operators), env.block, sender)
    ensures GrantsAuthorized(old(store.operators), store.operators, sender)
  {
    match msg {
      case Mint(mint) =>
        r := Mint(store, api, sender, mint);
        UntouchedRecordsAuthorized(old(store.tokens), store.tokens, old(store.operators), env.block, sender);
      case Approve(spender, tokenId, expires) =>
        r := Approve(store, api, env.block, sender, spender, tokenId, expires);
      case Revoke(spender, tokenId) =>
        r := Revoke(store, api, env.block, sender, spender, tokenId);
      case ApproveAll(operator, expires) =>
        r := ApproveAll(store, api, env.block, sender, operator, expires);
      case RevokeAll(operator) =>
        r := RevokeAll(store, api, sender, operator);
        UntouchedRecordsAuthorized(old(store.tokens), store.tokens, old(store.operators), env.block, sender);
      case TransferNft(recipient, tokenId) =>
        r := TransferNft(store, api, env.block, sender, recipient, tokenId);
      case SendNft(contract, tokenId, payload) =>
        r := SendNft(store, api, env.block, sender, contract, tokenId, payload);
      case Burn(tokenId) =>
        r := Burn(store, env.block, sender, tokenId);
      case ExecuteExtension(_) =>
        r := Ok(EmptyResponse);
    }
  }

  // ---------------------------------------------------------------------------------------
  // The query dispatcher
  // ---------------------------------------------------------------------------------------

  /** What a query answers, one variant per query. */
  datatype QueryResponse<T> =
    | MinterResponse(minter: Addr)
    | ContractInfoResponse(info: ContractInfo)
    | NumTokensResponse(count: nat)
    | NftInfoAnswer(nft: NftInfoResponse<T>)
    | OwnerOfAnswer(access: OwnerOfResponse)
    | AllNftInfoAnswer(all: AllNftInfoResponse<T>)
    | OperatorsResponse(operators: seq<Approval>)
    | ApprovalResponse(approval: Approval)
    | ApprovalsResponse(approvals: seq<Approval>)
    | TokensResponse(tokens: seq<string>)
    | EmptyAnswer

  /** Wraps a query's success value into its answer variant. */
  function Answer<V, T>(r: Result<V, StdError>, wrap: V -> QueryResponse<T>): Result<QueryResponse<T>, StdError> {
    match r
    case Ok(v) => Ok(wrap(v))
    case Err(e) => Err(e)
  }

  /** `query`: routes each query to its handler; an absent `include_expired` reads as false
      and the extension query answers with an empty payload. */
  function Query<T, Q>(store: Store<T>, api: Api, env: Env, msg: Msg.QueryMsg<Q>): (r: Result<QueryResponse<T>, StdError>)
    reads store
    ensures match msg
      case Minter => r == Ok(MinterResponse(store.GetMinter()))
      case NumTokens => r == Ok(NumTokensResponse(store.TokenCount()))
      case ContractInfo =>
        && (r.Ok? <==> store.contractInfo.Some?)
        && (r.Ok? ==> r.value == ContractInfoResponse(store.contractInfo.value))
        && (r.Err? ==> r.error == NotFound(ContractInfoKind))
      case NftInfo(tokenId) =>
        var q := NftInfo(store.tokens, tokenId);
        (r.Ok? <==> q.Ok?) && (r.Ok? ==> r.value == NftInfoAnswer(q.value)) && (r.Err? ==> r.error == q.error)
      case OwnerOf(tokenId, includeExpired) =>
        var q := OwnerOf(store.tokens, env.block, tokenId, includeExpired.GetOr(false));
        (r.Ok? <==> q.Ok?) && (r.Ok? ==> r.value == OwnerOfAnswer(q.value)) && (r.Err? ==> r.error == q.error)
      case AllNftInfo(tokenId, includeExpired) =>
        var q := AllNftInfo(store.tokens, env.block, tokenId, includeExpired.GetOr(false));
        (r.Ok? <==> q.Ok?) && (r.Ok? ==> r.value == AllNftInfoAnswer(q.value)) && (r.Err? ==> r.error == q.error)
      case AllOperators(owner, includeExpired, startAfter, limit) =>
        var q := Operators(api, env.block, store.operators, owner, includeExpired.GetOr(false), startAfter, limit);
        (r.Ok? <==> q.Ok?) && (r.Ok? ==> r.value == OperatorsResponse(q.value)) && (r.Err? ==> r.error == q.error)
      case AllTokens(startAfter, limit) => r == Ok(TokensResponse(AllTokens(store.tokens, startAfter, limit)))
      case ApprovalOf(tokenId, spender, includeExpired) =>
        var q := ApprovalOf(store.tokens, env.block, tokenId, spender, includeExpired.GetOr(false));
        (r.Ok? <==> q.Ok?) && (r.Ok? ==> r.value == ApprovalResponse(q.value)) && (r.Err? ==> r.error == q.error)
      case Approvals(tokenId, includeExpired) =>
        var q := Approvals(store.tokens, env.block, tokenId, includeExpired.GetOr(false));
        (r.Ok? <==> q.Ok?) && (r.Ok? ==> r.value == ApprovalsResponse(q.value)) && (r.Err? ==> r.error == q.error)
      case Tokens(owner, startAfter, limit) =>
        var q := Tokens(api, store.tokens, owner, startAfter, limit);
        (r.Ok? <==> q.Ok?) && (r.Ok? ==> r.value == TokensResponse(q.value)) && (r.Err? ==> r.error == q.error)
      case QueryExtension(_) => r == Ok(EmptyAnswer)
    ensures (msg.NftInfo? || msg.OwnerOf? || msg.AllNftInfo? || msg.Approvals?) ==> (r.Ok? <==> msg.tokenId in store.tokens)
    ensures r.Err? ==> r.error.NotFound? || r.error.InvalidAddress?
  {
    match msg
    case Minter => Ok(MinterResponse(store.GetMinter()))
    case ContractInfo => Answer(LoadContractInfo(store.contractInfo), i => ContractInfoResponse(i))
    case NftInfo(tokenId) => Answer(NftInfo(store.tokens, tokenId), n => NftInfoAnswer(n))
    case OwnerOf(tokenId, includeExpired) =>
      Answer(OwnerOf(store.tokens, env.block, tokenId, includeExpired.GetOr(false)), o => OwnerOfAnswer(o))
    case AllNftInfo(tokenId, includeExpired) =>
      Answer(AllNftInfo(store.tokens, env.block, tokenId, includeExpired.GetOr(false)), a => AllNftInfoAnswer(a))
    case AllOperators(owner, includeExpired, startAfter, limit) =>
      Answer(Operators(api, env.block, store.operators, owner, includeExpired.GetOr(false), startAfter, limit), o => OperatorsResponse(o))
    case NumTokens => Ok(NumTokensResponse(store.TokenCount()))
    case AllTokens(startAfter, limit) => Ok(TokensResponse(AllTokens(store.tokens, startAfter, limit)))
    case ApprovalOf(tokenId, spender, includeExpired) =>
      Answer(ApprovalOf(store.tokens, env.block, tokenId, spender, includeExpired.GetOr(false)), a => ApprovalResponse(a))
    case Approvals(tokenId, includeExpired) =>
      Answer(Approvals(store.tokens, env.block, tokenId, includeExpired.GetOr(false)), a => ApprovalsResponse(a))
    case Tokens(owner, startAfter, limit) =>
      Answer(Tokens(api, store.tokens, owner, startAfter, limit), t => TokensResponse(t))
    case QueryExtension(_) => Ok(EmptyAnswer)
  }

  /** The query with an absent `include_expired` flag written out as `Some(false)`. */
  function ExplicitFlag<Q>(msg: Msg.QueryMsg<Q>): Msg.QueryMsg<Q> {
    match msg
    case OwnerOf(tokenId, includeExpired) => Msg.OwnerOf(tokenId, Some(includeExpired.GetOr(false)))
    case AllNftInfo(tokenId, includeExpired) => Msg.AllNftInfo(tokenId, Some(includeExpired.GetOr(false)))
    case AllOperators(owner, includeExpired, startAfter, limit) =>
      Msg.AllOperators(owner, Some(includeExpired.GetOr(false)), startAfter, limit)
    case ApprovalOf(tokenId, spender, includeExpired) => Msg.ApprovalOf(tokenId, spender, Some(includeExpired.GetOr(false)))
    case Approvals(tokenId, includeExpired) => Msg.Approvals(tokenId, Some(includeExpired.GetOr(false)))
    case _ => msg
  }

  /** An absent `include_expired` reads as false: every query answers the same once a missing
      flag is written out as `Some(false)`. */
  lemma MissingFlagReadsFalse<T, Q>(store: Store<T>, api: Api, env: Env, msg: Msg.QueryMsg<Q>)
    ensures Query(store, api, env, ExplicitFlag(msg)) == Query(store, api, env, msg)
  {
  }
}
