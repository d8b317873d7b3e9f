/** The authorization rules and the command handlers. The rules are read-only functions; each
    handler is a method over the store that either commits all its writes or returns an error
    with the store untouched. */
module Commands {
  import opened Types
  import Msg
  import opened State
  import opened ApprovalList

  type OperatorGrants = map<(Addr, Addr), Expiration>

  // ---------------------------------------------------------------------------------------
  // Authorization
  // ---------------------------------------------------------------------------------------

  /** `operator` holds a grant from `owner` that has not lapsed at `block`. */
  predicate IsLiveOperator(operators: OperatorGrants, block: BlockInfo, owner: Addr, operator: Addr) {
    (owner, operator) in operators && !operators[(owner, operator)].IsExpired(block)
  }

  /** Some entry of the list lets `sender` act and has not lapsed. */
  predicate HasLiveApproval(approvals: seq<Approval>, sender: Addr, block: BlockInfo) {
    exists i :: 0 <= i < |approvals| && approvals[i].spender == sender && !approvals[i].IsExpired(block)
  }

  /** Who may approve or revoke on a token: its owner, or a live operator of its owner. */
  predicate MayApprove<T>(operators: OperatorGrants, block: BlockInfo, sender: Addr, token: TokenInfo<T>) {
    sender == token.owner || IsLiveOperator(operators, block, token.owner, sender)
  }

  /** Who may transfer, send or burn a token: its owner, a spender with a live approval on it,
      or a live operator of its owner. */
  predicate MaySend<T>(operators: OperatorGrants, block: BlockInfo, sender: Addr, token: TokenInfo<T>) {
    || sender == token.owner
    || HasLiveApproval(token.approvals, sender, block)
    || IsLiveOperator(operators, block, token.owner, sender)
  }

  /** The scan `approvals.iter().any(...)` of `check_can_send`. */
  function AnyLiveApproval(approvals: seq<Approval>, sender: Addr, block: BlockInfo): (found: bool)
    ensures found <==> HasLiveApproval(approvals, sender, block)
  {
    if approvals == [] then false
    else if approvals[0].spender == sender && !approvals[0].IsExpired(block) then true
    else
      var found := AnyLiveApproval(approvals[1..], sender, block);
      assert HasLiveApproval(approvals[1..], sender, block) ==> HasLiveApproval(approvals, sender, block) by {
        if HasLiveApproval(approvals[1..], sender, block) {
          var i :| 0 <= i < |approvals[1..]| && approvals[1..][i].spender == sender && !approvals[1..][i].IsExpired(block);
          assert approvals[i + 1] == approvals[1..][i];
        }
      }
      assert HasLiveApproval(approvals, sender, block) ==> HasLiveApproval(approvals[1..], sender, block) by {
        if HasLiveApproval(approvals, sender, block) {
          var i :| 0 <= i < |approvals| && approvals[i].spender == sender && !approvals[i].IsExpired(block);
          assert i > 0 && approvals[1..][i - 1] == approvals[i];
        }
      }
      found
  }

  /** The operator lookup shared by both checks: a stored, unexpired grant passes. */
  function CheckOperator(operators: OperatorGrants, block: BlockInfo, owner: Addr, sender: Addr): (r: Result<(), ContractError>)
    ensures r.Ok? <==> IsLiveOperator(operators, block, owner, sender)
    ensures r.Err? ==> r.error == Unauthorized
  {
    if (owner, sender) in operators then
      if operators[(owner, sender)].IsExpired(block) then Err(Unauthorized) else Ok(())
    else Err(Unauthorized)
  }

  /** `check_can_approve`: the owner check comes first and short-circuits. */
  function CheckCanApprove<T>(operators: OperatorGrants, block: BlockInfo, sender: Addr, token: TokenInfo<T>): (r: Result<(), ContractError>)
    ensures r.Ok? <==> MayApprove(operators, block, sender, token)
    ensures r.Err? ==> r.error == Unauthorized
  {
    if token.owner == sender then Ok(())
    else CheckOperator(operators, block, token.owner, sender)
  }

  /** `check_can_send`: owner first, then the token's own approvals, then the operators. */
  function CheckCanSend<T>(operators: OperatorGrants, block: BlockInfo, sender: Addr, token: TokenInfo<T>): (r: Result<(), ContractError>)
    ensures r.Ok? <==> MaySend(operators, block, sender, token)
    ensures r.Err? ==> r.error == Unauthorized
  {
    if token.owner == sender then Ok(())
    else if AnyLiveApproval(token.approvals, sender, block) then Ok(())
    else CheckOperator(operators, block, token.owner, sender)
  }

  /** Whoever may approve on a token may also send it. */
  lemma ApproveRightGivesSendRight<T>(operators: OperatorGrants, block: BlockInfo, sender: Addr, token: TokenInfo<T>)
    ensures CheckCanApprove(operators, block, sender, token).Ok? ==> CheckCanSend(operators, block, sender, token).Ok?
  {
  }

  /** A live per-token approval lets its spender send the token but not approve others on it. */
  lemma SpenderMaySendButNotApprove<T>(operators: OperatorGrants, block: BlockInfo, sender: Addr, token: TokenInfo<T>, i: nat)
    requires i < |token.approvals| && token.approvals[i].spender == sender && !token.approvals[i].IsExpired(block)
    requires sender != token.owner && (token.owner, sender) !in operators
    ensures CheckCanSend(operators, block, sender, token) == Ok(())
    ensures CheckCanApprove(operators, block, sender, token) == Err(Unauthorized)
  {
  }

  /** Lapsed grants are ignored rather than deleted: an expired operator grant and expired
      approvals give no right at all. */
  lemma LapsedGrantsGiveNoRight<T>(operators: OperatorGrants, block: BlockInfo, sender: Addr, token: TokenInfo<T>)
    requires sender != token.owner
    requires (token.owner, sender) in operators ==> operators[(token.owner, sender)].IsExpired(block)
    requires forall i :: 0 <= i < |token.approvals| && token.approvals[i].spender == sender ==> token.approvals[i].IsExpired(block)
    ensures CheckCanSend(operators, block, sender, token) == Err(Unauthorized)
    ensures CheckCanApprove(operators, block, sender, token) == Err(Unauthorized)
  {
  }

  // ---------------------------------------------------------------------------------------
  // Guarantees every command keeps
  // ---------------------------------------------------------------------------------------

  /** No id appears except those in `ids`. */
  ghost predicate NewIdsWithin<T>(before: map<string, TokenInfo<T>>, after: map<string, TokenInfo<T>>, ids: set<string>) {
    forall id :: id in after && id !in before ==> id in ids
  }

  /** Every record that existed is still there, unchanged. */
  ghost predicate RecordsUntouched<T>(before: map<string, TokenInfo<T>>, after: map<string, TokenInfo<T>>) {
    forall id :: id in before ==> id in after && after[id] == before[id]
  }

  /** A token changes hands or disappears only at the hands of someone who may send it, and a
      change of hands clears its approvals. */
  ghost predicate CustodyAuthorized<T>(before: map<string, TokenInfo<T>>, after: map<string, TokenInfo<T>>,
                                       operators: OperatorGrants, block: BlockInfo, sender: Addr)
  {
    && (forall id :: id in before && id !in after ==> MaySend(operators, block, sender, before[id]))
    && (forall id :: id in before && id in after && after[id].owner != before[id].owner ==>
          MaySend(operators, block, sender, before[id]) && after[id].approvals == [])
  }

  /** A token's approval list changes only at the hands of someone who may approve on the
      token or send it; its metadata never changes. */
  ghost predicate RecordsAuthorized<T>(before: map<string, TokenInfo<T>>, after: map<string, TokenInfo<T>>,
                                       operators: OperatorGrants, block: BlockInfo, sender: Addr)
  {
    forall id :: id in before && id in after ==>
      && after[id].tokenUri == before[id].tokenUri
      && after[id].extension == before[id].extension
      && (after[id].approvals != before[id].approvals ==>
            MayApprove(operators, block, sender, before[id]) || MaySend(operators, block, sender, before[id]))
  }

  /** Operator grants are added, changed or removed only under the sender's own key. */
  ghost predicate GrantsAuthorized(before: OperatorGrants, after: OperatorGrants, sender: Addr) {
    forall k :: (k in before || k in after) && (k !in before || k !in after || before[k] != after[k]) ==> k.0 == sender
  }

  /** Leaving every existing record alone breaks neither custody nor record guarantees. */
  lemma UntouchedRecordsAuthorized<T>(before: map<string, TokenInfo<T>>, after: map<string, TokenInfo<T>>,
                                      operators: OperatorGrants, block: BlockInfo, sender: Addr)
    requires RecordsUntouched(before, after)
    ensures CustodyAuthorized(before, after, operators, block, sender)
    ensures RecordsAuthorized(before, after, operators, block, sender)
  {
  }

  /** Replacing one token's approval list, by someone who may approve on it, keeps every
      guarantee and the record invariant. */
  lemma ApprovalEditAuthorized<T>(tokens: map<string, TokenInfo<T>>, operators: OperatorGrants, block: BlockInfo,
                                  sender: Addr, id: string, approvals: seq<Approval>)
    requires id in tokens && MayApprove(operators, block, sender, tokens[id])
    ensures var after := tokens[id := tokens[id].(approvals := approvals)];
      && NewIdsWithin(tokens, after, {})
      && CustodyAuthorized(tokens, after, operators, block, sender)
      && RecordsAuthorized(tokens, after, operators, block, sender)
  {
  }

  // ---------------------------------------------------------------------------------------
  // What each handler leaves behind
  // ---------------------------------------------------------------------------------------

  /** The outcome of a handler with its success value forgotten. */
  function Status<R>(r: Result<R, ContractError>): Result<(), ContractError> {
    match r
    case Ok(_) => Ok(())
    case Err(e) => Err(e)
  }

  /** Only the token map changed. */
  twostate predicate OnlyTokensChanged<T>(store: Store<T>)
    reads store
  {
    && store.operators == old(store.operators)
    && store.tokenCount == old(store.tokenCount)
    && store.minter == old(store.minter)
    && store.contractInfo == old(store.contractInfo)
  }

  /** `mint`: only the minter, a valid owner, an unclaimed id; then a fresh record with no
      approvals, the counter one higher, nothing else touched. */
  twostate predicate Minted<T>(store: Store<T>, api: Api, sender: Addr, msg: Msg.MintMsg<T>, new r: Result<Response, ContractError>)
    reads store
  {
    if sender != old(store.GetMinter()) then r == Err(Unauthorized) && unchanged(store)
    else if !api.isValid(msg.owner) then r == Err(Std(InvalidAddress(msg.owner))) && unchanged(store)
    else if msg.tokenId in old(store.tokens) then r == Err(Claimed) && unchanged(store)
    else
      && r == Ok(Response([], [Attribute("action", "mint"), Attribute("minter", sender),
                               Attribute("owner", msg.owner), Attribute("token_id", msg.tokenId)]))
      && store.tokens == old(store.tokens)[msg.tokenId := TokenInfo(msg.owner, [], msg.tokenUri, msg.extension)]
      && store.tokenCount == Some(old(store.TokenCount()) + 1)
      && store.operators == old(store.operators)
      && store.minter == old(store.minter) && store.contractInfo == old(store.contractInfo)
  }

  /** `_update_approvals`: the token must exist, the sender must be allowed to approve, the
      spender must be a valid address and, when adding, the expiration must not have lapsed;
      then the token's list becomes `Updated(...)` and nothing else changes. */
  twostate predicate ApprovalsUpdated<T>(store: Store<T>, api: Api, block: BlockInfo, sender: Addr, spender: string,
                                         tokenId: string, add: bool, expires: Option<Expiration>, new status: Result<(), ContractError>)
    reads store
  {
    if tokenId !in old(store.tokens) then status == Err(Std(NotFound(TokenInfoKind))) && unchanged(store)
    else
      var token := old(store.tokens)[tokenId];
      var expiration := ExpirationOrDefault(expires);
      if !MayApprove(old(store.operators), block, sender, token) then status == Err(Unauthorized) && unchanged(store)
      else if !api.isValid(spender) then status == Err(Std(InvalidAddress(spender))) && unchanged(store)
      else if add && expiration.IsExpired(block) then status == Err(Expired) && unchanged(store)
      else
        && status == Ok(())
        && store.tokens == old(store.tokens)[tokenId := token.(approvals := Updated(token.approvals, spender, add, expiration))]
        && OnlyTokensChanged(store)
  }

  twostate predicate Approved<T>(store: Store<T>, api: Api, block: BlockInfo, sender: Addr, spender: string,
                                 tokenId: string, expires: Option<Expiration>, new r: Result<Response, ContractError>)
    reads store
  {
    && ApprovalsUpdated(store, api, block, sender, spender, tokenId, true, expires, Status(r))
    && (r.Ok? ==> r.value == Response([], [Attribute("action", "approve"), Attribute("sender", sender),
                                          Attribute("spender", spender), Attribute("token_id", tokenId)]))
  }

  twostate predicate Revoked<T>(store: Store<T>, api: Api, block: BlockInfo, sender: Addr, spender: string,
                                tokenId: string, new r: Result<Response, ContractError>)
    reads store
  {
    && ApprovalsUpdated(store, api, block, sender, spender, tokenId, false, None, Status(r))
    && (r.Ok? ==> r.value == Response([], [Attribute("action", "revoke"), Attribute("sender", sender),
                                          Attribute("spender", spender), Attribute("token_id", tokenId)]))
  }

  /** `approve_all`: a lapsed expiration is refused before the operator is even validated;
      then the grant `(sender, operator)` is set, replacing any earlier one. */
  twostate predicate OperatorApproved<T>(store: Store<T>, api: Api, block: BlockInfo, sender: Addr, operator: string,
                                         expires: Option<Expiration>, new r: Result<Response, ContractError>)
    reads store
  {
    var expiration := ExpirationOrDefault(expires);
    if expiration.IsExpired(block) then r == Err(Expired) && unchanged(store)
    else if !api.isValid(operator) then r == Err(Std(InvalidAddress(operator))) && unchanged(store)
    else
      && r == Ok(Response([], [Attribute("action", "approve_all"), Attribute("sender", sender), Attribute("operator", operator)]))
      && store.operators == old(store.operators)[(sender, operator) := expiration]
      && store.tokens == old(store.tokens) && store.tokenCount == old(store.tokenCount)
      && store.minter == old(store.minter) && store.contractInfo == old(store.contractInfo)
  }

  /** `revoke_all`: the grant `(sender, operator)` is deleted; a missing one is no error. */
  twostate predicate OperatorRevoked<T>(store: Store<T>, api: Api, sender: Addr, operator: string, new r: Result<Response, ContractError>)
    reads store
  {
    if !api.isValid(operator) then r == Err(Std(InvalidAddress(operator))) && unchanged(store)
    else
      && r == Ok(Response([], [Attribute("action", "revoke_all"), Attribute("sender", sender), Attribute("operator", operator)]))
      && store.operators == old(store.operators) - {(sender, operator)}
      && store.tokens == old(store.tokens) && store.tokenCount == old(store.tokenCount)
      && store.minter == old(store.minter) && store.contractInfo == old(store.contractInfo)
  }

  /** `_transfer_nft`: the token must exist, the sender must be allowed to send, and the
      recipient must be valid; then the recipient owns it and its approvals are cleared. */
  twostate predicate Moved<T>(store: Store<T>, api: Api, block: BlockInfo, sender: Addr, recipient: string,
                              tokenId: string, new status: Result<(), ContractError>)
    reads store
  {
    if tokenId !in old(store.tokens) then status == Err(Std(NotFound(TokenInfoKind))) && unchanged(store)
    else
      var token := old(store.tokens)[tokenId];
      if !MaySend(old(store.operators), block, sender, token) then status == Err(Unauthorized) && unchanged(store)
      else if !api.isValid(recipient) then status == Err(Std(InvalidAddress(recipient))) && unchanged(store)
      else
        && status == Ok(())
        && store.tokens == old(store.tokens)[tokenId := token.(owner := recipient, approvals := [])]
        && OnlyTokensChanged(store)
  }

  twostate predicate Transferred<T>(store: Store<T>, api: Api, block: BlockInfo, sender: Addr, recipient: string,
                                    tokenId: string, new r: Result<Response, ContractError>)
    reads store
  {
    && Moved(store, api, block, sender, recipient, tokenId, Status(r))
    && (r.Ok? ==> r.value == Response([], [Attribute("action", "transfer_nft"), Attribute("sender", sender),
                                          Attribute("recipient", recipient), Attribute("token_id", tokenId)]))
  }

  /** `send_nft`: a transfer to `contract` plus exactly one receive message to it. */
  twostate predicate Sent<T>(store: Store<T>, api: Api, block: BlockInfo, sender: Addr, contract: string,
                             tokenId: string, msg: Binary, new r: Result<Response, ContractError>)
    reads store
  {
    && Moved(store, api, block, sender, contract, tokenId, Status(r))
    && (r.Ok? ==> r.value == Response([ReceiveMsg(contract, sender, tokenId, msg)],
                                      [Attribute("action", "send_nft"), Attribute("sender", sender),
                                       Attribute("recipient", contract), Attribute("token_id", tokenId)]))
  }

  /** `burn`: the token must exist and the sender must be allowed to send it; then the record
      is gone and the counter is one lower. */
  twostate predicate Burned<T>(store: Store<T>, block: BlockInfo, sender: Addr, tokenId: string, new r: Result<Response, ContractError>)
    reads store
  {
    if tokenId !in old(store.tokens) then r == Err(Std(NotFound(TokenInfoKind))) && unchanged(store)
    else if !MaySend(old(store.operators), block, sender, old(store.tokens)[tokenId]) then r == Err(Unauthorized) && unchanged(store)
    else
      && r == Ok(Response([], [Attribute("action", "burn"), Attribute("sender", sender), Attribute("token_id", tokenId)]))
      && store.tokens == old(store.tokens) - {tokenId}
      && store.tokenCount == Some(old(store.TokenCount()) - 1)
      && store.operators == old(store.operators)
      && store.minter == old(store.minter) && store.contractInfo == old(store.contractInfo)
  }

  // ---------------------------------------------------------------------------------------
  // Handlers
  // ---------------------------------------------------------------------------------------

  method Mint<T>(store: Store<T>, api: Api, sender: Addr, msg: Msg.MintMsg<T>) returns (r: Result<Response, ContractError>)
    requires store.Valid()
    modifies store
    ensures store.Valid()
    ensures r.Err? ==> unchanged(store)
    ensures store.minter == old(store.minter) && store.contractInfo == old(store.contractInfo)
    ensures Minted(store, api, sender, msg, r)
    ensures NewIdsWithin(old(store.tokens), store.tokens, if sender == old(store.GetMinter()) then {msg.tokenId} else {})
    ensures RecordsUntouched(old(store.tokens), store.tokens)
    ensures store.operators == old(store.operators)
  {
    if sender != store.GetMinter() {
      return Err(Unauthorized);
    }
    var owner := AddrValidate(api, msg.owner);
    if owner.Err? {
      return Err(Std(owner.error));
    }
    var token := TokenInfo(owner.value, [], msg.tokenUri, msg.extension);
    var claimed := ClaimTokenId(store.tokens, msg.tokenId, token);
    if claimed.Err? {
      return Err(claimed.error);
    }
    store.tokens := claimed.value;
    var _ := store.IncrementTokens();
    r := Ok(Response([], [Attribute("action", "mint"), Attribute("minter", sender),
                          Attribute("owner", msg.owner), Attribute("token_id", msg.tokenId)]));
  }

  method Approve<T>(store: Store<T>, api: Api, block: BlockInfo, sender: Addr, spender: string, tokenId: string,
                    expires: Option<Expiration>) returns (r: Result<Response, ContractError>)
    requires store.Valid()
    modifies store
    ensures store.Valid()
    ensures r.Err? ==> unchanged(store)
    ensures store.minter == old(store.minter) && store.contractInfo == old(store.contractInfo)
    ensures Approved(store, api, block, sender, spender, tokenId, expires, r)
    ensures NewIdsWithin(old(store.tokens), store.tokens, {})
    ensures CustodyAuthorized(old(store.tokens), store.tokens, old(store.operators), block, sender)
    ensures RecordsAuthorized(old(store.tokens), store.tokens, old(store.operators), block, sender)
    ensures GrantsAuthorized(old(store.operators), store.operators, sender)
  {
    var updated := UpdateApprovals(store, api, block, sender, spender, tokenId, true, expires);
    if updated.Err? {
      return Err(updated.error);
    }
    r := Ok(Response([], [Attribute("action", "approve"), Attribute("sender", sender),
                          Attribute("spender", spender), Attribute("token_id", tokenId)]));
  }

  method Revoke<T>(store: Store<T>, api: Api, block: BlockInfo, sender: Addr, spender: string, tokenId: string)
    returns (r: Result<Response, ContractError>)
    requires store.Valid()
    modifies store
    ensures store.Valid()
    ensures r.Err? ==> unchanged(store)
    ensures store.minter == old(store.minter) && store.contractInfo == old(store.contractInfo)
    ensures Revoked(store, api, block, sender, spender, tokenId, r)
    ensures NewIdsWithin(old(store.tokens), store.tokens, {})
    ensures CustodyAuthorized(old(store.tokens), store.tokens, old(store.operators), block, sender)
    ensures RecordsAuthorized(old(store.tokens), store.tokens, old(store.operators), block, sender)
    ensures GrantsAuthorized(old(store.operators), store.operators, sender)
  {
    var updated := UpdateApprovals(store, api, block, sender, spender, tokenId, false, None);
    if updated.Err? {
      return Err(updated.error);
    }
    r := Ok(Response([], [Attribute("action", "revoke"), Attribute("sender", sender),
                          Attribute("spender", spender), Attribute("token_id", tokenId)]));
  }

  method ApproveAll<T>(store: Store<T>, api: Api, block: BlockInfo, sender: Addr, operator: string,
                       expires: Option<Expiration>) returns (r: Result<Response, ContractError>)
    requires store.Valid()
    modifies store
    ensures store.Valid()
    ensures r.Err? ==> unchanged(store)
    ensures store.minter == old(store.minter) && store.contractInfo == old(store.contractInfo)
    ensures OperatorApproved(store, api, block, sender, operator, expires, r)
    ensures NewIdsWithin(old(store.tokens), store.tokens, {})
    ensures CustodyAuthorized(old(store.tokens), store.tokens, old(store.operators), block, sender)
    ensures RecordsAuthorized(old(store.tokens), store.tokens, old(store.operators), block, sender)
    ensures GrantsAuthorized(old(store.operators), store.operators, sender)
  {
    var expiration := ExpirationOrDefault(expires);
    if expiration.IsExpired(block) {
      return Err(Expired);
    }
    var operatorAddr := AddrValidate(api, operator);
    if operatorAddr.Err? {
      return Err(Std(operatorAddr.error));
    }
    store.operators := store.operators[(sender, operatorAddr.value) := expiration];
    r := Ok(Response([], [Attribute("action", "approve_all"), Attribute("sender", sender), Attribute("operator", operator)]));
  }

  method RevokeAll<T>(store: Store<T>, api: Api, sender: Addr, operator: string) returns (r: Result<Response, ContractError>)
    requires store.Valid()
    modifies store
    ensures store.Valid()
    ensures r.Err? ==> unchanged(store)
    ensures store.minter == old(store.minter) && store.contractInfo == old(store.contractInfo)
    ensures OperatorRevoked(store, api, sender, operator, r)
    ensures NewIdsWithin(old(store.tokens), store.tokens, {})
    ensures RecordsUntouched(old(store.tokens), store.tokens)
    ensures GrantsAuthorized(old(store.operators), store.operators, sender)
  {
    var operatorAddr := AddrValidate(api, operator);
    if operatorAddr.Err? {
      return Err(Std(operatorAddr.error));
    }
    store.operators := store.operators - {(sender, operatorAddr.value)};
    r := Ok(Response([], [Attribute("action", "revoke_all"), Attribute("sender", sender), Attribute("operator", operator)]));
  }

  method Burn<T>(store: Store<T>, block: BlockInfo, sender: Addr, tokenId: string) returns (r: Result<Response, ContractError>)
    requires store.Valid()
    modifies store
    ensures store.Valid()
    ensures r.Err? ==> unchanged(store)
    ensures store.minter == old(store.minter) && store.contractInfo == old(store.contractInfo)
    ensures Burned(store, block, sender, tokenId, r)
    ensures NewIdsWithin(old(store.tokens), store.tokens, {})
    ensures CustodyAuthorized(old(store.tokens), store.tokens, old(store.operators), block, sender)
    ensures RecordsAuthorized(old(store.tokens), store.tokens, old(store.operators), block, sender)
    ensures GrantsAuthorized(old(store.operators), store.operators, sender)
  {
    if tokenId !in store.tokens {
      return Err(Std(NotFound(TokenInfoKind)));
    }
    var token := store.tokens[tokenId];
    var allowed := CheckCanSend(store.operators, block, sender, token);
    if allowed.Err? {
      return Err(allowed.error);
    }
    store.tokens := store.tokens - {tokenId};
    var _ := store.DecrementTokens();
    r := Ok(Response([], [Attribute("action", "burn"), Attribute("sender", sender), Attribute("token_id", tokenId)]));
  }

  method TransferNft<T>(store: Store<T>, api: Api, block: BlockInfo, sender: Addr, recipient: string, tokenId: string)
    returns (r: Result<Response, ContractError>)
    requires store.Valid()
    modifies store
    ensures store.Valid()
    ensures r.Err? ==> unchanged(store)
    ensures store.minter == old(store.minter) && store.contractInfo == old(store.contractInfo)
    ensures Transferred(store, api, block, sender, recipient, tokenId, r)
    ensures NewIdsWithin(old(store.tokens), store.tokens, {})
    ensures CustodyAuthorized(old(store.tokens), store.tokens, old(store.operators), block, sender)
    ensures RecordsAuthorized(old(store.tokens), store.tokens, old(store.operators), block, sender)
    ensures GrantsAuthorized(old(store.operators), store.operators, sender)
  {
    var moved := TransferToken(store, api, block, sender, recipient, tokenId);
    if moved.Err? {
      return Err(moved.error);
    }
    r := Ok(Response([], [Attribute("action", "transfer_nft"), Attribute("sender", sender),
                          Attribute("recipient", recipient), Attribute("token_id", tokenId)]));
  }

  method SendNft<T>(store: Store<T>, api: Api, block: BlockInfo, sender: Addr, contract: string, tokenId: string, msg: Binary)
    returns (r: Result<Response, ContractError>)
    requires store.Valid()
    modifies store
    ensures store.Valid()
    ensures r.Err? ==> unchanged(store)
    ensures store.minter == old(store.minter) && store.contractInfo == old(store.contractInfo)
    ensures Sent(store, api, block, sender, contract, tokenId, msg, r)
    ensures NewIdsWithin(old(store.tokens), store.tokens, {})
    ensures CustodyAuthorized(old(store.tokens), store.tokens, old(store.operators), block, sender)
    ensures RecordsAuthorized(old(store.tokens), store.tokens, old(store.operators), block, sender)
    ensures GrantsAuthorized(old(store.operators), store.operators, sender)
  {
    var moved := TransferToken(store, api, block, sender, contract, tokenId);
    if moved.Err? {
      return Err(moved.error);
    }
    r := Ok(Response([ReceiveMsg(contract, sender, tokenId, msg)],
                     [Attribute("action", "send_nft"), Attribute("sender", sender),
                      Attribute("recipient", contract), Attribute("token_id", tokenId)]));
  }

  /** `_transfer_nft`, shared by transfer and send; returns the saved record. */
  method TransferToken<T>(store: Store<T>, api: Api, block: BlockInfo, sender: Addr, recipient: string, tokenId: string)
    returns (r: Result<TokenInfo<T>, ContractError>)
    requires store.Valid()
    modifies store
    ensures store.Valid()
    ensures r.Err? ==> unchanged(store)
    ensures store.minter == old(store.minter) && store.contractInfo == old(store.contractInfo)
    ensures Moved(store, api, block, sender, recipient, tokenId, Status(r))
    ensures r.Ok? ==> tokenId in store.tokens && store.tokens[tokenId] == r.value
    ensures NewIdsWithin(old(store.tokens), store.tokens, {})
    ensures CustodyAuthorized(old(store.tokens), store.tokens, old(store.operators), block, sender)
    ensures RecordsAuthorized(old(store.tokens), store.tokens, old(store.operators), block, sender)
    ensures GrantsAuthorized(old(store.operators), store.operators, sender)
  {
    if tokenId !in store.tokens {
      return Err(Std(NotFound(TokenInfoKind)));
    }
    var token := store.tokens[tokenId];
    var allowed := CheckCanSend(store.operators, block, sender, token);
    if allowed.Err? {
      return Err(allowed.error);
    }
    var recipientAddr := AddrValidate(api, recipient);
    if recipientAddr.Err? {
      return Err(Std(recipientAddr.error));
    }
    token := token.(owner := recipientAddr.value, approvals := []);
    store.tokens := store.tokens[tokenId := token];
    r := Ok(token);
  }

  /** `_update_approvals`, shared by approve (`add`) and revoke; returns the saved record. */
  method UpdateApprovals<T>(store: Store<T>, api: Api, block: BlockInfo, sender: Addr, spender: string, tokenId: string,
                            add: bool, expires: Option<Expiration>) returns (r: Result<TokenInfo<T>, ContractError>)
    requires store.Valid()
    modifies store
    ensures store.Valid()
    ensures r.Err? ==> unchanged(store)
    ensures store.minter == old(store.minter) && store.contractInfo == old(store.contractInfo)
    ensures ApprovalsUpdated(store, api, block, sender, spender, tokenId, add, expires, Status(r))
    ensures r.Ok? ==> tokenId in store.tokens && store.tokens[tokenId] == r.value
    ensures NewIdsWithin(old(store.tokens), store.tokens, {})
    ensures CustodyAuthorized(old(store.tokens), store.tokens, old(store.operators), block, sender)
    ensures RecordsAuthorized(old(store.tokens), store.tokens, old(store.operators), block, sender)
    ensures GrantsAuthorized(old(store.operators), store.operators, sender)
  {
    var tokens, operators := store.tokens, store.operators;
    if tokenId !in tokens {
      return Err(Std(NotFound(TokenInfoKind)));
    }
    var token := tokens[tokenId];
    var allowed := CheckCanApprove(operators, block, sender, token);
    if allowed.Err? {
      return Err(allowed.error);
    }
    var spenderAddr := AddrValidate(api, spender);
    if spenderAddr.Err? {
      return Err(Std(spenderAddr.error));
    }
    var expiration := ExpirationOrDefault(expires);
    if add && expiration.IsExpired(block) {
      return Err(Expired);
    }
    var approvals := Updated(token.approvals, spenderAddr.value, add, expiration);
    ApprovalEditAuthorized(tokens, operators, block, sender, tokenId, approvals);
    token := token.(approvals := approvals);
    store.tokens := tokens[tokenId := token];
    r := Ok(token);
  }
}
