/** The persisted state: token records, the owner index derived from them, the operator
    grants, the live-token counter and the two singletons (contract info and minter). */
module State {
  import opened Types

  /** The `{name, symbol}` singleton. */
  datatype ContractInfo = ContractInfo(name: string, symbol: string)

  /** A per-token grant letting `spender` transfer, send or burn one token until `expires`. */
  datatype Approval = Approval(spender: Addr, expires: Expiration) {
    predicate IsExpired(block: BlockInfo) {
      expires.IsExpired(block)
    }
  }

  /** Blocks only move forward, so a lapsed approval stays lapsed: at any later block (no
      lower height, no earlier time) it is still expired. */
  lemma LapsedStaysLapsed(approval: Approval, earlier: BlockInfo, later: BlockInfo)
    requires earlier.height <= later.height && earlier.time <= later.time
    requires approval.IsExpired(earlier)
    ensures approval.IsExpired(later)
  {
  }

  /** One token record; `tokenUri` points at off-ledger metadata and `extension` is opaque. */
  datatype TokenInfo<T> = TokenInfo(owner: Addr, approvals: seq<Approval>, tokenUri: Option<string>, extension: T)

  /** The record invariant: no spender has two entries in a token's approval list. */
  predicate UniqueSpenders(approvals: seq<Approval>) {
    forall i, j :: 0 <= i < j < |approvals| ==> approvals[i].spender != approvals[j].spender
  }

  /** The owner secondary index: the ids of the records whose `owner` is `owner`. It is computed
      from the records themselves, so it can never hold a stale entry. */
  function OwnedTokens<T>(tokens: map<string, TokenInfo<T>>, owner: Addr): (owned: set<string>)
    ensures owned <= tokens.Keys
  {
    set id | id in tokens && tokens[id].owner == owner
  }

  /** The index partitions the live ids: each lies in its owner's entry, and no id lies in
      the entries of two different owners. */
  lemma OwnerIndexPartitions<T>(tokens: map<string, TokenInfo<T>>, id: string, a: Addr, b: Addr)
    ensures id in tokens ==> id in OwnedTokens(tokens, tokens[id].owner)
    ensures a != b ==> OwnedTokens(tokens, a) !! OwnedTokens(tokens, b)
  {
  }

  /** Moving a token to a new owner moves exactly that id from the old owner's index entry to
      the new owner's, and leaves every other owner's entry as it was. */
  lemma {:induction false} OwnedTokensAfterTransfer<T>(tokens: map<string, TokenInfo<T>>, id: string, recipient: Addr, who: Addr)
    requires id in tokens
    ensures var after := tokens[id := tokens[id].(owner := recipient, approvals := [])];
      && (who == recipient ==> OwnedTokens(after, who) == OwnedTokens(tokens, who) + {id})
      && (who != recipient ==> OwnedTokens(after, who) == OwnedTokens(tokens, who) - {id})
  {
    var after := tokens[id := tokens[id].(owner := recipient, approvals := [])];
    if who == recipient {
      assert forall k :: k in OwnedTokens(after, who) <==> k in OwnedTokens(tokens, who) + {id};
    } else {
      assert forall k :: k in OwnedTokens(after, who) <==> k in OwnedTokens(tokens, who) - {id};
    }
  }

  /** Removing a record removes its id from the index and nothing else. */
  lemma {:induction false} OwnedTokensAfterRemove<T>(tokens: map<string, TokenInfo<T>>, id: string, who: Addr)
    ensures OwnedTokens(tokens - {id}, who) == OwnedTokens(tokens, who) - {id}
  {
    assert forall k :: k in OwnedTokens(tokens - {id}, who) <==> k in OwnedTokens(tokens, who) - {id};
  }

  /** Mint's update of the token map: the record goes in under a free id, and an id already in
      use is `Claimed` with the map left alone. */
  function ClaimTokenId<T>(tokens: map<string, TokenInfo<T>>, id: string, token: TokenInfo<T>): (r: Result<map<string, TokenInfo<T>>, ContractError>)
    ensures r.Err? <==> id in tokens
    ensures r.Err? ==> r.error == Claimed
    ensures r.Ok? ==> r.value == tokens[id := token] && |r.value| == |tokens| + 1
  {
    if id in tokens then Err(Claimed) else Ok(tokens[id := token])
  }

  /** A claimed id cannot be claimed again, and the first record survives the second attempt. */
  lemma ClaimTwiceFails<T>(tokens: map<string, TokenInfo<T>>, id: string, first: TokenInfo<T>, second: TokenInfo<T>)
    requires id !in tokens
    ensures var once := ClaimTokenId(tokens, id, first);
      && once.Ok? && once.value[id] == first
      && ClaimTokenId(once.value, id, second) == Err(Claimed)
  {
  }

  /** The contract's storage. Each field is one storage item or map; an absent singleton is `None`. */
  class Store<T> {
    var contractInfo: Option<ContractInfo>
    var minter: Option<Addr>
    var tokenCount: Option<nat>
    var operators: map<(Addr, Addr), Expiration>
    var tokens: map<string, TokenInfo<T>>

    /** Empty storage, before instantiation. */
    constructor ()
      ensures contractInfo == None && minter == None && tokenCount == None
      ensures operators == map[] && tokens == map[]
      ensures TokenCount() == 0 && GetMinter() == ""
      ensures Valid()
    {
      contractInfo, minter, tokenCount := None, None, None;
      operators, tokens := map[], map[];
    }

    /** The ledger invariants: the counter equals the number of live records, and every
        record's approval list is unique by spender. */
    ghost predicate Valid()
      reads this
    {
      && TokenCount() == |tokens|
      && forall id :: id in tokens ==> UniqueSpenders(tokens[id].approvals)
    }

    /** `token_count`: the stored counter, 0 when it was never saved. */
    function TokenCount(): nat
      reads this
    {
      tokenCount.GetOr(0)
    }

    /** `get_minter`: the stored minter, the empty address when none is stored. */
    function GetMinter(): Addr
      reads this
    {
      minter.GetOr("")
    }

    /** `increment_tokens`: stores and returns the old count plus one. */
    method IncrementTokens() returns (val: nat)
      modifies this`tokenCount
      ensures val == old(TokenCount()) + 1
      ensures tokenCount == Some(val)
    {
      val := TokenCount() + 1;
      tokenCount := Some(val);
    }

    /** `decrement_tokens`: stores and returns the old count minus one. The source has no
        guard at zero; callers keep the count positive (see `Valid`). */
    method DecrementTokens() returns (val: nat)
      requires TokenCount() > 0
      modifies this`tokenCount
      ensures val == old(TokenCount()) - 1
      ensures tokenCount == Some(val)
    {
      val := TokenCount() - 1;
      tokenCount := Some(val);
    }

    /** `set_contract_info`: a storage failure (`storageOk == false`) becomes ContractInfoSaveError. */
    method SetContractInfo(info: ContractInfo, storageOk: bool) returns (r: Result<Response, ContractError>)
      modifies this`contractInfo
      ensures storageOk ==> r == Ok(EmptyResponse) && contractInfo == Some(info)
      ensures !storageOk ==> r == Err(ContractInfoSaveError) && contractInfo == old(contractInfo)
    {
      if storageOk {
        contractInfo := Some(info);
        r := Ok(EmptyResponse);
      } else {
        r := Err(ContractInfoSaveError);
      }
    }

    /** `set_minter`: a storage failure (`storageOk == false`) becomes MinterSaveError. */
    method SetMinter(addr: Addr, storageOk: bool) returns (r: Result<Response, ContractError>)
      modifies this`minter
      ensures storageOk ==> r == Ok(EmptyResponse) && minter == Some(addr)
      ensures !storageOk ==> r == Err(MinterSaveError) && minter == old(minter)
    {
      if storageOk {
        minter := Some(addr);
        r := Ok(EmptyResponse);
      } else {
        r := Err(MinterSaveError);
      }
    }
  }
}
