/** The read-only queries. Each works on the stored values it needs; none changes anything. */
module Queries {
  import opened Types
  import opened Seqs
  import opened State
  import opened KeyOrder

  /** What a failed load of the contract-info singleton reports. */
  const ContractInfoKind: string := "ContractInfoResponse"
  /** What the approval query reports when the spender holds no qualifying entry. */
  const ApprovalNotFoundKind: string := "Approval not found"

  datatype NftInfoResponse<T> = NftInfoResponse(tokenUri: Option<string>, extension: T)
  datatype OwnerOfResponse = OwnerOfResponse(owner: Addr, approvals: seq<Approval>)
  datatype AllNftInfoResponse<T> = AllNftInfoResponse(access: OwnerOfResponse, info: NftInfoResponse<T>)

  /** `CONTRACT_INFO.load`: the singleton, or not-found before instantiation. */
  function LoadContractInfo(info: Option<ContractInfo>): (r: Result<ContractInfo, StdError>)
    ensures r.Ok? <==> info.Some?
    ensures r.Ok? ==> r.value == info.value
    ensures r.Err? ==> r.error == NotFound(ContractInfoKind)
  {
    match info
    case Some(i) => Ok(i)
    case None => Err(NotFound(ContractInfoKind))
  }

  /** `tokens().load`: the record under `id`, or not-found. */
  function LoadToken<T>(tokens: map<string, TokenInfo<T>>, id: string): (r: Result<TokenInfo<T>, StdError>)
    ensures r.Ok? <==> id in tokens
    ensures r.Ok? ==> r.value == tokens[id]
    ensures r.Err? ==> r.error == NotFound(TokenInfoKind)
  {
    if id in tokens then Ok(tokens[id]) else Err(NotFound(TokenInfoKind))
  }

  /** `humanize_approvals`: the entries that have not lapsed, or all of them with
      `includeExpired`, in stored order. */
  function Unexpired(approvals: seq<Approval>, block: BlockInfo, includeExpired: bool): (r: seq<Approval>)
    ensures forall a :: a in r <==> a in approvals && (includeExpired || !a.IsExpired(block))
    ensures IsSubsequence(r, approvals)
    ensures includeExpired ==> r == approvals
  {
    var keep := (a: Approval) => includeExpired || !a.IsExpired(block);
    FilterMembers(approvals, keep);
    FilterSubsequence(approvals, keep);
    var r := Filter(approvals, keep);
    assert includeExpired ==> r == approvals by {
      if includeExpired {
        FilterKeepsAll(approvals, keep);
      }
    }
    r
  }

  /** `nft_info`: the token's metadata. */
  function NftInfo<T>(tokens: map<string, TokenInfo<T>>, id: string): (r: Result<NftInfoResponse<T>, StdError>)
    ensures r.Ok? <==> id in tokens
    ensures r.Ok? ==> r.value == NftInfoResponse(tokens[id].tokenUri, tokens[id].extension)
    ensures r.Err? ==> r.error == NotFound(TokenInfoKind)
  {
    var token := LoadToken(tokens, id);
    if token.Err? then Err(token.error)
    else Ok(NftInfoResponse(token.value.tokenUri, token.value.extension))
  }

  /** `owner_of`: the owner and the (unexpired unless asked otherwise) approvals. */
  function OwnerOf<T>(tokens: map<string, TokenInfo<T>>, block: BlockInfo, id: string, includeExpired: bool)
    : (r: Result<OwnerOfResponse, StdError>)
    ensures r.Ok? <==> id in tokens
    ensures r.Ok? ==> r.value.owner == tokens[id].owner
    ensures r.Ok? ==> forall a :: a in r.value.approvals <==> a in tokens[id].approvals && (includeExpired || !a.IsExpired(block))
    ensures r.Ok? ==> IsSubsequence(r.value.approvals, tokens[id].approvals)
    ensures r.Err? ==> r.error == NotFound(TokenInfoKind)
  {
    var token := LoadToken(tokens, id);
    if token.Err? then Err(token.error)
    else Ok(OwnerOfResponse(token.value.owner, Unexpired(token.value.approvals, block, includeExpired)))
  }

  /** `all_nft_info`: both views of one record, and they agree with the separate queries. */
  function AllNftInfo<T>(tokens: map<string, TokenInfo<T>>, block: BlockInfo, id: string, includeExpired: bool)
    : (r: Result<AllNftInfoResponse<T>, StdError>)
    ensures r.Ok? <==> id in tokens
    ensures r.Ok? ==> r.value.access == OwnerOf(tokens, block, id, includeExpired).value
    ensures r.Ok? ==> r.value.info == NftInfo(tokens, id).value
    ensures r.Err? ==> r.error == NotFound(TokenInfoKind)
  {
    var token := LoadToken(tokens, id);
    if token.Err? then Err(token.error)
    else
      var info := token.value;
      Ok(AllNftInfoResponse(OwnerOfResponse(info.owner, Unexpired(info.approvals, block, includeExpired)),
                            NftInfoResponse(info.tokenUri, info.extension)))
  }

  /** The owner query and the owner index agree: `owner_of` names `who` exactly for the ids
      in `who`'s index entry. */
  lemma OwnerOfAgreesWithIndex<T>(tokens: map<string, TokenInfo<T>>, block: BlockInfo, id: string, includeExpired: bool, who: Addr)
    ensures var r := OwnerOf(tokens, block, id, includeExpired);
      (r.Ok? && r.value.owner == who) <==> id in OwnedTokens(tokens, who)
  {
  }

  /** Transfers and approval updates rewrite only the owner and the approval list: the
      metadata `nft_info` returns is the same before and after. */
  lemma MetadataSurvivesTransfer<T>(tokens: map<string, TokenInfo<T>>, id: string, recipient: Addr, approvals: seq<Approval>, other: string)
    requires id in tokens
    ensures NftInfo(tokens[id := tokens[id].(owner := recipient, approvals := approvals)], other) == NftInfo(tokens, other)
  {
  }

  // ---------------------------------------------------------------------------------------
  // Listings
  // ---------------------------------------------------------------------------------------

  /** One page of a key listing: ascending keys strictly after the cursor, at most
      `min(limit.unwrap_or(10), 100)` of them, skipping none. */
  function Page(keys: set<string>, startAfter: Option<string>, limit: Option<nat>): (ids: seq<string>)
    ensures |ids| <= EffectiveLimit(limit) && |ids| <= |keys|
    ensures Ascending(ids)
    ensures forall k :: k in ids ==> k in keys && IsAfter(k, startAfter)
    ensures forall k :: k in keys && IsAfter(k, startAfter) && k !in ids ==>
      |ids| == EffectiveLimit(limit) && (|ids| == 0 || Less(ids[|ids| - 1], k))
  {
    var matching := After(SortedKeys(keys), startAfter);
    PageOfAscending(matching, EffectiveLimit(limit));
    Take(matching, EffectiveLimit(limit))
  }

  /** A full page followed by the page that resumes after its last key is one longer page: a
      client walking the pages sees every key once, in order. */
  lemma PagesConcatenate(keys: set<string>, startAfter: Option<string>, limit: Option<nat>, nextLimit: Option<nat>)
    requires var ids := Page(keys, startAfter, limit); 0 < |ids| == EffectiveLimit(limit)
    ensures var ids := Page(keys, startAfter, limit);
      ids + Page(keys, Some(ids[|ids| - 1]), nextLimit)
        == Take(After(SortedKeys(keys), startAfter), EffectiveLimit(limit) + EffectiveLimit(nextLimit))
  {
    var matching := After(SortedKeys(keys), startAfter);
    var n := EffectiveLimit(limit);
    var ids := Page(keys, startAfter, limit);
    NextPageContinues(SortedKeys(keys), startAfter, n);
    assert ids == Take(matching, n) == matching[..n];
    assert Page(keys, Some(ids[n - 1]), nextLimit) == Take(matching[n..], EffectiveLimit(nextLimit));
    TakeAfterPrefix(matching, n, EffectiveLimit(nextLimit));
  }

  /** Taking `m` more after a prefix of length `n` is taking `n + m`. */
  lemma TakeAfterPrefix<X>(s: seq<X>, n: nat, m: nat)
    requires n <= |s|
    ensures s[..n] + Take(s[n..], m) == Take(s, n + m)
  {
    if |s| <= n + m {
      assert s[..n] + s[n..] == s;
    } else {
      assert s[..n] + s[n..][..m] == s[..n + m];
    }
  }

  /** `tokens`: a page of the ids `owner` holds; the owner must be a valid address, the cursor
      is taken as it is. */
  function Tokens<T>(api: Api, tokens: map<string, TokenInfo<T>>, owner: string, startAfter: Option<string>, limit: Option<nat>)
    : (r: Result<seq<string>, StdError>)
    ensures r.Err? <==> !api.isValid(owner)
    ensures r.Err? ==> r.error == InvalidAddress(owner)
    ensures r.Ok? ==> |r.value| <= EffectiveLimit(limit) && |r.value| <= |OwnedTokens(tokens, owner)| && Ascending(r.value)
    ensures r.Ok? ==> forall id :: id in r.value ==> id in tokens && tokens[id].owner == owner && IsAfter(id, startAfter)
    ensures r.Ok? ==> forall id :: id in tokens && tokens[id].owner == owner && IsAfter(id, startAfter) && id !in r.value ==>
      |r.value| == EffectiveLimit(limit) && (|r.value| == 0 || Less(r.value[|r.value| - 1], id))
  {
    var ownerAddr := AddrValidate(api, owner);
    if ownerAddr.Err? then Err(ownerAddr.error)
    else Ok(Page(OwnedTokens(tokens, ownerAddr.value), startAfter, limit))
  }

  /** `all_tokens`: a page of every live id. */
  function AllTokens<T>(tokens: map<string, TokenInfo<T>>, startAfter: Option<string>, limit: Option<nat>): (ids: seq<string>)
    ensures |ids| <= EffectiveLimit(limit) && |ids| <= |tokens| && Ascending(ids)
    ensures forall id :: id in ids ==> id in tokens && IsAfter(id, startAfter)
    ensures forall id :: id in tokens && IsAfter(id, startAfter) && id !in ids ==>
      |ids| == EffectiveLimit(limit) && (|ids| == 0 || Less(ids[|ids| - 1], id))
  {
    Page(tokens.Keys, startAfter, limit)
  }

  /** Every live id shows up in the listing of exactly its owner's tokens, and every id an
      owner's listing holds is in the listing of all tokens when that fits on one page. */
  lemma TokensPartitionAllTokens<T>(api: Api, tokens: map<string, TokenInfo<T>>, id: string, who: Addr)
    requires api.isValid(who)
    requires id in tokens
    ensures id in Tokens(api, tokens, who, None, Some(MaxLimit)).value
        <== tokens[id].owner == who && |OwnedTokens(tokens, who)| <= MaxLimit
    ensures id in Tokens(api, tokens, who, None, Some(MaxLimit)).value ==> tokens[id].owner == who
    ensures id in Tokens(api, tokens, who, None, Some(MaxLimit)).value && |tokens| <= MaxLimit
        ==> id in AllTokens(tokens, None, Some(MaxLimit))
  {
    var all := After(SortedKeys(tokens.Keys), None);
    assert id in all;
    assert |tokens| <= MaxLimit ==> Take(all, MaxLimit) == all;
  }

  /** The grantees whose grant from `owner` is listed: all of them with `includeExpired`,
      otherwise those whose grant has not lapsed. */
  function ListedOperators(operators: map<(Addr, Addr), Expiration>, owner: Addr, block: BlockInfo, includeExpired: bool): (s: set<Addr>)
    ensures forall op :: op in s <==> (owner, op) in operators && (includeExpired || !operators[(owner, op)].IsExpired(block))
  {
    var s := set k | k in operators.Keys && k.0 == owner && (includeExpired || !operators[k].IsExpired(block)) :: k.1;
    assert forall op :: (owner, op) in operators ==> (owner, op).1 == op;
    s
  }

  /** The spenders of a list of approvals, in order. */
  function Spenders(approvals: seq<Approval>): (spenders: seq<Addr>)
    ensures |spenders| == |approvals|
    ensures forall i :: 0 <= i < |approvals| ==> spenders[i] == approvals[i].spender
  {
    seq(|approvals|, i requires 0 <= i < |approvals| => approvals[i].spender)
  }

  /** Pairs each listed operator with the expiration of its grant from `owner`. */
  function GrantsOf(operators: map<(Addr, Addr), Expiration>, owner: Addr, ids: seq<Addr>): (approvals: seq<Approval>)
    requires forall id :: id in ids ==> (owner, id) in operators
    ensures Spenders(approvals) == ids
    ensures forall a :: a in approvals ==> a.spender in ids && operators[(owner, a.spender)] == a.expires
  {
    var approvals := seq(|ids|, i requires 0 <= i < |ids| => Approval(ids[i], operators[(owner, ids[i])]));
    assert Spenders(approvals) == ids;
    approvals
  }

  /** The test `operators` applies to each grant in the owner's range: the grant qualifies
      when it has not lapsed, or always with `includeExpired`. */
  function QualifyingGrant(operators: map<(Addr, Addr), Expiration>, owner: Addr, block: BlockInfo, includeExpired: bool)
    : string -> bool
  {
    op => (owner, op) in operators && (includeExpired || !operators[(owner, op)].IsExpired(block))
  }

  /** Filtering the owner's ascending range before taking a page, as `operators` does, gives
      the page of the qualifying grantees. */
  lemma FilteredRangeIsPage(operators: map<(Addr, Addr), Expiration>, owner: Addr, block: BlockInfo, includeExpired: bool,
                            startAfter: Option<string>, limit: Option<nat>)
    ensures Take(Filter(After(SortedKeys(ListedOperators(operators, owner, block, true)), startAfter),
                        QualifyingGrant(operators, owner, block, includeExpired)), EffectiveLimit(limit))
         == Page(ListedOperators(operators, owner, block, includeExpired), startAfter, limit)
  {
    var keep := QualifyingGrant(operators, owner, block, includeExpired);
    var range := After(SortedKeys(ListedOperators(operators, owner, block, true)), startAfter);
    var listed := After(SortedKeys(ListedOperators(operators, owner, block, includeExpired)), startAfter);
    FilterAscending(range, keep);
    FilterMembers(range, keep);
    AscendingUnique(Filter(range, keep), listed);
  }

  /** `operators`: the cursor is validated first, then the owner; the owner's grants are
      scanned in ascending operator order after the cursor, the qualifying ones kept, and a
      page of them taken. */
  function Operators(api: Api, block: BlockInfo, operators: map<(Addr, Addr), Expiration>, owner: string,
                     includeExpired: bool, startAfter: Option<string>, limit: Option<nat>): (r: Result<seq<Approval>, StdError>)
    ensures startAfter.Some? && !api.isValid(startAfter.value) ==> r == Err(InvalidAddress(startAfter.value))
    ensures (startAfter.None? || api.isValid(startAfter.value)) ==>
      (r.Err? <==> !api.isValid(owner)) && (r.Err? ==> r.error == InvalidAddress(owner))
    ensures r.Ok? ==> |r.value| <= EffectiveLimit(limit) && Ascending(Spenders(r.value))
    ensures r.Ok? ==> |r.value| <= |ListedOperators(operators, owner, block, includeExpired)|
    ensures r.Ok? ==> forall a :: a in r.value ==>
      && (owner, a.spender) in operators && operators[(owner, a.spender)] == a.expires
      && IsAfter(a.spender, startAfter) && (includeExpired || !a.IsExpired(block))
    ensures r.Ok? ==> forall op :: (owner, op) in operators && (includeExpired || !operators[(owner, op)].IsExpired(block))
                                    && IsAfter(op, startAfter) && op !in Spenders(r.value) ==>
      |r.value| == EffectiveLimit(limit) && (|r.value| == 0 || Less(r.value[|r.value| - 1].spender, op))
  {
    var start := MaybeAddr(api, startAfter);
    if start.Err? then Err(start.error)
    else
      var ownerAddr := AddrValidate(api, owner);
      if ownerAddr.Err? then Err(ownerAddr.error)
      else
        var range := After(SortedKeys(ListedOperators(operators, ownerAddr.value, block, true)), start.value);
        var ids := Take(Filter(range, QualifyingGrant(operators, ownerAddr.value, block, includeExpired)), EffectiveLimit(limit));
        FilteredRangeIsPage(operators, ownerAddr.value, block, includeExpired, start.value, limit);
        Ok(GrantsOf(operators, ownerAddr.value, ids))
  }

  /** `approvals`: the token's approval list, lapsed entries dropped unless asked for. */
  function Approvals<T>(tokens: map<string, TokenInfo<T>>, block: BlockInfo, id: string, includeExpired: bool)
    : (r: Result<seq<Approval>, StdError>)
    ensures r.Ok? <==> id in tokens
    ensures r.Ok? ==> forall a :: a in r.value <==> a in tokens[id].approvals && (includeExpired || !a.IsExpired(block))
    ensures r.Ok? ==> IsSubsequence(r.value, tokens[id].approvals)
    ensures r.Err? ==> r.error == NotFound(TokenInfoKind)
  {
    var token := LoadToken(tokens, id);
    if token.Err? then Err(token.error)
    else Ok(Unexpired(token.value.approvals, block, includeExpired))
  }

  /** An entry of `approvals` that `approval` may report for `spender`. */
  predicate Qualifies(a: Approval, spender: string, block: BlockInfo, includeExpired: bool) {
    a.spender == spender && (includeExpired || !a.IsExpired(block))
  }

  /** `approval`: the owner is always approved, forever; otherwise the first entry of the
      spender that has not lapsed (or any, with `includeExpired`), else not-found. The two
      filters of the source are applied as one. */
  function ApprovalOf<T>(tokens: map<string, TokenInfo<T>>, block: BlockInfo, id: string, spender: string, includeExpired: bool)
    : (r: Result<Approval, StdError>)
    ensures id !in tokens ==> r == Err(NotFound(TokenInfoKind))
    ensures id in tokens && tokens[id].owner == spender ==> r == Ok(Approval(spender, Never))
    ensures id in tokens && tokens[id].owner != spender ==>
      var approvals := tokens[id].approvals;
      && (r.Ok? <==> exists i :: 0 <= i < |approvals| && Qualifies(approvals[i], spender, block, includeExpired))
      && (r.Ok? ==> exists i :: 0 <= i < |approvals| && Qualifies(approvals[i], spender, block, includeExpired) && r.value == approvals[i]
                                && forall j :: 0 <= j < i ==> !Qualifies(approvals[j], spender, block, includeExpired))
      && (r.Err? ==> r.error == NotFound(ApprovalNotFoundKind))
  {
    var token := LoadToken(tokens, id);
    if token.Err? then Err(token.error)
    else if token.value.owner == spender then Ok(Approval(token.value.owner, Never))
    else
      var keep := (a: Approval) => Qualifies(a, spender, block, includeExpired);
      FilterHead(token.value.approvals, keep);
      var filtered := Filter(token.value.approvals, keep);
      if filtered == [] then Err(NotFound(ApprovalNotFoundKind)) else Ok(filtered[0])
  }

  /** With spenders unique, the approval query reports the spender's one entry, and it agrees
      with the list the approvals query returns. */
  lemma ApprovalOfAgreesWithApprovals<T>(tokens: map<string, TokenInfo<T>>, block: BlockInfo, id: string, a: Approval, includeExpired: bool)
    requires id in tokens && UniqueSpenders(tokens[id].approvals)
    requires a.spender != tokens[id].owner
    ensures Approvals(tokens, block, id, includeExpired).Ok?
    ensures a in Approvals(tokens, block, id, includeExpired).value <==> ApprovalOf(tokens, block, id, a.spender, includeExpired) == Ok(a)
  {
    var approvals := tokens[id].approvals;
    var r := ApprovalOf(tokens, block, id, a.spender, includeExpired);
    if a in Approvals(tokens, block, id, includeExpired).value {
      var i :| 0 <= i < |approvals| && approvals[i] == a;
      assert Qualifies(approvals[i], a.spender, block, includeExpired);
      var k :| 0 <= k < |approvals| && Qualifies(approvals[k], a.spender, block, includeExpired) && r.value == approvals[k]
               && forall j :: 0 <= j < k ==> !Qualifies(approvals[j], a.spender, block, includeExpired);
      assert approvals[k].spender == approvals[i].spender;
    }
  }
}
