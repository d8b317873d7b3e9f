/** The messages the contract accepts: instantiation, commands and queries. */
module Msg {
  import opened Types

  datatype InstantiateMsg = InstantiateMsg(name: string, symbol: string, minter: string)

  /** A mint request; `extension` is the caller's opaque payload. */
  datatype MintMsg<T> = MintMsg(tokenId: string, owner: string, tokenUri: Option<string>, extension: T)

  /** The commands; `Extension` carries a caller-defined payload the core ignores. */
  datatype ExecuteMsg<T, M> =
    | Mint(mint: MintMsg<T>)
    | Approve(spender: string, tokenId: string, expires: Option<Expiration>)
    | Revoke(spender: string, tokenId: string)
    | ApproveAll(operator: string, expires: Option<Expiration>)
    | RevokeAll(operator: string)
    | TransferNft(recipient: string, tokenId: string)
    | SendNft(contract: string, tokenId: string, msg: Binary)
    | Burn(tokenId: string)
    | ExecuteExtension(ext: M)

  /** The queries; `includeExpired`, `startAfter` and `limit` are optional on the wire. */
  datatype QueryMsg<Q> =
    | Minter
    | ContractInfo
    | NftInfo(tokenId: string)
    | OwnerOf(tokenId: string, includeExpired: Option<bool>)
    | AllNftInfo(tokenId: string, includeExpired: Option<bool>)
    | AllOperators(owner: string, includeExpired: Option<bool>, startAfter: Option<string>, limit: Option<nat>)
    | NumTokens
    | AllTokens(startAfter: Option<string>, limit: Option<nat>)
    | ApprovalOf(tokenId: string, spender: string, includeExpired: Option<bool>)
    | Approvals(tokenId: string, includeExpired: Option<bool>)
    | Tokens(owner: string, startAfter: Option<string>, limit: Option<nat>)
    | QueryExtension(ext: Q)
}
