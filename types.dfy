/** Values shared by every part of the registry: results, the error taxonomy, addresses and
    the host's address validator, blocks and expirations, and the response a command returns. */
module Types {

  /** An optional value. */
  datatype Option<+T> = None | Some(value: T) {
    /** The value, or `default` when there is none (Rust's `unwrap_or`). */
    function GetOr(default: T): T {
      match this
      case Some(v) => v
      case None => default
    }
  }

  /** The outcome of an operation that can fail. */
  datatype Result<+R, +E> = Ok(value: R) | Err(error: E)

  /** A canonical account address, as the host's validator hands it back. */
  type Addr = string

  /** An opaque payload that is carried along without being interpreted. */
  type Binary = seq<bv8>

  /** The host's standard errors: a storage load that finds nothing, or an address the
      validator refuses. */
  datatype StdError =
    | NotFound(kind: string)
    | InvalidAddress(input: string)

  /** The contract's error taxonomy (the `CustomError` pass-through variant is not modelled). */
  datatype ContractError =
    | Std(std: StdError)
    | Unauthorized
    | Claimed
    | Expired
    | ApprovalNotFound(spender: string)
    | ContractInfoSaveError
    | MinterSaveError

  /** What a failed storage load reports for a missing token record. */
  const TokenInfoKind: string := "TokenInfo"

  /** The host's address validator, an external capability: it accepts or refuses a string. */
  datatype Api = Api(isValid: string -> bool)

  /** `addr_validate`: the canonical address is the input itself, or the input is refused. */
  function AddrValidate(api: Api, input: string): Result<Addr, StdError> {
    if api.isValid(input) then Ok(input) else Err(InvalidAddress(input))
  }

  /** `maybe_addr`: validates an optional address, passing an absent one through. */
  function MaybeAddr(api: Api, input: Option<string>): Result<Option<Addr>, StdError> {
    match input
    case None => Ok(None)
    case Some(s) => if api.isValid(s) then Ok(Some(s)) else Err(InvalidAddress(s))
  }

  /** The block the current transition runs in. */
  datatype BlockInfo = BlockInfo(height: nat, time: nat)

  /** The execution environment handed to every handler. */
  datatype Env = Env(block: BlockInfo, contract: Addr)

  /** When a grant lapses: at a block height, at a block time, or never. */
  datatype Expiration = AtHeight(height: nat) | AtTime(time: nat) | Never {
    /** A grant has lapsed once the block reaches its bound; `Never` never lapses. */
    predicate IsExpired(block: BlockInfo) {
      match this
      case AtHeight(h) => block.height >= h
      case AtTime(t) => block.time >= t
      case Never => false
    }
  }

  /** `unwrap_or_default` on an optional expiration: the default is `Never`. */
  function ExpirationOrDefault(expires: Option<Expiration>): Expiration {
    expires.GetOr(Never)
  }

  /** One string-keyed, string-valued event attribute. */
  datatype Attribute = Attribute(key: string, value: string)

  /** The outbound notification `send_nft` addresses to the receiving contract. */
  datatype ReceiveMsg = ReceiveMsg(contract: string, sender: Addr, tokenId: string, msg: Binary)

  /** What a successful command returns: outbound messages and event attributes. */
  datatype Response = Response(messages: seq<ReceiveMsg>, attributes: seq<Attribute>)

  const EmptyResponse: Response := Response([], [])
}
