/** The host environment shared by both contracts: addresses, fixed-width
    unsigned amounts, expirations, the per-call environment, errors and the
    response a successful call hands back to the host.

    Human-readable and canonical addresses are collapsed into one `Addr`;
    storage keys and comparisons use it directly. */
module Host {

  type Addr = string

  const MAX_UINT128: nat := 0xffff_ffff_ffff_ffff_ffff_ffff_ffff_ffff
  const MAX_UINT64: nat := 0xffff_ffff_ffff_ffff

  /** `Uint128` amounts: arithmetic on them is checked explicitly. */
  type Uint128 = n: nat | n <= MAX_UINT128

  /** `u64` counters. */
  type Uint64 = n: nat | n <= MAX_UINT64

  /** Opaque serialised payloads, never interpreted by the contracts. */
  type Binary = seq<bv8>

  datatype Option<+T> = None | Some(value: T) {
    function GetOr(default: T): T {
      match this
      case Some(v) => v
      case None => default
    }
  }

  /** Error kinds a call can end with. `GenericErr` carries the message the
      contract reports; `Overflow` stands for an arithmetic panic, which
      aborts the call like any error. */
  datatype Error =
    | Unauthorized
    | NotFound
    | Underflow
    | Overflow
    | GenericErr(msg: string)

  datatype Result<+T> = Ok(value: T) | Err(error: Error) {
    predicate IsFailure() {
      Err?
    }

    function PropagateFailure<U>(): Result<U>
      requires Err?
    {
      Err(error)
    }

    function Extract(): T
      requires Ok?
    {
      value
    }
  }

  /** Checked `Uint128` addition: overflow aborts the call. */
  function Add128(a: Uint128, b: Uint128): (r: Result<Uint128>)
    ensures r.Ok? <==> a + b <= MAX_UINT128
    ensures r.Ok? ==> r.value == a + b
  {
    if a + b <= MAX_UINT128 then Ok(a + b) else Err(Overflow)
  }

  /** Checked `Uint128` subtraction: going below zero is an `Underflow`. */
  function Sub128(a: Uint128, b: Uint128): (r: Result<Uint128>)
    ensures r.Ok? <==> b <= a
    ensures r.Ok? ==> r.value + b == a
    ensures r.Err? ==> r.error == Underflow
  {
    if b <= a then Ok(a - b) else Err(Underflow)
  }

  datatype BlockInfo = BlockInfo(height: nat, time: nat)

  /** When an approval or operator grant stops being valid. */
  datatype Expiration = AtHeight(height: nat) | AtTime(time: nat) | Never

  /** cw0's `Expiration::is_expired`: a height or time bound has passed once
      the block reaches it; `Never` never expires. */
  predicate IsExpired(e: Expiration, block: BlockInfo) {
    match e
    case AtHeight(h) => block.height >= h
    case AtTime(t) => block.time >= t
    case Never => false
  }

  /** `expires.unwrap_or_default()`: a missing expiration means `Never`. */
  function ExpirationOrDefault(e: Option<Expiration>): Expiration {
    e.GetOr(Never)
  }

  datatype Coin = Coin(denom: string, amount: Uint128)

  /** The execution context of one call. */
  datatype Env = Env(block: BlockInfo, sender: Addr, sentFunds: seq<Coin>, contractAddr: Addr)

  /** Outbound calls a handler asks the host to dispatch after it commits.
      `Cw20Receive` is the `Cw20ReceiveMsg` notification executed on
      `contractAddr`; `Opaque` is a message supplied already encoded by the
      caller and relayed as is. */
  datatype CosmosMsg =
    | Cw20Receive(contractAddr: Addr, sender: Addr, amount: Uint128, msg: Option<Binary>)
    | Opaque(payload: Binary)

  datatype Attribute = Attribute(key: string, value: string)

  datatype Response = Response(messages: seq<CosmosMsg>, log: seq<Attribute>)
}
