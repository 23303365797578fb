/** Persistent state of the tiered NFT registry.

    The store holds, under distinct keys: the contract info, the minter, one
    `u64` counter per rank, the token records keyed by id, and the operator
    grants keyed by (owner, operator). Each lives in its own field here, so a
    write to one can never alias another. */
module Cw721State {
  import opened Host
  import opened TokenId

  datatype Approval = Approval(spender: Addr, expires: Expiration)

  /** A token record: its owner, the per-token approvals (cleared on every
      transfer) and the rank string given at mint. */
  datatype TokenInfo = TokenInfo(owner: Addr, approvals: seq<Approval>, rank: string)

  datatype ContractInfo = ContractInfo(
    name: string,
    symbol: string,
    baseCap: Uint128,
    silverCap: Uint128,
    goldCap: Uint128)

  /** `counters` holds only the rank counters written so far. */
  datatype State = State(
    info: ContractInfo,
    minter: Addr,
    counters: map<Tier, Uint64>,
    tokens: map<string, TokenInfo>,
    operators: map<(Addr, Addr), Expiration>)

  function Cap(info: ContractInfo, t: Tier): Uint128 {
    match t
    case Base => info.baseCap
    case Silver => info.silverCap
    case Gold => info.goldCap
  }

  /** `*_num_tokens`: a counter never written reads as 0. */
  function NumTokens(s: State, t: Tier): Uint64 {
    if t in s.counters then s.counters[t] else 0
  }

  /** `increment_*_tokens`: stores and returns the previous count plus one;
      the `u64` addition aborts the call on overflow. Only the chosen rank's
      counter changes. */
  function IncrementTokens(s: State, t: Tier): (r: Result<(State, Uint64)>)
    ensures r.Ok? <==> NumTokens(s, t) < MAX_UINT64
    ensures r.Ok? ==> r.value.1 == NumTokens(s, t) + 1
    ensures r.Ok? ==> NumTokens(r.value.0, t) == r.value.1
    ensures r.Ok? ==> forall u :: u != t ==> NumTokens(r.value.0, u) == NumTokens(s, u)
    ensures r.Ok? ==> r.value.0 == s.(counters := r.value.0.counters)
  {
    var val := NumTokens(s, t) + 1;
    if val > MAX_UINT64 then Err(Overflow)
    else Ok((s.(counters := s.counters[t := val]), val))
  }

  /** The grant `owner` gave `operator`, if any. */
  function OperatorGrant(s: State, owner: Addr, operator: Addr): Option<Expiration> {
    if (owner, operator) in s.operators then Some(s.operators[(owner, operator)]) else None
  }

  /** At most one approval per spender on a token. */
  predicate NoDupSpenders(approvals: seq<Approval>) {
    forall i, j :: 0 <= i < j < |approvals| ==> approvals[i].spender != approvals[j].spender
  }
}
