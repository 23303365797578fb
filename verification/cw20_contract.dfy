/** The fungible-token ledger: instantiation, transfer, burn, mint with an
    optional cap, send with a receive notification, and the balance, token
    info and minter queries.

    As with the registry, a handler returns either an error (the host
    discards the call's writes) or the new state with its response. */
module Cw20 {
  import opened Host
  import opened Decimal

  const ZERO_AMOUNT: string := "Invalid zero amount"
  const CAP_EXCEEDED: string := "Minting cannot exceed the cap"
  const INITIAL_OVER_CAP: string := "Initial supply greater than cap"

  /** The native denomination whose attached amount `Send` logs. */
  const DEPOSIT_DENOM: string := "uusd"

  datatype MinterData = MinterData(minter: Addr, cap: Option<Uint128>)

  datatype TokenInfo = TokenInfo(
    name: string,
    symbol: string,
    decimals: nat,
    totalSupply: Uint128,
    mint: Option<MinterData>)

  datatype State = State(info: TokenInfo, balances: map<Addr, Uint128>)

  datatype Step = Step(state: State, response: Response)

  /** `get_cap`: the cap, if a minter with a cap is configured. */
  function CapOf(mint: Option<MinterData>): Option<Uint128> {
    match mint
    case None => None
    case Some(m) => m.cap
  }

  /** A balance with no record reads as zero. */
  function BalanceOf(balances: map<Addr, Uint128>, a: Addr): Uint128 {
    if a in balances then balances[a] else 0
  }

  function Balance(s: State, a: Addr): Uint128 {
    BalanceOf(s.balances, a)
  }

  function Log(action: string, rest: seq<Attribute>): seq<Attribute> {
    [Attribute("action", action)] + rest
  }

  // ---------------------------------------------------------------- init

  datatype InitialBalance = InitialBalance(address: Addr, amount: Uint128)

  datatype InitMsg = InitMsg(
    name: string,
    symbol: string,
    decimals: nat,
    initialBalances: seq<InitialBalance>,
    mint: Option<MinterData>)

  function AmountSum(rows: seq<InitialBalance>): nat
    decreases |rows|
  {
    if |rows| == 0 then 0 else rows[0].amount + AmountSum(rows[1..])
  }

  function Addresses(rows: seq<InitialBalance>): set<Addr> {
    set i | 0 <= i < |rows| :: rows[i].address
  }

  /** No later row repeats the address of row `i`. */
  predicate LastFor(rows: seq<InitialBalance>, i: int)
    requires 0 <= i < |rows|
  {
    forall j :: i < j < |rows| ==> rows[j].address != rows[i].address
  }

  /** `create_accounts`: writes each row's balance in order, a later row for
      the same address overwriting an earlier one, while the running total
      adds every row; the `Uint128` addition aborts on overflow. */
  function CreateAccounts(store: map<Addr, Uint128>, total: Uint128, rows: seq<InitialBalance>)
    : (r: Result<(map<Addr, Uint128>, Uint128)>)
    ensures r.Ok? <==> total + AmountSum(rows) <= MAX_UINT128
    ensures r.Ok? ==> r.value.1 == total + AmountSum(rows)
    decreases |rows|
  {
    if |rows| == 0 then Ok((store, total))
    else
      var row := rows[0];
      match Add128(total, row.amount)
      case Err(e) => Err(e)
      case Ok(total') => CreateAccounts(store[row.address := row.amount], total', rows[1..])
  }

  /** What `create_accounts` leaves in the store: exactly the old keys and
      the listed addresses; an unlisted address keeps its balance; a listed
      one holds the amount of its last row. */
  lemma {:induction false} CreateAccountsWrites(store: map<Addr, Uint128>, total: Uint128, rows: seq<InitialBalance>)
    requires CreateAccounts(store, total, rows).Ok?
    ensures CreateAccounts(store, total, rows).value.0.Keys == store.Keys + Addresses(rows)
    ensures forall a :: a in store && a !in Addresses(rows) ==>
      CreateAccounts(store, total, rows).value.0[a] == store[a]
    ensures forall i :: 0 <= i < |rows| && LastFor(rows, i) ==>
      CreateAccounts(store, total, rows).value.0[rows[i].address] == rows[i].amount
    decreases |rows|
  {
    if |rows| == 0 {
      assert CreateAccounts(store, total, rows) == Ok((store, total));
    } else {
      var row := rows[0];
      var stored := store[row.address := row.amount];
      var rest := rows[1..];
      assert CreateAccounts(store, total, rows) == CreateAccounts(stored, total + row.amount, rest);
      CreateAccountsWrites(stored, total + row.amount, rest);
      AddressesCons(rows);
      LastForTail(rows);
    }
  }

  lemma AddressesCons(rows: seq<InitialBalance>)
    requires |rows| > 0
    ensures Addresses(rows) == {rows[0].address} + Addresses(rows[1..])
  {
    assert forall i :: 1 <= i < |rows| ==> rows[1..][i - 1] == rows[i];
  }

  lemma LastForTail(rows: seq<InitialBalance>)
    requires |rows| > 0
    ensures forall i :: 1 <= i < |rows| && LastFor(rows, i) ==> LastFor(rows[1..], i - 1)
  {
  }

  /** `init`: creates the initial accounts and rejects a supply above the
      cap. `InitMsg::validate` is not part of this model. */
  function Init(msg: InitMsg): (r: Result<State>)
    ensures r.Ok? <==>
      && AmountSum(msg.initialBalances) <= MAX_UINT128
      && (CapOf(msg.mint).Some? ==> AmountSum(msg.initialBalances) <= CapOf(msg.mint).value)
    ensures AmountSum(msg.initialBalances) <= MAX_UINT128 && CapOf(msg.mint).Some?
            && AmountSum(msg.initialBalances) > CapOf(msg.mint).value
            ==> r == Err(GenericErr(INITIAL_OVER_CAP))
    ensures r.Ok? ==> r.value.info.totalSupply == AmountSum(msg.initialBalances)
    ensures r.Ok? ==> r.value.info.name == msg.name && r.value.info.symbol == msg.symbol
                      && r.value.info.decimals == msg.decimals
    ensures r.Ok? ==> r.value.info.mint == msg.mint
    ensures r.Ok? ==> r.value.balances == CreateAccounts(map[], 0, msg.initialBalances).value.0
  {
    var accounts :- CreateAccounts(map[], 0, msg.initialBalances);
    var supply := accounts.1;
    if CapOf(msg.mint).Some? && supply > CapOf(msg.mint).value then Err(GenericErr(INITIAL_OVER_CAP))
    else Ok(State(TokenInfo(msg.name, msg.symbol, msg.decimals, supply, msg.mint), accounts.0))
  }

  /** After instantiation exactly the listed addresses hold a balance, each
      the amount of its last row. */
  lemma InitBalances(msg: InitMsg)
    requires Init(msg).Ok?
    ensures Init(msg).value.balances.Keys == Addresses(msg.initialBalances)
    ensures forall i :: 0 <= i < |msg.initialBalances| && LastFor(msg.initialBalances, i) ==>
      Balance(Init(msg).value, msg.initialBalances[i].address) == msg.initialBalances[i].amount
  {
    CreateAccountsWrites(map[], 0, msg.initialBalances);
  }

  // ------------------------------------------------------------ handlers

  /** The two `accounts.update` calls shared by transfer and send: debit the
      sender (underflow is an error), then credit the recipient as read after
      the debit (overflow aborts). */
  function MoveBalance(balances: map<Addr, Uint128>, from: Addr, to: Addr, amount: Uint128)
    : (r: Result<map<Addr, Uint128>>)
    ensures BalanceOf(balances, from) < amount ==> r == Err(Underflow)
    ensures r.Ok? <==>
      && amount <= BalanceOf(balances, from)
      && (to == from || BalanceOf(balances, to) + amount <= MAX_UINT128)
    ensures r.Ok? ==> forall a ::
      BalanceOf(r.value, a) + (if a == from then amount else 0)
      == BalanceOf(balances, a) + (if a == to then amount else 0)
  {
    var debited :- Sub128(BalanceOf(balances, from), amount);
    var afterDebit := balances[from := debited];
    var credited :- Add128(BalanceOf(afterDebit, to), amount);
    Ok(afterDebit[to := credited])
  }

  /** `handle_transfer`. */
  function HandleTransfer(s: State, env: Env, recipient: Addr, amount: Uint128): (r: Result<Step>)
    ensures amount == 0 ==> r == Err(GenericErr(ZERO_AMOUNT))
    ensures 0 < amount && Balance(s, env.sender) < amount ==> r == Err(Underflow)
    ensures r.Ok? <==>
      && 0 < amount && amount <= Balance(s, env.sender)
      && (recipient == env.sender || Balance(s, recipient) + amount <= MAX_UINT128)
    ensures r.Ok? ==> forall a ::
      Balance(r.value.state, a) + (if a == env.sender then amount else 0)
      == Balance(s, a) + (if a == recipient then amount else 0)
    ensures r.Ok? ==> r.value.state.info == s.info
    ensures r.Ok? ==> r.value.response.messages == []
  {
    if amount == 0 then Err(GenericErr(ZERO_AMOUNT))
    else
      var balances :- MoveBalance(s.balances, env.sender, recipient, amount);
      Ok(Step(s.(balances := balances), Response([], Log("transfer", [
        Attribute("from", env.sender),
        Attribute("to", recipient),
        Attribute("amount", NatToString(amount))]))))
  }

  /** `handle_burn`: lowers the sender's balance and the total supply by the
      same amount. */
  function HandleBurn(s: State, env: Env, amount: Uint128): (r: Result<Step>)
    ensures amount == 0 ==> r == Err(GenericErr(ZERO_AMOUNT))
    ensures 0 < amount && Balance(s, env.sender) < amount ==> r == Err(Underflow)
    ensures r.Ok? <==> 0 < amount && amount <= Balance(s, env.sender) && amount <= s.info.totalSupply
    ensures r.Ok? ==> Balance(r.value.state, env.sender) + amount == Balance(s, env.sender)
    ensures r.Ok? ==> forall a :: a != env.sender ==> Balance(r.value.state, a) == Balance(s, a)
    ensures r.Ok? ==> r.value.state.info.totalSupply + amount == s.info.totalSupply
    ensures r.Ok? ==> r.value.state.info == s.info.(totalSupply := r.value.state.info.totalSupply)
    ensures r.Ok? ==> r.value.response.messages == []
  {
    if amount == 0 then Err(GenericErr(ZERO_AMOUNT))
    else
      var debited :- Sub128(Balance(s, env.sender), amount);
      var supply :- Sub128(s.info.totalSupply, amount);
      Ok(Step(State(s.info.(totalSupply := supply), s.balances[env.sender := debited]),
              Response([], Log("burn", [
                Attribute("from", env.sender),
                Attribute("amount", NatToString(amount))]))))
  }

  /** The sender is the configured minter. */
  predicate IsMinter(s: State, sender: Addr) {
    s.info.mint.Some? && s.info.mint.value.minter == sender
  }

  /** `handle_mint`: only the configured minter may mint; supply and the
      recipient's balance rise together, and the cap, if any, bounds the new
      supply. */
  function HandleMint(s: State, env: Env, recipient: Addr, amount: Uint128): (r: Result<Step>)
    ensures amount == 0 ==> r == Err(GenericErr(ZERO_AMOUNT))
    ensures 0 < amount && !IsMinter(s, env.sender) ==> r == Err(Unauthorized)
    ensures 0 < amount && IsMinter(s, env.sender) && s.info.totalSupply + amount <= MAX_UINT128
            && CapOf(s.info.mint).Some? && s.info.totalSupply + amount > CapOf(s.info.mint).value
            ==> r == Err(GenericErr(CAP_EXCEEDED))
    ensures r.Ok? <==>
      && 0 < amount
      && IsMinter(s, env.sender)
      && s.info.totalSupply + amount <= MAX_UINT128
      && (CapOf(s.info.mint).Some? ==> s.info.totalSupply + amount <= CapOf(s.info.mint).value)
      && Balance(s, recipient) + amount <= MAX_UINT128
    ensures r.Ok? ==> r.value.state.info.totalSupply == s.info.totalSupply + amount
    ensures r.Ok? ==> Balance(r.value.state, recipient) == Balance(s, recipient) + amount
    ensures r.Ok? ==> forall a :: a != recipient ==> Balance(r.value.state, a) == Balance(s, a)
    ensures r.Ok? ==> r.value.state.info == s.info.(totalSupply := r.value.state.info.totalSupply)
    ensures r.Ok? ==> r.value.response.messages == []
  {
    if amount == 0 then Err(GenericErr(ZERO_AMOUNT))
    else if !IsMinter(s, env.sender) then Err(Unauthorized)
    else
      var supply :- Add128(s.info.totalSupply, amount);
      var cap := CapOf(s.info.mint);
      if cap.Some? && supply > cap.value then Err(GenericErr(CAP_EXCEEDED))
      else
        var credited :- Add128(Balance(s, recipient), amount);
        Ok(Step(State(s.info.(totalSupply := supply), s.balances[recipient := credited]),
                Response([], Log("mint", [
                  Attribute("to", recipient),
                  Attribute("amount", NatToString(amount))]))))
  }

  /** The amount of the first attached coin in the deposit denomination, or
      zero if there is none. */
  function DepositAmount(funds: seq<Coin>): (amount: Uint128)
    ensures (forall i :: 0 <= i < |funds| ==> funds[i].denom != DEPOSIT_DENOM) ==> amount == 0
    ensures forall i :: 0 <= i < |funds| && funds[i].denom == DEPOSIT_DENOM
              && (forall j :: 0 <= j < i ==> funds[j].denom != DEPOSIT_DENOM)
              ==> amount == funds[i].amount
    decreases |funds|
  {
    if |funds| == 0 then 0
    else if funds[0].denom == DEPOSIT_DENOM then funds[0].amount
    else
      assert forall i :: 1 <= i < |funds| ==> funds[1..][i - 1] == funds[i];
      DepositAmount(funds[1..])
  }

  /** `handle_send`: moves balances exactly as a transfer to `contract` and
      emits one receive notification to it; attached native coins are only
      logged. */
  function HandleSend(s: State, env: Env, contract: Addr, amount: Uint128, msg: Option<Binary>): (r: Result<Step>)
    ensures amount == 0 ==> r == Err(GenericErr(ZERO_AMOUNT))
    ensures 0 < amount && Balance(s, env.sender) < amount ==> r == Err(Underflow)
    ensures r.Ok? <==>
      && 0 < amount && amount <= Balance(s, env.sender)
      && (contract == env.sender || Balance(s, contract) + amount <= MAX_UINT128)
    ensures r.Ok? ==> forall a ::
      Balance(r.value.state, a) + (if a == env.sender then amount else 0)
      == Balance(s, a) + (if a == contract then amount else 0)
    ensures r.Ok? ==> r.value.state.info == s.info
    ensures r.Ok? ==> r.value.response.messages == [Cw20Receive(contract, env.sender, amount, msg)]
  {
    if amount == 0 then Err(GenericErr(ZERO_AMOUNT))
    else
      var balances :- MoveBalance(s.balances, env.sender, contract, amount);
      var deposit := DepositAmount(env.sentFunds);
      Ok(Step(s.(balances := balances), Response(
        [Cw20Receive(contract, env.sender, amount, msg)],
        Log("send", [
          Attribute("from", env.sender),
          Attribute("to", contract),
          Attribute("amount", NatToString(amount)),
          Attribute("deposit_amount", NatToString(deposit))]))))
  }

  datatype HandleMsg =
    | Transfer(recipient: Addr, amount: Uint128)
    | Burn(amount: Uint128)
    | Send(contract: Addr, amount: Uint128, msg: Option<Binary>)
    | Mint(recipient: Addr, amount: Uint128)

  /** `handle`, restricted to the ledger's own messages. */
  function Handle(s: State, env: Env, msg: HandleMsg): Result<Step> {
    match msg
    case Transfer(recipient, amount) => HandleTransfer(s, env, recipient, amount)
    case Burn(amount) => HandleBurn(s, env, amount)
    case Send(contract, amount, m) => HandleSend(s, env, contract, amount, m)
    case Mint(recipient, amount) => HandleMint(s, env, recipient, amount)
  }

  // ------------------------------------------------------------- queries

  /** `query_balance`: an address never credited has balance zero. */
  function QueryBalance(s: State, address: Addr): (balance: Uint128)
    ensures address !in s.balances ==> balance == 0
    ensures address in s.balances ==> balance == s.balances[address]
  {
    Balance(s, address)
  }

  datatype TokenInfoResponse = TokenInfoResponse(name: string, symbol: string, decimals: nat, totalSupply: Uint128)

  function QueryTokenInfo(s: State): (r: TokenInfoResponse)
    ensures r.totalSupply == s.info.totalSupply
    ensures r.name == s.info.name && r.symbol == s.info.symbol && r.decimals == s.info.decimals
  {
    TokenInfoResponse(s.info.name, s.info.symbol, s.info.decimals, s.info.totalSupply)
  }

  datatype MinterResponse = MinterResponse(minter: Addr, cap: Option<Uint128>)

  /** `query_minter`: `None` exactly when no minter is configured. */
  function QueryMinter(s: State): (r: Option<MinterResponse>)
    ensures r.None? <==> s.info.mint.None?
    ensures r.Some? ==> r.value.minter == s.info.mint.value.minter && r.value.cap == CapOf(s.info.mint)
  {
    match s.info.mint
    case None => None
    case Some(m) => Some(MinterResponse(m.minter, m.cap))
  }
}
