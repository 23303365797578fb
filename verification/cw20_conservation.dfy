/** Conservation of the fungible ledger: the balances always add up to the
    recorded total supply, which never exceeds the cap.

    Instantiation establishes this only when the initial balances name each
    address once: `create_accounts` overwrites a repeated address's balance
    but adds every row to the supply, and `DuplicateInitBreaksConservation`
    exhibits the gap. */
module Cw20Conservation {
  import opened Host
  import opened Cw20

  /** The sum of all recorded balances. */
  ghost function Sum(m: map<Addr, Uint128>): nat
    decreases |m|
  {
    if |m| == 0 then 0
    else
      var k :| k in m;
      m[k] + Sum(m - {k})
  }

  /** Any key can be peeled off the sum, not just the one `Sum` picks. */
  lemma {:induction false} SumRemove(m: map<Addr, Uint128>, k: Addr)
    requires k in m
    ensures Sum(m) == m[k] + Sum(m - {k})
    decreases |m|
  {
    var j :| j in m && Sum(m) == m[j] + Sum(m - {j});
    if j != k {
      var mj, mk := m - {j}, m - {k};
      assert k in mj && mj[k] == m[k];
      assert j in mk && mk[j] == m[j];
      SumRemove(mj, k);
      SumRemove(mk, j);
      RemoveCommutes(m, j, k);
      assert Sum(m) == m[j] + (m[k] + Sum(mj - {k}));
      assert Sum(mk) == m[j] + Sum(mk - {j});
    }
  }

  lemma RemoveCommutes(m: map<Addr, Uint128>, j: Addr, k: Addr)
    ensures (m - {j}) - {k} == (m - {k}) - {j}
  {
    assert (m - {j}) - {k} == m - {j, k};
    assert (m - {k}) - {j} == m - {j, k};
  }

  lemma SumRemoveAbsent(m: map<Addr, Uint128>, k: Addr)
    requires k !in m
    ensures Sum(m - {k}) == Sum(m)
  {
    assert m - {k} == m;
  }

  /** Writing `v` at `k` changes the sum by `v` minus the old balance. */
  lemma SumUpdate(m: map<Addr, Uint128>, k: Addr, v: Uint128)
    ensures Sum(m[k := v]) + BalanceOf(m, k) == Sum(m) + v
  {
    var m' := m[k := v];
    SumRemove(m', k);
    assert m' - {k} == m - {k};
    if k in m {
      SumRemove(m, k);
    } else {
      SumRemoveAbsent(m, k);
    }
  }

  lemma SumInsertFresh(m: map<Addr, Uint128>, k: Addr, v: Uint128)
    requires k !in m
    ensures Sum(m[k := v]) == Sum(m) + v
  {
    SumUpdate(m, k, v);
  }

  /** Two distinct balances together never exceed the sum. */
  lemma PairBelowSum(m: map<Addr, Uint128>, a: Addr, b: Addr)
    requires a != b
    ensures BalanceOf(m, a) + BalanceOf(m, b) <= Sum(m)
  {
    if a in m {
      SumRemove(m, a);
      if b in m {
        assert b in m - {a};
        SumRemove(m - {a}, b);
      }
    } else if b in m {
      SumRemove(m, b);
    }
  }

  lemma BalanceBelowSum(m: map<Addr, Uint128>, a: Addr)
    ensures BalanceOf(m, a) <= Sum(m)
  {
    if a in m {
      SumRemove(m, a);
    }
  }

  /** The ledger invariant. */
  ghost predicate Valid(s: State) {
    && Sum(s.balances) == s.info.totalSupply
    && (CapOf(s.info.mint).Some? ==> s.info.totalSupply <= CapOf(s.info.mint).value)
  }

  /** No balance exceeds the total supply. */
  lemma BalanceBoundedBySupply(s: State, a: Addr)
    requires Valid(s)
    ensures Balance(s, a) <= s.info.totalSupply
  {
    BalanceBelowSum(s.balances, a);
  }

  // ------------------------------------------------------------ init

  predicate DistinctAddresses(rows: seq<InitialBalance>) {
    forall i, j :: 0 <= i < j < |rows| ==> rows[i].address != rows[j].address
  }

  lemma {:induction false} CreateAccountsSum(store: map<Addr, Uint128>, total: Uint128, rows: seq<InitialBalance>)
    requires DistinctAddresses(rows)
    requires forall i :: 0 <= i < |rows| ==> rows[i].address !in store
    requires CreateAccounts(store, total, rows).Ok?
    ensures Sum(CreateAccounts(store, total, rows).value.0) == Sum(store) + AmountSum(rows)
    decreases |rows|
  {
    if |rows| == 0 {
      assert CreateAccounts(store, total, rows) == Ok((store, total));
    } else {
      var row := rows[0];
      var stored := store[row.address := row.amount];
      var rest := rows[1..];
      assert Add128(total, row.amount).Ok?;
      assert CreateAccounts(store, total, rows) == CreateAccounts(stored, total + row.amount, rest);
      SumInsertFresh(store, row.address, row.amount);
      assert forall i :: 0 <= i < |rest| ==> rest[i] == rows[i + 1];
      assert forall i :: 0 <= i < |rest| ==> rest[i].address !in stored;
      assert DistinctAddresses(rest);
      CreateAccountsSum(stored, total + row.amount, rest);
      assert AmountSum(rows) == row.amount + AmountSum(rest);
    }
  }

  /** With each address named once, instantiation establishes the invariant. */
  lemma InitValid(msg: InitMsg)
    requires DistinctAddresses(msg.initialBalances)
    requires Init(msg).Ok?
    ensures Valid(Init(msg).value)
  {
    var accounts := CreateAccounts(map[], 0, msg.initialBalances);
    assert accounts.Ok?;
    assert Init(msg).value.balances == accounts.value.0;
    assert Init(msg).value.info.totalSupply == accounts.value.1;
    CreateAccountsSum(map[], 0, msg.initialBalances);
  }

  /** A repeated address: the supply counts both rows, the balance only the
      last, so the invariant fails right after instantiation. */
  lemma DuplicateInitBreaksConservation()
    ensures var msg := InitMsg("Token", "TOK", 6, [InitialBalance("a", 1), InitialBalance("a", 2)], None);
      && Init(msg).Ok?
      && Init(msg).value.info.totalSupply == 3
      && Init(msg).value.balances == map["a" := 2]
      && !Valid(Init(msg).value)
  {
    var msg := InitMsg("Token", "TOK", 6, [InitialBalance("a", 1), InitialBalance("a", 2)], None);
    var m: map<Addr, Uint128> := map["a" := 2];
    assert Init(msg).value.balances == m;
    SumRemove(m, "a");
    assert m - {"a"} == map[];
  }

  // -------------------------------------------------------- handlers

  /** Under the invariant, a transfer or send fails only for a zero amount or
      an insufficient balance: crediting the recipient cannot overflow. */
  lemma MoveNeverOverflows(s: State, from: Addr, to: Addr, amount: Uint128)
    requires Valid(s)
    requires amount <= Balance(s, from)
    ensures MoveBalance(s.balances, from, to, amount).Ok?
  {
    if to != from {
      PairBelowSum(s.balances, from, to);
    }
  }

  lemma TransferSucceedsIff(s: State, env: Env, recipient: Addr, amount: Uint128)
    requires Valid(s)
    ensures HandleTransfer(s, env, recipient, amount).Ok? <==> 0 < amount && amount <= Balance(s, env.sender)
  {
    if 0 < amount && amount <= Balance(s, env.sender) {
      MoveNeverOverflows(s, env.sender, recipient, amount);
    }
  }

  /** Debiting one account and crediting another by the same amount keeps
      the sum. */
  lemma DebitCreditSum(m: map<Addr, Uint128>, from: Addr, to: Addr, amount: nat, debited: Uint128, credited: Uint128)
    requires debited + amount == BalanceOf(m, from)
    requires credited == BalanceOf(m[from := debited], to) + amount
    ensures Sum(m[from := debited][to := credited]) == Sum(m)
  {
    SumUpdate(m, from, debited);
    SumUpdate(m[from := debited], to, credited);
  }

  lemma MovePreservesSum(m: map<Addr, Uint128>, from: Addr, to: Addr, amount: Uint128)
    requires MoveBalance(m, from, to, amount).Ok?
    ensures Sum(MoveBalance(m, from, to, amount).value) == Sum(m)
  {
    var debited := BalanceOf(m, from) - amount;
    var credited := BalanceOf(m[from := debited], to) + amount;
    assert MoveBalance(m, from, to, amount).value == m[from := debited][to := credited];
    DebitCreditSum(m, from, to, amount, debited, credited);
  }

  lemma TransferPreservesValid(s: State, env: Env, recipient: Addr, amount: Uint128)
    requires Valid(s)
    requires HandleTransfer(s, env, recipient, amount).Ok?
    ensures Valid(HandleTransfer(s, env, recipient, amount).value.state)
    ensures HandleTransfer(s, env, recipient, amount).value.state.info.totalSupply == s.info.totalSupply
  {
    MovePreservesSum(s.balances, env.sender, recipient, amount);
  }

  lemma SendPreservesValid(s: State, env: Env, contract: Addr, amount: Uint128, msg: Option<Binary>)
    requires Valid(s)
    requires HandleSend(s, env, contract, amount, msg).Ok?
    ensures Valid(HandleSend(s, env, contract, amount, msg).value.state)
    ensures HandleSend(s, env, contract, amount, msg).value.state.info.totalSupply == s.info.totalSupply
  {
    MovePreservesSum(s.balances, env.sender, contract, amount);
  }

  /** Under the invariant a burn fails only for a zero amount or an
      insufficient balance: the supply cannot underflow. */
  lemma BurnSucceedsIff(s: State, env: Env, amount: Uint128)
    requires Valid(s)
    ensures HandleBurn(s, env, amount).Ok? <==> 0 < amount && amount <= Balance(s, env.sender)
  {
    BalanceBoundedBySupply(s, env.sender);
  }

  lemma BurnPreservesValid(s: State, env: Env, amount: Uint128)
    requires Valid(s)
    requires HandleBurn(s, env, amount).Ok?
    ensures Valid(HandleBurn(s, env, amount).value.state)
  {
    SumUpdate(s.balances, env.sender, Balance(s, env.sender) - amount);
  }

  /** Under the invariant a mint that passes the supply and cap checks
      cannot overflow the recipient's balance. */
  lemma MintSucceedsIff(s: State, env: Env, recipient: Addr, amount: Uint128)
    requires Valid(s)
    ensures HandleMint(s, env, recipient, amount).Ok? <==>
      && 0 < amount
      && IsMinter(s, env.sender)
      && s.info.totalSupply + amount <= MAX_UINT128
      && (CapOf(s.info.mint).Some? ==> s.info.totalSupply + amount <= CapOf(s.info.mint).value)
  {
    BalanceBoundedBySupply(s, recipient);
  }

  lemma MintPreservesValid(s: State, env: Env, recipient: Addr, amount: Uint128)
    requires Valid(s)
    requires HandleMint(s, env, recipient, amount).Ok?
    ensures Valid(HandleMint(s, env, recipient, amount).value.state)
  {
    SumUpdate(s.balances, recipient, Balance(s, recipient) + amount);
  }

  lemma HandlePreservesValid(s: State, env: Env, msg: HandleMsg)
    requires Valid(s)
    requires Handle(s, env, msg).Ok?
    ensures Valid(Handle(s, env, msg).value.state)
  {
    match msg
    case Transfer(recipient, amount) => TransferPreservesValid(s, env, recipient, amount);
    case Burn(amount) => BurnPreservesValid(s, env, amount);
    case Send(contract, amount, m) => SendPreservesValid(s, env, contract, amount, m);
    case Mint(recipient, amount) => MintPreservesValid(s, env, recipient, amount);
  }

  // ------------------------------------------------------- sequences

  datatype Call = Call(env: Env, msg: HandleMsg)

  /** Applies calls in order; a failed call leaves the state unchanged. */
  function Run(s: State, calls: seq<Call>): State
    decreases |calls|
  {
    if |calls| == 0 then s
    else
      match Handle(s, calls[0].env, calls[0].msg)
      case Ok(step) => Run(step.state, calls[1..])
      case Err(_) => Run(s, calls[1..])
  }

  lemma {:induction false} RunPreservesValid(s: State, calls: seq<Call>)
    requires Valid(s)
    ensures Valid(Run(s, calls))
    decreases |calls|
  {
    if |calls| > 0 {
      match Handle(s, calls[0].env, calls[0].msg)
      case Ok(step) =>
        HandlePreservesValid(s, calls[0].env, calls[0].msg);
        RunPreservesValid(step.state, calls[1..]);
      case Err(_) =>
        RunPreservesValid(s, calls[1..]);
    }
  }

  /** Every state reachable from an instantiation with distinct initial
      addresses keeps balances summing to the supply, within the cap. */
  lemma ReachableValid(msg: InitMsg, calls: seq<Call>)
    requires DistinctAddresses(msg.initialBalances)
    requires Init(msg).Ok?
    ensures Valid(Run(Init(msg).value, calls))
  {
    InitValid(msg);
    RunPreservesValid(Init(msg).value, calls);
  }
}
