/** Concrete runs of the ledger, mirroring the scenarios its own unit tests
    walk through. */
module Cw20Examples {
  import opened Host
  import opened Cw20

  const Addr1: Addr := "addr0001"
  const Addr2: Addr := "addr0002"

  function EnvFrom(sender: Addr): Env {
    Env(BlockInfo(12345, 1571797419), sender, [], "cosmos2contract")
  }

  /** One account holding the whole supply, no minter. */
  function Single(amount: Uint128): InitMsg {
    InitMsg("Auto Gen", "AUTO", 3, [InitialBalance(Addr1, amount)], None)
  }

  /** Moving 76543 out of 12340000 leaves 12263457 behind and the supply
      untouched; asking for more than the balance underflows, and an empty
      account cannot pay. */
  lemma TransferScenario()
    ensures Init(Single(12340000)).Ok?
    ensures var s := Init(Single(12340000)).value;
      && HandleTransfer(s, EnvFrom(Addr1), Addr2, 0) == Err(GenericErr(ZERO_AMOUNT))
      && HandleTransfer(s, EnvFrom(Addr1), Addr2, 12340321) == Err(Underflow)
      && HandleTransfer(s, EnvFrom(Addr2), Addr1, 76543) == Err(Underflow)
      && HandleTransfer(s, EnvFrom(Addr1), Addr2, 76543).Ok?
      && Balance(HandleTransfer(s, EnvFrom(Addr1), Addr2, 76543).value.state, Addr1) == 12263457
      && Balance(HandleTransfer(s, EnvFrom(Addr1), Addr2, 76543).value.state, Addr2) == 76543
      && HandleTransfer(s, EnvFrom(Addr1), Addr2, 76543).value.state.info.totalSupply == 12340000
  {
    var s := Init(Single(12340000)).value;
    assert Balance(s, Addr1) == 12340000 && Balance(s, Addr2) == 0;
  }

  /** Burning 76543 of 12340000 lowers balance and supply alike. */
  lemma BurnScenario()
    ensures Init(Single(12340000)).Ok?
    ensures var s := Init(Single(12340000)).value;
      && HandleBurn(s, EnvFrom(Addr1), 12340321) == Err(Underflow)
      && HandleBurn(s, EnvFrom(Addr1), 76543).Ok?
      && Balance(HandleBurn(s, EnvFrom(Addr1), 76543).value.state, Addr1) == 12263457
      && HandleBurn(s, EnvFrom(Addr1), 76543).value.state.info.totalSupply == 12263457
  {
    var s := Init(Single(12340000)).value;
    assert Balance(s, Addr1) == 12340000;
  }

  /** With a cap of 511223344 over an initial 11223344, the minter can mint
      222222222 but neither zero nor a further 333222222, which would pass the
      cap; anyone else is refused. */
  lemma CappedMintScenario()
    ensures var msg := InitMsg("Cash Token", "CASH", 9, [InitialBalance("genesis", 11223344)],
                               Some(MinterData("asmodat", Some(511223344))));
      && Init(msg).Ok?
      && var s := Init(msg).value;
      && HandleMint(s, EnvFrom("anyone else"), "lucky", 222222222) == Err(Unauthorized)
      && HandleMint(s, EnvFrom("asmodat"), "lucky", 222222222).Ok?
      && var s' := HandleMint(s, EnvFrom("asmodat"), "lucky", 222222222).value.state;
      && Balance(s', "lucky") == 222222222
      && Balance(s', "genesis") == 11223344
      && HandleMint(s', EnvFrom("asmodat"), "lucky", 0) == Err(GenericErr(ZERO_AMOUNT))
      && HandleMint(s', EnvFrom("asmodat"), "lucky", 333222222) == Err(GenericErr(CAP_EXCEEDED))
  {
    var msg := InitMsg("Cash Token", "CASH", 9, [InitialBalance("genesis", 11223344)],
                       Some(MinterData("asmodat", Some(511223344))));
    var s := Init(msg).value;
    assert Balance(s, "genesis") == 11223344 && Balance(s, "lucky") == 0;
    assert "asmodat" != "anyone else" && "genesis" != "lucky";
  }
}
