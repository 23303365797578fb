/** The tiered NFT registry's handlers and queries.

    Every handler maps a state, the call environment and a message to either
    an error (the host then discards every write of the call) or the new
    state together with the response. */
module Cw721 {
  import opened Host
  import opened Decimal
  import opened TokenId
  import opened Cw721State
  import Pagination
  import Lexicographic

  const CAP_REACHED: string := "Minting cannot exceed the cap"
  const ALREADY_CLAIMED: string := "token_id already claimed"
  const ALREADY_EXPIRED: string := "Cannot set approval that is already expired"

  datatype InitMsg = InitMsg(
    name: string,
    symbol: string,
    minter: Addr,
    baseCap: Uint128,
    silverCap: Uint128,
    goldCap: Uint128)

  datatype HandleMsg =
    | Mint(owner: Addr, rank: string)
    | BaseToSilver(base1: string, base2: string, base3: string)
    | SilverToGold(silver1: string, silver2: string, silver3: string, silver4: string, silver5: string)
    | Approve(spender: Addr, tokenId: string, expires: Option<Expiration>)
    | Revoke(spender: Addr, tokenId: string)
    | ApproveAll(operator: Addr, expires: Option<Expiration>)
    | RevokeAll(operator: Addr)
    | TransferNft(recipient: Addr, tokenId: string)
    | SendNft(contract: Addr, tokenId: string, msg: Option<CosmosMsg>)
    | UpdateMinter(minter: Addr)

  /** The committed outcome of a successful call. */
  datatype Step = Step(state: State, response: Response)

  function Log(action: string, rest: seq<Attribute>): seq<Attribute> {
    [Attribute("action", action)] + rest
  }

  /** Instantiation: stores the contract info and the minter; no counter is
      written, so every rank starts at zero. */
  function Init(msg: InitMsg): (s: State)
    ensures s.minter == msg.minter && s.info.name == msg.name && s.info.symbol == msg.symbol
    ensures forall t :: NumTokens(s, t) == 0
    ensures Cap(s.info, Base) == msg.baseCap && Cap(s.info, Silver) == msg.silverCap
    ensures Cap(s.info, Gold) == msg.goldCap
    ensures s.tokens == map[] && s.operators == map[]
  {
    State(ContractInfo(msg.name, msg.symbol, msg.baseCap, msg.silverCap, msg.goldCap),
          msg.minter, map[], map[], map[])
  }

  // ---------------------------------------------------------------- checks

  /** `approvals.iter().any(|apr| apr.spender == sender && !expired)`. */
  function AnyLiveApproval(approvals: seq<Approval>, spender: Addr, block: BlockInfo): (b: bool)
    ensures b <==> exists i :: 0 <= i < |approvals| && approvals[i].spender == spender
                               && !IsExpired(approvals[i].expires, block)
    decreases |approvals|
  {
    if |approvals| == 0 then false
    else if approvals[0].spender == spender && !IsExpired(approvals[0].expires, block) then true
    else
      var b := AnyLiveApproval(approvals[1..], spender, block);
      assert forall i :: 1 <= i < |approvals| ==> approvals[i] == approvals[1..][i - 1];
      b
  }

  /** `owner` has made `operator` an operator and the grant has not expired. */
  predicate OperatorLive(s: State, owner: Addr, operator: Addr, block: BlockInfo) {
    match OperatorGrant(s, owner, operator)
    case Some(e) => !IsExpired(e, block)
    case None => false
  }

  /** `check_ownership`: who may transfer or send a token. */
  predicate MayTransfer(s: State, env: Env, token: TokenInfo) {
    || token.owner == env.sender
    || env.contractAddr == env.sender
    || AnyLiveApproval(token.approvals, env.sender, env.block)
    || OperatorLive(s, token.owner, env.sender, env.block)
  }

  /** `check_can_approve`: who may approve or revoke on a token. The
      contract's own address is not privileged here. */
  predicate MayApprove(s: State, env: Env, token: TokenInfo) {
    || token.owner == env.sender
    || OperatorLive(s, token.owner, env.sender, env.block)
  }

  // ------------------------------------------------------------------ mint

  /** `query_mintable`: a rank is mintable unless its count EQUALS its cap. */
  function IsMintable(s: State, rank: string): bool {
    NumTokens(s, TierOf(rank)) != Cap(s.info, TierOf(rank))
  }

  /** `generate_token_id`: the symbol, the rank letter and the rank's next
      sequence number; the `u64` increment aborts on overflow. */
  function GenerateTokenId(s: State, rank: string): (r: Result<string>)
    ensures r.Ok? <==> NumTokens(s, TierOf(rank)) < MAX_UINT64
    ensures r.Ok? ==> |s.info.symbol| < |r.value| && r.value[..|s.info.symbol|] == s.info.symbol
    ensures r.Ok? ==> ParseTokenId(s.info.symbol, r.value) == Some((TierOf(rank), NumTokens(s, TierOf(rank)) + 1))
  {
    var t := TierOf(rank);
    var next := NumTokens(s, t) + 1;
    if next > MAX_UINT64 then Err(Overflow)
    else
      TokenIdRoundTrip(s.info.symbol, t, next);
      Ok(MakeTokenId(s.info.symbol, t, next))
  }

  /** `handle_mint`. */
  function HandleMint(s: State, env: Env, owner: Addr, rank: string): (r: Result<Step>)
    ensures env.sender != s.minter && env.sender != env.contractAddr ==> r == Err(Unauthorized)
    ensures (env.sender == s.minter || env.sender == env.contractAddr) && !IsMintable(s, rank)
            ==> r == Err(GenericErr(CAP_REACHED))
    ensures && (env.sender == s.minter || env.sender == env.contractAddr) && IsMintable(s, rank)
            && NumTokens(s, TierOf(rank)) < MAX_UINT64
            && MakeTokenId(s.info.symbol, TierOf(rank), NumTokens(s, TierOf(rank)) + 1) in s.tokens
            ==> r == Err(GenericErr(ALREADY_CLAIMED))
    ensures r.Ok? <==>
      && (env.sender == s.minter || env.sender == env.contractAddr)
      && NumTokens(s, TierOf(rank)) != Cap(s.info, TierOf(rank))
      && NumTokens(s, TierOf(rank)) < MAX_UINT64
      && MakeTokenId(s.info.symbol, TierOf(rank), NumTokens(s, TierOf(rank)) + 1) !in s.tokens
    ensures r.Ok? ==>
      var id := MakeTokenId(s.info.symbol, TierOf(rank), NumTokens(s, TierOf(rank)) + 1);
      var s' := r.value.state;
      && id !in s.tokens
      && s'.tokens.Keys == s.tokens.Keys + {id}
      && s'.tokens[id] == TokenInfo(owner, [], rank)
      && (forall k :: k in s.tokens ==> s'.tokens[k] == s.tokens[k])
      && NumTokens(s', TierOf(rank)) == NumTokens(s, TierOf(rank)) + 1
      && (forall t :: t != TierOf(rank) ==> NumTokens(s', t) == NumTokens(s, t))
      && s'.info == s.info && s'.minter == s.minter && s'.operators == s.operators
      && r.value.response.messages == []
  {
    if env.sender != s.minter && env.sender != env.contractAddr then Err(Unauthorized)
    else
      var token := TokenInfo(owner, [], rank);
      if !IsMintable(s, rank) then Err(GenericErr(CAP_REACHED))
      else
        var tokenId :- GenerateTokenId(s, rank);
        TokenIdParsedIsMade(s.info.symbol, tokenId);
        if tokenId in s.tokens then Err(GenericErr(ALREADY_CLAIMED))
        else
          var claimed := s.(tokens := s.tokens[tokenId := token]);
          match IncrementTokens(claimed, TierOf(rank))
          case Err(e) => Err(e)
          case Ok(incremented) =>
            Ok(Step(incremented.0, Response([], Log("mint", [
              Attribute("minter", env.sender),
              Attribute("token_id", tokenId),
              Attribute("rank", rank)]))))
  }

  /** `handle_update_minter`: only the current minter may name a new one. */
  function HandleUpdateMinter(s: State, env: Env, minter: Addr): (r: Result<Step>)
    ensures r.Ok? <==> env.sender == s.minter
    ensures r.Err? ==> r.error == Unauthorized
    ensures r.Ok? ==> r.value.state == s.(minter := minter)
  {
    if env.sender != s.minter then Err(Unauthorized)
    else
      Ok(Step(s.(minter := minter), Response([], Log("update_minter", [Attribute("minter", env.sender)]))))
  }

  // -------------------------------------------------------------- transfer

  /** `_transfer_nft`: reassigns a token after the ownership check and clears
      all of its approvals; nothing else changes. */
  function TransferToken(s: State, env: Env, recipient: Addr, tokenId: string): (r: Result<State>)
    ensures tokenId !in s.tokens ==> r == Err(NotFound)
    ensures tokenId in s.tokens && !MayTransfer(s, env, s.tokens[tokenId]) ==> r == Err(Unauthorized)
    ensures r.Ok? <==> tokenId in s.tokens && MayTransfer(s, env, s.tokens[tokenId])
    ensures r.Ok? ==>
      && r.value.tokens.Keys == s.tokens.Keys
      && r.value.tokens[tokenId].owner == recipient
      && r.value.tokens[tokenId].approvals == []
      && r.value.tokens[tokenId].rank == s.tokens[tokenId].rank
      && (forall k :: k in s.tokens && k != tokenId ==> r.value.tokens[k] == s.tokens[k])
      && r.value == s.(tokens := r.value.tokens)
  {
    if tokenId !in s.tokens then Err(NotFound)
    else
      var token := s.tokens[tokenId];
      if !MayTransfer(s, env, token) then Err(Unauthorized)
      else Ok(s.(tokens := s.tokens[tokenId := token.(owner := recipient, approvals := [])]))
  }

  /** `handle_transfer_nft`. */
  function HandleTransferNft(s: State, env: Env, recipient: Addr, tokenId: string): (r: Result<Step>)
    ensures r.Ok? <==> TransferToken(s, env, recipient, tokenId).Ok?
    ensures r.Err? ==> r.error == TransferToken(s, env, recipient, tokenId).error
    ensures r.Ok? ==> r.value.state == TransferToken(s, env, recipient, tokenId).value
    ensures r.Ok? ==> tokenId in r.value.state.tokens && r.value.state.tokens[tokenId].owner == recipient
    ensures r.Ok? ==> r.value.response.messages == []
  {
    var s' :- TransferToken(s, env, recipient, tokenId);
    Ok(Step(s', Response([], Log("transfer_nft", [
      Attribute("sender", env.sender),
      Attribute("recipient", recipient),
      Attribute("token_id", tokenId)]))))
  }

  /** `handle_send_nft`: the transfer, relaying the caller's message if one
      was supplied. */
  function HandleSendNft(s: State, env: Env, contract: Addr, tokenId: string, msg: Option<CosmosMsg>): (r: Result<Step>)
    ensures r.Ok? <==> TransferToken(s, env, contract, tokenId).Ok?
    ensures r.Err? ==> r.error == TransferToken(s, env, contract, tokenId).error
    ensures r.Ok? ==> r.value.state == TransferToken(s, env, contract, tokenId).value
    ensures r.Ok? ==> tokenId in r.value.state.tokens && r.value.state.tokens[tokenId].owner == contract
    ensures r.Ok? && msg.None? ==> r.value.response.messages == []
    ensures r.Ok? && msg.Some? ==> r.value.response.messages == [msg.value]
  {
    var msgs := match msg case None => [] case Some(m) => [m];
    var s' :- TransferToken(s, env, contract, tokenId);
    Ok(Step(s', Response(msgs, Log("send_nft", [
      Attribute("sender", env.sender),
      Attribute("recipient", contract),
      Attribute("token_id", tokenId)]))))
  }

  /** Transfers the listed tokens one after another, stopping at the first
      failure. */
  function TransferAll(s: State, env: Env, recipient: Addr, ids: seq<string>): (r: Result<State>)
    ensures (exists i :: 0 <= i < |ids| && ids[i] !in s.tokens) ==> r.Err?
    ensures r.Ok? ==> forall i :: 0 <= i < |ids| ==>
      ids[i] in s.tokens && (ids[i] !in ids[..i] ==> MayTransfer(s, env, s.tokens[ids[i]]))
    ensures r.Ok? ==>
      && r.value.tokens.Keys == s.tokens.Keys
      && (forall i :: 0 <= i < |ids| ==>
            r.value.tokens[ids[i]].owner == recipient && r.value.tokens[ids[i]].approvals == [])
      && (forall k :: k in s.tokens ==> r.value.tokens[k].rank == s.tokens[k].rank)
      && (forall k :: k in s.tokens && k !in ids ==> r.value.tokens[k] == s.tokens[k])
      && r.value == s.(tokens := r.value.tokens)
    decreases |ids|
  {
    if |ids| == 0 then Ok(s)
    else
      var s1 :- TransferToken(s, env, recipient, ids[0]);
      TailIndices(ids);
      var rest := TransferAll(s1, env, recipient, ids[1..]);
      if rest.Ok? then FirstTransfersAuthorized(s, s1, env, ids); rest else rest
  }

  /** Lifts "each first occurrence was transferable" from the tail, judged
      after the head's transfer, to the whole batch, judged before it: the
      head's transfer leaves every other token and all operators alone. */
  lemma FirstTransfersAuthorized(s: State, s1: State, env: Env, ids: seq<string>)
    requires |ids| > 0 && ids[0] in s.tokens && MayTransfer(s, env, s.tokens[ids[0]])
    requires s1 == s.(tokens := s1.tokens) && s1.tokens.Keys == s.tokens.Keys
    requires forall k :: k in s.tokens && k != ids[0] ==> s1.tokens[k] == s.tokens[k]
    requires forall j :: 0 <= j < |ids[1..]| ==>
      ids[1..][j] in s1.tokens && (ids[1..][j] !in ids[1..][..j] ==> MayTransfer(s1, env, s1.tokens[ids[1..][j]]))
    ensures forall i :: 0 <= i < |ids| ==>
      ids[i] in s.tokens && (ids[i] !in ids[..i] ==> MayTransfer(s, env, s.tokens[ids[i]]))
  {
    forall i | 1 <= i < |ids|
      ensures ids[i] in s.tokens && (ids[i] !in ids[..i] ==> MayTransfer(s, env, s.tokens[ids[i]]))
    {
      assert ids[1..][i - 1] == ids[i];
      if ids[i] !in ids[..i] {
        assert ids[0] in ids[..i];
        assert ids[1..][..i - 1] == ids[1..i];
        assert forall x :: x in ids[1..i] ==> x in ids[..i];
      }
    }
  }

  lemma TailIndices(ids: seq<string>)
    requires |ids| > 0
    ensures forall i :: 1 <= i < |ids| ==> ids[i] == ids[1..][i - 1]
    ensures forall k :: k in ids && k != ids[0] ==> k in ids[1..]
  {
  }

  /** `handle_base_to_silver`: the three listed tokens go to the contract's
      own address, which serves as the burn address. The self-mint message
      the source builds is dropped, so no silver token results. */
  function HandleBaseToSilver(s: State, env: Env, base1: string, base2: string, base3: string): (r: Result<Step>)
    ensures r.Ok? <==> TransferAll(s, env, env.contractAddr, [base1, base2, base3]).Ok?
    ensures r.Ok? ==> r.value.state == TransferAll(s, env, env.contractAddr, [base1, base2, base3]).value
    ensures r.Ok? ==> r.value.response.messages == []
  {
    var s' :- TransferAll(s, env, env.contractAddr, [base1, base2, base3]);
    Ok(Step(s', Response([], Log("base_to_gold", [
      Attribute("sender", env.sender),
      Attribute("base_1", base1),
      Attribute("base_2", base2),
      Attribute("base_3", base3)]))))
  }

  /** `handle_silver_to_gold`: as above with five tokens; again nothing is
      minted. */
  function HandleSilverToGold(s: State, env: Env, silver1: string, silver2: string, silver3: string,
                              silver4: string, silver5: string): (r: Result<Step>)
    ensures r.Ok? <==> TransferAll(s, env, env.contractAddr, [silver1, silver2, silver3, silver4, silver5]).Ok?
    ensures r.Ok? ==> r.value.state == TransferAll(s, env, env.contractAddr, [silver1, silver2, silver3, silver4, silver5]).value
    ensures r.Ok? ==> r.value.response.messages == []
  {
    var s' :- TransferAll(s, env, env.contractAddr, [silver1, silver2, silver3, silver4, silver5]);
    Ok(Step(s', Response([], Log("base_to_gold", [
      Attribute("sender", env.sender),
      Attribute("silver_1", silver1),
      Attribute("silver_2", silver2),
      Attribute("silver_3", silver3),
      Attribute("silver_4", silver4),
      Attribute("silver_5", silver5)]))))
  }

  // ------------------------------------------------------------- approvals

  /** The approval list without any entry for `spender`, others in order. */
  function RemoveSpender(approvals: seq<Approval>, spender: Addr): (r: seq<Approval>)
    ensures forall a :: a in r <==> a in approvals && a.spender != spender
    ensures (forall i :: 0 <= i < |approvals| ==> approvals[i].spender != spender) ==> r == approvals
    decreases |approvals|
  {
    if |approvals| == 0 then []
    else
      var tail := RemoveSpender(approvals[1..], spender);
      if approvals[0].spender == spender then tail else [approvals[0]] + tail
  }

  /** Removing a spender keeps at most one approval per spender. */
  lemma {:induction false} RemoveSpenderNoDup(approvals: seq<Approval>, spender: Addr)
    requires NoDupSpenders(approvals)
    ensures NoDupSpenders(RemoveSpender(approvals, spender))
    decreases |approvals|
  {
    if |approvals| > 0 {
      var head := approvals[0];
      var tail := approvals[1..];
      assert forall i :: 0 <= i < |tail| ==> tail[i] == approvals[i + 1];
      RemoveSpenderNoDup(tail, spender);
      var r := RemoveSpender(tail, spender);
      if head.spender != spender {
        forall j | 0 <= j < |r|
          ensures r[j].spender != head.spender
        {
          assert r[j] in r;
          var k :| 0 <= k < |tail| && tail[k] == r[j];
          assert approvals[k + 1] == r[j];
        }
        assert forall j :: 0 < j < |[head] + r| ==> ([head] + r)[j] == r[j - 1];
      }
    }
  }

  /** The approvals a token carries after `_update_approvals`: every entry
      for `spender` removed, the others kept in order, and when adding one
      new entry appended last. */
  function ApprovalsAfter(approvals: seq<Approval>, spender: Addr, add: bool, expires: Expiration)
    : (r: seq<Approval>)
    ensures forall a :: a in r && a.spender != spender <==> a in approvals && a.spender != spender
    ensures add ==> |r| >= 1 && r[|r| - 1] == Approval(spender, expires)
    ensures add ==> forall i :: 0 <= i < |r| - 1 ==> r[i].spender != spender
    ensures !add ==> forall i :: 0 <= i < |r| ==> r[i].spender != spender
  {
    var kept := RemoveSpender(approvals, spender);
    assert forall i :: 0 <= i < |kept| ==> kept[i] in kept;
    if add then kept + [Approval(spender, expires)] else kept
  }

  lemma ApprovalsAfterNoDup(approvals: seq<Approval>, spender: Addr, add: bool, expires: Expiration)
    requires NoDupSpenders(approvals)
    ensures NoDupSpenders(ApprovalsAfter(approvals, spender, add, expires))
  {
    RemoveSpenderNoDup(approvals, spender);
    var kept := RemoveSpender(approvals, spender);
    assert forall i :: 0 <= i < |kept| ==> kept[i] in kept;
  }

  /** `_update_approvals`: rewrites one token's approval list as above,
      using the given expiration (default `Never`) and rejecting one that
      has already expired; only the owner or a live operator may do so. */
  function UpdateApprovals(s: State, env: Env, spender: Addr, tokenId: string, add: bool,
                           expires: Option<Expiration>): (r: Result<State>)
    ensures tokenId !in s.tokens ==> r == Err(NotFound)
    ensures tokenId in s.tokens && !MayApprove(s, env, s.tokens[tokenId]) ==> r == Err(Unauthorized)
    ensures && tokenId in s.tokens && MayApprove(s, env, s.tokens[tokenId])
            && add && IsExpired(ExpirationOrDefault(expires), env.block)
            ==> r == Err(GenericErr(ALREADY_EXPIRED))
    ensures r.Ok? <==>
      && tokenId in s.tokens
      && MayApprove(s, env, s.tokens[tokenId])
      && (add ==> !IsExpired(ExpirationOrDefault(expires), env.block))
    ensures r.Ok? ==> r.value.tokens.Keys == s.tokens.Keys
    ensures r.Ok? ==> (r.value.tokens[tokenId] ==
      s.tokens[tokenId].(approvals := ApprovalsAfter(s.tokens[tokenId].approvals, spender, add, ExpirationOrDefault(expires))))
    ensures r.Ok? ==> forall k :: k in s.tokens && k != tokenId ==> r.value.tokens[k] == s.tokens[k]
    ensures r.Ok? ==> r.value == s.(tokens := r.value.tokens)
  {
    if tokenId !in s.tokens then Err(NotFound)
    else
      var token := s.tokens[tokenId];
      if !MayApprove(s, env, token) then Err(Unauthorized)
      else
        var expiration := ExpirationOrDefault(expires);
        if add && IsExpired(expiration, env.block) then Err(GenericErr(ALREADY_EXPIRED))
        else
          var approvals := ApprovalsAfter(token.approvals, spender, add, expiration);
          Ok(s.(tokens := s.tokens[tokenId := token.(approvals := approvals)]))
  }

  /** `handle_approve`. */
  function HandleApprove(s: State, env: Env, spender: Addr, tokenId: string, expires: Option<Expiration>): (r: Result<Step>)
    ensures r.Ok? <==> UpdateApprovals(s, env, spender, tokenId, true, expires).Ok?
    ensures r.Ok? ==> r.value.state == UpdateApprovals(s, env, spender, tokenId, true, expires).value
    ensures r.Ok? ==> r.value.response.messages == []
  {
    var s' :- UpdateApprovals(s, env, spender, tokenId, true, expires);
    Ok(Step(s', Response([], Log("approve", [
      Attribute("sender", env.sender),
      Attribute("spender", spender),
      Attribute("token_id", tokenId)]))))
  }

  /** `handle_revoke`. */
  function HandleRevoke(s: State, env: Env, spender: Addr, tokenId: string): (r: Result<Step>)
    ensures r.Ok? <==> UpdateApprovals(s, env, spender, tokenId, false, None).Ok?
    ensures r.Ok? ==> r.value.state == UpdateApprovals(s, env, spender, tokenId, false, None).value
    ensures r.Ok? ==> r.value.response.messages == []
  {
    var s' :- UpdateApprovals(s, env, spender, tokenId, false, None);
    Ok(Step(s', Response([], Log("revoke", [
      Attribute("sender", env.sender),
      Attribute("spender", spender),
      Attribute("token_id", tokenId)]))))
  }

  /** `handle_approve_all`: the sender makes `operator` an operator of all
      its tokens until the expiration (default `Never`). */
  function HandleApproveAll(s: State, env: Env, operator: Addr, expires: Option<Expiration>): (r: Result<Step>)
    ensures r.Ok? <==> !IsExpired(ExpirationOrDefault(expires), env.block)
    ensures r.Err? ==> r.error == GenericErr(ALREADY_EXPIRED)
    ensures r.Ok? ==> OperatorGrant(r.value.state, env.sender, operator) == Some(ExpirationOrDefault(expires))
    ensures r.Ok? ==> forall o, p :: (o, p) != (env.sender, operator) ==>
                        OperatorGrant(r.value.state, o, p) == OperatorGrant(s, o, p)
    ensures r.Ok? ==> r.value.state == s.(operators := r.value.state.operators)
  {
    var expiration := ExpirationOrDefault(expires);
    if IsExpired(expiration, env.block) then Err(GenericErr(ALREADY_EXPIRED))
    else
      Ok(Step(s.(operators := s.operators[(env.sender, operator) := expiration]),
              Response([], Log("approve_all", [
                Attribute("sender", env.sender),
                Attribute("operator", operator)]))))
  }

  /** `handle_revoke_all`: removes that one grant, succeeding even if there
      was none. */
  function HandleRevokeAll(s: State, env: Env, operator: Addr): (r: Result<Step>)
    ensures r.Ok?
    ensures OperatorGrant(r.value.state, env.sender, operator) == None
    ensures forall o, p :: (o, p) != (env.sender, operator) ==>
              OperatorGrant(r.value.state, o, p) == OperatorGrant(s, o, p)
    ensures r.value.state == s.(operators := r.value.state.operators)
  {
    Ok(Step(s.(operators := s.operators - {(env.sender, operator)}),
            Response([], Log("revoke_all", [
              Attribute("sender", env.sender),
              Attribute("operator", operator)]))))
  }

  /** `handle`: the single entry point. */
  function Handle(s: State, env: Env, msg: HandleMsg): Result<Step> {
    match msg
    case Mint(owner, rank) => HandleMint(s, env, owner, rank)
    case BaseToSilver(b1, b2, b3) => HandleBaseToSilver(s, env, b1, b2, b3)
    case SilverToGold(s1, s2, s3, s4, s5) => HandleSilverToGold(s, env, s1, s2, s3, s4, s5)
    case Approve(spender, tokenId, expires) => HandleApprove(s, env, spender, tokenId, expires)
    case Revoke(spender, tokenId) => HandleRevoke(s, env, spender, tokenId)
    case ApproveAll(operator, expires) => HandleApproveAll(s, env, operator, expires)
    case RevokeAll(operator) => HandleRevokeAll(s, env, operator)
    case TransferNft(recipient, tokenId) => HandleTransferNft(s, env, recipient, tokenId)
    case SendNft(contract, tokenId, m) => HandleSendNft(s, env, contract, tokenId, m)
    case UpdateMinter(minter) => HandleUpdateMinter(s, env, minter)
  }

  // --------------------------------------------------------------- queries

  datatype OwnerOfResponse = OwnerOfResponse(owner: Addr, approvals: seq<Approval>)

  /** `query_owner_of`: the owner and every stored approval, expired ones
      included. */
  function QueryOwnerOf(s: State, tokenId: string): (r: Result<OwnerOfResponse>)
    ensures r.Err? <==> tokenId !in s.tokens
    ensures r.Err? ==> r.error == NotFound
    ensures r.Ok? ==> r.value.owner == s.tokens[tokenId].owner && r.value.approvals == s.tokens[tokenId].approvals
  {
    if tokenId !in s.tokens then Err(NotFound)
    else Ok(OwnerOfResponse(s.tokens[tokenId].owner, s.tokens[tokenId].approvals))
  }

  /** `query_nft_info`: the raw rank string. */
  function QueryNftInfo(s: State, tokenId: string): (r: Result<string>)
    ensures r.Err? <==> tokenId !in s.tokens
    ensures r.Err? ==> r.error == NotFound
    ensures r.Ok? ==> r.value == s.tokens[tokenId].rank
  {
    if tokenId !in s.tokens then Err(NotFound) else Ok(s.tokens[tokenId].rank)
  }

  datatype AllNftInfoResponse = AllNftInfoResponse(access: OwnerOfResponse, rank: string)

  /** `query_all_nft_info`: both of the above in one answer. */
  function QueryAllNftInfo(s: State, tokenId: string): (r: Result<AllNftInfoResponse>)
    ensures r.Err? <==> tokenId !in s.tokens
    ensures r.Ok? ==> Ok(r.value.access) == QueryOwnerOf(s, tokenId) && Ok(r.value.rank) == QueryNftInfo(s, tokenId)
  {
    if tokenId !in s.tokens then Err(NotFound)
    else
      var info := s.tokens[tokenId];
      Ok(AllNftInfoResponse(OwnerOfResponse(info.owner, info.approvals), info.rank))
  }

  /** `query_all_base_tokens`, `query_all_silver_tokens` and
      `query_all_gold_tokens` are the same code: one page of ALL token ids in
      key order, whatever their rank. */
  method QueryAllTokens(s: State, startAfter: Option<string>, limit: Option<nat>)
    returns (ids: seq<string>)
    ensures |ids| <= Pagination.PageSize(limit)
    ensures forall i :: 0 <= i < |ids| ==> ids[i] in s.tokens && Pagination.After(startAfter, ids[i])
    ensures forall i, j :: 0 <= i < j < |ids| ==> Lexicographic.Less(ids[i], ids[j])
    ensures forall k :: k in s.tokens && Pagination.After(startAfter, k) && k !in ids ==>
      |ids| == Pagination.PageSize(limit) && forall i :: 0 <= i < |ids| ==> Lexicographic.Less(ids[i], k)
    ensures startAfter.Some? ==> startAfter.value !in ids
  {
    ids := Pagination.Page(s.tokens.Keys, startAfter, limit);
  }

  /** The operators `owner` has granted, as stored keys. */
  function OperatorsOf(s: State, owner: Addr): (ops: set<Addr>)
    ensures forall op :: op in ops <==> OperatorGrant(s, owner, op).Some?
  {
    set key | key in s.operators && key.0 == owner :: key.1
  }

  /** `query_all_approvals`: one page of `owner`'s operator grants in
      operator order, expired grants included. */
  method QueryAllApprovals(s: State, owner: Addr, startAfter: Option<Addr>, limit: Option<nat>)
    returns (grants: seq<Approval>)
    ensures |grants| <= Pagination.PageSize(limit)
    ensures forall i :: 0 <= i < |grants| ==>
      OperatorGrant(s, owner, grants[i].spender) == Some(grants[i].expires)
      && Pagination.After(startAfter, grants[i].spender)
    ensures forall i, j :: 0 <= i < j < |grants| ==> Lexicographic.Less(grants[i].spender, grants[j].spender)
    ensures forall op ::
      (OperatorGrant(s, owner, op).Some? && Pagination.After(startAfter, op)
       && (forall i :: 0 <= i < |grants| ==> grants[i].spender != op))
      ==> |grants| == Pagination.PageSize(limit)
          && forall i :: 0 <= i < |grants| ==> Lexicographic.Less(grants[i].spender, op)
  {
    var ops := Pagination.Page(OperatorsOf(s, owner), startAfter, limit);
    grants := seq(|ops|, i requires 0 <= i < |ops| => Approval(ops[i], s.operators[(owner, ops[i])]));
    assert forall i :: 0 <= i < |ops| ==> grants[i].spender == ops[i];
  }
}
