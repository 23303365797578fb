/** Invariants of the tiered NFT registry and the properties that follow
    from them, over single calls and over arbitrary call sequences. */
module Cw721Invariants {
  import opened Host
  import opened TokenId
  import opened Cw721State
  import opened Cw721

  /** `id` is one the mint handler has issued: it parses as the id of a
      (rank, n) whose counter has already reached n. */
  ghost predicate IdIssued(s: State, id: string) {
    match ParseTokenId(s.info.symbol, id)
    case None => false
    case Some(p) => 1 <= p.1 <= NumTokens(s, p.0)
  }

  /** The registry invariant: no rank counter exceeds its cap, every stored
      id was issued by mint, and no token has two approvals for one spender. */
  ghost predicate Valid(s: State) {
    && (forall t :: NumTokens(s, t) <= Cap(s.info, t))
    && (forall id :: id in s.tokens ==> IdIssued(s, id))
    && (forall id :: id in s.tokens ==> NoDupSpenders(s.tokens[id].approvals))
  }

  lemma InitValid(msg: InitMsg)
    ensures Valid(Init(msg))
  {
  }

  /** Under the invariant the equality test of `query_mintable` is the same
      as "strictly below the cap". */
  lemma MintableIffBelowCap(s: State, rank: string)
    requires Valid(s)
    ensures IsMintable(s, rank) <==> NumTokens(s, TierOf(rank)) < Cap(s.info, TierOf(rank))
  {
  }

  /** The next generated id is never already taken, so in any valid state
      the "token_id already claimed" branch is unreachable. */
  lemma NextIdFresh(s: State, t: Tier)
    requires Valid(s)
    ensures MakeTokenId(s.info.symbol, t, NumTokens(s, t) + 1) !in s.tokens
  {
    var id := MakeTokenId(s.info.symbol, t, NumTokens(s, t) + 1);
    TokenIdRoundTrip(s.info.symbol, t, NumTokens(s, t) + 1);
  }

  lemma MintNeverClaimed(s: State, env: Env, owner: Addr, rank: string)
    requires Valid(s)
    ensures HandleMint(s, env, owner, rank) != Err(GenericErr(ALREADY_CLAIMED))
  {
    NextIdFresh(s, TierOf(rank));
  }

  /** Adding one fresh, approval-free token whose id parses as the new
      count of a rank still below its cap keeps the invariant. */
  lemma AddIssuedTokenValid(s: State, s': State, t: Tier, id: string)
    requires Valid(s)
    requires s'.info == s.info
    requires NumTokens(s, t) < Cap(s.info, t)
    requires NumTokens(s', t) == NumTokens(s, t) + 1
    requires forall u :: u != t ==> NumTokens(s', u) == NumTokens(s, u)
    requires s'.tokens.Keys == s.tokens.Keys + {id}
    requires forall k :: k in s.tokens ==> s'.tokens[k] == s.tokens[k]
    requires id in s'.tokens && s'.tokens[id].approvals == []
    requires ParseTokenId(s.info.symbol, id) == Some((t, NumTokens(s', t)))
    ensures Valid(s')
  {
    forall k | k in s'.tokens
      ensures IdIssued(s', k)
    {
      if k != id {
        assert IdIssued(s, k);
      }
    }
  }

  lemma MintPreservesValid(s: State, env: Env, owner: Addr, rank: string)
    requires Valid(s)
    requires HandleMint(s, env, owner, rank).Ok?
    ensures Valid(HandleMint(s, env, owner, rank).value.state)
  {
    var s' := HandleMint(s, env, owner, rank).value.state;
    var t := TierOf(rank);
    var id := MakeTokenId(s.info.symbol, t, NumTokens(s, t) + 1);
    TokenIdRoundTrip(s.info.symbol, t, NumTokens(s, t) + 1);
    AddIssuedTokenValid(s, s', t, id);
  }

  /** A state with the same info, counters and token ids as a valid one,
      and no duplicate spender on any token, is valid. */
  lemma SameTokenIdsValid(s: State, s': State)
    requires Valid(s)
    requires s'.info == s.info && s'.counters == s.counters && s'.tokens.Keys == s.tokens.Keys
    requires forall id :: id in s'.tokens ==> NoDupSpenders(s'.tokens[id].approvals)
    ensures Valid(s')
  {
    forall k | k in s'.tokens
      ensures IdIssued(s', k)
    {
      assert IdIssued(s, k);
    }
  }

  lemma UpdateApprovalsPreservesValid(s: State, env: Env, spender: Addr, tokenId: string, add: bool,
                                      expires: Option<Expiration>)
    requires Valid(s)
    requires UpdateApprovals(s, env, spender, tokenId, add, expires).Ok?
    ensures Valid(UpdateApprovals(s, env, spender, tokenId, add, expires).value)
  {
    var s' := UpdateApprovals(s, env, spender, tokenId, add, expires).value;
    ApprovalsAfterNoDup(s.tokens[tokenId].approvals, spender, add, ExpirationOrDefault(expires));
    SameTokenIdsValid(s, s');
  }

  lemma TransferAllPreservesValid(s: State, env: Env, recipient: Addr, ids: seq<string>)
    requires Valid(s)
    requires TransferAll(s, env, recipient, ids).Ok?
    ensures Valid(TransferAll(s, env, recipient, ids).value)
  {
    var s' := TransferAll(s, env, recipient, ids).value;
    forall k | k in s'.tokens
      ensures NoDupSpenders(s'.tokens[k].approvals)
    {
      if k in ids {
        var i :| 0 <= i < |ids| && ids[i] == k;
      }
    }
    SameTokenIdsValid(s, s');
  }

  lemma TransferTokenPreservesValid(s: State, env: Env, recipient: Addr, tokenId: string)
    requires Valid(s)
    requires TransferToken(s, env, recipient, tokenId).Ok?
    ensures Valid(TransferToken(s, env, recipient, tokenId).value)
  {
    SameTokenIdsValid(s, TransferToken(s, env, recipient, tokenId).value);
  }

  /** Every successful call of the entry point keeps the invariant. */
  lemma HandlePreservesValid(s: State, env: Env, msg: HandleMsg)
    requires Valid(s)
    requires Handle(s, env, msg).Ok?
    ensures Valid(Handle(s, env, msg).value.state)
  {
    if msg.Mint? {
      MintPreservesValid(s, env, msg.owner, msg.rank);
    } else if msg.BaseToSilver? || msg.SilverToGold? {
      UpgradePreservesValid(s, env, msg);
    } else if msg.Approve? || msg.Revoke? {
      ApprovalPreservesValid(s, env, msg);
    } else if msg.TransferNft? || msg.SendNft? {
      TransferPreservesValid(s, env, msg);
    } else {
      SameTokenIdsValid(s, Handle(s, env, msg).value.state);
    }
  }

  lemma UpgradePreservesValid(s: State, env: Env, msg: HandleMsg)
    requires Valid(s)
    requires msg.BaseToSilver? || msg.SilverToGold?
    requires Handle(s, env, msg).Ok?
    ensures Valid(Handle(s, env, msg).value.state)
  {
    match msg
    case BaseToSilver(b1, b2, b3) =>
      TransferAllPreservesValid(s, env, env.contractAddr, [b1, b2, b3]);
    case SilverToGold(s1, s2, s3, s4, s5) =>
      TransferAllPreservesValid(s, env, env.contractAddr, [s1, s2, s3, s4, s5]);
  }

  lemma ApprovalPreservesValid(s: State, env: Env, msg: HandleMsg)
    requires Valid(s)
    requires msg.Approve? || msg.Revoke?
    requires Handle(s, env, msg).Ok?
    ensures Valid(Handle(s, env, msg).value.state)
  {
    match msg
    case Approve(spender, tokenId, expires) =>
      UpdateApprovalsPreservesValid(s, env, spender, tokenId, true, expires);
    case Revoke(spender, tokenId) =>
      UpdateApprovalsPreservesValid(s, env, spender, tokenId, false, None);
  }

  lemma TransferPreservesValid(s: State, env: Env, msg: HandleMsg)
    requires Valid(s)
    requires msg.TransferNft? || msg.SendNft?
    requires Handle(s, env, msg).Ok?
    ensures Valid(Handle(s, env, msg).value.state)
  {
    match msg
    case TransferNft(recipient, tokenId) => TransferTokenPreservesValid(s, env, recipient, tokenId);
    case SendNft(contract, tokenId, m) => TransferTokenPreservesValid(s, env, contract, tokenId);
  }

  /** One call submitted to the contract. */
  datatype Call = Call(env: Env, msg: HandleMsg)

  /** The state after a sequence of calls: a failed call is discarded by the
      host and leaves the state as it was. */
  function Run(s: State, calls: seq<Call>): State
    decreases |calls|
  {
    if |calls| == 0 then s
    else
      match Handle(s, calls[0].env, calls[0].msg)
      case Ok(step) => Run(step.state, calls[1..])
      case Err(_) => Run(s, calls[1..])
  }

  /** Whatever calls arrive, in whatever order, after instantiation every
      rank count stays within its cap, every id is one mint issued, and no
      token carries two approvals for one spender. */
  lemma {:induction false} RunPreservesValid(s: State, calls: seq<Call>)
    requires Valid(s)
    ensures Valid(Run(s, calls))
    decreases |calls|
  {
    if |calls| > 0 {
      match Handle(s, calls[0].env, calls[0].msg)
      case Ok(step) =>
        HandlePreservesValid(s, calls[0].env, calls[0].msg);
        RunPreservesValid(step.state, calls[1..]);
      case Err(_) =>
        RunPreservesValid(s, calls[1..]);
    }
  }

  lemma ReachableValid(msg: InitMsg, calls: seq<Call>)
    ensures Valid(Run(Init(msg), calls))
  {
    InitValid(msg);
    RunPreservesValid(Init(msg), calls);
  }

  // --------------------------------------------------------- authorization

  /** A token record changed by a batch of transfers was one the caller was
      authorised to transfer in the state the call started from. */
  lemma {:induction false} TransferAllAuthorized(s: State, env: Env, recipient: Addr, ids: seq<string>, id: string)
    requires TransferAll(s, env, recipient, ids).Ok?
    requires id in s.tokens
    requires TransferAll(s, env, recipient, ids).value.tokens[id] != s.tokens[id]
    ensures MayTransfer(s, env, s.tokens[id])
    decreases |ids|
  {
    var s1 := TransferToken(s, env, recipient, ids[0]).value;
    if id != ids[0] {
      assert TransferAll(s, env, recipient, ids) == TransferAll(s1, env, recipient, ids[1..]);
      TransferAllAuthorized(s1, env, recipient, ids[1..], id);
      assert s1.tokens[id] == s.tokens[id];
      assert s1.operators == s.operators;
    }
  }

  /** Only an authorised caller changes who owns a token: the owner, the
      contract itself, a live approval holder or a live operator, as judged
      in the state the call started from. No call removes a token or changes
      its rank. */
  lemma OwnershipChangeAuthorized(s: State, env: Env, msg: HandleMsg, id: string)
    requires Handle(s, env, msg).Ok?
    requires id in s.tokens
    ensures id in Handle(s, env, msg).value.state.tokens
    ensures Handle(s, env, msg).value.state.tokens[id].rank == s.tokens[id].rank
    ensures Handle(s, env, msg).value.state.tokens[id].owner != s.tokens[id].owner
            ==> MayTransfer(s, env, s.tokens[id])
  {
    if msg.BaseToSilver? || msg.SilverToGold? {
      UpgradeChangeAuthorized(s, env, msg, id);
    }
  }

  lemma UpgradeChangeAuthorized(s: State, env: Env, msg: HandleMsg, id: string)
    requires msg.BaseToSilver? || msg.SilverToGold?
    requires Handle(s, env, msg).Ok?
    requires id in s.tokens
    ensures Handle(s, env, msg).value.state.tokens[id] != s.tokens[id] ==> MayTransfer(s, env, s.tokens[id])
  {
    var s' := Handle(s, env, msg).value.state;
    match msg
    case BaseToSilver(b1, b2, b3) =>
      if s'.tokens[id] != s.tokens[id] {
        TransferAllAuthorized(s, env, env.contractAddr, [b1, b2, b3], id);
      }
    case SilverToGold(s1, s2, s3, s4, s5) =>
      if s'.tokens[id] != s.tokens[id] {
        TransferAllAuthorized(s, env, env.contractAddr, [s1, s2, s3, s4, s5], id);
      }
  }

  /** A batch of distinct tokens, each present and transferable by the
      caller, is reassigned without error. */
  lemma {:induction false} TransferAllSucceeds(s: State, env: Env, recipient: Addr, ids: seq<string>)
    requires forall i :: 0 <= i < |ids| ==> ids[i] in s.tokens && MayTransfer(s, env, s.tokens[ids[i]])
    requires forall i, j :: 0 <= i < j < |ids| ==> ids[i] != ids[j]
    ensures TransferAll(s, env, recipient, ids).Ok?
    decreases |ids|
  {
    if |ids| > 0 {
      var s1 := TransferToken(s, env, recipient, ids[0]).value;
      forall i | 0 <= i < |ids[1..]|
        ensures ids[1..][i] in s1.tokens && MayTransfer(s1, env, s1.tokens[ids[1..][i]])
      {
        assert ids[1..][i] == ids[i + 1] != ids[0];
        assert s1.tokens[ids[i + 1]] == s.tokens[ids[i + 1]];
      }
      TransferAllSucceeds(s1, env, recipient, ids[1..]);
    }
  }

  // ------------------------------------------------------------- upgrades

  /** The burn-to-upgrade handlers only reassign the listed tokens to the
      contract's own address: they emit no message, mint no token and leave
      every rank counter, the operators and the minter as they were. */
  lemma UpgradeMintsNothing(s: State, env: Env, msg: HandleMsg)
    requires msg.BaseToSilver? || msg.SilverToGold?
    requires Handle(s, env, msg).Ok?
    ensures Handle(s, env, msg).value.response.messages == []
    ensures Handle(s, env, msg).value.state.tokens.Keys == s.tokens.Keys
    ensures forall t :: NumTokens(Handle(s, env, msg).value.state, t) == NumTokens(s, t)
    ensures Handle(s, env, msg).value.state.operators == s.operators
    ensures Handle(s, env, msg).value.state.minter == s.minter
  {
  }

  lemma BaseToSilverBurns(s: State, env: Env, b1: string, b2: string, b3: string)
    requires HandleBaseToSilver(s, env, b1, b2, b3).Ok?
    ensures forall id :: id in [b1, b2, b3] ==>
      id in HandleBaseToSilver(s, env, b1, b2, b3).value.state.tokens
      && HandleBaseToSilver(s, env, b1, b2, b3).value.state.tokens[id].owner == env.contractAddr
  {
    var ids := [b1, b2, b3];
    assert ids[0] == b1 && ids[1] == b2 && ids[2] == b3;
  }

  /** Three distinct base tokens the caller may transfer are burned without
      error, whatever their rank strings say. */
  lemma BaseToSilverSucceeds(s: State, env: Env, b1: string, b2: string, b3: string)
    requires b1 != b2 && b1 != b3 && b2 != b3
    requires forall id :: id in [b1, b2, b3] ==> id in s.tokens && MayTransfer(s, env, s.tokens[id])
    ensures HandleBaseToSilver(s, env, b1, b2, b3).Ok?
  {
    var ids := [b1, b2, b3];
    assert forall i :: 0 <= i < |ids| ==> ids[i] in [b1, b2, b3];
    TransferAllSucceeds(s, env, env.contractAddr, ids);
  }

  lemma SilverToGoldBurns(s: State, env: Env, s1: string, s2: string, s3: string, s4: string, s5: string)
    requires HandleSilverToGold(s, env, s1, s2, s3, s4, s5).Ok?
    ensures forall id :: id in [s1, s2, s3, s4, s5] ==>
      id in HandleSilverToGold(s, env, s1, s2, s3, s4, s5).value.state.tokens
      && HandleSilverToGold(s, env, s1, s2, s3, s4, s5).value.state.tokens[id].owner == env.contractAddr
  {
    var ids := [s1, s2, s3, s4, s5];
    assert ids[0] == s1 && ids[1] == s2 && ids[2] == s3 && ids[3] == s4 && ids[4] == s5;
  }

  /** Five distinct tokens the caller may transfer are burned without error,
      whatever their rank strings say. */
  lemma SilverToGoldSucceeds(s: State, env: Env, s1: string, s2: string, s3: string, s4: string, s5: string)
    requires forall i, j :: 0 <= i < j < 5 ==> [s1, s2, s3, s4, s5][i] != [s1, s2, s3, s4, s5][j]
    requires forall id :: id in [s1, s2, s3, s4, s5] ==> id in s.tokens && MayTransfer(s, env, s.tokens[id])
    ensures HandleSilverToGold(s, env, s1, s2, s3, s4, s5).Ok?
  {
    var ids := [s1, s2, s3, s4, s5];
    assert forall i :: 0 <= i < |ids| ==> ids[i] in [s1, s2, s3, s4, s5];
    TransferAllSucceeds(s, env, env.contractAddr, ids);
  }

  /** An upgrade fails unless the caller may transfer every token it names. */
  lemma UpgradeRequiresAuthority(s: State, env: Env, msg: HandleMsg)
    requires msg.BaseToSilver? || msg.SilverToGold?
    requires Handle(s, env, msg).Ok?
    ensures var ids := if msg.BaseToSilver? then [msg.base1, msg.base2, msg.base3]
                       else [msg.silver1, msg.silver2, msg.silver3, msg.silver4, msg.silver5];
            forall id :: id in ids ==> id in s.tokens && MayTransfer(s, env, s.tokens[id])
  {
    var ids := if msg.BaseToSilver? then [msg.base1, msg.base2, msg.base3]
               else [msg.silver1, msg.silver2, msg.silver3, msg.silver4, msg.silver5];
    forall id | id in ids
      ensures id in s.tokens && MayTransfer(s, env, s.tokens[id])
    {
      var i :| 0 <= i < |ids| && ids[i] == id;
      var j :| 0 <= j <= i && ids[j] == id && ids[j] !in ids[..j];
    }
  }

  // --------------------------------------------------------- permissions

  /** An approval, for as long as it has not expired, lets its holder
      transfer the token. */
  lemma ApprovalGrantsTransfer(s: State, env: Env, spender: Addr, tokenId: string,
                               expires: Option<Expiration>, later: Env)
    requires HandleApprove(s, env, spender, tokenId, expires).Ok?
    requires later.sender == spender && !IsExpired(ExpirationOrDefault(expires), later.block)
    ensures var s' := HandleApprove(s, env, spender, tokenId, expires).value.state;
            tokenId in s'.tokens && MayTransfer(s', later, s'.tokens[tokenId])
  {
    var apps := HandleApprove(s, env, spender, tokenId, expires).value.state.tokens[tokenId].approvals;
    assert apps[|apps| - 1] == Approval(spender, ExpirationOrDefault(expires));
  }

  /** A revoked spender holds no approval on the token, so only the owner,
      the contract or an operator can still move it. */
  lemma RevokeWithdrawsTransfer(s: State, env: Env, spender: Addr, tokenId: string, later: Env)
    requires HandleRevoke(s, env, spender, tokenId).Ok?
    requires later.sender == spender
    ensures var s' := HandleRevoke(s, env, spender, tokenId).value.state;
            tokenId in s'.tokens && !AnyLiveApproval(s'.tokens[tokenId].approvals, spender, later.block)
  {
  }

  /** An operator grant, while live, lets the operator approve on every
      token of the granting owner. */
  lemma ApproveAllGrantsApprove(s: State, env: Env, operator: Addr, expires: Option<Expiration>,
                                token: TokenInfo, later: Env)
    requires HandleApproveAll(s, env, operator, expires).Ok?
    requires token.owner == env.sender
    requires later.sender == operator && !IsExpired(ExpirationOrDefault(expires), later.block)
    ensures MayApprove(HandleApproveAll(s, env, operator, expires).value.state, later, token)
  {
  }

  /** After the owner revokes an operator, that operator can no longer
      approve on the owner's tokens. */
  lemma RevokeAllWithdrawsApprove(s: State, env: Env, operator: Addr, token: TokenInfo, later: Env)
    requires token.owner == env.sender
    requires later.sender == operator && operator != env.sender
    ensures !MayApprove(HandleRevokeAll(s, env, operator).value.state, later, token)
  {
  }

  // ------------------------------------------------------------ approvals

  /** With one approval per spender, removing a spender deletes exactly its
      entry and keeps the others in order. */
  lemma {:induction false} RemoveSpenderAt(approvals: seq<Approval>, spender: Addr, i: nat)
    requires NoDupSpenders(approvals)
    requires i < |approvals| && approvals[i].spender == spender
    ensures RemoveSpender(approvals, spender) == approvals[..i] + approvals[i + 1..]
    decreases i
  {
    var tail := approvals[1..];
    NoDupTail(approvals);
    if i == 0 {
      assert RemoveSpender(approvals, spender) == RemoveSpender(tail, spender);
      assert forall j :: 0 <= j < |tail| ==> tail[j] == approvals[j + 1];
      assert RemoveSpender(tail, spender) == tail;
      assert approvals[..0] + approvals[1..] == tail;
    } else {
      assert approvals[0].spender != spender;
      assert RemoveSpender(approvals, spender) == [approvals[0]] + RemoveSpender(tail, spender);
      RemoveSpenderAt(tail, spender, i - 1);
      SplitAfterHead(approvals, i);
    }
  }

  lemma NoDupTail(approvals: seq<Approval>)
    requires |approvals| > 0 && NoDupSpenders(approvals)
    ensures NoDupSpenders(approvals[1..])
  {
    assert forall j :: 0 <= j < |approvals[1..]| ==> approvals[1..][j] == approvals[j + 1];
  }

  lemma SplitAfterHead(xs: seq<Approval>, i: nat)
    requires 1 <= i < |xs|
    ensures xs[..i] + xs[i + 1..] == [xs[0]] + (xs[1..][..i - 1] + xs[1..][i..])
  {
    assert xs[..i] == [xs[0]] + xs[1..][..i - 1];
    assert xs[i + 1..] == xs[1..][i..];
  }

  /** Approving a spender that already holds an approval replaces it: the
      old entry leaves its place and the new one goes last. */
  lemma ApproveReplaces(s: State, env: Env, spender: Addr, tokenId: string, expires: Option<Expiration>, i: nat)
    requires Valid(s)
    requires HandleApprove(s, env, spender, tokenId, expires).Ok?
    requires i < |s.tokens[tokenId].approvals| && s.tokens[tokenId].approvals[i].spender == spender
    ensures var old_ := s.tokens[tokenId].approvals;
            HandleApprove(s, env, spender, tokenId, expires).value.state.tokens[tokenId].approvals
            == old_[..i] + old_[i + 1..] + [Approval(spender, ExpirationOrDefault(expires))]
  {
    RemoveSpenderAt(s.tokens[tokenId].approvals, spender, i);
  }

  /** Approving a new spender appends exactly one approval. */
  lemma ApproveAppends(s: State, env: Env, spender: Addr, tokenId: string, expires: Option<Expiration>)
    requires HandleApprove(s, env, spender, tokenId, expires).Ok?
    requires forall a :: a in s.tokens[tokenId].approvals ==> a.spender != spender
    ensures HandleApprove(s, env, spender, tokenId, expires).value.state.tokens[tokenId].approvals
            == s.tokens[tokenId].approvals + [Approval(spender, ExpirationOrDefault(expires))]
  {
    var apps := s.tokens[tokenId].approvals;
    assert forall j :: 0 <= j < |apps| ==> apps[j] in apps;
  }

  /** Revoking a spender that holds no approval succeeds and changes nothing. */
  lemma RevokeAbsentIsNoop(s: State, env: Env, spender: Addr, tokenId: string)
    requires tokenId in s.tokens && MayApprove(s, env, s.tokens[tokenId])
    requires forall a :: a in s.tokens[tokenId].approvals ==> a.spender != spender
    ensures HandleRevoke(s, env, spender, tokenId).Ok?
    ensures HandleRevoke(s, env, spender, tokenId).value.state == s
  {
    var apps := s.tokens[tokenId].approvals;
    assert forall j :: 0 <= j < |apps| ==> apps[j] in apps;
    assert s.tokens[tokenId := s.tokens[tokenId].(approvals := apps)] == s.tokens;
  }

  /** A transfer leaves the token with no approvals at all, so no approval
      survives a change of owner. */
  lemma TransferClearsApprovals(s: State, env: Env, msg: HandleMsg)
    requires msg.TransferNft? || msg.SendNft?
    requires Handle(s, env, msg).Ok?
    ensures Handle(s, env, msg).value.state.tokens[msg.tokenId].approvals == []
  {
  }
}
