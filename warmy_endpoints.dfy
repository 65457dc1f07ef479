/**
 * Each endpoint of the contract as a function from the storage before the call
 * to its outcome. A `Reverted` outcome means the transaction is rolled back:
 * no storage write and no transfer of that call survives.
 */
module WarmyEndpoints {
  import opened WarmyState

  datatype Outcome = Done(st: Storage, effects: seq<Effect>) | Reverted(error: Error)
  {
    /** The storage after the transaction: the new one, or the old one on a revert. */
    function Commit(before: Storage): Storage {
      if Done? then st else before
    }

    /** The effects that survive the transaction. */
    function Emitted(): seq<Effect> {
      if Done? then effects else []
    }
  }

  /** `init`: the deployment writes only `nft_left`; every other mapper reads as empty. */
  function Init(): (s: Storage)
    ensures s.nftLeft == NftAmount && s.nftBought == 0 && s.amountRaised == 0
    ensures s.nftTokenId == "" && !s.nftCreated
    ensures Conserved(s)
  {
    Storage(0, 0, NftAmount, 0, "", false)
  }

  /** The `#[only_owner]` guard that runs before the body of an owner-only endpoint. */
  function OnlyOwner(owner: Address, caller: Address): (r: Result<()>)
    ensures r.Ok? <==> caller == owner
    ensures r.Err? ==> r.error == NotOwner
  {
    if caller == owner then Ok(()) else Err(NotOwner)
  }

  /** `donate`: records every payment; one that reaches the threshold also grants one unit. */
  function Donate(s: Storage, caller: Address, payment: nat): (o: Outcome)
    ensures !s.nftCreated ==> o == Reverted(NftNotCreated)
    ensures s.nftCreated && payment >= MinAmountForNft && s.nftLeft == 0 ==> o == Reverted(AllNftsBought)
    ensures o.Done? <==> s.nftCreated && (payment < MinAmountForNft || s.nftLeft > 0)
    ensures o.Done? && payment < MinAmountForNft ==>
      o.st == s.(amountRaised := s.amountRaised + payment) && o.effects == []
    ensures o.Done? && payment >= MinAmountForNft ==>
      o.st.nftBought == s.nftBought + 1 && o.st.nftLeft + 1 == s.nftLeft &&
      o.st.amountRaised == s.amountRaised + payment &&
      o.st.(amountRaised := s.amountRaised, nftBought := s.nftBought, nftLeft := s.nftLeft) == s &&
      o.effects == [Send(caller, Esdt(s.nftTokenId), s.nftNonce, 1, Thanks)]
    ensures o.Done? ==> o.st.nftBought + o.st.nftLeft == s.nftBought + s.nftLeft
  {
    if !s.nftCreated then Reverted(NftNotCreated)
    else if payment >= MinAmountForNft then
      if s.nftLeft == 0 then Reverted(AllNftsBought)
      else
        Done(s.(nftBought := s.nftBought + 1, nftLeft := s.nftLeft - 1,
                amountRaised := s.amountRaised + payment),
             [Send(caller, Esdt(s.nftTokenId), s.nftNonce, 1, Thanks)])
    else
      Done(s.(amountRaised := s.amountRaised + payment), [])
  }

  /** `claim`: the owner takes the whole EGLD balance of the contract and the raised counter restarts. */
  function Claim(s: Storage, owner: Address, caller: Address, balance: nat): (o: Outcome)
    ensures o.Done? <==> caller == owner
    ensures o.Reverted? ==> o.error == NotOwner
    ensures o.Done? ==> o.st.amountRaised == 0 && o.st.(amountRaised := s.amountRaised) == s
    ensures o.Done? ==> o.effects == [Send(owner, Egld, 0, balance, "")]
  {
    match OnlyOwner(owner, caller)
    case Err(e) => Reverted(e)
    case Ok(_) => Done(s.(amountRaised := 0), [Send(owner, Egld, 0, balance, "")])
  }

  /** `claimNFT`: the owner takes every unit still left in one transfer. */
  function ClaimNft(s: Storage, owner: Address, caller: Address): (o: Outcome)
    ensures o.Done? <==> caller == owner
    ensures o.Reverted? ==> o.error == NotOwner
    ensures o.Done? ==> o.st.nftLeft == 0 && o.st.nftBought == s.nftBought
    ensures o.Done? ==> o.st.(nftLeft := s.nftLeft) == s
    ensures o.Done? ==> o.effects == [Send(owner, Esdt(s.nftTokenId), s.nftNonce, s.nftLeft, "")]
  {
    match OnlyOwner(owner, caller)
    case Err(e) => Reverted(e)
    case Ok(_) => Done(s.(nftLeft := 0), [Send(owner, Esdt(s.nftTokenId), s.nftNonce, s.nftLeft, "")])
  }

  /**
   * `issueToken`: the guard before the asynchronous issue request. The request
   * itself leaves storage alone; its answer arrives in `IssueCallback`.
   */
  function IssueToken(s: Storage, owner: Address, caller: Address): (o: Outcome)
    ensures o.Done? <==> caller == owner && s.nftTokenId == ""
    ensures caller != owner ==> o == Reverted(NotOwner)
    ensures caller == owner && s.nftTokenId != "" ==> o == Reverted(TokenAlreadyIssued)
    ensures o.Done? ==> o.st == s && o.effects == []
  {
    match OnlyOwner(owner, caller)
    case Err(e) => Reverted(e)
    case Ok(_) => if s.nftTokenId == "" then Done(s, []) else Reverted(TokenAlreadyIssued)
  }

  /** `require_token_issued`. */
  function RequireTokenIssued(s: Storage): (r: Result<()>)
    ensures r.Ok? <==> s.nftTokenId != ""
    ensures r.Err? ==> r.error == TokenNotIssued
  {
    if s.nftTokenId != "" then Ok(()) else Err(TokenNotIssued)
  }

  /** `require_local_roles_set`: NftCreate is looked for first, then NftAddQuantity. */
  function RequireLocalRolesSet(roles: set<Role>): (r: Result<()>)
    ensures r.Ok? <==> NftCreate in roles && NftAddQuantity in roles
    ensures NftCreate !in roles ==> r == Err(NftCreateRoleNotSet)
    ensures NftCreate in roles && NftAddQuantity !in roles ==> r == Err(NftAddQuantityRoleNotSet)
  {
    if NftCreate !in roles then Err(NftCreateRoleNotSet)
    else if NftAddQuantity !in roles then Err(NftAddQuantityRoleNotSet)
    else Ok(())
  }

  /**
   * `setLocalRoles`: the guard before the asynchronous role request. No callback
   * is attached; whether the roles arrived is seen only by `CreateNft`.
   */
  function SetLocalRoles(s: Storage, owner: Address, caller: Address): (o: Outcome)
    ensures o.Done? <==> caller == owner && s.nftTokenId != ""
    ensures caller != owner ==> o == Reverted(NotOwner)
    ensures caller == owner && s.nftTokenId == "" ==> o == Reverted(TokenNotIssued)
    ensures o.Done? ==> o.st == s && o.effects == []
  {
    match OnlyOwner(owner, caller)
    case Err(e) => Reverted(e)
    case Ok(_) =>
      match RequireTokenIssued(s)
      case Err(e) => Reverted(e)
      case Ok(_) => Done(s, [])
  }

  /**
   * `create_nft_with_attributes`: after both guards, mints `NftAmount` units of
   * the issued token; `newNonce` is the nonce `esdt_nft_create` hands back.
   */
  function CreateNftWithAttributes(s: Storage, name: string, royalties: nat, uri: string,
                                   roles: set<Role>, newNonce: nat): (o: Outcome)
    ensures o.Done? <==> s.nftTokenId != "" && NftCreate in roles && NftAddQuantity in roles
    ensures s.nftTokenId == "" ==> o == Reverted(TokenNotIssued)
    ensures s.nftTokenId != "" && o.Reverted? ==> o.error == RequireLocalRolesSet(roles).error
    ensures o.Done? ==> o.st == s.(nftNonce := newNonce)
    ensures o.Done? ==> o.effects == [Mint(s.nftTokenId, NftAmount, name, royalties, uri, newNonce)]
  {
    match RequireTokenIssued(s)
    case Err(e) => Reverted(e)
    case Ok(_) =>
      match RequireLocalRolesSet(roles)
      case Err(e) => Reverted(e)
      case Ok(_) => Done(s.(nftNonce := newNonce), [Mint(s.nftTokenId, NftAmount, name, royalties, uri, newNonce)])
  }

  /**
   * `createNft`: raises `nftCreated` and then mints with no royalties. A failed
   * guard inside the mint reverts the flag too.
   */
  function CreateNft(s: Storage, owner: Address, caller: Address, name: string, uri: string,
                     roles: set<Role>, newNonce: nat): (o: Outcome)
    ensures o.Done? <==> caller == owner && s.nftTokenId != "" && NftCreate in roles && NftAddQuantity in roles
    ensures caller != owner ==> o == Reverted(NotOwner)
    ensures caller == owner && s.nftTokenId == "" ==> o == Reverted(TokenNotIssued)
    ensures caller == owner && s.nftTokenId != "" && NftCreate !in roles ==> o == Reverted(NftCreateRoleNotSet)
    ensures caller == owner && s.nftTokenId != "" && NftCreate in roles && NftAddQuantity !in roles ==>
      o == Reverted(NftAddQuantityRoleNotSet)
    ensures o.Done? ==> o.st == s.(nftCreated := true, nftNonce := newNonce)
    ensures o.Done? ==> o.effects == [Mint(s.nftTokenId, NftAmount, name, 0, uri, newNonce)]
  {
    match OnlyOwner(owner, caller)
    case Err(e) => Reverted(e)
    case Ok(_) => CreateNftWithAttributes(s.(nftCreated := true), name, 0, uri, roles, newNonce)
  }

  /** What the system contract answers to the issue request. */
  datatype IssueResult =
    | IssueOk(tokenId: string)
    | IssueErr(returned: nat, returnedToken: Token)  // the payment that comes back with the failure

  /**
   * `issue_callback`: on success stores the token id; on failure refunds the
   * returned payment to the owner, but only a non-zero amount of EGLD.
   */
  function IssueCallback(s: Storage, owner: Address, result: IssueResult): (o: Outcome)
    ensures o.Done?
    ensures result.IssueOk? ==> o.st == s.(nftTokenId := result.tokenId) && o.effects == []
    ensures result.IssueErr? ==> o.st == s
    ensures result.IssueErr? && result.returnedToken == Egld && result.returned > 0 ==>
      o.effects == [Send(owner, Egld, 0, result.returned, "")]
    ensures result.IssueErr? && (result.returnedToken != Egld || result.returned == 0) ==> o.effects == []
  {
    match result
    case IssueOk(id) => Done(s.(nftTokenId := id), [])
    case IssueErr(returned, token) =>
      if token == Egld && returned > 0 then Done(s, [Send(owner, Egld, 0, returned, "")])
      else Done(s, [])
  }
}
