/**
 * The deployed contract: its storage mappers as mutable fields and one method
 * per endpoint. Each method is proved against the endpoint function of the
 * same name in `WarmyEndpoints`, and a method that fails leaves every field as
 * it was, as the chain does when a `require!` reverts the transaction.
 */
module WarmyContract {
  import opened WarmyState
  import opened WarmyEndpoints

  class Contract {
    /** The deployer, the only caller the `#[only_owner]` endpoints accept. */
    const owner: Address

    var amountRaised: nat
    var nftBought: nat
    var nftLeft: nat
    var nftNonce: nat
    var nftTokenId: string
    var nftCreated: bool

    /** Every transfer and mint that left the contract, oldest first. */
    ghost var log: seq<Effect>
    /** Issue requests whose callback the system contract has not delivered yet. */
    ghost var pendingIssues: nat

    /** The six storage mappers as one value. */
    function Snapshot(): Storage
      reads this
    {
      Storage(amountRaised, nftBought, nftLeft, nftNonce, nftTokenId, nftCreated)
    }

    ghost predicate Valid()
      reads this
    {
      Bounded(Snapshot())
    }

    /** Deployment followed by `init`. */
    constructor (deployer: Address)
      ensures owner == deployer
      ensures Snapshot() == Init()
      ensures log == [] && pendingIssues == 0
      ensures Valid()
    {
      owner := deployer;
      amountRaised, nftBought, nftLeft, nftNonce := 0, 0, NftAmount, 0;
      nftTokenId, nftCreated := "", false;
      log, pendingIssues := [], 0;
    }

    method Donate(caller: Address, payment: nat) returns (r: Result<()>)
      requires Valid()
      modifies this
      ensures Valid()
      ensures var o := WarmyEndpoints.Donate(old(Snapshot()), caller, payment);
        r == (if o.Done? then Ok(()) else Err(o.error)) &&
        Snapshot() == o.Commit(old(Snapshot())) && log == old(log) + o.Emitted()
      ensures r.Err? ==> Snapshot() == old(Snapshot()) && log == old(log)
      ensures pendingIssues == old(pendingIssues)
    {
      if !nftCreated {
        return Err(NftNotCreated);
      }
      if payment >= MinAmountForNft {
        if nftLeft == 0 {
          return Err(AllNftsBought);
        }
        log := log + [Send(caller, Esdt(nftTokenId), nftNonce, 1, Thanks)];
        nftBought := nftBought + 1;
        nftLeft := nftLeft - 1;
      }
      amountRaised := amountRaised + payment;
      return Ok(());
    }

    /** `balance` is what `get_sc_balance` reports for EGLD at the time of the call. */
    method Claim(caller: Address, balance: nat) returns (r: Result<()>)
      requires Valid()
      modifies this
      ensures Valid()
      ensures var o := WarmyEndpoints.Claim(old(Snapshot()), owner, caller, balance);
        r == (if o.Done? then Ok(()) else Err(o.error)) &&
        Snapshot() == o.Commit(old(Snapshot())) && log == old(log) + o.Emitted()
      ensures r.Err? ==> Snapshot() == old(Snapshot()) && log == old(log)
      ensures pendingIssues == old(pendingIssues)
    {
      var auth := OnlyOwner(owner, caller);
      if auth.Err? {
        return Err(auth.error);
      }
      log := log + [Send(owner, Egld, 0, balance, "")];
      amountRaised := 0;
      return Ok(());
    }

    method ClaimNft(caller: Address) returns (r: Result<()>)
      requires Valid()
      modifies this
      ensures Valid()
      ensures var o := WarmyEndpoints.ClaimNft(old(Snapshot()), owner, caller);
        r == (if o.Done? then Ok(()) else Err(o.error)) &&
        Snapshot() == o.Commit(old(Snapshot())) && log == old(log) + o.Emitted()
      ensures r.Err? ==> Snapshot() == old(Snapshot()) && log == old(log)
      ensures pendingIssues == old(pendingIssues)
    {
      var auth := OnlyOwner(owner, caller);
      if auth.Err? {
        return Err(auth.error);
      }
      log := log + [Send(owner, Esdt(nftTokenId), nftNonce, nftLeft, "")];
      nftLeft := 0;
      return Ok(());
    }

    /** Sends the issue request; its answer comes back later through `IssueCallback`. */
    method IssueToken(caller: Address) returns (r: Result<()>)
      requires Valid()
      modifies this
      ensures Valid()
      ensures var o := WarmyEndpoints.IssueToken(old(Snapshot()), owner, caller);
        r == (if o.Done? then Ok(()) else Err(o.error)) &&
        Snapshot() == old(Snapshot()) && log == old(log)
      ensures pendingIssues == if r.Ok? then old(pendingIssues) + 1 else old(pendingIssues)
    {
      var auth := OnlyOwner(owner, caller);
      if auth.Err? {
        return Err(auth.error);
      }
      if nftTokenId != "" {
        return Err(TokenAlreadyIssued);
      }
      pendingIssues := pendingIssues + 1;
      return Ok(());
    }

    /** Delivered by the system contract, once per issue request in flight. */
    method IssueCallback(result: IssueResult)
      requires Valid()
      requires pendingIssues > 0
      modifies this
      ensures Valid()
      ensures var o := WarmyEndpoints.IssueCallback(old(Snapshot()), owner, result);
        Snapshot() == o.st && log == old(log) + o.effects
      ensures pendingIssues == old(pendingIssues) - 1
    {
      pendingIssues := pendingIssues - 1;
      match result {
        case IssueOk(id) =>
          nftTokenId := id;
        case IssueErr(returned, token) =>
          if token == Egld && returned > 0 {
            log := log + [Send(owner, Egld, 0, returned, "")];
          }
      }
    }

    /** Sends the role request; nothing in storage records whether it succeeded. */
    method SetLocalRoles(caller: Address) returns (r: Result<()>)
      requires Valid()
      modifies this
      ensures Valid()
      ensures var o := WarmyEndpoints.SetLocalRoles(old(Snapshot()), owner, caller);
        r == (if o.Done? then Ok(()) else Err(o.error))
      ensures Snapshot() == old(Snapshot()) && log == old(log) && pendingIssues == old(pendingIssues)
    {
      var auth := OnlyOwner(owner, caller);
      if auth.Err? {
        return Err(auth.error);
      }
      r := RequireTokenIssued(Snapshot());
    }

    /**
     * `roles` is what `get_esdt_local_roles` reports for the token; `newNonce`
     * is the nonce `esdt_nft_create` assigns to the new batch.
     */
    method CreateNftWithAttributes(name: string, royalties: nat, uri: string,
                                   roles: set<Role>, newNonce: nat) returns (r: Result<nat>)
      requires Valid()
      modifies this
      ensures Valid()
      ensures var o := WarmyEndpoints.CreateNftWithAttributes(old(Snapshot()), name, royalties, uri, roles, newNonce);
        r == (if o.Done? then Ok(newNonce) else Err(o.error)) &&
        Snapshot() == o.Commit(old(Snapshot())) && log == old(log) + o.Emitted()
      ensures r.Err? ==> Snapshot() == old(Snapshot()) && log == old(log)
      ensures pendingIssues == old(pendingIssues)
    {
      var issued := RequireTokenIssued(Snapshot());
      if issued.Err? {
        return Err(issued.error);
      }
      var granted := RequireLocalRolesSet(roles);
      if granted.Err? {
        return Err(granted.error);
      }
      log := log + [Mint(nftTokenId, NftAmount, name, royalties, uri, newNonce)];
      nftNonce := newNonce;
      return Ok(newNonce);
    }

    method CreateNft(caller: Address, name: string, uri: string,
                     roles: set<Role>, newNonce: nat) returns (r: Result<nat>)
      requires Valid()
      modifies this
      ensures Valid()
      ensures var o := WarmyEndpoints.CreateNft(old(Snapshot()), owner, caller, name, uri, roles, newNonce);
        r == (if o.Done? then Ok(newNonce) else Err(o.error)) &&
        Snapshot() == o.Commit(old(Snapshot())) && log == old(log) + o.Emitted()
      ensures r.Err? ==> Snapshot() == old(Snapshot()) && log == old(log)
      ensures pendingIssues == old(pendingIssues)
    {
      var auth := OnlyOwner(owner, caller);
      if auth.Err? {
        return Err(auth.error);
      }
      var wasCreated := nftCreated;
      nftCreated := true;
      r := CreateNftWithAttributes(name, 0, uri, roles, newNonce);
      if r.Err? {
        // the failed require! rolls back the flag written above
        nftCreated := wasCreated;
      }
    }
  }
}
