/**
 * Sequences of transactions against one deployed contract. Each call runs to
 * completion on its own; a reverted call leaves the world unchanged. The world
 * is the storage plus the number of issue requests still awaiting their
 * callback, which the system contract delivers as a call of its own.
 */
module WarmyTrace {
  import opened WarmyState
  import opened WarmyEndpoints

  datatype Call =
    | DonateCall(caller: Address, payment: nat)
    | ClaimCall(caller: Address, balance: nat)
    | ClaimNftCall(caller: Address)
    | IssueTokenCall(caller: Address)
    | IssueCallbackCall(result: IssueResult)
    | SetLocalRolesCall(caller: Address)
    | CreateNftCall(caller: Address, name: string, uri: string, roles: set<Role>, newNonce: nat)

  datatype World = World(st: Storage, pendingIssues: nat)

  /** The world after some calls, and the effects they left, oldest first. */
  datatype Trace = Trace(world: World, log: seq<Effect>)

  /** The world right after deployment. */
  function Deployed(): World {
    World(Init(), 0)
  }

  /** Applies an endpoint's outcome: commit on success, roll back on revert. */
  function Apply(w: World, o: Outcome): Trace {
    Trace(World(o.Commit(w.st), w.pendingIssues), o.Emitted())
  }

  /** One transaction. A callback with no issue request in flight is never delivered. */
  function Step(owner: Address, w: World, c: Call): Trace {
    match c
    case DonateCall(caller, payment) => Apply(w, Donate(w.st, caller, payment))
    case ClaimCall(caller, balance) => Apply(w, Claim(w.st, owner, caller, balance))
    case ClaimNftCall(caller) => Apply(w, ClaimNft(w.st, owner, caller))
    case IssueTokenCall(caller) =>
      var o := IssueToken(w.st, owner, caller);
      if o.Done? then Trace(World(o.st, w.pendingIssues + 1), o.effects) else Apply(w, o)
    case IssueCallbackCall(result) =>
      if w.pendingIssues == 0 then Trace(w, [])
      else
        var o := IssueCallback(w.st, owner, result);
        Trace(World(o.st, w.pendingIssues - 1), o.effects)
    case SetLocalRolesCall(caller) => Apply(w, SetLocalRoles(w.st, owner, caller))
    case CreateNftCall(caller, name, uri, roles, newNonce) =>
      Apply(w, CreateNft(w.st, owner, caller, name, uri, roles, newNonce))
  }

  function Run(owner: Address, w: World, calls: seq<Call>): Trace
    decreases |calls|
  {
    if calls == [] then Trace(w, [])
    else
      var first := Step(owner, w, calls[0]);
      var rest := Run(owner, first.world, calls[1..]);
      Trace(rest.world, first.log + rest.log)
  }

  /** Units of ESDT tokens (the reward units) that left the contract in `effects`. */
  function EsdtUnitsSent(effects: seq<Effect>): nat {
    if effects == [] then 0
    else
      (if effects[0].Send? && effects[0].token.Esdt? then effects[0].amount else 0)
      + EsdtUnitsSent(effects[1..])
  }

  lemma {:induction false} EsdtUnitsSentAppend(a: seq<Effect>, b: seq<Effect>)
    ensures EsdtUnitsSent(a + b) == EsdtUnitsSent(a) + EsdtUnitsSent(b)
  {
    if a == [] {
      assert a + b == b;
    } else {
      assert (a + b)[1..] == a[1..] + b;
      EsdtUnitsSentAppend(a[1..], b);
    }
  }

  /** Running two batches of calls one after the other is running them together. */
  lemma {:induction false} RunAppend(owner: Address, w: World, xs: seq<Call>, ys: seq<Call>)
    ensures Run(owner, w, xs + ys).world == Run(owner, Run(owner, w, xs).world, ys).world
    ensures Run(owner, w, xs + ys).log == Run(owner, w, xs).log + Run(owner, Run(owner, w, xs).world, ys).log
    decreases |xs|
  {
    if xs == [] {
      assert xs + ys == ys;
    } else {
      var first := Step(owner, w, xs[0]);
      assert (xs + ys)[0] == xs[0];
      assert (xs + ys)[1..] == xs[1..] + ys;
      var mid := Run(owner, first.world, xs[1..]);
      var tail := Run(owner, mid.world, ys);
      RunAppend(owner, first.world, xs[1..], ys);
      assert Run(owner, w, xs + ys).log == first.log + (mid.log + tail.log);
      assert first.log + (mid.log + tail.log) == (first.log + mid.log) + tail.log;
    }
  }

  /** Every transaction keeps `nft_bought + nft_left` at most the batch size. */
  lemma StepKeepsBounded(owner: Address, w: World, c: Call)
    requires Bounded(w.st)
    ensures Bounded(Step(owner, w, c).world.st)
  {
  }

  /**
   * From any bounded world, whatever calls follow, the pool counters stay within
   * the batch size, and therefore below the u32 limit: neither counter wraps.
   */
  lemma {:induction false} RunKeepsBounded(owner: Address, w: World, calls: seq<Call>)
    requires Bounded(w.st)
    ensures Bounded(Run(owner, w, calls).world.st)
    ensures Run(owner, w, calls).world.st.nftBought < U32Limit
    ensures Run(owner, w, calls).world.st.nftLeft < U32Limit
    decreases |calls|
  {
    if calls != [] {
      StepKeepsBounded(owner, w, calls[0]);
      RunKeepsBounded(owner, Step(owner, w, calls[0]).world, calls[1..]);
    }
  }

  /** A call other than `claimNFT` never changes `nft_bought + nft_left`. */
  lemma StepKeepsPoolTotal(owner: Address, w: World, c: Call)
    requires !c.ClaimNftCall?
    ensures Step(owner, w, c).world.st.nftBought + Step(owner, w, c).world.st.nftLeft
         == w.st.nftBought + w.st.nftLeft
  {
  }

  /**
   * `nftBought + nftLeft == NftAmount` holds from deployment on and only
   * `claimNFT` can break it.
   */
  lemma {:induction false} RunWithoutClaimNftConserves(owner: Address, w: World, calls: seq<Call>)
    requires Conserved(w.st)
    requires forall i :: 0 <= i < |calls| ==> !calls[i].ClaimNftCall?
    ensures Conserved(Run(owner, w, calls).world.st)
    decreases |calls|
  {
    if calls != [] {
      StepKeepsPoolTotal(owner, w, calls[0]);
      RunWithoutClaimNftConserves(owner, Step(owner, w, calls[0]).world, calls[1..]);
    }
  }

  /** Each transaction lowers `nft_left` by exactly the reward units it sends out. */
  lemma StepSendsWhatLeavesPool(owner: Address, w: World, c: Call)
    ensures Step(owner, w, c).world.st.nftLeft + EsdtUnitsSent(Step(owner, w, c).log) == w.st.nftLeft
  {
    var t := Step(owner, w, c);
    if t.log != [] {
      assert t.log[1..] == [];
    }
  }

  /**
   * Over any run, the reward units given away (to donors and to the owner) are
   * exactly what `nft_left` lost; from deployment, never more than `NftAmount`.
   */
  lemma {:induction false} RunSendsWhatLeavesPool(owner: Address, w: World, calls: seq<Call>)
    ensures Run(owner, w, calls).world.st.nftLeft + EsdtUnitsSent(Run(owner, w, calls).log) == w.st.nftLeft
    ensures EsdtUnitsSent(Run(owner, w, calls).log) <= w.st.nftLeft
    decreases |calls|
  {
    if calls != [] {
      var first := Step(owner, w, calls[0]);
      StepSendsWhatLeavesPool(owner, w, calls[0]);
      RunSendsWhatLeavesPool(owner, first.world, calls[1..]);
      EsdtUnitsSentAppend(first.log, Run(owner, first.world, calls[1..]).log);
    }
  }

  /** From deployment on, at most `NftAmount` reward units ever leave the contract. */
  lemma DeployedSendsAtMostBatch(owner: Address, calls: seq<Call>)
    ensures EsdtUnitsSent(Run(owner, Deployed(), calls).log) <= NftAmount
  {
    RunSendsWhatLeavesPool(owner, Deployed(), calls);
  }

  /**
   * Once the token id is stored and no issue request is in flight, no later
   * call can issue again or overwrite it.
   */
  lemma {:induction false} TokenIdWriteOnce(owner: Address, w: World, calls: seq<Call>)
    requires w.st.nftTokenId != "" && w.pendingIssues == 0
    ensures Run(owner, w, calls).world.st.nftTokenId == w.st.nftTokenId
    ensures Run(owner, w, calls).world.pendingIssues == 0
    decreases |calls|
  {
    if calls != [] {
      var next := Step(owner, w, calls[0]).world;
      assert next.st.nftTokenId == w.st.nftTokenId && next.pendingIssues == 0;
      TokenIdWriteOnce(owner, next, calls[1..]);
    }
  }

  /**
   * The guard of `issueToken` looks only at the stored id: two requests sent
   * before either answer both pass, and the second success replaces the first id.
   */
  lemma TwoIssuesInFlightOverwrite(owner: Address)
    ensures Run(owner, Deployed(), [IssueTokenCall(owner), IssueTokenCall(owner),
                                    IssueCallbackCall(IssueOk("WRM-aaaaaa")),
                                    IssueCallbackCall(IssueOk("WRM-bbbbbb"))]).world
            == World(Init().(nftTokenId := "WRM-bbbbbb"), 0)
  {
    var w0 := Deployed();
    var w1 := Step(owner, w0, IssueTokenCall(owner)).world;
    assert w1 == World(Init(), 1);
    var w2 := Step(owner, w1, IssueTokenCall(owner)).world;
    assert w2 == World(Init(), 2);
    var w3 := Step(owner, w2, IssueCallbackCall(IssueOk("WRM-aaaaaa"))).world;
    assert w3 == World(Init().(nftTokenId := "WRM-aaaaaa"), 1);
    var w4 := Step(owner, w3, IssueCallbackCall(IssueOk("WRM-bbbbbb"))).world;
    assert w4 == World(Init().(nftTokenId := "WRM-bbbbbb"), 0);
    var calls := [IssueTokenCall(owner), IssueTokenCall(owner),
                  IssueCallbackCall(IssueOk("WRM-aaaaaa")), IssueCallbackCall(IssueOk("WRM-bbbbbb"))];
    assert Run(owner, w3, calls[3..]).world == w4;
    assert Run(owner, w2, calls[2..]).world == w4;
    assert Run(owner, w1, calls[1..]).world == w4;
  }

  /** `count` copies of one call or effect. */
  function Repeat<T>(x: T, count: nat): (r: seq<T>)
    ensures |r| == count
    ensures forall i :: 0 <= i < count ==> r[i] == x
  {
    if count == 0 then [] else [x] + Repeat(x, count - 1)
  }

  /**
   * `count` donations of at least the threshold, while that many units are
   * left, each grant one unit to the donor and move it from left to bought.
   */
  lemma {:induction false} RepeatedDonations(owner: Address, w: World, donor: Address, payment: nat, count: nat)
    requires w.st.nftCreated && payment >= MinAmountForNft && count <= w.st.nftLeft
    ensures Run(owner, w, Repeat(DonateCall(donor, payment), count)).world
         == World(w.st.(amountRaised := w.st.amountRaised + count * payment,
                        nftBought := w.st.nftBought + count,
                        nftLeft := w.st.nftLeft - count), w.pendingIssues)
    ensures Run(owner, w, Repeat(DonateCall(donor, payment), count)).log
         == Repeat(Send(donor, Esdt(w.st.nftTokenId), w.st.nftNonce, 1, Thanks), count)
    decreases count
  {
    if count > 0 {
      var calls := Repeat(DonateCall(donor, payment), count);
      assert calls[1..] == Repeat(DonateCall(donor, payment), count - 1);
      var next := Step(owner, w, calls[0]).world;
      RepeatedDonations(owner, next, donor, payment, count - 1);
      assert count * payment == payment + (count - 1) * payment;
    }
  }

  /** The successful setup sequence: issue, its answer, the roles request, the mint. */
  function Setup(owner: Address, tokenId: string, newNonce: nat): seq<Call> {
    [IssueTokenCall(owner), IssueCallbackCall(IssueOk(tokenId)), SetLocalRolesCall(owner),
     CreateNftCall(owner, "Warmy", "ipfs://warmy", {NftCreate, NftAddQuantity}, newNonce)]
  }

  /** After deployment and a successful setup, the contract is ready to grant all units. */
  lemma SetupMints(owner: Address, tokenId: string, newNonce: nat)
    requires tokenId != ""
    ensures Run(owner, Deployed(), Setup(owner, tokenId, newNonce)).world
         == World(Init().(nftTokenId := tokenId, nftNonce := newNonce, nftCreated := true), 0)
    ensures Run(owner, Deployed(), Setup(owner, tokenId, newNonce)).log
         == [Mint(tokenId, NftAmount, "Warmy", 0, "ipfs://warmy", newNonce)]
  {
    var calls := Setup(owner, tokenId, newNonce);
    var t1 := Step(owner, Deployed(), calls[0]);
    var t2 := Step(owner, t1.world, calls[1]);
    var t3 := Step(owner, t2.world, calls[2]);
    var t4 := Step(owner, t3.world, calls[3]);
    assert t1 == Trace(World(Init(), 1), []);
    assert t2 == Trace(World(Init().(nftTokenId := tokenId), 0), []);
    assert t3 == Trace(t2.world, []);
    assert t4.world == World(Init().(nftTokenId := tokenId, nftNonce := newNonce, nftCreated := true), 0);
    assert Run(owner, t3.world, calls[3..]) == t4;
    assert Run(owner, t2.world, calls[2..]) == t4;
    assert Run(owner, t1.world, calls[1..]) == t4;
  }

  /**
   * From deployment: a successful setup, fifty donations of exactly the
   * threshold, then `claimNFT` by the owner. Fifty units are bought, 950 are
   * left, and the claim sends those 950 to the owner in one transfer.
   */
  lemma FiftyDonationsThenClaim(owner: Address, donor: Address, tokenId: string, newNonce: nat)
    requires tokenId != ""
    ensures var donated := Run(owner, Deployed(), Setup(owner, tokenId, newNonce)
                                                  + Repeat(DonateCall(donor, MinAmountForNft), 50));
      donated.world.st.nftBought == 50 && donated.world.st.nftLeft == 950 &&
      donated.world.st.amountRaised == 50 * MinAmountForNft
    ensures var claimed := Run(owner, Deployed(), Setup(owner, tokenId, newNonce)
                                                  + Repeat(DonateCall(donor, MinAmountForNft), 50)
                                                  + [ClaimNftCall(owner)]);
      claimed.world.st.nftBought == 50 && claimed.world.st.nftLeft == 0 &&
      |claimed.log| > 0 && claimed.log[|claimed.log| - 1] == Send(owner, Esdt(tokenId), newNonce, 950, "") &&
      EsdtUnitsSent(claimed.log) == NftAmount
  {
    var setup := Setup(owner, tokenId, newNonce);
    var donations := Repeat(DonateCall(donor, MinAmountForNft), 50);
    SetupMints(owner, tokenId, newNonce);
    var minted := Run(owner, Deployed(), setup).world;
    RepeatedDonations(owner, minted, donor, MinAmountForNft, 50);
    RunAppend(owner, Deployed(), setup, donations);
    var donated := Run(owner, Deployed(), setup + donations);
    RunAppend(owner, Deployed(), setup + donations, [ClaimNftCall(owner)]);
    var last := Run(owner, donated.world, [ClaimNftCall(owner)]);
    assert last.log == [Send(owner, Esdt(tokenId), newNonce, 950, "")];
    RunSendsWhatLeavesPool(owner, Deployed(), setup + donations + [ClaimNftCall(owner)]);
  }

  /** Nothing guards a second `createNft`: it mints a new batch and moves the nonce, while the pool stays as it was. */
  lemma CreateNftTwice(s: Storage, owner: Address, name: string, uri: string,
                       roles: set<Role>, firstNonce: nat, secondNonce: nat)
    requires CreateNft(s, owner, owner, name, uri, roles, firstNonce).Done?
    ensures var again := CreateNft(CreateNft(s, owner, owner, name, uri, roles, firstNonce).st,
                                   owner, owner, name, uri, roles, secondNonce);
      again.Done? && again.st.nftNonce == secondNonce &&
      again.st.nftLeft == s.nftLeft && again.st.nftBought == s.nftBought &&
      again.effects == [Mint(s.nftTokenId, NftAmount, name, 0, uri, secondNonce)]
  {
  }

  /** A second `claimNFT` succeeds and sends zero units. */
  lemma ClaimNftTwiceSendsZero(s: Storage, owner: Address)
    ensures var again := ClaimNft(ClaimNft(s, owner, owner).st, owner, owner);
      again.Done? && again.st == s.(nftLeft := 0) &&
      again.effects == [Send(owner, Esdt(s.nftTokenId), s.nftNonce, 0, "")]
  {
  }
}
