# WarmyDonation contract, modelled in Dafny

WarmyDonation is a single-owner donation contract for the Elrond (MultiversX)
chain. Donors pay EGLD into it. A donation of at least 0.05 EGLD also earns
one unit of a semi-fungible reward token, drawn from a pool of 1000 units.
The owner first issues the token through the chain's ESDT system contract,
which answers asynchronously. The owner then asks for the local NftCreate and
NftAddQuantity roles and mints the batch. At any time the owner can withdraw
the EGLD balance and the unsold units.

The model has four modules:

- `WarmyState` (warmy_state.dfy): the constants `NftAmount` (1000) and
  `MinAmountForNft` (5·10^16). It also holds the six storage mappers as one
  `Storage` value, the `Error` kinds of the `require!` guards, and the
  `Effect`s a call leaves behind (an outgoing transfer, or a mint).
- `WarmyEndpoints` (warmy_endpoints.dfy): every endpoint and private check as
  a function from the storage before the call to an `Outcome`. The outcome is
  either `Done(storage, effects)` or `Reverted(error)`. A revert rolls the
  whole transaction back, so the storage stays as it was and no transfer
  survives.
- `WarmyContract` (warmy_contract.dfy): class `Contract`. Its fields are the
  six storage mappers plus the fixed owner. It has a ghost log of transfers
  and mints, and a ghost count of issue requests still awaiting their
  callback. There is one imperative method per endpoint. Each method is
  proved against the endpoint function of the same name, and each keeps the
  invariant `nftBought + nftLeft <= 1000`.
- `WarmyTrace` (warmy_trace.dfy): runs any sequence of calls against the
  contract. A reverted call changes nothing. The issue callback arrives as a
  call of its own, and only while an issue request is in flight. The lemmas
  here relate many calls to each other: the pool bound, conservation of
  reward units, the write-once token id, and a scenario from deployment to
  the final claim.

The model follows the contract code:

- A payment at or above the threshold when no unit is left is rejected with
  "All NFTs have been bought", and the whole donation reverts. It is not
  accepted as a plain donation.
- `nft_left` is set to 1000 by `init`, not by the mint. A second `createNft`
  mints a new batch and moves the nonce, but it does not refill the pool.
- `createNft` writes `nftCreated` before its guards. A failing guard reverts
  that write as well.
- The write-once property of the token id holds only when no issue request
  is in flight. `issueToken` checks only the stored id, so two requests sent
  before either answer both pass. The second successful answer then replaces
  the first id (`WarmyTrace.TwoIssuesInFlightOverwrite`).

## Model

| member | source | states |
|---|---|---|
| WarmyEndpoints.Init | src/warmy.rs:15-18 | Deployment leaves `nft_left` at 1000 and every other counter, flag and id empty, so `nft_bought + nft_left == NFT_AMOUNT` holds from the start |
| WarmyEndpoints.OnlyOwner | src/warmy.rs:82-83 | An owner-only endpoint runs exactly when the caller is the owner; otherwise it fails with `NotOwner` |
| WarmyEndpoints.Donate | src/warmy.rs:51-79 | Fails with `NftNotCreated` unless `nftCreated`. Fails with `AllNftsBought` when the payment reaches 5·10^16 and nothing is left. Below the threshold, only `amount_raised` grows, by exactly the payment, and no transfer happens. At or above it, one unit of (token id, nonce) goes to the caller with the thanks message, `nft_bought` goes up by 1, `nft_left` goes down by 1 and `amount_raised` grows by the payment. `nft_bought + nft_left` is unchanged |
| WarmyEndpoints.Claim | src/warmy.rs:82-94 | Succeeds exactly for the owner. Sends the whole EGLD balance to the owner in one transfer, zeroes `amount_raised` and changes nothing else |
| WarmyEndpoints.ClaimNft | src/warmy.rs:97-111 | Succeeds exactly for the owner. Sends all `nft_left` units of (token id, nonce) to the owner in one transfer, zeroes `nft_left` and changes nothing else, `nft_bought` included |
| WarmyEndpoints.IssueToken | src/warmy.rs:120-149 | Fails with `NotOwner` for others, and with `TokenAlreadyIssued` when a token id is stored. Otherwise it succeeds without touching storage or sending anything |
| WarmyEndpoints.RequireTokenIssued | src/warmy.rs:236-239 | Passes exactly when the token id is non-empty; otherwise `TokenNotIssued` |
| WarmyEndpoints.RequireLocalRolesSet | src/warmy.rs:241-256 | Passes exactly when both roles are present. A missing NftCreate is reported first, then a missing NftAddQuantity |
| WarmyEndpoints.SetLocalRoles | src/warmy.rs:151-170 | Fails with `NotOwner` for others, and with `TokenNotIssued` when no token id is stored. Otherwise it succeeds and changes nothing |
| WarmyEndpoints.CreateNftWithAttributes | src/warmy.rs:174-210 | Succeeds exactly when the token is issued and both roles are present, reporting the first failing guard otherwise. On success it mints 1000 units of the token and stores the returned nonce |
| WarmyEndpoints.CreateNft | src/warmy.rs:212-232 | Succeeds exactly for the owner with the token issued and both roles present. Each failing guard has its own error. On success it sets `nftCreated`, stores the new nonce and mints 1000 units with no royalties. On failure the early `nftCreated` write is rolled back |
| WarmyEndpoints.IssueCallback | src/warmy.rs:259-274 | Never fails. `Ok(id)` stores the id and sends nothing. `Err` leaves storage alone and refunds the returned payment to the owner only when it is a non-zero amount of EGLD |
| WarmyContract.Contract.constructor | src/warmy.rs:15-18 | The fields start as `Init()`, with an empty log and no issue request in flight |
| WarmyContract.Contract.Donate | src/warmy.rs:51-79 | The new fields, the result and the appended transfers are those `WarmyEndpoints.Donate` gives. On error nothing changes. The pool stays bounded |
| WarmyContract.Contract.Claim | src/warmy.rs:82-94 | Agrees with `WarmyEndpoints.Claim`. On error nothing changes |
| WarmyContract.Contract.ClaimNft | src/warmy.rs:97-111 | Agrees with `WarmyEndpoints.ClaimNft`. On error nothing changes |
| WarmyContract.Contract.IssueToken | src/warmy.rs:120-149 | Agrees with `WarmyEndpoints.IssueToken`. Storage and log are unchanged, and a success puts one more issue request in flight |
| WarmyContract.Contract.IssueCallback | src/warmy.rs:259-274 | Consumes one request in flight and applies `WarmyEndpoints.IssueCallback` to the fields and the log |
| WarmyContract.Contract.SetLocalRoles | src/warmy.rs:151-170 | Agrees with `WarmyEndpoints.SetLocalRoles`. Nothing changes |
| WarmyContract.Contract.CreateNftWithAttributes | src/warmy.rs:174-210 | Agrees with `WarmyEndpoints.CreateNftWithAttributes` and returns the new nonce. On error nothing changes |
| WarmyContract.Contract.CreateNft | src/warmy.rs:212-232 | Agrees with `WarmyEndpoints.CreateNft` and returns the new nonce. On error every field is as before, `nftCreated` included |
| WarmyTrace.StepKeepsBounded | src/warmy.rs:61-107 | No single transaction can push `nft_bought + nft_left` above 1000 |
| WarmyTrace.RunKeepsBounded | src/warmy.rs:53-111 | Over any sequence of calls the pool stays within 1000, so neither u32 counter can wrap and the decrement never underflows |
| WarmyTrace.StepKeepsPoolTotal | src/warmy.rs:73-74 | Every call except `claimNFT` leaves `nft_bought + nft_left` unchanged |
| WarmyTrace.RunWithoutClaimNftConserves | src/warmy.rs:15-79 | `nft_bought + nft_left == 1000` is preserved by any sequence of calls without `claimNFT` |
| WarmyTrace.StepSendsWhatLeavesPool | src/warmy.rs:71-107 | Each transaction lowers `nft_left` by exactly the reward units it transfers out |
| WarmyTrace.RunSendsWhatLeavesPool | src/warmy.rs:61-107 | Over any sequence of calls, the reward units sent to donors and the owner together equal the drop in `nft_left` |
| WarmyTrace.DeployedSendsAtMostBatch | src/warmy.rs:17-107 | From deployment on, at most 1000 reward units ever leave the contract, whatever is called |
| WarmyTrace.TokenIdWriteOnce | src/warmy.rs:259-264 | Once an id is stored and no issue request is in flight, no sequence of calls changes the id or starts a new issue, because the `issueToken` guard at line 129 rejects it |
| WarmyTrace.TwoIssuesInFlightOverwrite | src/warmy.rs:129-263 | Two issue requests sent before either answer both pass the guard. The second successful callback replaces the stored id |
| WarmyTrace.RepeatedDonations | src/warmy.rs:61-76 | While units are left, n threshold donations move n units from left to bought, raise `amount_raised` by n times the payment and send the donor n single units |
| WarmyTrace.SetupMints | src/warmy.rs:120-232 | The sequence issue, successful callback, role request, `createNft` takes a fresh contract to `nftCreated` with the id and nonce stored, 1000 left and one mint of 1000 units |
| WarmyTrace.FiftyDonationsThenClaim | src/warmy.rs:51-111 | After setup, 50 threshold donations give 50 bought and 950 left. A following `claimNFT` sends those 950 units to the owner in one transfer, and 1000 units have then left in all |
| WarmyTrace.CreateNftTwice | src/warmy.rs:212-232 | A second `createNft` succeeds again, mints a further 1000 units under a new nonce and leaves `nft_bought` and `nft_left` as they were |
| WarmyTrace.ClaimNftTwiceSendsZero | src/warmy.rs:97-111 | A second `claimNFT` succeeds and transfers 0 units |

## Left out

- The attribute payload, its `TopEncode` serialisation and its SHA-256 hash (src/warmy.rs:189-193, 222) are left out. They are codec and crypto calls, so a `Mint` effect records only the token, amount, name, royalties, URI and nonce.
- `esdt_nft_create` is a chain call. The model takes the nonce it returns as the parameter `newNonce`.
- The ESDT system-contract proxy, the `async_call` plumbing and the token properties (src/warmy.rs:131-148, 161-169) are chain calls and are left out. Only each endpoint's guard and the callback's effect are modelled.
- WarmyEndpoints.IssueToken and WarmyContract.Contract.IssueToken take no issue cost, name or ticker. These are only forwarded to the system contract, and the cost returns, if at all, through the callback's `IssueErr` payload.
- The roles granted by `setLocalRoles` are not tracked. `get_esdt_local_roles` becomes the `roles` parameter of `createNft`.
- `get_sc_balance` becomes the `balance` parameter of `claim`. `get_caller` becomes the `caller` parameter.
- `get_owner_address` becomes the owner fixed at construction. The internals of `#[only_owner]` are reduced to `caller == owner`.
- Transfers always succeed in the model. The chain would fail a transfer of tokens the contract does not hold, for example `claimNFT` before any token is issued, and revert the call. Balances are chain state outside the contract.
- `BigUint` amounts and the u64 nonce are unbounded naturals. The u32 pool counters are shown to stay below 2^32 rather than modelled as wrapping.
- Interleaving inside a transaction is not modelled: each call is atomic. The issue callback is a separate call, delivered only while a request is in flight.
- The `#[view]` getters and the storage encoding are left out. The views only read a field.
- Running `init` again on a contract upgrade is left out. Only deployment is modelled.
