/** Storage, constants and value types of the WarmyDonation contract. */
module WarmyState {

  /** The message attached to the unit a donor receives. */
  const Thanks: string := "Here is your NFT. Multumesc !"

  /** Number of reward units minted in the single batch (`NFT_AMOUNT`). */
  const NftAmount: nat := 1000

  /** Smallest donation that earns a reward unit: 0.05 EGLD in its 18-decimal base unit. */
  const MinAmountForNft: nat := 50000000000000000

  /** `nft_bought` and `nft_left` are stored as u32. */
  const U32Limit: nat := 0x1_0000_0000

  /** An account on the chain. */
  type Address = string

  /** What an outgoing transfer moves: the native currency or units of an ESDT token. */
  datatype Token = Egld | Esdt(id: string)

  /** The two local roles the minting step needs on the token. */
  datatype Role = NftCreate | NftAddQuantity

  /** The `require!` failures of the contract, each of which reverts the whole call. */
  datatype Error =
    | NotOwner                  // rejected by the `#[only_owner]` guard
    | NftNotCreated             // "NFT has not been created yet"
    | AllNftsBought             // "All NFTs have been bought"
    | TokenAlreadyIssued        // "Token already issued"
    | TokenNotIssued            // "Token not issued"
    | NftCreateRoleNotSet       // "NFTCreate role not set"
    | NftAddQuantityRoleNotSet  // "NftAddQuantity role not set"

  /** The value an endpoint hands back to the caller when it does not revert. */
  datatype Result<T> = Ok(value: T) | Err(error: Error)

  /**
   * The six storage mappers. `nftTokenId == ""` is the empty mapper
   * (`is_empty()`); reading an unset mapper yields the zero value.
   */
  datatype Storage = Storage(
    amountRaised: nat,
    nftBought: nat,
    nftLeft: nat,
    nftNonce: nat,
    nftTokenId: string,
    nftCreated: bool)

  /**
   * What an endpoint does outside its own storage: a `send().direct…` transfer,
   * or the `esdt_nft_create` mint of a batch (the attribute hash is not modelled).
   */
  datatype Effect =
    | Send(to: Address, token: Token, nonce: nat, amount: nat, data: string)
    | Mint(tokenId: string, amount: nat, name: string, royalties: nat, uri: string, nonce: nat)

  /** Units in the reward pool never exceed the batch size, so the u32 counters cannot wrap. */
  predicate Bounded(s: Storage) {
    s.nftBought + s.nftLeft <= NftAmount
  }

  /** Every unit of the pool is either granted or still left. */
  predicate Conserved(s: Storage) {
    s.nftBought + s.nftLeft == NftAmount
  }
}
