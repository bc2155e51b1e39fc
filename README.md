# Stellar Wizard contracts in Dafny

A model of the three Soroban smart contracts at the centre of the Stellar Wizard
backend, with proofs about them:

- **`StellarWizardRegistry`** (`backend/contracts/registry/src/lib.rs`) records user
  actions (NFT or DeFi plans). Every action gets a sequential ID. The registry takes a
  basis-point commission on the action's amount, keeps a per-user list of action IDs,
  lets a record's creator append transaction references, and has an owner who can
  change the fee, the fee wallet, the pause flag and the ownership. It reports failures
  as typed `RegistryError` values or as panics.
- **`FactoryRegistry`** (`backend/contracts/factory_registry/src/lib.rs`) deploys one
  NFT contract per collection. The contract's address comes from a 32-byte salt built
  from the collection ID. The factory stores each collection and indexes it by creator
  (append-only list), name (last write wins) and contract address. It relays mints
  while logging a per-collection mint history with its fee, and pages through the
  collections. Every failure is a panic.
- **`NFTContract`** (`backend/contracts/nft/src/lib.rs`) is the per-collection
  token contract. It has:
  - a one-shot constructor with a royalty ceiling;
  - a `mint` gated on the `"minter"` role that hands out contiguous token IDs from the
    `NextTokenId` counter;
  - admin-only role management;
  - read-only queries.

Files:

- **`common.dfy`**: addresses, bytes, `Option`, the "unset list reads as empty" rule,
  and ordered ID lists.
- **`fees.dfy`**: the two fee formulas.
- **`record_store.dfy`**: the indexed store both registries share. It has a dense ID
  map with no holes, exact owner lists, and latest-wins key indexes.
- **`pagination.dfy`**: the linear ID scan behind both paginators.
- **`salt.dfy`**: the deployment salt and big-endian `u128` encoding.
- **`registry.dfy`**, **`factory_registry.dfy`**, **`nft.dfy`**: one class per
  contract.

How the contracts are modelled:

- Each contract is a class whose fields are its storage entries.
- Each state-changing entry point is a method with `modifies this`. The read-only
  entry points are functions, or methods without `modifies` where they run a loop.
- The result of a call is an `Outcome`. A panic (or a failed `require_auth`) is
  `Aborted`, and leaves the object unchanged, because the host rolls the call back.
  The registry also has `Err` for its typed errors.
- Authorization is a parameter `auth`, the set of principals that signed the call.
- Foreign calls are boolean parameters saying whether they succeed: the token transfer,
  `deploy_v2`, and the child `mint` invocation.
- The ledger timestamp is a parameter `now`.
- The address the host derives for a deployment is a fixed function `deployer` of the
  salt.

Each class's `Valid()` predicate carries the storage invariants:

- the stored IDs are exactly `1 .. next-1`;
- each record carries its own ID;
- each user's or creator's list holds exactly that principal's IDs, in increasing order;
- the name and contract indexes point at the latest collection with that key;
- every collection is deployed at the address its ID's salt derives;
- the fee and royalty caps hold;
- an NFT contract owns exactly tokens `1 .. NextTokenId-1`.

Every method proves that it preserves `Valid()`.

Where the documentation and the code disagree, the model follows the code:

- **`token_uri`** returns the stored base URI unchanged for every token ID. It does not
  append a per-token suffix.
- **NFT `mint`** checks the caller's role but never asks the caller to authorize.
- **Registry `initialize`** asks no authorization.

## Model

| member | source | states |
|---|---|---|
| Fees.ActionFee | backend/contracts/registry/src/lib.rs:130-135 | The action fee is the floor of `total * fee_bps / 10000`: never negative, zero at rate 0, and at most the total when the rate is at most 100%. |
| Fees.MintFee | backend/contracts/factory_registry/src/lib.rs:241-262 | The factory fee is `100 * amount * fee_bps` exactly, because the division by 10000 is exact. It is zero exactly when the amount or the rate is zero, and never above the base fee of the amount at rates up to 100%. |
| Fees.ActionFeeExamples | backend/contracts/registry/src/lib.rs:135 | The registry's worked examples: 5% of 10000 is 500, and rate 0 gives no fee. |
| Fees.MintFeeExamples | backend/contracts/factory_registry/src/lib.rs:241-262 | The factory's worked examples: 3 NFTs at 500 bps cost 150000, and rate 0 gives no fee. |
| Common.AscendingIsStrictlyIncreasing | backend/contracts/registry/src/lib.rs:159-164 | A list whose adjacent IDs increase is strictly increasing throughout. This is the form in which the ordered-list invariant is read back. |
| RecordStore.DenseCardinality | backend/contracts/registry/src/lib.rs:296-299 | A store holding exactly the IDs `1 .. next-1` has `next - 1` entries, so counter minus one counts the records. |
| RecordStore.DenseExtend | backend/contracts/registry/src/lib.rs:137-156 | Storing a record under the freshly allocated ID keeps the IDs contiguous, ending at the incremented counter. |
| RecordStore.OwnerIndexLookup | backend/contracts/registry/src/lib.rs:225-230 | Under an exact owner index, an ID is listed for `a` if and only if it is a record owned by `a`, and the list is strictly increasing. |
| RecordStore.OwnerIndexAppend | backend/contracts/registry/src/lib.rs:155-164 | Storing a record under a fresh, larger ID and pushing that ID onto its owner's list (created when absent) keeps the owner index exact. |
| RecordStore.OwnerIndexReplace | backend/contracts/registry/src/lib.rs:198-209 | Rewriting a record without changing its owner keeps the owner index exact. |
| RecordStore.LatestIndexIsMaximal | backend/contracts/factory_registry/src/lib.rs:196-198 | Under a latest-wins index, a key is indexed if and only if some record carries it, and the indexed ID is the largest such ID. |
| RecordStore.LatestIndexPut | backend/contracts/factory_registry/src/lib.rs:194-198 | Storing a record under a fresh, larger ID and overwriting its key's entry keeps the index latest-wins. |
| Pagination.IdsIn | backend/contracts/factory_registry/src/lib.rs:324-335 | The linear scan of `[lo, hi)` keeps only stored IDs of the window, in strictly increasing order. |
| Pagination.IdsInComplete | backend/contracts/factory_registry/src/lib.rs:324-335 | The scan misses no stored ID of its window. |
| Pagination.IdsInDense | backend/contracts/registry/src/lib.rs:302-315 | Over a store with no holes, the scan of `[lo, hi)` is exactly the run `max(lo, 1) .. min(hi, next) - 1`. |
| Pagination.IdsInSplit | backend/contracts/factory_registry/src/lib.rs:313-338 | Scanning `[lo, mid)` and then `[mid, hi)` yields the scan of `[lo, hi)`. |
| Salt.BeRoundTrip | backend/contracts/factory_registry/src/lib.rs:154 | Decoding the n big-endian bytes of a value below `256^n` gives the value back. |
| Salt.SaltLayout | backend/contracts/factory_registry/src/lib.rs:153-161 | A salt has 32 bytes: 16 zero bytes, then the ID's 16 big-endian bytes, from which a `u128` ID reads back. |
| Salt.DeriveSalt | backend/contracts/factory_registry/src/lib.rs:153-161 | The byte-copying loop over the zeroed 32-byte array produces exactly the salt of the ID. |
| Salt.SaltInjective | backend/contracts/factory_registry/src/lib.rs:152-161 | Distinct `u128` collection IDs give distinct salts. |
| Salt.SaltOfOne | backend/contracts/factory_registry/src/lib.rs:153-161 | The salt of collection 1 is 31 zero bytes followed by a one byte. |
| ActionRegistry.ScanRecords | backend/contracts/registry/src/lib.rs:308-312 | The inclusive loop from `start` to `last` over a store with no holes returns exactly the records `max(start, 1) .. last`, in ID order. |
| ActionRegistry.LedgerAppend | backend/contracts/registry/src/lib.rs:137-164 | Logging a record under the next ID, with valid amounts, and listing it under its user keeps the ledger invariant. |
| ActionRegistry.LedgerReplace | backend/contracts/registry/src/lib.rs:198-209 | Rewriting a record's transaction references keeps the ledger invariant. |
| ActionRegistry.Registry.Initialize | backend/contracts/registry/src/lib.rs:75-108 | A second call aborts whatever its arguments. A fee above 1000 bps returns `InvalidFeeRate`. Otherwise the unpaused config is stored, the counter is 1, and nothing else is stored. |
| ActionRegistry.Registry.LogAndRoute | backend/contracts/registry/src/lib.rs:111-187 | The checks run in order: initialized, not paused, user authorization, positive amount. On success it returns the old counter, stores the record with fee `ActionFee`, appends the ID to the user's list and advances the counter. A fee event is logged exactly when the fee is positive. A failed transfer aborts the whole call. Every failure leaves the state unchanged. |
| ActionRegistry.Registry.AppendTxRef | backend/contracts/registry/src/lib.rs:190-214 | Needs the user's authorization. A missing record gives `RecordNotFound` and another user's record gives `NotAuthorized`. Otherwise only that record's `tx_refs` grows, by the one reference. |
| ActionRegistry.Registry.GetRecord | backend/contracts/registry/src/lib.rs:217-222 | Found exactly for the IDs `1 .. NextId-1`, and the record found carries the requested ID. |
| ActionRegistry.Registry.GetUserRecords | backend/contracts/registry/src/lib.rs:225-230 | Exactly the IDs of the records the user created, strictly increasing. |
| ActionRegistry.Registry.GetConfig | backend/contracts/registry/src/lib.rs:233-238 | Present exactly once initialized, and then within the fee ceiling. Otherwise `RecordNotFound`. |
| ActionRegistry.Registry.SetFeeBps | backend/contracts/registry/src/lib.rs:241-255 | Owner only. A rate above 1000 returns `InvalidFeeRate` and changes nothing. Otherwise only `fee_bps` changes. |
| ActionRegistry.Registry.SetFeeWallet | backend/contracts/registry/src/lib.rs:258-268 | Owner only. Only the fee wallet changes. |
| ActionRegistry.Registry.SetPaused | backend/contracts/registry/src/lib.rs:271-281 | Owner only. Only the pause flag changes. |
| ActionRegistry.Registry.TransferOwnership | backend/contracts/registry/src/lib.rs:284-294 | Owner only. Only the owner changes. |
| ActionRegistry.Registry.GetTotalRecords | backend/contracts/registry/src/lib.rs:296-299 | `NextId - 1` equals the number of stored records. |
| ActionRegistry.Registry.GetRecordsRange | backend/contracts/registry/src/lib.rs:301-315 | With `end = total` when `limit == 0` and `start + limit - 1` otherwise (capped at total), it returns exactly the records `max(start, 1) .. end`, in ascending ID order. |
| FactoryRegistry.CollectSummaries | backend/contracts/factory_registry/src/lib.rs:322-335 | The accumulating loop returns the summaries of the stored collections of `[start, end)`, in ID order. |
| FactoryRegistry.ListingDense | backend/contracts/factory_registry/src/lib.rs:313-338 | Over a store with no holes, a page holds one summary for each collection `max(cursor, 1) .. min(cursor + limit, next) - 1`. An explicit limit of 0 therefore gives an empty page. |
| FactoryRegistry.ListingPagesConcatenate | backend/contracts/factory_registry/src/lib.rs:313-338 | The page at `cursor` with `l1` items followed by the page at `cursor + l1` with `l2` items is the page at `cursor` with `l1 + l2` items. Walking the cursor forward visits every collection once, in order. |
| FactoryRegistry.CatalogAdd | backend/contracts/factory_registry/src/lib.rs:183-208 | Storing a new collection under the next ID, at its salt's address and within the royalty cap, keeps the catalogue invariant. That means indexing it under its creator, name and contract, then advancing the counter. |
| FactoryRegistry.MintLogAppend | backend/contracts/factory_registry/src/lib.rs:278-289 | Appending a mint record whose fee is within the base fee, to an existing collection's history, keeps the histories well formed. |
| FactoryRegistry.NameIndexLookup | backend/contracts/factory_registry/src/lib.rs:375-381 | A name is indexed if and only if some collection bears it. The entry is then the most recent such collection. |
| FactoryRegistry.ContractIndexLookup | backend/contracts/factory_registry/src/lib.rs:384-390 | A contract is indexed if and only if some collection was recorded at it. The entry is then the most recent such collection. |
| FactoryRegistry.Factory.Initialize | backend/contracts/factory_registry/src/lib.rs:76-104 | A second call aborts. Then the owner must authorize, and a fee above 10000 bps aborts. Otherwise the config is stored, the counter is 1, and nothing else changes. |
| FactoryRegistry.Factory.SetConfig | backend/contracts/factory_registry/src/lib.rs:107-129 | Aborts when uninitialized. Owner only. A fee above 10000 aborts. Otherwise fee, wallet and code hash are replaced, the owner is kept, and the catalogue is untouched. |
| FactoryRegistry.Factory.CreateCollection | backend/contracts/factory_registry/src/lib.rs:132-223 | The caller authorizes, the factory must be initialized, and royalties above 10000 abort. On success it returns the old counter. The collection deployed at the address of that ID's salt is stored, indexed by name, by contract and under its creator, the counter advances, and one creation event is logged. |
| FactoryRegistry.Factory.Mint | backend/contracts/factory_registry/src/lib.rs:226-302 | `to` authorizes, the factory must be initialized, and the collection must exist. On success exactly one `MintRecord(to, amount, now, MintFee(amount, fee_bps))` is appended to that collection's history. A fee event is logged exactly when the fee is positive. The catalogue is untouched. |
| FactoryRegistry.Factory.GetCollection | backend/contracts/factory_registry/src/lib.rs:305-310 | Found exactly for the IDs `1 .. next-1`. The collection found lives at the address its ID's salt derives. |
| FactoryRegistry.Factory.ListCollections | backend/contracts/factory_registry/src/lib.rs:313-338 | The page is `Listing(...)`: one summary for each of the collections `max(cursor, 1) .. min(cursor + limit, next) - 1`, in order, with cursor defaulting to 1 and limit to 10. |
| FactoryRegistry.Factory.ListByCreator | backend/contracts/factory_registry/src/lib.rs:341-345 | Exactly the IDs of the collections the creator created, strictly increasing. |
| FactoryRegistry.Factory.GetCollectionMints | backend/contracts/factory_registry/src/lib.rs:348-352 | The stored history, and the empty list when none is stored (a collection never minted). A non-empty history belongs to an existing collection, and no entry's fee exceeds the base fee of its amount. |
| FactoryRegistry.Factory.GetConfig | backend/contracts/factory_registry/src/lib.rs:355-357 | Present exactly once initialized, within the fee cap. Otherwise it aborts. |
| FactoryRegistry.Factory.GetNextCollectionId | backend/contracts/factory_registry/src/lib.rs:360-364 | One more than the number of collections, and larger than every stored ID. |
| FactoryRegistry.Factory.GetTotalCollections | backend/contracts/factory_registry/src/lib.rs:367-372 | Equals the number of stored collections. |
| FactoryRegistry.Factory.FindByName | backend/contracts/factory_registry/src/lib.rs:375-381 | None exactly when no collection bears the name. Otherwise the most recently created collection of that name. |
| FactoryRegistry.Factory.FindByContractId | backend/contracts/factory_registry/src/lib.rs:384-390 | None exactly when no collection was recorded at that contract. Otherwise the most recent one recorded there. |
| FactoryRegistry.Factory.GetCollectionByContract | backend/contracts/factory_registry/src/lib.rs:393-403 | Succeeds exactly when some collection was recorded at the contract, agreeing with `find_by_contract_id`. The "metadata not found" panic cannot happen. |
| FactoryRegistry.Factory.ContractLookupFindsCollection | backend/contracts/factory_registry/src/lib.rs:168-198 | If the host's address derivation is collision-free and the IDs fit in `u128`, every collection is found by its own contract address. |
| NftContract.MintedRunContents | backend/contracts/nft/src/lib.rs:80-84 | After the mint loop, the tokens owned are the old ones plus `n .. n+amount-1`. The new ones belong to `to`, and every other token keeps its owner. |
| NftContract.MintedRunDense | backend/contracts/nft/src/lib.rs:76-87 | Minting from the counter onward keeps the tokens exactly `1 .. n+amount-1`, and no existing token changes hands. |
| NftContract.Nft.Construct | backend/contracts/nft/src/lib.rs:33-67 | A second run aborts, and so do royalties above 10000. Otherwise the owner becomes admin, the metadata is stored, and the counter is 1. Then the supply is 0, the royalties read back as given, and the admin is the owner. |
| NftContract.Nft.Mint | backend/contracts/nft/src/lib.rs:69-90 | A caller without the `"minter"` role aborts with no change. Otherwise it returns the old counter `n`, gives tokens `n .. n+amount-1` to `to`, leaves every existing token with its owner, and sets the counter to `n + amount`. So the supply grows by `amount`, and `amount = 0` changes nothing. |
| NftContract.Nft.AdminGate | backend/contracts/nft/src/lib.rs:92-95 | The admin check passes exactly when the caller is the admin `contract_admin` reports and has authorized the call, so never before construction. |
| NftContract.Nft.SetMinter | backend/contracts/nft/src/lib.rs:92-95 | Admin only. It grants the `"minter"` role, which the new minter then holds, and changes nothing else. |
| NftContract.Nft.AssignRole | backend/contracts/nft/src/lib.rs:112-115 | Admin only. It grants the role, and changes nothing else. |
| NftContract.Nft.RemoveRole | backend/contracts/nft/src/lib.rs:117-120 | Admin only. It revokes the role, which the account then no longer holds, and changes nothing else. |
| NftContract.Nft.CheckRole | backend/contracts/nft/src/lib.rs:108-110 | True exactly for granted roles. No role is held before construction. |
| NftContract.Nft.ContractAdmin | backend/contracts/nft/src/lib.rs:122-124 | The admin set at construction. It aborts before construction. |
| NftContract.Nft.GetCollectionMetadata | backend/contracts/nft/src/lib.rs:97-99 | The stored metadata, with royalties within the ceiling. It aborts before construction. |
| NftContract.Nft.GetRoyalties | backend/contracts/nft/src/lib.rs:101-106 | The stored royalty rate, never above 10000. It aborts before construction. |
| NftContract.Nft.TokenUri | backend/contracts/nft/src/lib.rs:140-148 | The stored base URI itself, whatever the token ID, minted or not. It aborts before construction. |
| NftContract.Nft.TotalSupply | backend/contracts/nft/src/lib.rs:126-131 | `NextTokenId - 1` equals the number of owned tokens and the sum of the amounts of all mints. |
| NftContract.MintSequenceExample | backend/contracts/nft/src/lib.rs:69-90 | Minting 3 and then 2 tokens returns 1 and then 4, and leaves a supply of 5. |
| NftContract.UnauthorizedMintExample | backend/contracts/nft/src/lib.rs:71-74 | A caller never granted the role is turned away, and the supply stays 0. |

## Left out

- Events are kept in a ghost log. Their topics and encodings, and the `log!` diagnostics, are not modelled.
- **Storage:**
  - The instance and persistent storage tiers are collapsed into the fields of one object.
  - Storage time-to-live and archival are not modelled.
- Integers are unbounded. The overflow panics of the `u32`, `u64`, `u128` and `i128` arithmetic are not modelled. Those are the counter increments, `start + limit`, and the fee products.
- The registry's fee transfer, the factory's `deploy_v2` and the factory's call of the child `mint` are foreign calls. Each is a boolean parameter saying whether it succeeds; a failure aborts the call.
- The child `mint`'s returned first token ID is only logged by the factory, so it is not modelled.
- The factory's end-to-end mint through the NFT contract is not modelled. The factory defines the role `"MINTER"`, but the NFT contract checks `"minter"`, and the factory is never granted either role.
- The ledger timestamp is a parameter.
- The address the host gives a deployment is a fixed function of the salt. That it is collision-free is an assumption of `FactoryRegistry.Factory.ContractLookupFindsCollection`, not a fact proved here.
- The OpenZeppelin `Base` token and `AccessControl` code the NFT contract delegates to are not part of this model. Only an owner-of map, an admin and a set of role grants are kept. Not modelled from those libraries:
  - balances, transfers, approvals;
  - the entry points they add (role admins, admin transfer);
  - their events;
  - the copy of name, symbol and base URI that `Base::set_metadata` keeps.
- NftContract.Nft.RemoveRole: does not model the access-control library's own failure when revoking a role the account does not hold, because that library is not part of this model.
- NftContract.Nft.AdminGate: models only the admin path of the library's role checks (the caller is the stored admin). Role admins are never set by this contract.
- NftContract.Nft.Mint: collects the new owners in a local map and writes the owner-of map once after the loop. Because the host discards the writes of an aborted call, this shows nothing different from writing each token as it is minted.
- The `RegistryError::InvalidAddress` variant is declared but never returned by the source. The model keeps it unused.
- The positions of records in their owners' lists are ghost fields. They are a proof aid, not contract state.
- Pre-initialization storage is modelled as empty, with counters reading as their default of 1.
