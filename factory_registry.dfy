/** The NFT factory and collection registry (`FactoryRegistry`): deploys one NFT
    contract per collection at an address derived from the collection ID, records
    each collection with name, contract and creator indexes, relays mints to the
    child contract while logging a per-collection mint history with the factory fee,
    and pages through the collections. Every failure of this contract is a panic,
    which aborts the call and discards its writes. */
module FactoryRegistry {
  import opened Common
  import opened Fees
  import opened RecordStore
  import opened Pagination
  import opened Salt

  /** Both the fee rate and a collection's royalties are capped at 10000 basis points (100%). */
  const MAX_BPS: nat := 10000

  /** The page size of `list_collections` when the caller gives none. */
  const DEFAULT_PAGE_LIMIT: nat := 10

  datatype FactoryConfig = FactoryConfig(owner: Address, feeBps: nat, feeWallet: Address, nftWasmHash: seq<byte>)

  datatype CollectionMetadata = CollectionMetadata(
    contractId: Address,
    name: string,
    symbol: string,
    creator: Address,
    uriBase: string,
    royaltiesBps: nat,
    createdAt: nat)

  datatype CollectionSummary = CollectionSummary(
    collectionId: nat,
    contractId: Address,
    name: string,
    symbol: string,
    creator: Address,
    createdAt: nat)

  /** The persistent entries of the collection catalogue: `DataKey::NextCollectionId`
      (an unset counter reads as 1 everywhere), `DataKey::Collection(id)`,
      `DataKey::CreatorCollections(creator)`, `DataKey::NameToCollection(name)` and
      `DataKey::ContractToCollection(contract)`. */
  datatype Catalogue = Catalogue(
    nextCollectionId: nat,
    collections: map<nat, CollectionMetadata>,
    creatorCollections: map<Address, seq<nat>>,
    nameToCollection: map<string, nat>,
    contractToCollection: map<Address, nat>)

  datatype MintRecord = MintRecord(user: Address, amount: nat, timestamp: nat, feePaid: nat)

  /** Why a call panicked. */
  datatype Abort =
    | AlreadyInitialized
    | FeeTooHigh
    | RoyaltiesTooHigh
    | NotInitialized
    | CollectionNotFound
    | MetadataNotFound
    | AuthRequired(principal: Address)
    | DeployFailed
    | ChildMintFailed

  datatype Outcome<T> = Ok(value: T) | Aborted(reason: Abort)

  datatype Event =
    | CollectionCreated(collectionId: nat, contractId: Address, name: string, symbol: string, creator: Address)
    | FeePaid(fee: nat, feeWallet: Address)
    | MintLogged(collectionId: nat, to: Address, amount: nat, fee: nat)

  function Creator(c: CollectionMetadata): Address { c.creator }
  function Name(c: CollectionMetadata): string { c.name }
  function ContractOf(c: CollectionMetadata): Address { c.contractId }

  function Summarize(id: nat, c: CollectionMetadata): CollectionSummary
  {
    CollectionSummary(id, c.contractId, c.name, c.symbol, c.creator, c.createdAt)
  }

  /** The summaries of the collections `ids`, in that order. */
  function Summaries(m: map<nat, CollectionMetadata>, ids: seq<nat>): (out: seq<CollectionSummary>)
    requires forall i :: 0 <= i < |ids| ==> ids[i] in m
    ensures |out| == |ids|
    ensures forall i :: 0 <= i < |ids| ==> out[i] == Summarize(ids[i], m[ids[i]])
  {
    seq(|ids|, i requires 0 <= i < |ids| => Summarize(ids[i], m[ids[i]]))
  }

  /** The first ID a page scans: the cursor, or 1. */
  function PageStart(cursor: Option<nat>): nat
  {
    match cursor
    case Some(c) => c
    case None => 1
  }

  /** The exclusive end of a page's scan: `min(start + limit, next)`, the limit defaulting to 10. */
  function PageEnd(next: nat, cursor: Option<nat>, limit: Option<nat>): nat
  {
    var size := match limit
      case Some(l) => l
      case None => DEFAULT_PAGE_LIMIT;
    Min(PageStart(cursor) + size, next)
  }

  /** What `list_collections` returns: the summaries of the stored collections whose
      IDs lie in `[PageStart, PageEnd)`, in ascending ID order. */
  function Listing(m: map<nat, CollectionMetadata>, next: nat, cursor: Option<nat>, limit: Option<nat>): seq<CollectionSummary>
  {
    Summaries(m, IdsIn(m, PageStart(cursor), PageEnd(next, cursor, limit)))
  }

  /** The loop of `list_collections`: every ID of `[start, end)` that has a collection
      contributes its summary, in ascending order. */
  method CollectSummaries(m: map<nat, CollectionMetadata>, start: nat, end: nat) returns (out: seq<CollectionSummary>)
    ensures out == Summaries(m, IdsIn(m, start, end))
  {
    out := [];
    ghost var ids: seq<nat> := [];
    var id := start;
    while id < end
      invariant start <= id && (id <= end || id == start)
      invariant ids == IdsIn(m, start, id)
      invariant out == Summaries(m, ids)
      decreases end - id
    {
      assert IdsIn(m, start, id + 1) == ids + (if id in m then [id] else []);
      if id in m {
        out := out + [Summarize(id, m[id])];
        ids := ids + [id];
      }
      id := id + 1;
    }
  }

  /** Paging is seamless: the page at `cursor` with `l1` items, followed by the page
      whose cursor is `cursor + l1`, with `l2` items, is the page at `cursor` with
      `l1 + l2` items. Walking the cursor forward by the limit visits every collection
      once, in ascending order. */
  lemma ListingPagesConcatenate(m: map<nat, CollectionMetadata>, next: nat, cursor: nat, l1: nat, l2: nat)
    ensures Listing(m, next, Some(cursor), Some(l1)) + Listing(m, next, Some(cursor + l1), Some(l2))
         == Listing(m, next, Some(cursor), Some(l1 + l2))
  {
    var mid, hi := Min(cursor + l1, next), Min(cursor + l1 + l2, next);
    var first, second, whole := IdsIn(m, cursor, mid), IdsIn(m, cursor + l1, hi), IdsIn(m, cursor, hi);
    assert Listing(m, next, Some(cursor), Some(l1)) == Summaries(m, first);
    assert Listing(m, next, Some(cursor + l1), Some(l2)) == Summaries(m, second);
    assert Listing(m, next, Some(cursor), Some(l1 + l2)) == Summaries(m, whole);
    if cursor + l1 <= next {
      IdsInSplit(m, cursor, mid, hi);
    } else {
      assert mid == hi && second == [];
    }
    assert first + second == whole;
    SummariesAppend(m, first, second);
  }

  /** Summarizing two runs of IDs one after the other is summarizing their concatenation. */
  lemma SummariesAppend(m: map<nat, CollectionMetadata>, a: seq<nat>, b: seq<nat>)
    requires forall i :: 0 <= i < |a| ==> a[i] in m
    requires forall i :: 0 <= i < |b| ==> b[i] in m
    ensures Summaries(m, a) + Summaries(m, b) == Summaries(m, a + b)
  {
    var ab := a + b;
    assert forall i :: 0 <= i < |b| ==> ab[|a| + i] == b[i];
  }

  /** Over a dense store the page holds exactly the collections
      `max(start, 1) .. end - 1`, one summary each. */
  lemma ListingDense(m: map<nat, CollectionMetadata>, next: nat, cursor: Option<nat>, limit: Option<nat>)
    requires Dense(m, next)
    ensures var first, end := Max(PageStart(cursor), 1), PageEnd(next, cursor, limit);
      var out := Listing(m, next, cursor, limit);
      && |out| == (if end > first then end - first else 0)
      && forall i :: 0 <= i < |out| ==> first + i in m && out[i] == Summarize(first + i, m[first + i])
  {
    IdsInDense(m, next, PageStart(cursor), PageEnd(next, cursor, limit));
  }

  /** The collection catalogue: collections 1 .. next-1 are stored, each within the
      royalty cap and deployed at the address its ID's salt derives; the creator index
      is exact, and the name and contract indexes point at the latest collection
      carrying that key. */
  ghost predicate Catalog(
    deployer: seq<byte> -> Address, m: map<nat, CollectionMetadata>, next: nat,
    byCreator: map<Address, seq<nat>>, pos: nat -> nat,
    byName: map<string, nat>, byContract: map<Address, nat>)
  {
    && next >= 1
    && Dense(m, next)
    && (forall id {:trigger m[id]} :: id in m ==> m[id].royaltiesBps <= MAX_BPS && m[id].contractId == deployer(SaltOf(id)))
    && OwnerIndexExact(m, Creator, byCreator, pos)
    && LatestIndex(m, Name, byName)
    && LatestIndex(m, ContractOf, byContract)
  }

  /** Mint histories belong to existing collections and never record a fee above the
      base fee of the amount minted (the fee rate never exceeds 100%). */
  ghost predicate MintLog(m: map<nat, CollectionMetadata>, mints: map<nat, seq<MintRecord>>)
  {
    && (forall id :: id in mints ==> id in m)
    && (forall id, j :: id in mints && 0 <= j < |mints[id]| ==>
          mints[id][j].feePaid <= BASE_FEE_PER_NFT * mints[id][j].amount)
  }

  /** Storing a new collection under the next ID, deployed at that ID's address, and
      indexing it by creator, name and contract keeps the catalogue consistent. */
  lemma CatalogAdd(
    deployer: seq<byte> -> Address, m: map<nat, CollectionMetadata>, next: nat,
    byCreator: map<Address, seq<nat>>, pos: nat -> nat,
    byName: map<string, nat>, byContract: map<Address, nat>, c: CollectionMetadata)
    requires Catalog(deployer, m, next, byCreator, pos, byName, byContract)
    requires c.royaltiesBps <= MAX_BPS && c.contractId == deployer(SaltOf(next))
    ensures var list := ListOrEmpty(byCreator, c.creator);
      Catalog(deployer, m[next := c], next + 1, byCreator[c.creator := list + [next]],
              Reposition(pos, next, |list|), byName[c.name := next], byContract[c.contractId := next])
  {
    var m' := m[next := c];
    DenseExtend(m, next, c);
    forall id | id in m' ensures m'[id].royaltiesBps <= MAX_BPS && m'[id].contractId == deployer(SaltOf(id)) {
      if id != next {
        assert m'[id] == m[id];
      }
    }
    OwnerIndexAppend(m, Creator, byCreator, pos, next, c);
    LatestIndexPut(m, Name, byName, next, c);
    LatestIndexPut(m, ContractOf, byContract, next, c);
  }

  /** Adding a collection leaves the mint histories well formed. */
  lemma MintLogGrow(m: map<nat, CollectionMetadata>, mints: map<nat, seq<MintRecord>>, id: nat, c: CollectionMetadata)
    requires MintLog(m, mints)
    ensures MintLog(m[id := c], mints)
  {
  }

  /** Appending a within-cap mint record to an existing collection's history keeps the
      histories well formed. */
  lemma MintLogAppend(m: map<nat, CollectionMetadata>, mints: map<nat, seq<MintRecord>>, id: nat, rec: MintRecord)
    requires MintLog(m, mints) && id in m
    requires rec.feePaid <= BASE_FEE_PER_NFT * rec.amount
    ensures MintLog(m, mints[id := ListOrEmpty(mints, id) + [rec]])
  {
    var prev := ListOrEmpty(mints, id);
    var m': map<nat, seq<MintRecord>> := mints[id := prev + [rec]];
    forall c, j | c in m' && 0 <= j < |m'[c]| ensures m'[c][j].feePaid <= BASE_FEE_PER_NFT * m'[c][j].amount {
      if c == id && j < |prev| {
        assert m'[c][j] == prev[j];
      }
    }
  }

  /** The name index read back: a name is indexed exactly when some collection bears
      it, and then it points at the most recent such collection. */
  lemma NameIndexLookup(m: map<nat, CollectionMetadata>, byName: map<string, nat>, name: string)
    requires LatestIndex(m, Name, byName)
    ensures name !in byName <==> forall id :: id in m ==> m[id].name != name
    ensures name in byName ==>
      && byName[name] in m && m[byName[name]].name == name
      && forall id :: id in m && m[id].name == name ==> id <= byName[name]
  {
    LatestIndexIsMaximal(m, Name, byName, name);
    forall id | id in m && m[id].name == name ensures name in byName && id <= byName[name] {
      assert Name(m[id]) == name;
    }
    if name in byName {
      assert Name(m[byName[name]]) == name;
    }
  }

  /** The contract index read back, in the same way. */
  lemma ContractIndexLookup(m: map<nat, CollectionMetadata>, byContract: map<Address, nat>, contractId: Address)
    requires LatestIndex(m, ContractOf, byContract)
    ensures contractId !in byContract <==> forall id :: id in m ==> m[id].contractId != contractId
    ensures contractId in byContract ==>
      && byContract[contractId] in m && m[byContract[contractId]].contractId == contractId
      && forall id :: id in m && m[id].contractId == contractId ==> id <= byContract[contractId]
  {
    LatestIndexIsMaximal(m, ContractOf, byContract, contractId);
    forall id | id in m && m[id].contractId == contractId ensures contractId in byContract && id <= byContract[contractId] {
      assert ContractOf(m[id]) == contractId;
    }
    if contractId in byContract {
      assert ContractOf(m[byContract[contractId]]) == contractId;
    }
  }

  class Factory {
    /** The host's address derivation for contracts this factory deploys: a
        deterministic function of the salt. */
    const deployer: seq<byte> -> Address
    /** `DataKey::Config`. */
    var config: Option<FactoryConfig>
    /** The collection catalogue. */
    var store: Catalogue
    /** Proof bookkeeping: each collection's position in its creator's list. */
    ghost var creatorPos: nat -> nat
    /** `DataKey::CollectionMints(id)`. */
    var collectionMints: map<nat, seq<MintRecord>>
    /** Events published by committed calls, oldest first. */
    ghost var events: seq<Event>

    /** The bookkeeping invariant: the fee is within its cap, nothing is stored
        before initialization, the collection catalogue and its indexes agree, and the
        mint histories are well formed. */
    ghost predicate Valid()
      reads this
    {
      && (config.None? ==> store.nextCollectionId == 1)
      && (config.Some? ==> config.value.feeBps <= MAX_BPS)
      && Catalog(deployer, store.collections, store.nextCollectionId, store.creatorCollections, creatorPos,
                 store.nameToCollection, store.contractToCollection)
      && MintLog(store.collections, collectionMints)
    }

    /** A freshly deployed factory: nothing stored yet. */
    constructor(deployer: seq<byte> -> Address)
      ensures Valid()
      ensures this.deployer == deployer
      ensures config == None && store.nextCollectionId == 1 && store.collections == map[]
      ensures store.creatorCollections == map[] && collectionMints == map[]
      ensures store.nameToCollection == map[] && store.contractToCollection == map[] && events == []
    {
      this.deployer := deployer;
      config := None;
      store := Catalogue(1, map[], map[], map[], map[]);
      creatorPos := _ => 0;
      collectionMints := map[];
      events := [];
    }

    /** `initialize`: a second call panics; then the owner must authorize the call and
        a fee above 100% panics; otherwise the config is stored and the counter set to 1. */
    method Initialize(auth: set<Address>, owner: Address, feeBps: nat, feeWallet: Address, nftWasmHash: seq<byte>)
      returns (r: Outcome<()>)
      requires Valid()
      modifies this
      ensures Valid()
      ensures old(config).Some? ==> r == Aborted(AlreadyInitialized)
      ensures old(config).None? && owner !in auth ==> r == Aborted(AuthRequired(owner))
      ensures old(config).None? && owner in auth ==> r == (if feeBps > MAX_BPS then Aborted(FeeTooHigh) else Ok(()))
      ensures r.Ok? ==>
        && config == Some(FactoryConfig(owner, feeBps, feeWallet, nftWasmHash))
        && store == old(store).(nextCollectionId := 1)
        && collectionMints == old(collectionMints) && events == old(events)
      ensures !r.Ok? ==> unchanged(this)
    {
      if config.Some? {
        return Aborted(AlreadyInitialized);
      }
      if owner !in auth {
        return Aborted(AuthRequired(owner));
      }
      if feeBps > MAX_BPS {
        return Aborted(FeeTooHigh);
      }
      config := Some(FactoryConfig(owner, feeBps, feeWallet, nftWasmHash));
      store := store.(nextCollectionId := 1);
      r := Ok(());
    }

    /** `set_config`: owner only; a fee above 100% panics; the fee, the fee wallet and
        the NFT code hash are replaced and the owner is kept. */
    method SetConfig(auth: set<Address>, feeBps: nat, feeWallet: Address, nftWasmHash: seq<byte>)
      returns (r: Outcome<()>)
      requires Valid()
      modifies this
      ensures Valid()
      ensures old(config).None? ==> r == Aborted(NotInitialized)
      ensures old(config).Some? && old(config).value.owner !in auth ==>
        r == Aborted(AuthRequired(old(config).value.owner))
      ensures old(config).Some? && old(config).value.owner in auth ==>
        r == (if feeBps > MAX_BPS then Aborted(FeeTooHigh) else Ok(()))
      ensures r.Ok? ==>
        && config == Some(FactoryConfig(old(config).value.owner, feeBps, feeWallet, nftWasmHash))
        && store.nextCollectionId == old(store.nextCollectionId)
        && store.collections == old(store.collections) && store.creatorCollections == old(store.creatorCollections)
        && collectionMints == old(collectionMints) && store.nameToCollection == old(store.nameToCollection)
        && store.contractToCollection == old(store.contractToCollection) && events == old(events)
      ensures !r.Ok? ==> unchanged(this)
    {
      if config.None? {
        return Aborted(NotInitialized);
      }
      var cfg := config.value;
      if cfg.owner !in auth {
        return Aborted(AuthRequired(cfg.owner));
      }
      if feeBps > MAX_BPS {
        return Aborted(FeeTooHigh);
      }
      config := Some(FactoryConfig(cfg.owner, feeBps, feeWallet, nftWasmHash));
      r := Ok(());
    }

    /** `create_collection`: after the caller authorizes the call and the factory is
        found initialized, royalties above 100% panic; otherwise the next ID's salt is
        derived, the NFT contract is deployed at the address that salt yields
        (`deployOk` is whether the host's deployment succeeds), and the collection is
        stored, indexed by name, by contract and under its creator, the counter is
        advanced and the creation is announced. */
    method CreateCollection(
      auth: set<Address>, caller: Address, name: string, symbol: string, uriBase: string,
      royaltiesBps: nat, now: nat, deployOk: bool)
      returns (r: Outcome<nat>)
      requires Valid()
      modifies this
      ensures Valid()
      ensures caller !in auth ==> r == Aborted(AuthRequired(caller))
      ensures caller in auth && old(config).None? ==> r == Aborted(NotInitialized)
      ensures caller in auth && old(config).Some? ==>
        r == (if royaltiesBps > MAX_BPS then Aborted(RoyaltiesTooHigh)
              else if !deployOk then Aborted(DeployFailed)
              else Ok(old(store.nextCollectionId)))
      ensures r.Ok? ==>
        var id := old(store.nextCollectionId);
        var contract := deployer(SaltOf(id));
        && store.nextCollectionId == id + 1
        && store.collections == old(store.collections)[id := CollectionMetadata(contract, name, symbol, caller, uriBase, royaltiesBps, now)]
        && store.nameToCollection == old(store.nameToCollection)[name := id]
        && store.contractToCollection == old(store.contractToCollection)[contract := id]
        && store.creatorCollections == old(store.creatorCollections)[caller := ListOrEmpty(old(store.creatorCollections), caller) + [id]]
        && config == old(config) && collectionMints == old(collectionMints)
        && events == old(events) + [CollectionCreated(id, contract, name, symbol, caller)]
      ensures !r.Ok? ==> unchanged(this)
    {
      if caller !in auth {
        return Aborted(AuthRequired(caller));
      }
      if config.None? {
        return Aborted(NotInitialized);
      }
      var id := store.nextCollectionId;
      if royaltiesBps > MAX_BPS {
        return Aborted(RoyaltiesTooHigh);
      }
      var salt := DeriveSalt(id);
      if !deployOk {
        return Aborted(DeployFailed);
      }
      var contract := deployer(salt);
      var collection := CollectionMetadata(contract, name, symbol, caller, uriBase, royaltiesBps, now);
      var list := ListOrEmpty(store.creatorCollections, caller);
      var newStore := Catalogue(id + 1, store.collections[id := collection], store.creatorCollections[caller := list + [id]],
                                store.nameToCollection[name := id], store.contractToCollection[contract := id]);
      ghost var newPos := Reposition(creatorPos, id, |list|);
      CatalogAdd(deployer, store.collections, id, store.creatorCollections, creatorPos, store.nameToCollection,
                 store.contractToCollection, collection);
      MintLogGrow(store.collections, collectionMints, id, collection);
      store, creatorPos := newStore, newPos;
      events := events + [CollectionCreated(id, contract, name, symbol, caller)];
      r := Ok(id);
    }

    /** `mint`: after `to` authorizes the call, the factory is found initialized and
        the collection exists, the fee `MintFee(amount, fee_bps)` is announced when
        positive, the child contract's `mint` is invoked (`childMintOk` is whether it
        succeeds; its returned first token ID is not kept) and a mint record is
        appended to the collection's history. */
    method Mint(auth: set<Address>, collectionId: nat, to: Address, amount: nat, now: nat, childMintOk: bool)
      returns (r: Outcome<()>)
      requires Valid()
      modifies this
      ensures Valid()
      ensures to !in auth ==> r == Aborted(AuthRequired(to))
      ensures to in auth && old(config).None? ==> r == Aborted(NotInitialized)
      ensures to in auth && old(config).Some? && collectionId !in old(store.collections) ==> r == Aborted(CollectionNotFound)
      ensures to in auth && old(config).Some? && collectionId in old(store.collections) ==>
        r == (if childMintOk then Ok(()) else Aborted(ChildMintFailed))
      ensures r.Ok? ==>
        var cfg := old(config).value;
        var fee := MintFee(amount, cfg.feeBps);
        && collectionMints == old(collectionMints)[collectionId :=
             ListOrEmpty(old(collectionMints), collectionId) + [MintRecord(to, amount, now, fee)]]
        && events == old(events) + (if fee > 0 then [FeePaid(fee, cfg.feeWallet)] else [])
                                 + [MintLogged(collectionId, to, amount, fee)]
        && config == old(config) && store.nextCollectionId == old(store.nextCollectionId)
        && store.collections == old(store.collections) && store.creatorCollections == old(store.creatorCollections)
        && store.nameToCollection == old(store.nameToCollection) && store.contractToCollection == old(store.contractToCollection)
      ensures !r.Ok? ==> unchanged(this)
    {
      if to !in auth {
        return Aborted(AuthRequired(to));
      }
      if config.None? {
        return Aborted(NotInitialized);
      }
      var cfg := config.value;
      if collectionId !in store.collections {
        return Aborted(CollectionNotFound);
      }
      var fee := MintFee(amount, cfg.feeBps);
      // The events of the call are staged: a failing child mint aborts it, events included.
      var published := if fee > 0 then [FeePaid(fee, cfg.feeWallet)] else [];
      if !childMintOk {
        return Aborted(ChildMintFailed);
      }
      var record := MintRecord(to, amount, now, fee);
      MintLogAppend(store.collections, collectionMints, collectionId, record);
      collectionMints := collectionMints[collectionId := ListOrEmpty(collectionMints, collectionId) + [record]];
      events := events + published + [MintLogged(collectionId, to, amount, fee)];
      r := Ok(());
    }

    /** `get_collection`: found exactly for the IDs 1 .. next-1; the collection found
        lives at the address derived from its ID's salt. */
    function GetCollection(id: nat): (r: Outcome<CollectionMetadata>)
      reads this
      requires Valid()
      ensures r.Ok? <==> 1 <= id < store.nextCollectionId
      ensures !r.Ok? ==> r == Aborted(CollectionNotFound)
      ensures r.Ok? ==> r.value == store.collections[id] && r.value.contractId == deployer(SaltOf(id))
    {
      if id in store.collections then Ok(store.collections[id]) else Aborted(CollectionNotFound)
    }

    /** `list_collections`: the page of summaries starting at the cursor. */
    method ListCollections(cursor: Option<nat>, limit: Option<nat>) returns (out: seq<CollectionSummary>)
      requires Valid()
      ensures out == Listing(store.collections, store.nextCollectionId, cursor, limit)
      ensures var first, end := Max(PageStart(cursor), 1), PageEnd(store.nextCollectionId, cursor, limit);
        && |out| == (if end > first then end - first else 0)
        && forall i :: 0 <= i < |out| ==>
             first + i in store.collections && out[i] == Summarize(first + i, store.collections[first + i])
    {
      var start := PageStart(cursor);
      var end := PageEnd(store.nextCollectionId, cursor, limit);
      out := CollectSummaries(store.collections, start, end);
      ListingDense(store.collections, store.nextCollectionId, cursor, limit);
    }

    /** `list_by_creator`: the IDs of exactly the collections `creator` created, oldest first. */
    function ListByCreator(creator: Address): (ids: seq<nat>)
      reads this
      requires Valid()
      ensures StrictlyIncreasing(ids)
      ensures forall id :: id in ids <==> id in store.collections && store.collections[id].creator == creator
    {
      OwnerIndexLookup(store.collections, Creator, store.creatorCollections, creatorPos, creator);
      ListOrEmpty(store.creatorCollections, creator)
    }

    /** `get_collection_mints`: the mint history, empty for a collection never minted
        (or that does not exist); a non-empty history belongs to an existing collection
        and no entry's fee exceeds the base fee of its amount. */
    function GetCollectionMints(id: nat): (h: seq<MintRecord>)
      reads this
      requires Valid()
      ensures id in collectionMints ==> h == collectionMints[id]
      ensures id !in collectionMints ==> h == []
      ensures |h| > 0 ==> 1 <= id < store.nextCollectionId
      ensures forall j :: 0 <= j < |h| ==> h[j].feePaid <= BASE_FEE_PER_NFT * h[j].amount
    {
      ListOrEmpty(collectionMints, id)
    }

    /** `get_config`: present once initialized, within the 100% fee cap. */
    function GetConfig(): (r: Outcome<FactoryConfig>)
      reads this
      requires Valid()
      ensures r.Ok? <==> config.Some?
      ensures !r.Ok? ==> r == Aborted(NotInitialized)
      ensures r.Ok? ==> r.value == config.value && r.value.feeBps <= MAX_BPS
    {
      match config
      case Some(c) => Ok(c)
      case None => Aborted(NotInitialized)
    }

    /** `get_next_collection_id`: one more than the number of stored collections. */
    function GetNextCollectionId(): (n: nat)
      reads this
      requires Valid()
      ensures n == |store.collections| + 1
      ensures n !in store.collections && forall id :: id in store.collections ==> id < n
    {
      DenseCardinality(store.collections, store.nextCollectionId);
      store.nextCollectionId
    }

    /** `get_total_collections`: the number of stored collections. */
    function GetTotalCollections(): (n: nat)
      reads this
      requires Valid()
      ensures n == |store.collections|
    {
      DenseCardinality(store.collections, store.nextCollectionId);
      if store.nextCollectionId > 1 then store.nextCollectionId - 1 else 0
    }

    /** `find_by_name`: nothing when no collection bears the name; otherwise the most
        recently created collection of that name. */
    function FindByName(name: string): (r: Option<CollectionMetadata>)
      reads this
      requires Valid()
      ensures r.None? <==> forall id :: id in store.collections ==> store.collections[id].name != name
      ensures r.Some? ==>
        && name in store.nameToCollection
        && store.nameToCollection[name] in store.collections
        && r.value == store.collections[store.nameToCollection[name]]
        && r.value.name == name
        && forall id :: id in store.collections && store.collections[id].name == name ==> id <= store.nameToCollection[name]
    {
      var found :=
        if name in store.nameToCollection then
          var id := store.nameToCollection[name];
          if id in store.collections then Some(store.collections[id]) else None
        else
          None;
      NameIndexLookup(store.collections, store.nameToCollection, name);
      found
    }

    /** `find_by_contract_id`: nothing when no collection lives at that contract;
        otherwise the most recently created collection recorded there. */
    function FindByContractId(contractId: Address): (r: Option<CollectionMetadata>)
      reads this
      requires Valid()
      ensures r.None? <==> forall id :: id in store.collections ==> store.collections[id].contractId != contractId
      ensures r.Some? ==>
        && contractId in store.contractToCollection
        && store.contractToCollection[contractId] in store.collections
        && r.value == store.collections[store.contractToCollection[contractId]]
        && r.value.contractId == contractId
        && forall id :: id in store.collections && store.collections[id].contractId == contractId ==> id <= store.contractToCollection[contractId]
    {
      var found :=
        if contractId in store.contractToCollection then
          var id := store.contractToCollection[contractId];
          if id in store.collections then Some(store.collections[id]) else None
        else
          None;
      ContractIndexLookup(store.collections, store.contractToCollection, contractId);
      found
    }

    /** `get_collection_by_contract`: like `find_by_contract_id`, but an unknown contract
        panics. The second panic (an index entry without metadata) cannot happen. */
    function GetCollectionByContract(contractId: Address): (r: Outcome<CollectionMetadata>)
      reads this
      requires Valid()
      ensures r.Ok? <==> exists id :: id in store.collections && store.collections[id].contractId == contractId
      ensures !r.Ok? ==> r == Aborted(CollectionNotFound)
      ensures r.Ok? ==> FindByContractId(contractId) == Some(r.value)
    {
      var found :=
        if contractId !in store.contractToCollection then
          Aborted(CollectionNotFound)
        else
          var id := store.contractToCollection[contractId];
          if id in store.collections then Ok(store.collections[id]) else Aborted(MetadataNotFound);
      ContractIndexLookup(store.collections, store.contractToCollection, contractId);
      found
    }

    /** When the host's address derivation is collision-free, every collection is found
        by its own contract address: distinct IDs have distinct salts, hence distinct
        contracts, so no later creation overwrites the contract index entry. */
    lemma ContractLookupFindsCollection(id: nat)
      requires Valid() && id in store.collections
      requires store.nextCollectionId <= U128_LIMIT
      requires forall s, t :: deployer(s) == deployer(t) ==> s == t
      ensures FindByContractId(store.collections[id].contractId) == Some(store.collections[id])
    {
      var c := store.collections[id].contractId;
      ContractIndexLookup(store.collections, store.contractToCollection, c);
      var j := store.contractToCollection[c];
      assert j in store.collections && store.collections[j].contractId == c;
      assert deployer(SaltOf(j)) == deployer(SaltOf(id));
      SaltInjective(j, id);
    }
  }

}
