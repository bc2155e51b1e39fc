/** The per-collection NFT contract (`NFTContract`): a one-shot constructor that
    stores the collection metadata under a royalty ceiling and makes the owner the
    admin, a role-gated `mint` that hands out contiguous token IDs from the
    `NextTokenId` counter, admin-only role management, and read-only queries. The
    non-fungible token and access-control machinery it delegates to is modelled only
    as an owner-of map and a set of role grants. */
module NftContract {
  import opened Common
  import opened RecordStore

  /** Royalties are capped at 10000 basis points (100%). */
  const MAX_ROYALTIES_BPS: nat := 10000

  /** The role `mint` asks of its caller: the symbol `"minter"`. */
  const MINTER_ROLE: string := "minter"

  datatype CollectionMetadata = CollectionMetadata(name: string, symbol: string, uriBase: string, royaltiesBps: nat)

  /** Why a call panicked. The host then discards every write of the call. */
  datatype Abort =
    | AlreadyInitialized
    | RoyaltiesTooHigh
    | NotMinter
    | NotConstructed
    | AdminNotSet
    | AuthRequired(principal: Address)
    | Unauthorized

  datatype Outcome<T> = Ok(value: T) | Aborted(reason: Abort)

  /** The total of a list of mint amounts. */
  function Sum(amounts: seq<nat>): nat
    decreases |amounts|
  {
    if |amounts| == 0 then 0 else Sum(amounts[..|amounts| - 1]) + amounts[|amounts| - 1]
  }

  lemma SumAppend(amounts: seq<nat>, x: nat)
    ensures Sum(amounts + [x]) == Sum(amounts) + x
  {
    assert (amounts + [x])[..|amounts|] == amounts;
  }

  /** The owner-of map after the loop of `mint` has run `count` times from token
      `first`: each pass gives token `first + i` to `to`. */
  function MintedRun(owners: map<nat, Address>, first: nat, count: nat, to: Address): map<nat, Address>
    decreases count
  {
    if count == 0 then owners else MintedRun(owners, first, count - 1, to)[first + count - 1 := to]
  }

  /** The run owns exactly the old tokens and `first .. first+count-1`; the new tokens
      belong to `to` and every other token keeps its owner. */
  lemma {:induction false} MintedRunContents(owners: map<nat, Address>, first: nat, count: nat, to: Address)
    ensures forall t :: t in MintedRun(owners, first, count, to) <==> t in owners || first <= t < first + count
    ensures forall t :: first <= t < first + count ==> MintedRun(owners, first, count, to)[t] == to
    ensures forall t :: t in owners && !(first <= t < first + count) ==> MintedRun(owners, first, count, to)[t] == owners[t]
    decreases count
  {
    if count > 0 {
      MintedRunContents(owners, first, count - 1, to);
    }
  }

  /** Minting from the counter onwards keeps the token IDs dense: the tokens are then
      exactly `1 .. first+count-1`, and no old token changes hands. */
  lemma MintedRunDense(owners: map<nat, Address>, first: nat, count: nat, to: Address)
    requires first >= 1 && Dense(owners, first)
    ensures Dense(MintedRun(owners, first, count, to), first + count)
    ensures forall t :: t in owners ==> MintedRun(owners, first, count, to)[t] == owners[t]
  {
    MintedRunContents(owners, first, count, to);
    var run := MintedRun(owners, first, count, to);
    forall t: nat ensures t in run <==> 1 <= t < first + count {
      assert t in owners <==> 1 <= t < first;
    }
  }

  class Nft {
    /** `DataKey::Initialized`. */
    var initialized: bool
    /** `DataKey::CollectionMetadata`. */
    var metadata: Option<CollectionMetadata>
    /** `DataKey::NextTokenId`; an unset counter reads as 1, so it is kept as 1 until written. */
    var nextTokenId: nat
    /** The access-control admin. */
    var admin: Option<Address>
    /** The access-control role grants: `(account, role)`. */
    var roles: set<(Address, string)>
    /** The non-fungible token owner-of map. */
    var owners: map<nat, Address>
    /** Proof bookkeeping: the `amount` of every committed `mint`, oldest first. */
    ghost var mintedAmounts: seq<nat>

    /** The bookkeeping invariant: metadata is stored exactly once initialized, with
        royalties within the ceiling and an admin; before that nothing can have been
        granted or minted; and the tokens are exactly `1 .. NextTokenId-1`, as many as
        all mints together asked for. */
    ghost predicate Valid()
      reads this
    {
      && (initialized <==> metadata.Some?)
      && (metadata.Some? ==> metadata.value.royaltiesBps <= MAX_ROYALTIES_BPS && admin.Some?)
      && (!initialized ==> nextTokenId == 1 && admin.None? && roles == {})
      && nextTokenId == 1 + Sum(mintedAmounts)
      && Dense(owners, nextTokenId)
    }

    /** The contract's storage before `__constructor` has run: empty. */
    constructor()
      ensures Valid()
      ensures !initialized && metadata == None && nextTokenId == 1 && admin == None
      ensures roles == {} && owners == map[] && mintedAmounts == []
    {
      initialized := false;
      metadata := None;
      nextTokenId := 1;
      admin := None;
      roles := {};
      owners := map[];
      mintedAmounts := [];
    }

    /** `__constructor`: a second run panics, as do royalties above the ceiling;
        otherwise the owner becomes admin, the metadata is stored, the contract is marked
        initialized and the counter starts at 1, so the supply is 0 and the royalties
        read back as given. */
    method Construct(owner: Address, name: string, symbol: string, uriBase: string, royaltiesBps: nat)
      returns (r: Outcome<()>)
      requires Valid()
      modifies this
      ensures Valid()
      ensures old(initialized) ==> r == Aborted(AlreadyInitialized)
      ensures !old(initialized) ==> r == (if royaltiesBps > MAX_ROYALTIES_BPS then Aborted(RoyaltiesTooHigh) else Ok(()))
      ensures r.Ok? ==>
        && initialized
        && metadata == Some(CollectionMetadata(name, symbol, uriBase, royaltiesBps))
        && admin == Some(owner)
        && nextTokenId == 1
        && roles == old(roles) == {} && owners == old(owners) && mintedAmounts == old(mintedAmounts)
      ensures r.Ok? ==> TotalSupply() == 0 && GetRoyalties() == Ok(royaltiesBps) && ContractAdmin() == Ok(owner)
      ensures !r.Ok? ==> unchanged(this)
    {
      if initialized {
        return Aborted(AlreadyInitialized);
      }
      if royaltiesBps > MAX_ROYALTIES_BPS {
        return Aborted(RoyaltiesTooHigh);
      }
      admin := Some(owner);
      metadata := Some(CollectionMetadata(name, symbol, uriBase, royaltiesBps));
      initialized := true;
      nextTokenId := 1;
      r := Ok(());
    }

    /** `mint`: a caller without the `"minter"` role panics; otherwise tokens
        `n .. n+amount-1`, where `n` is the counter, are given to `to` one by one, the
        counter moves to `n + amount` and `n` is returned. The contract asks no
        authorization of `caller`. */
    method Mint(caller: Address, to: Address, amount: nat) returns (r: Outcome<nat>)
      requires Valid()
      modifies this
      ensures Valid()
      ensures r == (if (caller, MINTER_ROLE) in old(roles) then Ok(old(nextTokenId)) else Aborted(NotMinter))
      ensures r.Ok? ==>
        && nextTokenId == old(nextTokenId) + amount
        && owners == MintedRun(old(owners), old(nextTokenId), amount, to)
        && mintedAmounts == old(mintedAmounts) + [amount]
        && initialized == old(initialized) && metadata == old(metadata)
        && admin == old(admin) && roles == old(roles)
      ensures r.Ok? ==> forall t :: old(nextTokenId) <= t < nextTokenId ==> t in owners && owners[t] == to
      ensures r.Ok? ==> forall t :: t in old(owners) ==> t in owners && owners[t] == old(owners)[t]
      ensures r.Ok? ==> TotalSupply() == old(TotalSupply()) + amount
      ensures r.Ok? && amount == 0 ==> owners == old(owners) && nextTokenId == old(nextTokenId)
      ensures !r.Ok? ==> unchanged(this)
    {
      if !CheckRole(caller, MINTER_ROLE) {
        return Aborted(NotMinter);
      }
      var first := nextTokenId;
      var minted := owners;
      var i := 0;
      while i < amount
        invariant 0 <= i <= amount
        invariant minted == MintedRun(owners, first, i, to)
        invariant Dense(minted, first + i)
        modifies {}
      {
        // The ID handed out is never already owned.
        assert first + i !in minted;
        DenseExtend(minted, first + i, to);
        minted := minted[first + i := to];
        i := i + 1;
      }
      MintedRunContents(owners, first, amount, to);
      SumAppend(mintedAmounts, amount);
      owners, nextTokenId, mintedAmounts := minted, first + amount, mintedAmounts + [amount];
      r := Ok(first);
    }

    /** The check of `#[only_admin]` together with that of the access-control
        library's role updates: an admin is stored, has authorized the call, and is
        the `admin` argument. */
    function AdminGate(auth: set<Address>, caller: Address): (r: Option<Abort>)
      reads this
      requires Valid()
      ensures r.None? <==> ContractAdmin() == Ok(caller) && caller in auth
      ensures r.None? ==> initialized
    {
      match admin
      case None => Some(AdminNotSet)
      case Some(a) =>
        if a !in auth then Some(AuthRequired(a))
        else if caller != a then Some(Unauthorized)
        else None
    }

    /** `assign_role`: admin only; grants `role` to `account` and changes nothing else. */
    method AssignRole(auth: set<Address>, caller: Address, account: Address, role: string) returns (r: Outcome<()>)
      requires Valid()
      modifies this
      ensures Valid()
      ensures r == (match AdminGate(auth, caller) case Some(e) => Aborted(e) case None => Ok(()))
      ensures r.Ok? ==> roles == old(roles) + {(account, role)} && CheckRole(account, role)
      ensures initialized == old(initialized) && metadata == old(metadata) && nextTokenId == old(nextTokenId)
      ensures admin == old(admin) && owners == old(owners) && mintedAmounts == old(mintedAmounts)
      ensures !r.Ok? ==> unchanged(this)
    {
      var gate := AdminGate(auth, caller);
      if gate.Some? {
        return Aborted(gate.value);
      }
      roles := roles + {(account, role)};
      r := Ok(());
    }

    /** `set_minter`: admin only; grants the `"minter"` role, after which `mint` accepts that caller. */
    method SetMinter(auth: set<Address>, caller: Address, newMinter: Address) returns (r: Outcome<()>)
      requires Valid()
      modifies this
      ensures Valid()
      ensures r == (match AdminGate(auth, caller) case Some(e) => Aborted(e) case None => Ok(()))
      ensures r.Ok? ==> roles == old(roles) + {(newMinter, MINTER_ROLE)} && CheckRole(newMinter, MINTER_ROLE)
      ensures initialized == old(initialized) && metadata == old(metadata) && nextTokenId == old(nextTokenId)
      ensures admin == old(admin) && owners == old(owners) && mintedAmounts == old(mintedAmounts)
      ensures !r.Ok? ==> unchanged(this)
    {
      r := AssignRole(auth, caller, newMinter, MINTER_ROLE);
    }

    /** `remove_role`: admin only; revokes `role` from `account` and changes nothing else. */
    method RemoveRole(auth: set<Address>, caller: Address, account: Address, role: string) returns (r: Outcome<()>)
      requires Valid()
      modifies this
      ensures Valid()
      ensures r == (match AdminGate(auth, caller) case Some(e) => Aborted(e) case None => Ok(()))
      ensures r.Ok? ==> roles == old(roles) - {(account, role)} && !CheckRole(account, role)
      ensures initialized == old(initialized) && metadata == old(metadata) && nextTokenId == old(nextTokenId)
      ensures admin == old(admin) && owners == old(owners) && mintedAmounts == old(mintedAmounts)
      ensures !r.Ok? ==> unchanged(this)
    {
      var gate := AdminGate(auth, caller);
      if gate.Some? {
        return Aborted(gate.value);
      }
      roles := roles - {(account, role)};
      r := Ok(());
    }

    /** `check_role`: whether `account` holds `role`; before construction nobody holds any. */
    function CheckRole(account: Address, role: string): (held: bool)
      reads this
      requires Valid()
      ensures held <==> (account, role) in roles
      ensures held ==> initialized
    {
      (account, role) in roles
    }

    /** `contract_admin`: the owner given at construction; panics before that. */
    function ContractAdmin(): (r: Outcome<Address>)
      reads this
      requires Valid()
      ensures r.Ok? <==> initialized
      ensures !r.Ok? ==> r == Aborted(AdminNotSet)
      ensures r.Ok? ==> admin == Some(r.value)
    {
      match admin
      case Some(a) => Ok(a)
      case None => Aborted(AdminNotSet)
    }

    /** `get_collection_metadata`: the stored metadata; panics before construction. */
    function GetCollectionMetadata(): (r: Outcome<CollectionMetadata>)
      reads this
      requires Valid()
      ensures r.Ok? <==> initialized
      ensures !r.Ok? ==> r == Aborted(NotConstructed)
      ensures r.Ok? ==> metadata == Some(r.value) && r.value.royaltiesBps <= MAX_ROYALTIES_BPS
    {
      match metadata
      case Some(m) => Ok(m)
      case None => Aborted(NotConstructed)
    }

    /** `get_royalties`: the stored royalty rate, never above the ceiling; panics before construction. */
    function GetRoyalties(): (r: Outcome<nat>)
      reads this
      requires Valid()
      ensures r.Ok? <==> initialized
      ensures !r.Ok? ==> r == Aborted(NotConstructed)
      ensures r.Ok? ==> r.value == metadata.value.royaltiesBps && r.value <= MAX_ROYALTIES_BPS
    {
      match GetCollectionMetadata()
      case Ok(m) => Ok(m.royaltiesBps)
      case Aborted(e) => Aborted(e)
    }

    /** `token_uri`: the stored base URI itself, the same for every token ID, minted or
        not; panics before construction. */
    function TokenUri(tokenId: nat): (r: Outcome<string>)
      reads this
      requires Valid()
      ensures r.Ok? <==> initialized
      ensures !r.Ok? ==> r == Aborted(NotConstructed)
      ensures r.Ok? ==> r.value == metadata.value.uriBase
    {
      match GetCollectionMetadata()
      case Ok(m) => Ok(m.uriBase)
      case Aborted(e) => Aborted(e)
    }

    /** `total_supply`: `NextTokenId - 1`, which is the number of tokens owned and the
        sum of the amounts of all mints. */
    function TotalSupply(): (n: nat)
      reads this
      requires Valid()
      ensures n + 1 == nextTokenId
      ensures n == |owners|
      ensures n == Sum(mintedAmounts)
    {
      DenseCardinality(owners, nextTokenId);
      nextTokenId - 1
    }
  }

  /** Minting 3 and then 2 tokens returns the IDs 1 and 4 and leaves a supply of 5. */
  method MintSequenceExample(owner: Address, minter: Address, to: Address)
    returns (first: Outcome<nat>, second: Outcome<nat>, supply: nat)
    ensures first == Ok(1) && second == Ok(4) && supply == 5
  {
    var nft := new Nft();
    var constructed := nft.Construct(owner, "Collection", "COL", "ipfs://base/", 500);
    var granted := nft.SetMinter({owner}, owner, minter);
    assert nft.Valid() && nft.nextTokenId == 1 && (minter, MINTER_ROLE) in nft.roles;
    first := nft.Mint(minter, to, 3);
    assert nft.Valid() && nft.nextTokenId == 4 && (minter, MINTER_ROLE) in nft.roles;
    second := nft.Mint(minter, to, 2);
    assert nft.Valid() && nft.nextTokenId == 6;
    supply := nft.TotalSupply();
  }

  /** A caller that was never granted the role is turned away, and nothing is minted. */
  method UnauthorizedMintExample(owner: Address, minter: Address, stranger: Address, to: Address)
    returns (rejected: Outcome<nat>, supply: nat)
    requires stranger != minter
    ensures rejected == Aborted(NotMinter) && supply == 0
  {
    var nft := new Nft();
    var constructed := nft.Construct(owner, "Collection", "COL", "ipfs://base/", 500);
    var granted := nft.SetMinter({owner}, owner, minter);
    rejected := nft.Mint(stranger, to, 1);
    supply := nft.TotalSupply();
  }
}
