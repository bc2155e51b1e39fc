/** The action registry (`StellarWizardRegistry`): logs user actions with a
    basis-point commission, keeps a per-user index of action IDs, lets the creator of
    a record append transaction references, and is administered by an owner who can
    change the fee, the fee wallet, the pause flag and the ownership itself. */
module ActionRegistry {
  import opened Common
  import opened Fees
  import opened RecordStore
  import opened Pagination

  /** The registry's fee ceiling: 1000 basis points, that is 10%. */
  const MAX_FEE_BPS: nat := 1000

  datatype RegistryError =
    | NotAuthorized
    | InvalidAmount
    | InvalidAddress
    | RecordNotFound
    | ContractPaused
    | InvalidFeeRate

  datatype ActionType = NFT | DEFI

  datatype ActionRecord = ActionRecord(
    id: nat,
    user: Address,
    actionType: ActionType,
    planHash: string,
    payloadRef: string,
    timestamp: nat,
    network: string,
    txRefs: seq<string>,
    feeAmount: int,
    totalAmount: int)

  datatype Config = Config(owner: Address, feeBps: nat, feeWallet: Address, paused: bool)

  /** Why a call aborted: a panic, a failed authorization check of the host, or a
      failed cross-contract token transfer. The host then discards every write of the call. */
  datatype Abort =
    | AlreadyInitialized
    | AuthRequired(principal: Address)
    | TransferFailed

  /** The result of an entry point: a value, a typed `RegistryError` returned to the
      caller, or an abort. Neither failure kind leaves a trace in storage. */
  datatype Outcome<T> = Ok(value: T) | Err(error: RegistryError) | Aborted(reason: Abort)

  datatype Event =
    | FeePaid(id: nat, feeWallet: Address, fee: int)
    | ActionLogged(id: nat, user: Address, actionType: ActionType, planHash: string, fee: int)

  /** The lookup behind `get_record`: the stored record, or `RecordNotFound`. */
  function FindRecord(store: map<nat, ActionRecord>, id: nat): (r: Outcome<ActionRecord>)
    ensures r.Ok? <==> id in store
    ensures r.Ok? ==> r.value == store[id]
    ensures !r.Ok? ==> r == Err(RecordNotFound)
  {
    if id in store then Ok(store[id]) else Err(RecordNotFound)
  }

  /** The scan of `get_records_range` ends just past `last` (or never starts); over a
      dense store it has then collected exactly the records `max(start, 1) .. last`. */
  lemma InclusiveWindow(store: map<nat, ActionRecord>, next: nat, start: nat, last: nat, id: nat, ids: seq<nat>, out: seq<ActionRecord>)
    requires Dense(store, next) && last < next
    requires id == (if start <= last then last + 1 else start)
    requires ids == IdsIn(store, start, id) && out == ValuesAt(store, ids)
    ensures var first := Max(start, 1);
      && |out| == (if last >= first then last - first + 1 else 0)
      && forall i :: 0 <= i < |out| ==> first + i in store && out[i] == store[first + i]
  {
    IdsInDense(store, next, start, id);
  }

  /** The loop of `get_records_range`: looks up every ID from `start` to `last`
      inclusive and keeps the records found. Over a dense store it returns exactly the
      records `max(start, 1) .. last`, in ascending ID order. */
  method ScanRecords(store: map<nat, ActionRecord>, next: nat, start: nat, last: nat) returns (out: seq<ActionRecord>)
    requires Dense(store, next) && last < next
    ensures var first := Max(start, 1);
      && |out| == (if last >= first then last - first + 1 else 0)
      && forall i :: 0 <= i < |out| ==> first + i in store && out[i] == store[first + i]
  {
    out := [];
    var id := start;
    ghost var ids: seq<nat> := [];
    while id <= last
      invariant start <= id && (id <= last + 1 || id == start)
      invariant ids == IdsIn(store, start, id)
      invariant out == ValuesAt(store, ids)
      decreases last + 1 - id
    {
      var found := FindRecord(store, id);
      assert IdsIn(store, start, id + 1) == ids + (if id in store then [id] else []);
      if found.Ok? {
        out := out + [found.value];
        ids := ids + [id];
      }
      id := id + 1;
    }
    InclusiveWindow(store, next, start, last, id, ids, out);
  }

  function RecordUser(r: ActionRecord): Address { r.user }

  /** The record ledger: IDs 1 .. next-1 are exactly the stored records, each record
      carries its own ID and the amounts it was accepted with, and each user's list
      holds exactly that user's record IDs in creation order. */
  ghost predicate Ledger(records: map<nat, ActionRecord>, next: nat, index: map<Address, seq<nat>>, pos: nat -> nat)
  {
    && next >= 1
    && Dense(records, next)
    && (forall id :: id in records ==>
          && records[id].id == id
          && records[id].totalAmount > 0
          && 0 <= records[id].feeAmount <= records[id].totalAmount)
    && OwnerIndexExact(records, RecordUser, index, pos)
  }

  /** Logging an action under the next ID, and listing it under its user, keeps the ledger consistent. */
  lemma LedgerAppend(records: map<nat, ActionRecord>, next: nat, index: map<Address, seq<nat>>, pos: nat -> nat, r: ActionRecord)
    requires Ledger(records, next, index, pos)
    requires r.id == next && r.totalAmount > 0 && 0 <= r.feeAmount <= r.totalAmount
    ensures var list := ListOrEmpty(index, r.user);
      Ledger(records[next := r], next + 1, index[r.user := list + [next]], Reposition(pos, next, |list|))
  {
    DenseExtend(records, next, r);
    OwnerIndexAppend(records, RecordUser, index, pos, next, r);
  }

  /** Rewriting a record's transaction references keeps the ledger consistent. */
  lemma LedgerReplace(records: map<nat, ActionRecord>, next: nat, index: map<Address, seq<nat>>, pos: nat -> nat, id: nat, txRefs: seq<string>)
    requires Ledger(records, next, index, pos) && id in records
    ensures Ledger(records[id := records[id].(txRefs := txRefs)], next, index, pos)
  {
    OwnerIndexReplace(records, RecordUser, index, pos, id, records[id].(txRefs := txRefs));
  }

  /** The persistent entries of the record ledger: `DataKey::NextId` (an unset counter
      reads as 1 everywhere, so it is kept as 1 until written), `DataKey::Record(id)`
      and `DataKey::UserRecords(user)`. */
  datatype Journal = Journal(nextId: nat, records: map<nat, ActionRecord>, userRecords: map<Address, seq<nat>>)

  class Registry {
    /** `DataKey::Config`. */
    var config: Option<Config>
    /** The record ledger. */
    var store: Journal
    /** Proof bookkeeping: each record's position in its user's list. */
    ghost var userPos: nat -> nat
    /** Events published by committed calls, oldest first. */
    ghost var events: seq<Event>

    /** The bookkeeping invariant: the fee is within the ceiling, nothing is stored
        before initialization, and the record ledger is consistent. */
    ghost predicate Valid()
      reads this
    {
      && (config.None? ==> store.nextId == 1 && store.userRecords == map[])
      && (config.Some? ==> config.value.feeBps <= MAX_FEE_BPS)
      && Ledger(store.records, store.nextId, store.userRecords, userPos)
    }

    /** A freshly deployed registry: nothing stored yet. */
    constructor()
      ensures Valid()
      ensures config == None && store.nextId == 1 && store.records == map[] && store.userRecords == map[] && events == []
    {
      config := None;
      store := Journal(1, map[], map[]);
      userPos := _ => 0;
      events := [];
    }

    /** `initialize`: a second call panics whatever its arguments; a fee above the
        ceiling is rejected; otherwise the unpaused config is stored and the counter set to 1.
        The contract does not ask the owner to authorize this call. */
    method Initialize(owner: Address, feeBps: nat, feeWallet: Address) returns (r: Outcome<()>)
      requires Valid()
      modifies this
      ensures Valid()
      ensures old(config).Some? ==> r == Aborted(AlreadyInitialized)
      ensures old(config).None? && feeBps > MAX_FEE_BPS ==> r == Err(InvalidFeeRate)
      ensures old(config).None? && feeBps <= MAX_FEE_BPS ==>
        && r == Ok(())
        && config == Some(Config(owner, feeBps, feeWallet, false))
        && store.nextId == 1
        && store.records == old(store.records) == map[]
        && store.userRecords == old(store.userRecords) == map[]
        && events == old(events)
      ensures !r.Ok? ==> unchanged(this)
    {
      if config.Some? {
        return Aborted(AlreadyInitialized);
      }
      if feeBps > MAX_FEE_BPS {
        return Err(InvalidFeeRate);
      }
      config := Some(Config(owner, feeBps, feeWallet, false));
      store := store.(nextId := 1);
      r := Ok(());
    }

    /** `log_and_route`: the main entry point. Checks, in order, that the registry is
        initialized, that it is not paused, that `user` authorized the call and that the
        amount is positive; then takes the next ID, stores the record with its fee,
        appends the ID to the user's list and, when the fee is positive, transfers it
        through the token contract (whose failure aborts the whole call). */
    method LogAndRoute(
      auth: set<Address>, user: Address, actionType: ActionType, planHash: string,
      payloadRef: string, network: string, totalAmount: int, tokenAddress: Address,
      now: nat, transferSucceeds: bool)
      returns (r: Outcome<nat>)
      requires Valid()
      modifies this
      ensures Valid()
      ensures old(config).None? ==> r == Err(RecordNotFound)
      ensures old(config).Some? && old(config).value.paused ==> r == Err(ContractPaused)
      ensures old(config).Some? && !old(config).value.paused && user !in auth ==>
        r == Aborted(AuthRequired(user))
      ensures old(config).Some? && !old(config).value.paused && user in auth && totalAmount <= 0 ==>
        r == Err(InvalidAmount)
      ensures old(config).Some? && !old(config).value.paused && user in auth && totalAmount > 0 ==>
        var fee := ActionFee(totalAmount, old(config).value.feeBps);
        r == (if fee > 0 && !transferSucceeds then Aborted(TransferFailed) else Ok(old(store.nextId)))
      ensures r.Ok? ==>
        var id := old(store.nextId);
        var cfg := old(config).value;
        var fee := ActionFee(totalAmount, cfg.feeBps);
        && r.value == id
        && store.nextId == id + 1
        && config == old(config)
        && store.records == old(store.records)[id := ActionRecord(id, user, actionType, planHash, payloadRef,
                                                      now, network, [], fee, totalAmount)]
        && store.userRecords == old(store.userRecords)[user := ListOrEmpty(old(store.userRecords), user) + [id]]
        && events == old(events) + (if fee > 0 then [FeePaid(id, cfg.feeWallet, fee)] else [])
                                 + [ActionLogged(id, user, actionType, planHash, fee)]
      ensures !r.Ok? ==> unchanged(this)
    {
      if config.None? {
        return Err(RecordNotFound);
      }
      var cfg := config.value;
      if cfg.paused {
        return Err(ContractPaused);
      }
      if user !in auth {
        return Aborted(AuthRequired(user));
      }
      if totalAmount <= 0 {
        return Err(InvalidAmount);
      }
      var fee := ActionFee(totalAmount, cfg.feeBps);

      // The writes of the call are staged and committed only once the fee transfer
      // has gone through: a failed transfer aborts the call and the host discards them.
      var id := store.nextId;
      var record := ActionRecord(id, user, actionType, planHash, payloadRef, now, network, [], fee, totalAmount);
      var list := ListOrEmpty(store.userRecords, user);
      LedgerAppend(store.records, id, store.userRecords, userPos, record);
      var newRecords, newIndex := store.records[id := record], store.userRecords[user := list + [id]];
      ghost var newPos := Reposition(userPos, id, |list|);
      var logged := [ActionLogged(id, user, actionType, planHash, fee)];
      if fee > 0 {
        if !transferSucceeds {
          return Aborted(TransferFailed);
        }
        logged := [FeePaid(id, cfg.feeWallet, fee)] + logged;
      }
      store, userPos := Journal(id + 1, newRecords, newIndex), newPos;
      events := events + logged;
      r := Ok(id);
    }

    /** `append_tx_ref`: after `user` authorizes the call, a missing record yields
        `RecordNotFound`, a record created by someone else yields `NotAuthorized`, and
        otherwise the reference is appended to that record's `tx_refs` and nothing else changes. */
    method AppendTxRef(auth: set<Address>, user: Address, id: nat, txRef: string) returns (r: Outcome<()>)
      requires Valid()
      modifies this
      ensures Valid()
      ensures user !in auth ==> r == Aborted(AuthRequired(user))
      ensures user in auth && id !in old(store.records) ==> r == Err(RecordNotFound)
      ensures user in auth && id in old(store.records) && old(store.records)[id].user != user ==> r == Err(NotAuthorized)
      ensures user in auth && id in old(store.records) && old(store.records)[id].user == user ==>
        && r == Ok(())
        && store.records == old(store.records)[id := old(store.records)[id].(txRefs := old(store.records)[id].txRefs + [txRef])]
        && config == old(config) && store.nextId == old(store.nextId)
        && store.userRecords == old(store.userRecords) && events == old(events)
      ensures !r.Ok? ==> unchanged(this)
    {
      if user !in auth {
        return Aborted(AuthRequired(user));
      }
      if id !in store.records {
        return Err(RecordNotFound);
      }
      var record := store.records[id];
      if record.user != user {
        return Err(NotAuthorized);
      }
      var updated := record.(txRefs := record.txRefs + [txRef]);
      LedgerReplace(store.records, store.nextId, store.userRecords, userPos, id, updated.txRefs);
      store := store.(records := store.records[id := updated]);
      r := Ok(());
    }

    /** `get_record`: found exactly for the allocated IDs 1 .. NextId-1, and the
        record found carries the ID asked for. */
    function GetRecord(id: nat): (r: Outcome<ActionRecord>)
      reads this
      requires Valid()
      ensures r.Ok? <==> 1 <= id < store.nextId
      ensures !r.Ok? ==> r == Err(RecordNotFound)
      ensures r.Ok? ==> r.value == store.records[id] && r.value.id == id
    {
      FindRecord(store.records, id)
    }

    /** `get_user_records`: the IDs of exactly the records `user` created, oldest first. */
    function GetUserRecords(user: Address): (ids: seq<nat>)
      reads this
      requires Valid()
      ensures StrictlyIncreasing(ids)
      ensures forall id :: id in ids <==> id in store.records && store.records[id].user == user
    {
      OwnerIndexLookup(store.records, RecordUser, store.userRecords, userPos, user);
      ListOrEmpty(store.userRecords, user)
    }

    /** `get_config`: present once initialized, and always within the fee ceiling. */
    function GetConfig(): (r: Outcome<Config>)
      reads this
      requires Valid()
      ensures r.Ok? <==> config.Some?
      ensures !r.Ok? ==> r == Err(RecordNotFound)
      ensures r.Ok? ==> r.value == config.value && r.value.feeBps <= MAX_FEE_BPS
    {
      match config
      case Some(c) => Ok(c)
      case None => Err(RecordNotFound)
    }

    /** `set_fee_bps`: owner only; a rate above the ceiling is rejected with
        `InvalidFeeRate` and leaves the config unchanged; otherwise only `fee_bps` changes. */
    method SetFeeBps(auth: set<Address>, feeBps: nat) returns (r: Outcome<()>)
      requires Valid()
      modifies this
      ensures Valid()
      ensures old(config).None? ==> r == Err(RecordNotFound)
      ensures old(config).Some? && old(config).value.owner !in auth ==>
        r == Aborted(AuthRequired(old(config).value.owner))
      ensures old(config).Some? && old(config).value.owner in auth ==>
        r == (if feeBps > MAX_FEE_BPS then Err(InvalidFeeRate) else Ok(()))
      ensures r.Ok? ==> config == Some(old(config).value.(feeBps := feeBps))
      ensures store.nextId == old(store.nextId) && store.records == old(store.records)
      ensures store.userRecords == old(store.userRecords) && events == old(events)
      ensures !r.Ok? ==> unchanged(this)
    {
      if config.None? {
        return Err(RecordNotFound);
      }
      var cfg := config.value;
      if cfg.owner !in auth {
        return Aborted(AuthRequired(cfg.owner));
      }
      if feeBps > MAX_FEE_BPS {
        return Err(InvalidFeeRate);
      }
      config := Some(cfg.(feeBps := feeBps));
      r := Ok(());
    }

    /** `set_fee_wallet`: owner only; changes the fee wallet and no other field. */
    method SetFeeWallet(auth: set<Address>, feeWallet: Address) returns (r: Outcome<()>)
      requires Valid()
      modifies this
      ensures Valid()
      ensures old(config).None? ==> r == Err(RecordNotFound)
      ensures old(config).Some? ==>
        r == (if old(config).value.owner in auth then Ok(()) else Aborted(AuthRequired(old(config).value.owner)))
      ensures r.Ok? ==> config == Some(old(config).value.(feeWallet := feeWallet))
      ensures store.nextId == old(store.nextId) && store.records == old(store.records)
      ensures store.userRecords == old(store.userRecords) && events == old(events)
      ensures !r.Ok? ==> unchanged(this)
    {
      if config.None? {
        return Err(RecordNotFound);
      }
      var cfg := config.value;
      if cfg.owner !in auth {
        return Aborted(AuthRequired(cfg.owner));
      }
      config := Some(cfg.(feeWallet := feeWallet));
      r := Ok(());
    }

    /** `set_paused`: owner only; changes the pause flag and no other field. */
    method SetPaused(auth: set<Address>, paused: bool) returns (r: Outcome<()>)
      requires Valid()
      modifies this
      ensures Valid()
      ensures old(config).None? ==> r == Err(RecordNotFound)
      ensures old(config).Some? ==>
        r == (if old(config).value.owner in auth then Ok(()) else Aborted(AuthRequired(old(config).value.owner)))
      ensures r.Ok? ==> config == Some(old(config).value.(paused := paused))
      ensures store.nextId == old(store.nextId) && store.records == old(store.records)
      ensures store.userRecords == old(store.userRecords) && events == old(events)
      ensures !r.Ok? ==> unchanged(this)
    {
      if config.None? {
        return Err(RecordNotFound);
      }
      var cfg := config.value;
      if cfg.owner !in auth {
        return Aborted(AuthRequired(cfg.owner));
      }
      config := Some(cfg.(paused := paused));
      r := Ok(());
    }

    /** `transfer_ownership`: owner only; changes the owner and no other field. */
    method TransferOwnership(auth: set<Address>, newOwner: Address) returns (r: Outcome<()>)
      requires Valid()
      modifies this
      ensures Valid()
      ensures old(config).None? ==> r == Err(RecordNotFound)
      ensures old(config).Some? ==>
        r == (if old(config).value.owner in auth then Ok(()) else Aborted(AuthRequired(old(config).value.owner)))
      ensures r.Ok? ==> config == Some(old(config).value.(owner := newOwner))
      ensures store.nextId == old(store.nextId) && store.records == old(store.records)
      ensures store.userRecords == old(store.userRecords) && events == old(events)
      ensures !r.Ok? ==> unchanged(this)
    {
      if config.None? {
        return Err(RecordNotFound);
      }
      var cfg := config.value;
      if cfg.owner !in auth {
        return Aborted(AuthRequired(cfg.owner));
      }
      config := Some(cfg.(owner := newOwner));
      r := Ok(());
    }

    /** `get_total_records`: `NextId - 1`, which is the number of stored records. */
    function GetTotalRecords(): (n: nat)
      reads this
      requires Valid()
      ensures n == |store.records|
      ensures n + 1 == store.nextId
    {
      DenseCardinality(store.records, store.nextId);
      store.nextId - 1
    }

    /** `get_records_range`: scans the inclusive ID range from `start` to
        `min(end, total)`, where `end` is the last record when `limit` is 0 and
        `start + limit - 1` otherwise, collecting the records found. Because the store
        has no holes, the result is every record of that range in ascending ID order. */
    method GetRecordsRange(start: nat, limit: nat) returns (out: seq<ActionRecord>)
      requires Valid()
      ensures
        var total := store.nextId - 1;
        var end := if limit == 0 then total else start + limit - 1;
        var first := Max(start, 1);
        var last := Min(end, total);
        && |out| == (if last >= first then last - first + 1 else 0)
        && forall i :: 0 <= i < |out| ==> first + i in store.records && out[i] == store.records[first + i]
    {
      var maxRecords := GetTotalRecords();
      var end := if limit == 0 then maxRecords else start + limit - 1;
      var actualEnd := if end > maxRecords then maxRecords else end;
      out := ScanRecords(store.records, store.nextId, start, actualEnd);
    }
  }
}
