/** The indexed record store shared by the registry and the factory: a primary map
    from sequentially allocated IDs to records, list-valued owner indexes
    (user -> IDs, creator -> IDs) and unique-valued key indexes (name -> ID,
    contract -> ID) whose writes overwrite earlier ones. */
module RecordStore {
  import opened Common

  /** The primary store holds exactly the IDs 1 .. next-1: the allocator hands out
      `next` and increments it, and there is no delete path. */
  ghost predicate Dense<T>(m: map<nat, T>, next: nat)
  {
    forall id: nat :: id in m <==> 1 <= id < next
  }

  /** A dense store holds `next - 1` records. */
  lemma {:induction false} DenseCardinality<T>(m: map<nat, T>, next: nat)
    requires next >= 1 && Dense(m, next)
    ensures |m| == next - 1
  {
    if next > 1 {
      var last: nat := next - 1;
      var rest := m - {last};
      assert Dense(rest, last);
      DenseCardinality(rest, last);
      assert m.Keys == rest.Keys + {last};
    } else {
      assert m.Keys == {};
    }
  }

  /** Storing the record for the freshly allocated ID keeps the store dense. */
  lemma DenseExtend<T>(m: map<nat, T>, next: nat, v: T)
    requires next >= 1 && Dense(m, next)
    ensures Dense(m[next := v], next + 1)
  {
  }

  /** `pos` with the position of `id` set to `p`. */
  function Reposition(pos: nat -> nat, id: nat, p: nat): (pos': nat -> nat)
    ensures pos'(id) == p && forall k :: k != id ==> pos'(k) == pos(k)
  {
    k => if k == id then p else pos(k)
  }

  /** Each principal's list holds exactly the IDs of the records that principal owns,
      in increasing (that is, creation) order. No entry is orphaned, and no record is
      missing from its owner's list: `pos` is a ghost witness giving each record's
      position in that list. */
  ghost predicate OwnerIndexExact<T>(m: map<nat, T>, owner: T -> Address, idx: map<Address, seq<nat>>, pos: nat -> nat)
  {
    && (forall a :: a in idx ==> Ascending(idx[a]))
    && (forall a, i :: a in idx && 0 <= i < |idx[a]| ==> idx[a][i] in m && owner(m[idx[a][i]]) == a)
    && (forall id {:trigger pos(id)} :: id in m ==>
          && owner(m[id]) in idx
          && pos(id) < |idx[owner(m[id])]| && idx[owner(m[id])][pos(id)] == id)
  }

  /** Read through the index: an ID is listed for `a` exactly when it is a record owned by `a`. */
  lemma OwnerIndexLookup<T>(m: map<nat, T>, owner: T -> Address, idx: map<Address, seq<nat>>, pos: nat -> nat, a: Address)
    requires OwnerIndexExact(m, owner, idx, pos)
    ensures StrictlyIncreasing(ListOrEmpty(idx, a))
    ensures forall id :: id in ListOrEmpty(idx, a) <==> id in m && owner(m[id]) == a
  {
    var s := ListOrEmpty(idx, a);
    AscendingIsStrictlyIncreasing(s);
    forall id | id in s ensures id in m && owner(m[id]) == a {
      var i :| 0 <= i < |s| && s[i] == id;
    }
    forall id | id in m && owner(m[id]) == a ensures id in s {
      assert s[pos(id)] == id;
    }
  }

  /** Storing a record under a fresh, larger ID and appending that ID to its owner's
      list (creating the list when absent) keeps the index exact. */
  lemma {:induction false} OwnerIndexAppend<T>(m: map<nat, T>, owner: T -> Address, idx: map<Address, seq<nat>>, pos: nat -> nat, id: nat, v: T)
    requires OwnerIndexExact(m, owner, idx, pos)
    requires forall k :: k in m ==> k < id
    ensures OwnerIndexExact(m[id := v], owner, idx[owner(v) := ListOrEmpty(idx, owner(v)) + [id]],
                            Reposition(pos, id, |ListOrEmpty(idx, owner(v))|))
  {
    var m', a := m[id := v], owner(v);
    var prev := ListOrEmpty(idx, a);
    var idx', pos' := idx[a := prev + [id]], Reposition(pos, id, |prev|);
    if |prev| > 0 {
      assert prev[|prev| - 1] in m;
    }
    AscendingAppend(prev, id);
    forall b, i | b in idx' && 0 <= i < |idx'[b]| ensures idx'[b][i] in m' && owner(m'[idx'[b][i]]) == b {
      if b == a && i == |prev| {
        assert idx'[b][i] == id;
      } else {
        assert idx'[b][i] == (if b == a then prev[i] else idx[b][i]);
        assert idx'[b][i] in m;
        assert idx'[b][i] != id;
      }
    }
    forall k | k in m' ensures
      && owner(m'[k]) in idx'
      && pos'(k) < |idx'[owner(m'[k])]| && idx'[owner(m'[k])][pos'(k)] == k
    {
      if k != id {
        assert k in m && m'[k] == m[k] && pos'(k) == pos(k);
        var b := owner(m[k]);
        assert pos(k) < |idx[b]| && idx[b][pos(k)] == k;
        if b == a {
          assert idx'[b][pos(k)] == prev[pos(k)];
        }
      }
    }
  }

  /** Replacing a record by one with the same owner (as appending a transaction
      reference does) keeps the index exact. */
  lemma OwnerIndexReplace<T>(m: map<nat, T>, owner: T -> Address, idx: map<Address, seq<nat>>, pos: nat -> nat, id: nat, v: T)
    requires OwnerIndexExact(m, owner, idx, pos)
    requires id in m && owner(v) == owner(m[id])
    ensures OwnerIndexExact(m[id := v], owner, idx, pos)
  {
    var m' := m[id := v];
    forall a, i | a in idx && 0 <= i < |idx[a]| ensures idx[a][i] in m' && owner(m'[idx[a][i]]) == a {
      assert idx[a][i] in m;
    }
    forall k | k in m' ensures
      && owner(m'[k]) in idx
      && pos(k) < |idx[owner(m'[k])]| && idx[owner(m'[k])][pos(k)] == k
    {
      assert k in m && owner(m'[k]) == owner(m[k]);
      var b, p := owner(m[k]), pos(k);
      assert b in idx && pos(k) < |idx[b]| && idx[b][pos(k)] == k;
    }
  }

  /** A unique-valued index with last-write-wins semantics: every entry points at a
      record carrying that key, and every record's key is indexed, at that record's
      ID or at a later one (a later record with the same key overwrote it). */
  ghost predicate LatestIndex<T, K>(m: map<nat, T>, key: T -> K, idx: map<K, nat>)
  {
    && (forall k :: k in idx ==> idx[k] in m && key(m[idx[k]]) == k)
    && (forall id {:trigger key(m[id])} :: id in m ==> key(m[id]) in idx && id <= idx[key(m[id])])
  }

  /** Under a latest-wins index, the indexed ID is the largest ID carrying that key. */
  lemma LatestIndexIsMaximal<T, K>(m: map<nat, T>, key: T -> K, idx: map<K, nat>, k: K)
    requires LatestIndex(m, key, idx)
    ensures k in idx <==> exists id :: id in m && key(m[id]) == k
    ensures k in idx ==> forall id :: id in m && key(m[id]) == k ==> id <= idx[k]
  {
    if k in idx {
      assert idx[k] in m && key(m[idx[k]]) == k;
    }
  }

  /** Storing a record under a fresh, larger ID and overwriting its key's entry keeps
      the index latest-wins. */
  lemma LatestIndexPut<T, K>(m: map<nat, T>, key: T -> K, idx: map<K, nat>, id: nat, v: T)
    requires LatestIndex(m, key, idx)
    requires forall k :: k in m ==> k < id
    ensures LatestIndex(m[id := v], key, idx[key(v) := id])
  {
    var m', idx' := m[id := v], idx[key(v) := id];
    forall k | k in idx' ensures idx'[k] in m' && key(m'[idx'[k]]) == k {
      if k != key(v) {
        assert idx[k] in m;
        assert idx[k] != id;
      }
    }
    forall j | j in m' ensures key(m'[j]) in idx' && j <= idx'[key(m'[j])] {
      if j != id {
        assert j in m;
      }
    }
  }
}
