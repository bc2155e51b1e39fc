/** Values shared by the three contracts: principals, optional values, bytes. */
module Common {

  /** A Soroban `Address`: an opaque principal (account or contract), compared by identity. */
  datatype Address = Address(key: nat)

  /** A byte of a `BytesN` value. */
  newtype byte = x: int | 0 <= x < 256

  datatype Option<T> = None | Some(value: T)

  /** The value stored under a list-valued key, or the empty list when the key is unset
      (the Rust code's `get(..).unwrap_or(Vec::new(&env))`). */
  function ListOrEmpty<K, V>(m: map<K, seq<V>>, k: K): (s: seq<V>)
    ensures k in m ==> s == m[k]
    ensures k !in m ==> s == []
  {
    if k in m then m[k] else []
  }

  /** Every element is smaller than the one after it (an insertion-ordered list of fresh IDs). */
  ghost predicate StrictlyIncreasing(s: seq<nat>)
  {
    forall i, j :: 0 <= i < j < |s| ==> s[i] < s[j]
  }

  /** The same property stated one adjacent pair at a time, from the back: the last two
      elements increase and so does the rest. Being recursive, it is unfolded only on
      demand, which keeps invariants that use it cheap to carry. */
  ghost predicate Ascending(s: seq<nat>)
    decreases |s|
  {
    |s| < 2 || (s[|s| - 2] < s[|s| - 1] && Ascending(s[..|s| - 1]))
  }

  lemma {:induction false} AscendingIsStrictlyIncreasing(s: seq<nat>)
    requires Ascending(s)
    ensures StrictlyIncreasing(s)
    decreases |s|
  {
    if |s| >= 2 {
      var prefix := s[..|s| - 1];
      AscendingIsStrictlyIncreasing(prefix);
      forall i, j | 0 <= i < j < |s| ensures s[i] < s[j] {
        if j < |s| - 1 {
          assert s[i] == prefix[i] && s[j] == prefix[j];
        } else if i < |s| - 2 {
          assert s[i] == prefix[i] && s[|s| - 2] == prefix[|s| - 2];
        }
      }
    }
  }

  /** Appending a value larger than the last element keeps a list ascending. */
  lemma AscendingAppend(s: seq<nat>, x: nat)
    requires Ascending(s)
    requires |s| > 0 ==> s[|s| - 1] < x
    ensures Ascending(s + [x])
  {
    assert (s + [x])[..|s|] == s;
  }
}
