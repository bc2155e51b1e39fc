/** The deployment salt of a new collection: 32 bytes whose first 16 are zero and
    whose last 16 are the big-endian bytes of the `u128` collection ID. The factory
    hands it to the deployer so that each collection ID yields its own child address. */
module Salt {
  import opened Common

  const SALT_LEN: nat := 32
  const U128_BYTES: nat := 16
  const U128_LIMIT: nat := 0x1_0000_0000_0000_0000_0000_0000_0000_0000

  function Pow256(n: nat): (p: nat)
    ensures p >= 1
  {
    if n == 0 then 1 else 256 * Pow256(n - 1)
  }

  /** `x.to_be_bytes()` for an n-byte unsigned integer: the n low-order base-256
      digits of `x`, most significant first. */
  function ToBeBytes(x: nat, n: nat): (s: seq<byte>)
    ensures |s| == n
  {
    if n == 0 then [] else ToBeBytes(x / 256, n - 1) + [(x % 256) as byte]
  }

  /** Reads a big-endian unsigned integer. */
  function FromBeBytes(s: seq<byte>): nat
  {
    if s == [] then 0 else FromBeBytes(s[..|s| - 1]) * 256 + s[|s| - 1] as nat
  }

  /** Big-endian encoding is undone by decoding, for every value that fits in n bytes. */
  lemma {:induction false} BeRoundTrip(x: nat, n: nat)
    requires x < Pow256(n)
    ensures FromBeBytes(ToBeBytes(x, n)) == x
  {
    if n > 0 {
      var s := ToBeBytes(x, n);
      assert s[..|s| - 1] == ToBeBytes(x / 256, n - 1);
      assert x / 256 < Pow256(n - 1);
      BeRoundTrip(x / 256, n - 1);
    }
  }

  lemma U128Limit()
    ensures Pow256(U128_BYTES) == U128_LIMIT
  {
    assert Pow256(4) == 0x1_0000_0000;
    assert Pow256(8) == 0x1_0000_0000_0000_0000;
    assert Pow256(12) == 0x1_0000_0000_0000_0000_0000_0000;
    assert Pow256(16) == U128_LIMIT;
  }

  /** The sixteen zero bytes that lead every salt. */
  function Zeros(n: nat): (z: seq<byte>)
    ensures |z| == n && forall i :: 0 <= i < n ==> z[i] == 0
  {
    seq(n, _ => 0)
  }

  /** The salt derived from a collection ID. */
  function SaltOf(id: nat): seq<byte>
  {
    Zeros(U128_BYTES) + ToBeBytes(id, U128_BYTES)
  }

  /** The layout of a salt: sixteen zero bytes, then the ID's sixteen big-endian
      bytes, from which a `u128` ID is read back. */
  lemma SaltLayout(id: nat)
    ensures |SaltOf(id)| == SALT_LEN
    ensures forall i :: 0 <= i < U128_BYTES ==> SaltOf(id)[i] == 0
    ensures SaltOf(id)[U128_BYTES..] == ToBeBytes(id, U128_BYTES)
    ensures id < U128_LIMIT ==> FromBeBytes(SaltOf(id)[U128_BYTES..]) == id
  {
    assert SaltOf(id)[U128_BYTES..] == ToBeBytes(id, U128_BYTES);
    if id < U128_LIMIT {
      U128Limit();
      BeRoundTrip(id, U128_BYTES);
    }
  }

  /** Fills a zeroed 32-byte array, copying the ID's 16 big-endian bytes into its
      second half one byte at a time; the result is the salt of `id`. */
  method DeriveSalt(id: nat) returns (salt: seq<byte>)
    ensures |salt| == SALT_LEN
    ensures salt == SaltOf(id)
  {
    var idBytes := ToBeBytes(id, U128_BYTES);
    var bytes := new byte[SALT_LEN](_ => 0);
    var i := 0;
    while i < |idBytes|
      invariant 0 <= i <= |idBytes|
      invariant forall k :: 0 <= k < U128_BYTES ==> bytes[k] == 0
      invariant forall k :: 0 <= k < i ==> bytes[U128_BYTES + k] == idBytes[k]
    {
      if i < U128_BYTES {
        bytes[U128_BYTES + i] := idBytes[i];
      }
      i := i + 1;
    }
    salt := bytes[..];
    assert salt[U128_BYTES..] == idBytes;
    assert salt == SaltOf(id);
  }

  /** Distinct `u128` collection IDs give distinct salts, so repeated creations never
      ask the deployer for the same address. */
  lemma SaltInjective(a: nat, b: nat)
    requires a < U128_LIMIT && b < U128_LIMIT
    requires SaltOf(a) == SaltOf(b)
    ensures a == b
  {
    U128Limit();
    assert SaltOf(a)[U128_BYTES..] == ToBeBytes(a, U128_BYTES);
    assert SaltOf(b)[U128_BYTES..] == ToBeBytes(b, U128_BYTES);
    BeRoundTrip(a, U128_BYTES);
    BeRoundTrip(b, U128_BYTES);
  }

  /** The salt of collection 1 ends in a single one byte. */
  lemma SaltOfOne()
    ensures SaltOf(1)[SALT_LEN - 1] == 1
    ensures forall i :: 0 <= i < SALT_LEN - 1 ==> SaltOf(1)[i] == 0
  {
    var tail := ToBeBytes(1, U128_BYTES);
    assert tail == ToBeBytes(0, U128_BYTES - 1) + [1];
    assert forall n: nat :: ToBeBytes(0, n) == Zeros(n) by {
      forall n: nat ensures ToBeBytes(0, n) == Zeros(n) {
        ZeroBytes(n);
      }
    }
  }

  lemma {:induction false} ZeroBytes(n: nat)
    ensures ToBeBytes(0, n) == Zeros(n)
  {
    if n > 0 {
      ZeroBytes(n - 1);
      assert Zeros(n - 1) + [0] == Zeros(n);
    }
  }
}
