/** The scalar encodings of the contract-call convention: big-endian unsigned
    integers of arbitrary width and 20-byte addresses right-aligned in
    32-byte words. */
module Abi {

  newtype byte = x: int | 0 <= x < 256

  type Bytes = seq<byte>

  /** A 20-byte contract or account address; equality is byte-wise. */
  type Address = a: Bytes | |a| == 20 witness seq(20, _ => 0)

  const ZeroAddress: Address := [0, 0, 0, 0, 0, 0, 0, 0, 0, 0, 0, 0, 0, 0, 0, 0, 0, 0, 0, 0]

  function Zeros(n: nat): (z: Bytes)
    ensures |z| == n
    ensures forall i :: 0 <= i < n ==> z[i] == 0
  {
    seq(n, _ => 0)
  }

  /** 256 to the power n: one more than the largest value n bytes can hold. */
  function Pow256(n: nat): (p: nat)
    ensures p >= 1
  {
    if n == 0 then 1 else 256 * Pow256(n - 1)
  }

  /** The value of `s` read as a big-endian unsigned integer, as
      `big.Int.SetBytes` reads it; the empty sequence is 0. */
  function BeUint(s: Bytes): (v: nat)
    ensures v < Pow256(|s|)
    decreases |s|
  {
    if s == [] then 0
    else
      var high := BeUint(s[..|s| - 1]);
      assert high <= Pow256(|s| - 1) - 1;
      high * 256 + s[|s| - 1] as nat
  }

  /** The `n`-byte big-endian encoding of `v`, left-padded with zero bytes. */
  function BeBytes(v: nat, n: nat): (s: Bytes)
    requires v < Pow256(n)
    ensures |s| == n
    ensures BeUint(s) == v
  {
    if n == 0 then []
    else
      var high := BeBytes(v / 256, n - 1);
      var s := high + [(v % 256) as byte];
      assert s[..|s| - 1] == high;
      s
  }

  lemma BeUintAppend(s: Bytes, b: byte)
    ensures BeUint(s + [b]) == BeUint(s) * 256 + b as nat
  {
  }

  /** Decoding then re-encoding at the same width gives the bytes back:
      together with BeBytes' contract, the codec is a bijection between
      n-byte sequences and the naturals below 256^n. */
  lemma {:induction false} BeBytesOfBeUint(s: Bytes)
    ensures BeBytes(BeUint(s), |s|) == s
    decreases |s|
  {
    if s != [] {
      var init, last := s[..|s| - 1], s[|s| - 1];
      assert s == init + [last];
      BeUintAppend(init, last);
      BeBytesOfBeUint(init);
      var v := BeUint(s);
      assert v / 256 == BeUint(init) && v % 256 == last as nat;
    }
  }

  /** Leading zero bytes do not change the decoded value. */
  lemma {:induction false} BeUintLeadingZeros(k: nat, s: Bytes)
    ensures BeUint(Zeros(k) + s) == BeUint(s)
    decreases |s|
  {
    if s == [] {
      BeUintZeros(k);
      assert Zeros(k) + s == Zeros(k);
    } else {
      var init, last := s[..|s| - 1], s[|s| - 1];
      assert Zeros(k) + s == (Zeros(k) + init) + [last];
      BeUintAppend(Zeros(k) + init, last);
      BeUintAppend(init, last);
      assert s == init + [last];
      BeUintLeadingZeros(k, init);
    }
  }

  lemma {:induction false} BeUintZeros(k: nat)
    ensures BeUint(Zeros(k)) == 0
    decreases k
  {
    if k > 0 {
      assert Zeros(k)[..k - 1] == Zeros(k - 1);
      BeUintZeros(k - 1);
    }
  }

  /** `common.Address.SetBytes` of go-ethereum: an input longer than 20 bytes
      is cut to its last 20; the (possibly shorter) input is copied into the
      right end of the address; bytes to its left keep their previous value. */
  function SetBytes(cur: Address, b: Bytes): (a: Address)
    ensures forall i :: 0 <= i < 20 ==>
              a[i] == (if i + |b| >= 20 then b[i + |b| - 20] else cur[i])
  {
    if |b| >= 20 then b[|b| - 20..] else cur[..20 - |b|] + b
  }

  /** An address as the 32-byte word of a call result: 12 zero bytes, then
      the 20 address bytes. */
  function AddressWord(a: Address): (w: Bytes)
    ensures |w| == 32 && w[..12] == Zeros(12) && w[12..] == a
  {
    Zeros(12) + a
  }

  /** Bytes 12..31 of a 32-byte word, stored with SetBytes, are exactly the
      word's address tail, whatever the address held before. */
  lemma SetBytesOfWordTail(cur: Address, w: Bytes)
    requires |w| == 32
    ensures SetBytes(cur, w[12..]) == w[12..]
  {
  }

  /** The address round trip: padding an address to a word and decoding the
      word's tail yields the address. */
  lemma AddressRoundTrip(cur: Address, a: Address)
    ensures SetBytes(cur, AddressWord(a)[12..]) == a
  {
  }
}
