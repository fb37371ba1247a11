/**
 * derive_ed25519_seed: HKDF with HMAC-SHA256 (RFC 5869), salt = the init_data digest,
 * input keying material = the provider's output, info = the domain separator's UTF-8
 * bytes and output length L = 32.
 *
 * HMAC-SHA256 is a parameter: any function from (key, message) to 32 bytes.
 */
module Crypto {
  import opened Bytes
  import opened Wrappers
  import Utf8

  type Hmac = (seq<byte>, seq<byte>) -> Hash

  /** The largest output Expand can produce: 255 blocks of HashLen bytes. */
  const MAX_OKM_LEN: nat := 255 * HASH_LEN

  /** HKDF-Extract (RFC 5869 section 2.2): absent salt is HashLen zero bytes. */
  function Extract(hmac: Hmac, salt: Option<seq<byte>>, ikm: seq<byte>): (prk: Hash)
    ensures salt.None? ==> prk == hmac(Zeros(HASH_LEN), ikm)
    ensures salt.Some? ==> prk == hmac(salt.value, ikm)
  {
    hmac(if salt.Some? then salt.value else Zeros(HASH_LEN), ikm)
  }

  /**
   * T(i) of HKDF-Expand (RFC 5869 section 2.3): T(0) is empty and
   * T(i) = HMAC(PRK, T(i-1) | info | i) with i as one octet.
   */
  function Block(hmac: Hmac, prk: Hash, info: seq<byte>, i: nat): (t: seq<byte>)
    requires i <= 255
    ensures i == 0 ==> t == []
    ensures i > 0 ==> |t| == HASH_LEN
  {
    if i == 0 then [] else hmac(prk, Block(hmac, prk, info, i - 1) + info + [i as byte])
  }

  /** T(1) | ... | T(n). */
  function Blocks(hmac: Hmac, prk: Hash, info: seq<byte>, n: nat): (t: seq<byte>)
    requires n <= 255
    ensures |t| == n * HASH_LEN
  {
    if n == 0 then [] else Blocks(hmac, prk, info, n - 1) + Block(hmac, prk, info, n)
  }

  datatype ExpandError = InvalidLength(len: nat)

  /** HKDF-Expand: the first L octets of T(1) | T(2) | ..., for L up to 255 * HashLen. */
  function Expand(hmac: Hmac, prk: Hash, info: seq<byte>, len: nat): (r: Result<seq<byte>, ExpandError>)
    ensures r.Success? <==> len <= MAX_OKM_LEN
    ensures r.Success? ==> |r.value| == len
    ensures r.Failure? ==> r.error == InvalidLength(len)
  {
    if len > MAX_OKM_LEN then Failure(InvalidLength(len))
    else Success(Blocks(hmac, prk, info, (len + HASH_LEN - 1) / HASH_LEN)[..len])
  }

  /** Each block list extends the shorter ones. */
  lemma {:induction false} BlocksPrefix(hmac: Hmac, prk: Hash, info: seq<byte>, m: nat, n: nat)
    requires m <= n <= 255
    ensures Blocks(hmac, prk, info, m) == Blocks(hmac, prk, info, n)[..m * HASH_LEN]
    decreases n
  {
    if m < n {
      BlocksPrefix(hmac, prk, info, m, n - 1);
      var shorter := Blocks(hmac, prk, info, n - 1);
      assert Blocks(hmac, prk, info, n)[..(n - 1) * HASH_LEN] == shorter;
      assert Blocks(hmac, prk, info, n)[..m * HASH_LEN] == shorter[..m * HASH_LEN];
    }
  }

  /** A shorter output of Expand is a prefix of a longer one with the same PRK and info. */
  lemma ExpandPrefix(hmac: Hmac, prk: Hash, info: seq<byte>, len1: nat, len2: nat)
    requires len1 <= len2 <= MAX_OKM_LEN
    ensures Expand(hmac, prk, info, len1).value == Expand(hmac, prk, info, len2).value[..len1]
  {
    var n1 := (len1 + HASH_LEN - 1) / HASH_LEN;
    var n2 := (len2 + HASH_LEN - 1) / HASH_LEN;
    BlocksPrefix(hmac, prk, info, n1, n2);
  }

  /**
   * The seed: with L = HashLen, Expand needs one block and never fails, so the seed is
   * T(1) = HMAC(PRK, info | 0x01) where PRK = HMAC(digest, ikm).
   */
  function DeriveEd25519Seed(hmac: Hmac, ikm: seq<byte>, initDataDigest: Hash, domainSeparator: string)
    : (seed: Hash)
    ensures seed == hmac(hmac(initDataDigest, ikm), Utf8.Encode(domainSeparator) + [1])
  {
    var prk := Extract(hmac, Some(initDataDigest), ikm);
    var info := Utf8.Encode(domainSeparator);
    var okm := Expand(hmac, prk, info, HASH_LEN);
    assert okm.Success?;
    assert Blocks(hmac, prk, info, 1) == Block(hmac, prk, info, 1) == hmac(prk, [] + info + [1]);
    assert [] + info + [1] == info + [1];
    okm.value
  }

  /**
   * Distinct domain separators give distinct seeds unless HMAC collides under one key on
   * two distinct messages.
   */
  lemma DomainSeparation(hmac: Hmac, ikm: seq<byte>, digest: Hash, ds1: string, ds2: string)
    requires ds1 != ds2
    requires DeriveEd25519Seed(hmac, ikm, digest, ds1) == DeriveEd25519Seed(hmac, ikm, digest, ds2)
    ensures var prk := hmac(digest, ikm);
            var m1 := Utf8.Encode(ds1) + [1];
            var m2 := Utf8.Encode(ds2) + [1];
            m1 != m2 && hmac(prk, m1) == hmac(prk, m2)
  {
    var m1 := Utf8.Encode(ds1) + [1];
    var m2 := Utf8.Encode(ds2) + [1];
    if m1 == m2 {
      assert Utf8.Encode(ds1) == m1[..|m1| - 1] == m2[..|m2| - 1] == Utf8.Encode(ds2);
      Utf8.EncodeInjective(ds1, ds2);
    }
  }
}
