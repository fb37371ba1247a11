/**
 * The abstract TPM 2.0 vocabulary both programs share: handles and their types
 * (section 7 of TPM 2.0 Library Part 2), object attributes (TPMA_OBJECT, section 8.3),
 * and public areas with the RSA parameters of section 12.2.3.5, together with the
 * consistency rules under which a public-area builder accepts a template.
 */
module TpmModel {
  import opened Bytes
  import opened Wrappers

  // ---------------------------------------------------------------- handles

  datatype HandleType =
    | Pcr | NvIndex | HmacSession | PolicySession | Permanent | Transient | Persistent | AttachedComponent

  /** The type a handle value names, read from its most significant octet. */
  function HandleTypeOf(h: u32): (t: Option<HandleType>)
  {
    var mso := h / 0x100_0000;
    if mso == 0x00 then Some(Pcr)
    else if mso == 0x01 then Some(NvIndex)
    else if mso == 0x02 then Some(HmacSession)
    else if mso == 0x03 then Some(PolicySession)
    else if mso == 0x40 then Some(Permanent)
    else if mso == 0x80 then Some(Transient)
    else if mso == 0x81 then Some(Persistent)
    else if mso == 0x90 then Some(AttachedComponent)
    else None
  }

  datatype TpmHandle = TpmHandle(kind: HandleType, value: u32)

  datatype HandleError = InvalidHandle(value: u32)

  /** The conversion of a raw 32-bit value into a typed TPM handle (`try_into`). */
  function ToTpmHandle(h: u32): (r: Result<TpmHandle, HandleError>)
    ensures r.Success? <==> HandleTypeOf(h).Some?
    ensures r.Success? ==> r.value.value == h && Some(r.value.kind) == HandleTypeOf(h)
    ensures r.Failure? ==> r.error == InvalidHandle(h)
  {
    match HandleTypeOf(h)
    case Some(t) => Success(TpmHandle(t, h))
    case None => Failure(InvalidHandle(h))
  }

  /** A handle in the persistent range 0x81000000 .. 0x81FFFFFF. */
  predicate IsPersistentHandle(h: u32) {
    HandleTypeOf(h) == Some(Persistent)
  }

  // ---------------------------------------------------------------- TPMA_OBJECT

  datatype ObjectAttributes = ObjectAttributes(
    fixedTpm: bool,
    stClear: bool,
    fixedParent: bool,
    sensitiveDataOrigin: bool,
    userWithAuth: bool,
    adminWithPolicy: bool,
    noDa: bool,
    encryptedDuplication: bool,
    restricted: bool,
    decrypt: bool,
    signEncrypt: bool)

  /** The builder's starting point: every attribute CLEAR. */
  const NoAttributes := ObjectAttributes(false, false, false, false, false, false, false, false, false, false, false)

  function Bit(on: bool, mask: bv32): bv32 {
    if on then mask else 0
  }

  /** The TPMA_OBJECT word: the bit positions of the table in section 8.3.2. */
  function Bits(a: ObjectAttributes): (w: bv32)
  {
    Bit(a.fixedTpm, 0x2) | Bit(a.stClear, 0x4) | Bit(a.fixedParent, 0x10)
    | Bit(a.sensitiveDataOrigin, 0x20) | Bit(a.userWithAuth, 0x40) | Bit(a.adminWithPolicy, 0x80)
    | Bit(a.noDa, 0x400) | Bit(a.encryptedDuplication, 0x800) | Bit(a.restricted, 0x1_0000)
    | Bit(a.decrypt, 0x2_0000) | Bit(a.signEncrypt, 0x4_0000)
  }

  /**
   * Two of the attribute rules of section 8.3.3: a restricted key is either a signing or a
   * decryption key, not both; an object fixed to the TPM is fixed to its parent. The other
   * rules of that section are not modelled.
   */
  predicate AttributesConsistent(a: ObjectAttributes) {
    && !(a.restricted && a.decrypt && a.signEncrypt)
    && (a.fixedTpm ==> a.fixedParent)
  }

  // ---------------------------------------------------------------- algorithms

  datatype HashAlgorithm = Sha1 | Sha256 | Sha384 | Sha512

  datatype RsaScheme = RsaNull | RsaSsa(hash: HashAlgorithm) | RsaPss(hash: HashAlgorithm) | RsaEs | Oaep(hash: HashAlgorithm)

  datatype SymmetricMode = Cfb | Ctr | Ofb | Cbc | Ecb

  datatype SymmetricDefinition = SymNull | Aes(keyBits: nat, mode: SymmetricMode)

  /** TPMS_RSA_PARMS; an exponent of zero stands for the default exponent 2^16 + 1. */
  datatype RsaParameters = RsaParameters(symmetric: SymmetricDefinition, scheme: RsaScheme, keyBits: nat, exponent: u32)

  /** What a caller hands the RSA parameter builder: the parameters and the key's intended use. */
  datatype RsaParametersRequest = RsaParametersRequest(
    parameters: RsaParameters, restricted: bool, isSigningKey: bool, isDecryptionKey: bool)

  predicate IsSigningScheme(s: RsaScheme) {
    s.RsaSsa? || s.RsaPss?
  }

  predicate IsDecryptionScheme(s: RsaScheme) {
    s.RsaEs? || s.Oaep?
  }

  /**
   * The key sizes and AES key sizes tss_esapi's types admit, and the rules of section
   * 12.2.3.5 on the symmetric and scheme fields for each key use.
   */
  predicate RsaParametersConsistent(q: RsaParametersRequest) {
    var p := q.parameters;
    && p.keyBits in {1024, 2048, 3072, 4096}
    && (p.symmetric.Aes? ==> p.symmetric.keyBits in {128, 192, 256})
    && !(q.restricted && q.isSigningKey && q.isDecryptionKey)
    && (if q.restricted && q.isDecryptionKey then p.symmetric != SymNull && p.scheme == RsaNull
        else p.symmetric == SymNull)
    && (q.restricted && q.isSigningKey ==> IsSigningScheme(p.scheme))
    && (!q.restricted && q.isSigningKey && !q.isDecryptionKey ==> p.scheme == RsaNull || IsSigningScheme(p.scheme))
    && (!q.restricted && q.isDecryptionKey && !q.isSigningKey ==> p.scheme == RsaNull || IsDecryptionScheme(p.scheme))
    && (q.isSigningKey && q.isDecryptionKey ==> p.scheme == RsaNull)
  }

  // ---------------------------------------------------------------- public areas

  datatype Public =
    | RsaPublic(nameAlg: HashAlgorithm, attributes: ObjectAttributes, parameters: RsaParameters, unique: seq<byte>)
    | EccPublic(nameAlg: HashAlgorithm, attributes: ObjectAttributes, x: seq<byte>, y: seq<byte>)
    | KeyedHashPublic(nameAlg: HashAlgorithm, attributes: ObjectAttributes)
    | SymCipherPublic(nameAlg: HashAlgorithm, attributes: ObjectAttributes)

  datatype BuildError = InconsistentAttributes | InconsistentRsaParameters

  /** The RSA parameter builder: it rejects exactly the requests RsaParametersConsistent excludes. */
  function BuildRsaParameters(q: RsaParametersRequest): (r: Result<RsaParameters, BuildError>)
    ensures r.Success? <==> RsaParametersConsistent(q)
    ensures r.Success? ==> r.value == q.parameters
  {
    if RsaParametersConsistent(q) then Success(q.parameters) else Failure(InconsistentRsaParameters)
  }

  /** The attribute builder: it rejects exactly the combinations AttributesConsistent excludes. */
  function BuildAttributes(a: ObjectAttributes): (r: Result<ObjectAttributes, BuildError>)
    ensures r.Success? <==> AttributesConsistent(a)
    ensures r.Success? ==> r.value == a
  {
    if AttributesConsistent(a) then Success(a) else Failure(InconsistentAttributes)
  }

  /** The public area of the key a TPM generates from an RSA template: its modulus goes in `unique`. */
  function WithModulus(p: Public, modulus: seq<byte>): (q: Public)
    ensures q.RsaPublic? <==> p.RsaPublic?
    ensures q.RsaPublic? ==> q == p.(unique := modulus)
    ensures !q.RsaPublic? ==> q == p
  {
    if p.RsaPublic? then p.(unique := modulus) else p
  }

  // ---------------------------------------------------------------- key roles

  /** A restricted decryption key: the kind of key that can be the parent of other keys. */
  predicate IsStorageParent(p: Public) {
    && p.RsaPublic?
    && p.attributes.restricted && p.attributes.decrypt && !p.attributes.signEncrypt
    && p.parameters.symmetric != SymNull && p.parameters.scheme == RsaNull
  }

  /**
   * A restricted signing key with a fixed scheme: a key that signs only structures
   * the TPM itself produced (quotes, certifications) — an attestation key.
   */
  predicate IsRestrictedSigningKey(p: Public) {
    && p.RsaPublic?
    && p.attributes.restricted && p.attributes.signEncrypt && !p.attributes.decrypt
    && p.parameters.symmetric == SymNull && IsSigningScheme(p.parameters.scheme)
  }

  /** A key that cannot leave this TPM, whose private part the TPM generated itself. */
  predicate IsNonDuplicableTpmGenerated(p: Public) {
    p.attributes.fixedTpm && p.attributes.fixedParent && p.attributes.sensitiveDataOrigin
  }

  /** A key authorised by its (empty) authorisation value rather than by a policy. */
  predicate IsAuthValueKey(p: Public) {
    p.attributes.userWithAuth && !p.attributes.adminWithPolicy
  }
}
