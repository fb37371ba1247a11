/**
 * The TPM seed provider of kbs-local-provider: its input keying material is the
 * SubjectPublicKeyInfo of the Attestation Key that attestation-agent-init persisted.
 *
 * The TPMs of the host are a map from device path to the persistent handles of the TPM
 * behind it; a device missing from the map is one whose context cannot be opened. The
 * DER encoder of an RSA SubjectPublicKeyInfo (RFC 3279 section 2.3.1, wrapped as in
 * RFC 5280 section 4.1.2.7) is a parameter: it maps (modulus, public exponent) to the
 * encoding, or to None when encoding fails.
 */
module TpmProvider {
  import opened Bytes
  import opened Wrappers
  import opened TpmModel

  const AK_HANDLE: u32 := 0x8101_0002

  const DEFAULT_TPM_DEVICE: string := "/dev/tpm0"

  /** Persistent handles of one TPM. */
  type Snapshot = map<u32, Public>

  type SpkiEncoder = (seq<byte>, nat) -> Option<seq<byte>>

  /** detect_platform: the default TPM device exists among the host's paths. */
  predicate DetectPlatform(existingPaths: set<string>) {
    DEFAULT_TPM_DEVICE in existingPaths
  }

  datatype TpmSeedProvider = TpmSeedProvider(device: string)
  {
    static function Default(): (p: TpmSeedProvider)
      ensures p.device == DEFAULT_TPM_DEVICE
    {
      TpmSeedProvider(DEFAULT_TPM_DEVICE)
    }

    /** The provider's key material: the AK's encoding read from its own device. */
    function Ikm(devices: map<string, Snapshot>, encode: SpkiEncoder): (r: Result<seq<byte>, IkmError>)
      ensures device !in devices ==> r == Failure(ContextError(device))
    {
      AkPublicKeyDer(device, devices, encode)
    }
  }

  datatype IkmError =
    | ContextError(device: string)   // the TCTI or the context could not be set up
    | InvalidHandle(handle: u32)      // the AK handle is not a TPM handle
    | AkNotFound(handle: u32)         // nothing resolves at the AK handle
    | DecodeError                     // the public area is of a kind with no public key
    | NotRsa                          // the public key is not an RSA key
    | DerEncodeError                  // the encoder refused the key

  /**
   * The public exponent of an RSA public area as a number: zero selects the default
   * exponent 2^16 + 1 (TPM 2.0 Part 2, section 12.2.3.5).
   */
  function Exponent(e: u32): (x: nat)
    ensures x != 0
    ensures e == 0 ==> x == 0x1_0001
    ensures e != 0 ==> x == e as nat
  {
    if e == 0 then 0x1_0001 else e as nat
  }

  /**
   * ak_public_key_der: open the device, resolve AK_HANDLE, decode its public area, insist on
   * RSA and encode (modulus, exponent) as a SubjectPublicKeyInfo.
   */
  function AkPublicKeyDer(device: string, devices: map<string, Snapshot>, encode: SpkiEncoder)
    : (r: Result<seq<byte>, IkmError>)
    ensures device !in devices ==> r == Failure(ContextError(device))
    ensures device in devices && AK_HANDLE !in devices[device] ==> r == Failure(AkNotFound(AK_HANDLE))
    ensures device in devices && AK_HANDLE in devices[device] ==>
              var ak := devices[device][AK_HANDLE];
              match ak
              case RsaPublic(_, _, parameters, modulus) =>
                var spki := encode(modulus, Exponent(parameters.exponent));
                if spki.Some? then r == Success(spki.value) else r == Failure(DerEncodeError)
              case EccPublic(_, _, _, _) => r == Failure(NotRsa)
              case KeyedHashPublic(_, _) => r == Failure(DecodeError)
              case SymCipherPublic(_, _) => r == Failure(DecodeError)
  {
    if device !in devices then Failure(ContextError(device))
    else
      var handle := ToTpmHandle(AK_HANDLE);
      if handle.Failure? then Failure(IkmError.InvalidHandle(AK_HANDLE))
      else if AK_HANDLE !in devices[device] then Failure(AkNotFound(AK_HANDLE))
      else
        match devices[device][AK_HANDLE]
        case KeyedHashPublic(_, _) => Failure(DecodeError)
        case SymCipherPublic(_, _) => Failure(DecodeError)
        case EccPublic(_, _, _, _) => Failure(NotRsa)
        case RsaPublic(_, _, parameters, modulus) =>
          match encode(modulus, Exponent(parameters.exponent))
          case None => Failure(DerEncodeError)
          case Some(der) => Success(der)
  }

  /**
   * The key material is exactly the encoding of the object at AK_HANDLE on the provider's
   * device, and it succeeds only for an RSA object the encoder accepts.
   */
  lemma IkmIsEncodedAk(p: TpmSeedProvider, devices: map<string, Snapshot>, encode: SpkiEncoder)
    ensures p.Ikm(devices, encode).Success? <==>
              && p.device in devices && AK_HANDLE in devices[p.device]
              && devices[p.device][AK_HANDLE].RsaPublic?
              && encode(devices[p.device][AK_HANDLE].unique,
                        Exponent(devices[p.device][AK_HANDLE].parameters.exponent)).Some?
    ensures p.Ikm(devices, encode).Success? ==>
              var ak := devices[p.device][AK_HANDLE];
              p.Ikm(devices, encode).value == encode(ak.unique, Exponent(ak.parameters.exponent)).value
  {
  }

  /** The key material depends on nothing but the object at AK_HANDLE of the provider's device. */
  lemma IkmReadsOnlyAk(p: TpmSeedProvider, devices1: map<string, Snapshot>,
                       devices2: map<string, Snapshot>, encode: SpkiEncoder)
    requires p.device in devices1 <==> p.device in devices2
    requires p.device in devices1 ==>
               (AK_HANDLE in devices1[p.device] <==> AK_HANDLE in devices2[p.device])
    requires p.device in devices1 && AK_HANDLE in devices1[p.device] ==>
               devices1[p.device][AK_HANDLE] == devices2[p.device][AK_HANDLE]
    ensures p.Ikm(devices1, encode) == p.Ikm(devices2, encode)
  {
  }
}
