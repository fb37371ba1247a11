/**
 * The provider crate's registry: the seed providers this build knows, tried in order, and
 * the capability they share (returning input keying material).
 */
module Provider {
  import opened Bytes
  import opened Wrappers
  import opened TpmProvider

  /** The seed providers; the TPM one is the only provider there is so far. */
  datatype SeedProvider = TpmSource(tpm: TpmSeedProvider)
  {
    /**
     * The key material of a provider, read from the host's TPMs: it exists exactly when an
     * RSA object the encoder accepts is at AK_HANDLE on the provider's device, and it is
     * then that object's encoding.
     */
    function Ikm(devices: map<string, Snapshot>, encode: SpkiEncoder): (r: Result<seq<byte>, IkmError>)
      ensures r == tpm.Ikm(devices, encode)
      ensures r.Success? <==>
                && tpm.device in devices && AK_HANDLE in devices[tpm.device]
                && devices[tpm.device][AK_HANDLE].RsaPublic?
                && encode(devices[tpm.device][AK_HANDLE].unique,
                          Exponent(devices[tpm.device][AK_HANDLE].parameters.exponent)).Some?
      ensures r.Success? ==>
                var ak := devices[tpm.device][AK_HANDLE];
                r.value == encode(ak.unique, Exponent(ak.parameters.exponent)).value
      ensures tpm.device !in devices ==> r == Failure(ContextError(tpm.device))
    {
      match this
      case TpmSource(p) =>
        IkmIsEncodedAk(p, devices, encode);
        p.Ikm(devices, encode)
    }
  }

  datatype DetectError = NoSeedProvider

  /**
   * detect_provider: with the tpm-provider feature compiled in and the TPM device present,
   * the default TPM provider; with nothing detected, the "no seed provider" error.
   */
  function DetectProvider(tpmFeature: bool, existingPaths: set<string>): (r: Result<SeedProvider, DetectError>)
    ensures r.Success? <==> tpmFeature && DEFAULT_TPM_DEVICE in existingPaths
    ensures r.Success? ==> r.value == TpmSource(TpmSeedProvider.Default())
    ensures r.Success? ==> r.value.tpm.device == "/dev/tpm0"
    ensures r.Failure? ==> r.error == NoSeedProvider
  {
    if tpmFeature && DetectPlatform(existingPaths) then Success(TpmSource(TpmSeedProvider.Default()))
    else Failure(NoSeedProvider)
  }

  /** Without the tpm-provider feature no provider is ever detected. */
  lemma NoFeatureNoProvider(existingPaths: set<string>)
    ensures DetectProvider(false, existingPaths) == Failure(NoSeedProvider)
  {
  }
}
