/**
 * The two components together: attestation-agent-init writes the AK that the TPM seed
 * provider of kbs-local-provider reads. They agree on the device and the handle, so the key
 * material after a successful provisioning is the encoding of the AK that was created.
 */
module Deployment {
  import opened Bytes
  import opened Wrappers
  import opened TpmModel
  import Init = AttestationAgentInit
  import TpmProvider

  /** Both components use the same TPM device and the same persistent handle. */
  lemma SharedConstants()
    ensures Init.AK_HANDLE == TpmProvider.AK_HANDLE
    ensures Init.TPM_DEVICE == TpmProvider.DEFAULT_TPM_DEVICE
    ensures TpmProvider.TpmSeedProvider.Default().device == Init.TPM_DEVICE
  {
  }

  /**
   * After a run that persists a new AK on the default device, the default provider's key
   * material is the encoding of that AK's modulus with the default exponent 2^16 + 1.
   */
  lemma ProvisionedAkIsKeyMaterial(s: Init.TpmState, plan: Init.Plan,
                                   devices: map<string, TpmProvider.Snapshot>,
                                   encode: TpmProvider.SpkiEncoder)
    requires Init.AK_HANDLE !in s.persistent
    requires Init.ProvisionRun(s, plan).outcome.Success?
    ensures var after := devices[Init.TPM_DEVICE := Init.ProvisionRun(s, plan).state.persistent];
            var ikm := TpmProvider.TpmSeedProvider.Default().Ikm(after, encode);
            (ikm.Success? <==> encode(plan.akModulus, 0x1_0001).Some?)
            && (ikm.Success? ==> ikm.value == encode(plan.akModulus, 0x1_0001).value)
  {
  }

  /**
   * Provisioning accepts whatever already sits at the AK handle, whereas the provider
   * insists on RSA: with an ECC object there, provisioning succeeds without change and
   * the key material is still refused.
   */
  lemma ExistingEccObjectIsNotKeyMaterial(s: Init.TpmState, plan: Init.Plan,
                                          devices: map<string, TpmProvider.Snapshot>,
                                          encode: TpmProvider.SpkiEncoder)
    requires plan.failAt != Some(Init.OpenContext) && !plan.checkFails
    requires Init.AK_HANDLE in s.persistent && s.persistent[Init.AK_HANDLE].EccPublic?
    ensures Init.ProvisionRun(s, plan).outcome == Success(())
    ensures var after := devices[Init.TPM_DEVICE := Init.ProvisionRun(s, plan).state.persistent];
            TpmProvider.TpmSeedProvider.Default().Ikm(after, encode) == Failure(TpmProvider.NotRsa)
  {
  }
}
