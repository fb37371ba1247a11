# guest-components-ext in Dafny

This project models two programs that run in a confidential VM with a TPM. The model proves their decision and sequencing logic.

- **attestation-agent-init** provisions an RSA Attestation Key (AK) at the persistent TPM handle `0x81010002`. If anything already resolves at that handle, it does nothing. Otherwise it creates a transient Endorsement Key (EK), creates the AK under it, loads the AK, makes it persistent with EvictControl and flushes the EK.
- **kbs-local-provider** works in five stages:
  1. It reads the launch configuration `init_data.toml`, found through `CC_INIT_DATA` or a default path.
  2. It refuses to go on without a non-empty `data.domain_separator`.
  3. It selects a seed provider (the TPM), whose input keying material is the DER SubjectPublicKeyInfo of the AK.
  4. It derives a 32-byte Ed25519 seed with HKDF-SHA256: salt = SHA-256 of the raw configuration bytes, info = the domain separator, L = 32.
  5. It serves `{"default/key/1": "<base64 seed>"}\n` on a FIFO.

## How the model is built

- **The TPM** is abstract. A TPM state is a map from persistent handles to public areas, plus a table of loaded transient objects.
- **Provisioning** is a class:
  - `AttestationAgentInit.Tpm` has one method per TPM command.
  - `ProvisionAk` runs the procedure. It is proved equal to the closed-form run `ProvisionRun`, and the properties are lemmas about `ProvisionRun`.
  - Every command may fail. A `Plan` input fixes which command fails, whether the existence check fails for a reason other than absence, and the modulus that key generation yields.
- **Foreign primitives are function-typed parameters:** HMAC-SHA256, SHA-256, the TOML deserialiser and the SPKI DER encoder. They stand for the hkdf/sha2, toml and picky crates.
- **UTF-8** (RFC 3629) and **base 64** (section 4 of RFC 4648) are modelled concretely, with round trips proved in both directions for UTF-8. UTF-8 covers `std::str::from_utf8` and `str::as_bytes`.
- **Object templates** are values of the TPM 2.0 Library Part 2 structures:
  - TPMA_OBJECT, section 8.3 of TPM 2.0 Library Part 2, with the bit layout of 8.3.2 and two of the rules of 8.3.3 (`AttributesConsistent`);
  - TPMS_RSA_PARMS, with the rules of section 12.2.3.5 of TPM 2.0 Library Part 2 on the symmetric and scheme fields, plus the key and AES sizes tss_esapi's types admit (`RsaParametersConsistent`).
- **Library stand-ins.** These definitions replace calls into tss_esapi and hkdf. They are definitions, not proved contracts. What they feed is proved by the lemmas cited beside them.
  - `TpmModel.ToTpmHandle` stands for `try_into` on a raw handle (kbs-local-provider/provider/src/tpm/mod.rs:50-52); see `AttestationAgentInit.AkHandleIsPersistent`.
  - `TpmModel.BuildAttributes` stands for `ObjectAttributesBuilder::build` (attestation-agent-init/src/main.rs:25-32). It rejects the combinations `AttributesConsistent` lists; tss_esapi's own checks are not modelled. See `EkRsaTemplate` and `AkRsaTemplate`.
  - `TpmModel.BuildRsaParameters` stands for `PublicRsaParametersBuilder::build` (attestation-agent-init/src/main.rs:34-45). It rejects the requests `RsaParametersConsistent` lists. See `EkRsaTemplate` and `AkRsaTemplate`.
  - `TpmModel.WithModulus` is the public area of the key the TPM generates (attestation-agent-init/src/main.rs:128); see `FreshProvisioning` and `Tpm.Create`.
  - `Crypto.Extract` is HKDF-Extract in `Hkdf::new` (kbs-local-provider/provider/src/crypto.rs:15); see `DeriveEd25519Seed`.
- **Codecs and the platform probe.** These definitions are specified by the lemmas named beside them rather than by contracts of their own.
  - `Base64.Encode` is `B64.encode` (kbs-local-provider/kbs-local-provider/src/fifo.rs:26), with the standard alphabet and padding. See `Base64.DecodeEncode`, `Base64.EncodeLength`, `Base64.EncodeCharacters` and `Fifo.SeedEncoding`.
  - `Utf8.Decode` is `std::str::from_utf8` (kbs-local-provider/kbs-local-provider/src/initdata.rs:33). See `Utf8.DecodeEncode` and `Utf8.EncodeDecode`.
  - `Utf8.Encode` is `str::as_bytes` (kbs-local-provider/kbs-local-provider/src/fifo.rs:41; kbs-local-provider/provider/src/crypto.rs:17). See `Utf8.EncodeInjective`, `Utf8.EncodeAscii` and `Fifo.MessageBytes`.
  - `TpmProvider.DetectPlatform` is `detect_platform` (kbs-local-provider/provider/src/tpm/mod.rs:15-17): the default device path exists. See `Provider.DetectProvider`.
- **Host inputs** are values: the environment, the files, the existing device paths, the TPMs per device, and whether the `tpm-provider` feature is compiled in.

## Model

| member | source | states |
|---|---|---|
| AttestationAgentInit.EkRsaTemplate | attestation-agent-init/src/main.rs:24-59 | The EK template builds without error. It is an RSA-2048 restricted decryption key (a storage parent): AES-128-CFB, Null scheme, fixedTPM, fixedParent, sensitiveDataOrigin and userWithAuth (TPMA_OBJECT word 0x00030072), name hash SHA-256, and a unique field of 256 zero bytes. |
| AttestationAgentInit.AkRsaTemplate | attestation-agent-init/src/main.rs:65-91 | The AK template builds without error. It is an RSA-2048 restricted signing key: RSASSA-SHA256, no symmetric algorithm, not a decryption key, the same four object attributes (word 0x00050072), name hash SHA-256, and an empty unique field. |
| AttestationAgentInit.AkHandleIsPersistent | attestation-agent-init/src/main.rs:107 | 0x81010002 is a persistent handle, so the handle conversion and `PersistentTpmHandle::new` cannot fail. |
| AttestationAgentInit.Tpm.TrFromTpmPublic | attestation-agent-init/src/main.rs:108-110 | The check resolves exactly when the handle is occupied and no other error intervenes. It changes nothing but the command log. |
| AttestationAgentInit.Tpm.CreatePrimary | attestation-agent-init/src/main.rs:124 | On success, the EK is loaded in the next free transient slot. On failure, nothing changes. |
| AttestationAgentInit.Tpm.Create | attestation-agent-init/src/main.rs:128 | Succeeds only under a loaded parent. It yields the template with the generated modulus and loads nothing. |
| AttestationAgentInit.Tpm.Load | attestation-agent-init/src/main.rs:132 | Succeeds only under a loaded parent. The public area is loaded in the next free slot. |
| AttestationAgentInit.Tpm.EvictControl | attestation-agent-init/src/main.rs:136-141 | Succeeds only for a loaded object and a free handle. The object becomes persistent at the handle and its transient slot is consumed. On failure, nothing changes. |
| AttestationAgentInit.Tpm.FlushContext | attestation-agent-init/src/main.rs:145 | Unloads exactly the given slot. |
| AttestationAgentInit.Tpm.LoadAk | attestation-agent-init/src/main.rs:124-133 | Runs create-EK, create-AK and load. It returns the EK's slot and the AK's slot, or the first step that failed, together with the matching state and command log. |
| AttestationAgentInit.Tpm.PersistAk | attestation-agent-init/src/main.rs:136-147 | Runs evict and flush on the state the first three commands left. It returns the failing step, or success with both transient objects gone. |
| AttestationAgentInit.Tpm.ProvisionAk | attestation-agent-init/src/main.rs:101-153 | The outcome, the new TPM state and the commands sent are exactly those of `ProvisionRun` on the old state. |
| AttestationAgentInit.ProvisionRun | attestation-agent-init/src/main.rs:101-153 | The closed form of one `provision_ak` run. A context that cannot be opened is the only failure before the existence check, and then nothing is sent and nothing changes. Every other run sends the check first and at most six commands in all. No persistent object is ever removed or replaced. |
| AttestationAgentInit.ExistingObjectIsNoOp | attestation-agent-init/src/main.rs:107-115 | When the check resolves, whatever object is at the handle, the run returns Ok, leaves the state unchanged and sends only the check. |
| AttestationAgentInit.ExistingObjectKept | attestation-agent-init/src/main.rs:107-141 | An object already at 0x81010002 is never replaced and nothing else becomes persistent, for every plan. This includes a spurious check failure, where EvictControl then meets an occupied handle. |
| AttestationAgentInit.PersistentOnlyByEvictControl | attestation-agent-init/src/main.rs:122-149 | The persistent handles either stay as they were or gain exactly 0x81010002 holding the new AK. The latter happens only if the handle was free, EvictControl was sent on the AK's slot, and the run succeeded or failed only at the flush. |
| AttestationAgentInit.FailureBeforeEvictKeepsPersistent | attestation-agent-init/src/main.rs:122-149 | A run that fails anywhere except the final flush leaves the persistent handles unchanged. Every object loaded before the run is still loaded, unchanged. |
| AttestationAgentInit.FreshProvisioning | attestation-agent-init/src/main.rs:124-145 | On a TPM without an AK, a run succeeds if and only if no command fails. It then puts at 0x81010002 the AK made from the AK template with the generated modulus, a restricted signing key. The transient objects are back to those before the run: the EK is flushed and the AK's slot went to EvictControl (see "## Left out"). |
| AttestationAgentInit.CommandOrder | attestation-agent-init/src/main.rs:124-145 | The commands sent are a prefix of: check, create-EK, create-AK under the EK's slot, load under the same slot, evict the slot the load filled, flush the EK's slot. The EK and the AK sit in those slots. |
| AttestationAgentInit.ProvisionTwice | attestation-agent-init/src/main.rs:101-153 | Once a run leaves an object at the AK handle, a second run keeps the persistent handles as they are. If its context and check work, the second run is a no-op success. |
| AttestationAgentInit.SuccessLeavesAk | attestation-agent-init/src/main.rs:136-152 | A successful run always leaves an object at 0x81010002. |
| TpmProvider.TpmSeedProvider.Default | kbs-local-provider/provider/src/tpm/mod.rs:29-35 | The default provider's device is `/dev/tpm0`. |
| TpmProvider.TpmSeedProvider.Ikm | kbs-local-provider/provider/src/tpm/mod.rs:37-41 | `ikm` reads the provider's own device. A device without a context gives the context error. |
| TpmProvider.Exponent | kbs-local-provider/provider/src/tpm/mod.rs:70-73 | The exponent handed to the encoder is never zero. A zero exponent field gives 65537 (2^16 + 1); a nonzero one passes unchanged. |
| TpmProvider.AkPublicKeyDer | kbs-local-provider/provider/src/tpm/mod.rs:45-79 | Errors in the source's order: context, AK not found at the handle, undecodable public area (keyed hash, symmetric cipher), not RSA (ECC), DER encoding. Otherwise the result is the encoder's output on the AK's modulus and exponent. |
| TpmProvider.IkmIsEncodedAk | kbs-local-provider/provider/src/tpm/mod.rs:54-78 | The key material exists if and only if the object at the AK handle on the provider's device is RSA and the encoder accepts it. It is then exactly the encoding of that modulus and exponent. |
| TpmProvider.IkmReadsOnlyAk | kbs-local-provider/provider/src/tpm/mod.rs:54-60 | The key material depends on nothing but the object at the AK handle of the provider's device: it only reads. |
| Provider.SeedProvider.Ikm | kbs-local-provider/provider/src/lib.rs:14-17 | A provider's key material is that of the TPM provider it wraps. It exists if and only if the object at the AK handle on that provider's device is RSA and the encoder accepts it, and it is then exactly that encoding. A missing device gives the context error. |
| Provider.DetectProvider | kbs-local-provider/provider/src/lib.rs:22-30 | Succeeds if and only if the TPM feature is on and `/dev/tpm0` exists, and then returns the default TPM provider. Otherwise it returns the no-seed-provider error. |
| Provider.NoFeatureNoProvider | kbs-local-provider/provider/src/lib.rs:23-29 | Without the tpm-provider feature, detection always fails. |
| Crypto.Blocks | kbs-local-provider/provider/src/crypto.rs:17 | T(1) through T(n) together are n × 32 bytes. |
| Crypto.Expand | kbs-local-provider/provider/src/crypto.rs:17-18 | HKDF-Expand (RFC 5869 section 2.3) fails if and only if L > 255 × HashLen. Otherwise it yields exactly L bytes. |
| Crypto.BlocksPrefix | kbs-local-provider/provider/src/crypto.rs:17 | Fewer blocks are a prefix of more blocks. |
| Crypto.ExpandPrefix | kbs-local-provider/provider/src/crypto.rs:17 | A shorter Expand output is a prefix of a longer one with the same PRK and info. |
| Crypto.DeriveEd25519Seed | kbs-local-provider/provider/src/crypto.rs:10-20 | The seed is 32 bytes, and Expand with L = 32 cannot fail, so the `expect` is never reached. The seed is T(1) = HMAC(HMAC(digest, ikm), UTF-8(domain separator) ‖ 0x01). |
| Crypto.DomainSeparation | kbs-local-provider/provider/src/crypto.rs:10-20 | Distinct domain separators give equal seeds only if HMAC collides under one key on two distinct messages. |
| InitData.InitDataPath | kbs-local-provider/kbs-local-provider/src/initdata.rs:25-26 | The path is the value of `CC_INIT_DATA` when it is set. Otherwise it is `/run/confidential-containers/initdata/init_data.toml`. |
| InitData.Parse | kbs-local-provider/kbs-local-provider/src/initdata.rs:24-48 | A missing file gives a read error, and bytes that are not UTF-8 give the UTF-8 error before anything else looks at them. Success holds if and only if the text deserialises and carries a non-empty domain separator. A result then holds that separator and SHA-256 of the raw bytes. |
| InitData.GateRefusesMissingOrEmpty | kbs-local-provider/kbs-local-provider/src/initdata.rs:37-40 | An absent or empty `data.domain_separator` gives the security-gate error. |
| InitData.DigestOfRawBytes | kbs-local-provider/kbs-local-provider/src/initdata.rs:29-42 | The digest is SHA-256 of the file's bytes, the same however the deserialiser reads them. |
| Utf8.DecodeEncode | kbs-local-provider/kbs-local-provider/src/initdata.rs:33 | Decoding the UTF-8 form of a string gives the string back. |
| Utf8.EncodeDecode | kbs-local-provider/kbs-local-provider/src/initdata.rs:33 | Bytes that decode are the UTF-8 form of what they decode to. |
| Utf8.EncodeInjective | kbs-local-provider/provider/src/crypto.rs:17 | Distinct strings have distinct UTF-8 bytes. |
| Utf8.EncodeAscii | kbs-local-provider/kbs-local-provider/src/fifo.rs:41 | An ASCII string's bytes are its character codes, one byte each. |
| Base64.DecodeEncode | kbs-local-provider/kbs-local-provider/src/fifo.rs:26 | Decoding (RFC 4648 section 4) undoes encoding. |
| Base64.EncodeLength | kbs-local-provider/kbs-local-provider/src/fifo.rs:26 | n octets encode to 4·⌈n/3⌉ characters. |
| Base64.EncodeCharacters | kbs-local-provider/kbs-local-provider/src/fifo.rs:26 | The encoding is alphabet characters followed by exactly the padding '=' characters the final quantum needs. |
| Fifo.Message | kbs-local-provider/kbs-local-provider/src/fifo.rs:26-27 | The message is 66 characters: the fixed 19-character prefix up to the opening quote of the value, then exactly the base 64 encoding of the seed (characters 19 to 62), then `"}` and a newline. |
| Fifo.SeedEncoding | kbs-local-provider/kbs-local-provider/src/fifo.rs:26 | A 32-byte seed encodes to 44 characters, 43 from the alphabet with a single '=' last. |
| Fifo.MessageRoundTrip | kbs-local-provider/kbs-local-provider/src/fifo.rs:26-27 | A reader that takes the text between the quotes and decodes it recovers the seed. |
| Fifo.MessageIsJsonObject | kbs-local-provider/kbs-local-provider/src/fifo.rs:27 | The message is a one-member JSON object, key `default/key/1`, whose key and value need no escaping (RFC 8259 section 7), followed by a newline. |
| Fifo.MessageIsAscii | kbs-local-provider/kbs-local-provider/src/fifo.rs:26-27 | Every character of the message is ASCII. |
| Fifo.MessageBytes | kbs-local-provider/kbs-local-provider/src/fifo.rs:41 | The bytes written are 66, one per character, and they decode back to the message. |
| Fifo.ServedCount | kbs-local-provider/kbs-local-provider/src/fifo.rs:33-47 | The number of leading attempts that succeed: all before it succeeded, the one at it did not. |
| Fifo.Serve | kbs-local-provider/kbs-local-provider/src/fifo.rs:25-47 | Every reader served before the first failure gets the same message bytes, computed once for the seed. The first failure stops serving with its own error. Without a failure, it is still serving. |
| KbsLocalProvider.Seed | kbs-local-provider/kbs-local-provider/src/main.rs:9-16 | A seed exists if and only if parsing, detection and key material all succeed. A parse failure is reported as such. The seed is `derive_ed25519_seed(ikm, digest, domain separator)` as the source orders them. |
| KbsLocalProvider.GateBeforeTpm | kbs-local-provider/kbs-local-provider/src/main.rs:9-13 | When init_data fails, the outcome does not depend on the host's devices or TPMs. |
| KbsLocalProvider.Run | kbs-local-provider/kbs-local-provider/src/main.rs:6-21 | The stages run as a prefix of parse, detect, ikm, derive, serve, and the first failure ends the run with its error. A failed parse runs nothing else. A failed detection stops after detect, and a failed key-material read stops after ikm. Derivation runs if and only if a seed exists. What is served is the message of exactly that seed. |
| Deployment.SharedConstants | kbs-local-provider/provider/src/tpm/mod.rs:11-12 | The provider reads the handle and device that provisioning writes: 0x81010002 on `/dev/tpm0`. |
| Deployment.ProvisionedAkIsKeyMaterial | kbs-local-provider/provider/src/tpm/mod.rs:54-78 | After a run that provisions a new AK, the default provider's key material is the encoding of that AK's modulus with exponent 65537. It exists whenever the encoder accepts them. |
| Deployment.ExistingEccObjectIsNotKeyMaterial | attestation-agent-init/src/main.rs:107-115 | Provisioning accepts an ECC object already at the handle as a success, but the provider then refuses it as not RSA. |

## Notes on the code

- **The existence check.** It counts any object that resolves at 0x81010002, whatever its kind. `Deployment.ExistingEccObjectIsNotKeyMaterial` shows the consequence: provisioning reports success while seed derivation can never start.
- **Failures while serving.** The code propagates a failed open or write with `?`. So the first failure of any kind ends `serve` and `main`; it does not merely lose one delivery while the loop goes on. The model follows the code.
- **A failed run mid-way.** Between create-EK and the flush, a failure leaves the EK, and after a load the AK, loaded in the model. `AfterScript` records this. The real TPM context is dropped on the error path.

## Left out

- TCTI configuration, context creation, sessions and authorisation are not modelled. A device missing from the host's map, or a planned `OpenContext` failure, stands for a context that cannot be opened.
- What the ESAPI context or the TPM does with transient objects once a run ends is not modelled. Both programs open the raw device `device:/dev/tpm0`, and the code itself flushes nothing on its error paths.
- AttestationAgentInit.EkRsaTemplate and AttestationAgentInit.AkRsaTemplate: the final `PublicBuilder::build` check and its error path (attestation-agent-init/src/main.rs:52-59, 84-91) are not modelled. A template whose attributes and RSA parameters build is always assembled into a public area.
- `read_public` failing on an object that resolved (tpm/mod.rs:58-60) is not modelled. A resolved object is always readable in this model.
- AttestationAgentInit.Tpm.EvictControl: consuming the evicted object's transient slot is an assumption taken from the comment at attestation-agent-init/src/main.rs:144, not modelled TPM behaviour. AttestationAgentInit.FreshProvisioning's "no transient object left behind" rests on it.
- RSA key generation is not modelled. The EK's modulus is part of the TPM state, and the AK's modulus is an input of the run.
- HMAC-SHA256, SHA-256, TOML deserialisation and SPKI DER encoding are parameters, not implementations. Exponent normalisation is modelled; the encoding itself is not.
- `Crypto.DomainSeparation`: this and any other "different inputs give different seeds" property holds only as a reduction to an HMAC collision. HMAC itself is not modelled.
- The FIFO filesystem operations are not modelled: mkfifo, removal of a stale FIFO, open, write, and remove with its ignored error. The endless loop is modelled over a finite sequence of connection attempts.
- Named-pipe rendezvous and concurrent readers are not modelled, and neither are races between two provisioning processes.
- Environment values that are not valid Unicode are not modelled: `std::env::var` fails on them and the default path is used. The environment here maps strings to strings.
- Zeroization of buffers and all logging are left out, because they have no effect on results.
- The `main` of attestation-agent-init (logger set-up and a call to `provision_ak`) is not modelled.
