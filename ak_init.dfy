/**
 * attestation-agent-init: the two object templates and the procedure that provisions
 * the Attestation Key (AK) at its fixed persistent handle, over an abstract TPM.
 *
 * The TPM is a map from persistent handles to public areas plus a table of loaded
 * transient objects. Every TPM command may fail; a Plan fixes, for one run, which
 * command fails (if any) and which modulus RSA key generation produces for the AK.
 *
 * The proofs are carried by the Tpm class: Tpm.LoadAk and Tpm.PersistAk tie each prefix
 * of the command sequence to the closed form ProvisionRun at every point of failure, and
 * Tpm.ProvisionAk composes them. FailureCases is only the case split they share.
 */
module AttestationAgentInit {
  import opened Bytes
  import opened Wrappers
  import opened TpmModel

  /** The persistent handle of the AK; the seed provider reads the same handle. */
  const AK_HANDLE: u32 := 0x8101_0002

  const TPM_DEVICE: string := "/dev/tpm0"

  /** The handle is a persistent handle, so neither conversion of it can fail. */
  lemma AkHandleIsPersistent()
    ensures IsPersistentHandle(AK_HANDLE)
    ensures ToTpmHandle(AK_HANDLE) == Success(TpmHandle(Persistent, AK_HANDLE))
  {
  }

  // ---------------------------------------------------------------- templates

  /**
   * The transient Endorsement Key: an RSA-2048 restricted decryption key (a storage
   * parent) protected by AES-128-CFB, with a zero-filled unique field so that the TPM
   * regenerates the same key from its endorsement seed on every run.
   */
  function EkRsaTemplate(): (r: Result<Public, BuildError>)
    ensures r.Success? && r.value.RsaPublic?
    ensures IsStorageParent(r.value) && IsNonDuplicableTpmGenerated(r.value) && IsAuthValueKey(r.value)
    ensures Bits(r.value.attributes) == 0x0003_0072
    ensures r.value.nameAlg == Sha256
    ensures r.value.parameters == RsaParameters(Aes(128, Cfb), RsaNull, 2048, 0)
    ensures r.value.unique == Zeros(256)
  {
    match BuildAttributes(NoAttributes.(
        restricted := true, decrypt := true, fixedTpm := true, fixedParent := true,
        sensitiveDataOrigin := true, userWithAuth := true))
    case Failure(e) => Failure(e)
    case Success(attributes) =>
      match BuildRsaParameters(RsaParametersRequest(
        RsaParameters(Aes(128, Cfb), RsaNull, 2048, 0),
        restricted := true, isSigningKey := false, isDecryptionKey := true))
      case Failure(e) => Failure(e)
      case Success(parameters) => Success(RsaPublic(Sha256, attributes, parameters, Zeros(256)))
  }

  /**
   * The Attestation Key: an RSA-2048 restricted signing key with the RSASSA-SHA256
   * scheme and an empty unique field, so that each creation yields a fresh key pair.
   */
  function AkRsaTemplate(): (r: Result<Public, BuildError>)
    ensures r.Success? && r.value.RsaPublic?
    ensures IsRestrictedSigningKey(r.value) && IsNonDuplicableTpmGenerated(r.value) && IsAuthValueKey(r.value)
    ensures Bits(r.value.attributes) == 0x0005_0072
    ensures r.value.nameAlg == Sha256
    ensures r.value.parameters == RsaParameters(SymNull, RsaSsa(Sha256), 2048, 0)
    ensures r.value.unique == []
  {
    match BuildAttributes(NoAttributes.(
        restricted := true, signEncrypt := true, fixedTpm := true, fixedParent := true,
        sensitiveDataOrigin := true, userWithAuth := true))
    case Failure(e) => Failure(e)
    case Success(attributes) =>
      match BuildRsaParameters(RsaParametersRequest(
        RsaParameters(SymNull, RsaSsa(Sha256), 2048, 0),
        restricted := true, isSigningKey := true, isDecryptionKey := false))
      case Failure(e) => Failure(e)
      case Success(parameters) => Success(RsaPublic(Sha256, attributes, parameters, []))
  }

  // ---------------------------------------------------------------- TPM state and commands

  datatype TpmState = TpmState(
    persistent: map<u32, Public>,   // objects made persistent with EvictControl
    transient: map<nat, Public>,    // loaded objects, by transient slot
    nextSlot: nat,                  // the slot the next loaded object gets
    ekModulus: seq<byte>)           // the modulus the endorsement seed yields for the EK template

  /** Every loaded object sits in a slot below the next one to be handed out. */
  predicate Wellformed(s: TpmState) {
    forall k :: k in s.transient ==> k < s.nextSlot
  }

  datatype Hierarchy = Owner | Endorsement

  datatype Command =
    | TrFromTpmPublic(handle: u32)
    | CreatePrimary(hierarchy: Hierarchy, template: Public)
    | Create(parent: nat, template: Public)
    | Load(parent: nat)
    | EvictControl(auth: Hierarchy, slot: nat, persistentHandle: u32)
    | FlushContext(slot: nat)

  /** The places a run can fail: opening the context, then each command after the check. */
  datatype Step = OpenContext | CreatePrimaryStep | CreateStep | LoadStep | EvictControlStep | FlushStep

  /**
   * What the environment decides for one run: the command that fails (if any), whether the
   * existence check fails for a reason other than absence (a session that cannot be
   * started), and the modulus of the key pair that AK creation generates.
   */
  datatype Plan = Plan(failAt: Option<Step>, checkFails: bool, akModulus: seq<byte>)

  datatype ProvisionError = ContextFailed | ProvisioningFailed(step: Step)

  datatype Run = Run(outcome: Result<(), ProvisionError>, state: TpmState, issued: seq<Command>)

  function EkTemplate(): Public {
    EkRsaTemplate().value
  }

  function AkTemplate(): Public {
    AkRsaTemplate().value
  }

  /** The public area of the AK a run creates. */
  function AkPublic(plan: Plan): Public {
    WithModulus(AkTemplate(), plan.akModulus)
  }

  function EkPublic(s: TpmState): Public {
    WithModulus(EkTemplate(), s.ekModulus)
  }

  /** The commands after the existence check, in order: each uses the handle the one before produced. */
  function Script(s: TpmState): (c: seq<Command>)
    ensures |c| == 5
  {
    var ek := s.nextSlot;
    var ak := s.nextSlot + 1;
    [CreatePrimary(Endorsement, EkTemplate()), Create(ek, AkTemplate()), Load(ek),
     EvictControl(Owner, ak, AK_HANDLE), FlushContext(ek)]
  }

  /** A planned failure is at one of the six steps, or nowhere. */
  lemma FailureCases(failAt: Option<Step>)
    ensures failAt == None || failAt == Some(OpenContext) || failAt == Some(CreatePrimaryStep)
            || failAt == Some(CreateStep) || failAt == Some(LoadStep)
            || failAt == Some(EvictControlStep) || failAt == Some(FlushStep)
  {
    match failAt
    case None =>
    case Some(step) =>
      match step
      case OpenContext =>
      case CreatePrimaryStep =>
      case CreateStep =>
      case LoadStep =>
      case EvictControlStep =>
      case FlushStep =>
  }

  /** The position in Script of the command a step names; OpenContext precedes them all. */
  function Position(step: Step): nat {
    match step
    case OpenContext => 0
    case CreatePrimaryStep => 0
    case CreateStep => 1
    case LoadStep => 2
    case EvictControlStep => 3
    case FlushStep => 4
  }

  /** The state after the first `done` commands of Script succeeded. */
  function AfterScript(s: TpmState, plan: Plan, done: nat): TpmState
    requires done <= 5
  {
    var ek := s.nextSlot;
    var ak := s.nextSlot + 1;
    if done == 0 then s
    else if done <= 2 then s.(transient := s.transient[ek := EkPublic(s)], nextSlot := ek + 1)
    else if done == 3 then
      s.(transient := s.transient[ek := EkPublic(s)][ak := AkPublic(plan)], nextSlot := ak + 1)
    else if done == 4 then
      s.(persistent := s.persistent[AK_HANDLE := AkPublic(plan)],
         transient := s.transient[ek := EkPublic(s)], nextSlot := ak + 1)
    else
      s.(persistent := s.persistent[AK_HANDLE := AkPublic(plan)], nextSlot := ak + 1)
  }

  /**
   * The command of Script that fails in a run that got past the check: the planned one,
   * unless EvictControl comes first and meets an occupied handle.
   */
  function FailingStep(s: TpmState, plan: Plan): Option<Step>
    requires plan.failAt != Some(OpenContext)
  {
    if plan.failAt.Some? && Position(plan.failAt.value) <= 3 then plan.failAt
    else if AK_HANDLE in s.persistent then Some(EvictControlStep)
    else plan.failAt
  }

  /**
   * The effect of one run of provision_ak on a TPM in state s. Only a context that cannot be
   * opened ends a run before the existence check, and then nothing is sent or changed;
   * every other run starts with the check and sends at most the five commands of Script
   * after it. No persistent object is ever removed or replaced.
   */
  function ProvisionRun(s: TpmState, plan: Plan): (r: Run)
    ensures r.outcome == Failure(ContextFailed) <==> plan.failAt == Some(OpenContext)
    ensures r.outcome == Failure(ContextFailed) ==> r.state == s && r.issued == []
    ensures plan.failAt != Some(OpenContext) ==>
              1 <= |r.issued| <= 6 && r.issued[0] == TrFromTpmPublic(AK_HANDLE)
    ensures forall h :: h in s.persistent ==>
              h in r.state.persistent && r.state.persistent[h] == s.persistent[h]
  {
    if plan.failAt == Some(OpenContext) then
      Run(Failure(ContextFailed), s, [])
    else if AK_HANDLE in s.persistent && !plan.checkFails then
      Run(Success(()), s, [TrFromTpmPublic(AK_HANDLE)])
    else
      match FailingStep(s, plan)
      case None =>
        Run(Success(()), AfterScript(s, plan, 5), [TrFromTpmPublic(AK_HANDLE)] + Script(s))
      case Some(step) =>
        Run(Failure(ProvisioningFailed(step)), AfterScript(s, plan, Position(step)),
            [TrFromTpmPublic(AK_HANDLE)] + Script(s)[..Position(step) + 1])
  }

  // ---------------------------------------------------------------- properties of a run

  /**
   * Whatever already resolves at AK_HANDLE is accepted without looking at it: the run
   * succeeds, changes nothing and sends only the existence check.
   */
  lemma ExistingObjectIsNoOp(s: TpmState, plan: Plan, existing: Public)
    requires plan.failAt != Some(OpenContext) && !plan.checkFails
    requires AK_HANDLE in s.persistent && s.persistent[AK_HANDLE] == existing
    ensures ProvisionRun(s, plan) == Run(Success(()), s, [TrFromTpmPublic(AK_HANDLE)])
  {
  }

  /**
   * An object at AK_HANDLE is never replaced and nothing else becomes persistent, even when
   * the existence check fails spuriously: EvictControl then meets an occupied handle.
   */
  lemma ExistingObjectKept(s: TpmState, plan: Plan)
    requires AK_HANDLE in s.persistent
    ensures ProvisionRun(s, plan).state.persistent == s.persistent
  {
  }

  /**
   * The persistent handles change only through a successful EvictControl on a free
   * AK_HANDLE, and then only AK_HANDLE is added, holding the AK the run created.
   */
  lemma PersistentOnlyByEvictControl(s: TpmState, plan: Plan)
    ensures var run := ProvisionRun(s, plan);
            run.state.persistent == s.persistent
            || (AK_HANDLE !in s.persistent
                && run.state.persistent == s.persistent[AK_HANDLE := AkPublic(plan)]
                && EvictControl(Owner, s.nextSlot + 1, AK_HANDLE) in run.issued
                && (run.outcome.Success? || run.outcome == Failure(ProvisioningFailed(FlushStep))))
  {
    FailureCases(plan.failAt);
    if plan.failAt != Some(OpenContext) && !(AK_HANDLE in s.persistent && !plan.checkFails) {
      var issued := [TrFromTpmPublic(AK_HANDLE)] + Script(s);
      assert issued[4] == EvictControl(Owner, s.nextSlot + 1, AK_HANDLE);
      assert issued[..5][4] == issued[4];
    }
  }

  /**
   * A run that stops before EvictControl succeeded leaves the persistent handles alone, and
   * every object loaded before the run is still loaded, unchanged.
   */
  lemma FailureBeforeEvictKeepsPersistent(s: TpmState, plan: Plan)
    requires var run := ProvisionRun(s, plan);
             run.outcome.Failure? && run.outcome != Failure(ProvisioningFailed(FlushStep))
    ensures ProvisionRun(s, plan).state.persistent == s.persistent
    ensures forall k :: k in s.transient && k < s.nextSlot ==>
              k in ProvisionRun(s, plan).state.transient && ProvisionRun(s, plan).state.transient[k] == s.transient[k]
  {
  }

  /**
   * On a TPM without an AK, a run succeeds exactly when no command fails. It then leaves
   * the AK created from the AK template at AK_HANDLE, a restricted signing key, and no
   * transient object behind: the EK is flushed and the AK's slot went to EvictControl.
   */
  lemma FreshProvisioning(s: TpmState, plan: Plan)
    requires Wellformed(s) && AK_HANDLE !in s.persistent
    ensures var run := ProvisionRun(s, plan);
            run.outcome.Success? <==> plan.failAt == None
    ensures var run := ProvisionRun(s, plan);
            run.outcome.Success? ==>
              && run.state.persistent == s.persistent[AK_HANDLE := AkPublic(plan)]
              && run.state.transient == s.transient
              && s.nextSlot !in run.state.transient && s.nextSlot + 1 !in run.state.transient
              && AkPublic(plan).RsaPublic? && IsRestrictedSigningKey(AkPublic(plan))
              && AkPublic(plan).parameters == AkTemplate().parameters
              && AkPublic(plan).unique == plan.akModulus
  {
  }

  /**
   * The commands a run sends are a prefix of the full sequence: check, create the EK,
   * create the AK under the EK's slot, load it under the same slot, persist the slot the load
   * filled, flush the EK's slot.
   */
  lemma CommandOrder(s: TpmState, plan: Plan)
    requires plan.failAt != Some(OpenContext)
    ensures var full := [TrFromTpmPublic(AK_HANDLE)] + Script(s);
            var issued := ProvisionRun(s, plan).issued;
            1 <= |issued| <= |full| && issued == full[..|issued|]
    ensures var ek := s.nextSlot;
            Script(s) == [CreatePrimary(Endorsement, EkTemplate()), Create(ek, AkTemplate()), Load(ek),
                          EvictControl(Owner, ek + 1, AK_HANDLE), FlushContext(ek)]
    ensures AfterScript(s, plan, 1).transient[s.nextSlot] == EkPublic(s)
    ensures AfterScript(s, plan, 3).transient[s.nextSlot + 1] == AkPublic(plan)
  {
  }

  /**
   * Provisioning is idempotent: once a run leaves an object at AK_HANDLE, a second run keeps
   * the persistent handles as they are, and when its context and check work it succeeds
   * without changing anything.
   */
  lemma ProvisionTwice(s: TpmState, first: Plan, second: Plan)
    requires AK_HANDLE in ProvisionRun(s, first).state.persistent
    ensures var s1 := ProvisionRun(s, first).state;
            ProvisionRun(s1, second).state.persistent == s1.persistent
    ensures var s1 := ProvisionRun(s, first).state;
            second.failAt != Some(OpenContext) && !second.checkFails ==>
              ProvisionRun(s1, second) == Run(Success(()), s1, [TrFromTpmPublic(AK_HANDLE)])
  {
  }

  /** A successful run always leaves an object at AK_HANDLE, so ProvisionTwice applies to it. */
  lemma SuccessLeavesAk(s: TpmState, plan: Plan)
    requires ProvisionRun(s, plan).outcome.Success?
    ensures AK_HANDLE in ProvisionRun(s, plan).state.persistent
  {
  }

  // ---------------------------------------------------------------- the TPM, command by command

  class Tpm {
    var persistent: map<u32, Public>
    var transient: map<nat, Public>
    var nextSlot: nat
    const ekModulus: seq<byte>
    /** The commands sent to the TPM so far, oldest first. */
    var history: seq<Command>

    function State(): TpmState
      reads this
    {
      TpmState(persistent, transient, nextSlot, ekModulus)
    }

    ghost predicate Valid()
      reads this
    {
      Wellformed(State())
    }

    constructor (persistent: map<u32, Public>, ekModulus: seq<byte>)
      ensures Valid() && history == []
      ensures State() == TpmState(persistent, map[], 0, ekModulus)
    {
      this.persistent := persistent;
      this.transient := map[];
      this.nextSlot := 0;
      this.ekModulus := ekModulus;
      this.history := [];
    }

    /** Resolve the object at a handle; `fails` is a failure other than absence. */
    method TrFromTpmPublic(handle: u32, fails: bool) returns (found: bool)
      modifies this`history
      ensures found <==> handle in persistent && !fails
      ensures history == old(history) + [Command.TrFromTpmPublic(handle)]
    {
      history := history + [Command.TrFromTpmPublic(handle)];
      found := handle in persistent && !fails;
    }

    /** Create the primary key of a hierarchy and load it into the next slot. */
    method CreatePrimary(hierarchy: Hierarchy, template: Public, ok: bool) returns (r: Result<nat, ()>)
      requires Valid()
      modifies this`transient, this`nextSlot, this`history
      ensures Valid()
      ensures history == old(history) + [Command.CreatePrimary(hierarchy, template)]
      ensures r.Success? <==> ok
      ensures r.Success? ==> r.value == old(nextSlot) && nextSlot == old(nextSlot) + 1
                             && transient == old(transient)[r.value := WithModulus(template, ekModulus)]
      ensures r.Failure? ==> transient == old(transient) && nextSlot == old(nextSlot)
    {
      history := history + [Command.CreatePrimary(hierarchy, template)];
      if !ok {
        return Failure(());
      }
      r := Success(nextSlot);
      transient := transient[nextSlot := WithModulus(template, ekModulus)];
      nextSlot := nextSlot + 1;
    }

    /** Create a key pair under a loaded parent; the result is not loaded. */
    method Create(parent: nat, template: Public, modulus: seq<byte>, ok: bool) returns (r: Result<Public, ()>)
      modifies this`history
      ensures history == old(history) + [Command.Create(parent, template)]
      ensures r.Success? <==> ok && parent in transient
      ensures r.Success? ==> r.value == WithModulus(template, modulus)
    {
      history := history + [Command.Create(parent, template)];
      if !ok || parent !in transient {
        return Failure(());
      }
      r := Success(WithModulus(template, modulus));
    }

    /** Load a created key under its parent into the next slot. */
    method Load(parent: nat, public: Public, ok: bool) returns (r: Result<nat, ()>)
      requires Valid()
      modifies this`transient, this`nextSlot, this`history
      ensures Valid()
      ensures history == old(history) + [Command.Load(parent)]
      ensures r.Success? <==> ok && parent in old(transient)
      ensures r.Success? ==> r.value == old(nextSlot) && nextSlot == old(nextSlot) + 1
                             && transient == old(transient)[r.value := public]
      ensures r.Failure? ==> transient == old(transient) && nextSlot == old(nextSlot)
    {
      history := history + [Command.Load(parent)];
      if !ok || parent !in transient {
        return Failure(());
      }
      r := Success(nextSlot);
      transient := transient[nextSlot := public];
      nextSlot := nextSlot + 1;
    }

    /**
     * Make a loaded object persistent at a free persistent handle. The transient copy is
     * treated as consumed, as the source's comment on the call has it.
     */
    method EvictControl(auth: Hierarchy, slot: nat, handle: u32, ok: bool) returns (r: Result<(), ()>)
      requires Valid()
      modifies this`persistent, this`transient, this`history
      ensures Valid()
      ensures history == old(history) + [Command.EvictControl(auth, slot, handle)]
      ensures r.Success? <==> ok && slot in old(transient) && handle !in old(persistent)
      ensures r.Success? ==> persistent == old(persistent)[handle := old(transient)[slot]]
                             && transient == old(transient) - {slot}
      ensures r.Failure? ==> persistent == old(persistent) && transient == old(transient)
    {
      history := history + [Command.EvictControl(auth, slot, handle)];
      if !ok || slot !in transient || handle in persistent {
        return Failure(());
      }
      persistent := persistent[handle := transient[slot]];
      transient := transient - {slot};
      r := Success(());
    }

    /** Unload a transient object. */
    method FlushContext(slot: nat, ok: bool) returns (r: Result<(), ()>)
      requires Valid()
      modifies this`transient, this`history
      ensures Valid()
      ensures history == old(history) + [Command.FlushContext(slot)]
      ensures r.Success? <==> ok && slot in old(transient)
      ensures r.Success? ==> transient == old(transient) - {slot}
      ensures r.Failure? ==> transient == old(transient)
    {
      history := history + [Command.FlushContext(slot)];
      if !ok || slot !in transient {
        return Failure(());
      }
      transient := transient - {slot};
      r := Success(());
    }

    /**
     * The first three commands of Script: create the EK, create the AK under it and load the
     * AK. On failure, the step that failed; on success, the slots of the EK and of the AK.
     */
    method LoadAk(plan: Plan) returns (r: Result<(nat, nat), Step>)
      requires Valid() && plan.failAt != Some(OpenContext)
      modifies this`transient, this`nextSlot, this`history
      ensures Valid()
      ensures var s := old(State());
              match r
              case Failure(step) =>
                FailingStep(s, plan) == Some(step) && Position(step) <= 2
                && State() == AfterScript(s, plan, Position(step))
                && history == old(history) + Script(s)[..Position(step) + 1]
              case Success(slots) =>
                slots == (s.nextSlot, s.nextSlot + 1)
                && !(FailingStep(s, plan).Some? && Position(FailingStep(s, plan).value) <= 2)
                && State() == AfterScript(s, plan, 3)
                && history == old(history) + Script(s)[..3]
    {
      ghost var s := State();
      FailureCases(plan.failAt);
      var ek := CreatePrimary(Endorsement, EkTemplate(), plan.failAt != Some(CreatePrimaryStep));
      if ek.Failure? {
        return Failure(CreatePrimaryStep);
      }
      var ak := Create(ek.value, AkTemplate(), plan.akModulus, plan.failAt != Some(CreateStep));
      if ak.Failure? {
        assert State() == AfterScript(s, plan, 1);
        return Failure(CreateStep);
      }
      var akSlot := Load(ek.value, ak.value, plan.failAt != Some(LoadStep));
      if akSlot.Failure? {
        assert State() == AfterScript(s, plan, 2);
        return Failure(LoadStep);
      }
      r := Success((ek.value, akSlot.value));
    }

    /**
     * The last two commands of Script, on the state the first three left: persist the AK at
     * AK_HANDLE, then flush the EK.
     */
    method PersistAk(plan: Plan, ghost s: TpmState, ek: nat, ak: nat) returns (r: Result<(), Step>)
      requires Wellformed(s) && plan.failAt != Some(OpenContext)
      requires !(FailingStep(s, plan).Some? && Position(FailingStep(s, plan).value) <= 2)
      requires State() == AfterScript(s, plan, 3) && ek == s.nextSlot && ak == s.nextSlot + 1
      requires Valid()
      modifies this`persistent, this`transient, this`history
      ensures Valid()
      ensures match FailingStep(s, plan)
              case None =>
                r == Success(()) && State() == AfterScript(s, plan, 5)
                && history == old(history) + Script(s)[3..]
              case Some(step) =>
                r == Failure(step) && State() == AfterScript(s, plan, Position(step))
                && history == old(history) + Script(s)[3..Position(step) + 1]
    {
      FailureCases(plan.failAt);
      var script := Script(s);
      assert script[3..4] == [Command.EvictControl(Owner, ak, AK_HANDLE)];
      assert script[3..] == [Command.EvictControl(Owner, ak, AK_HANDLE), Command.FlushContext(ek)];
      var persisted := EvictControl(Owner, ak, AK_HANDLE, plan.failAt != Some(EvictControlStep));
      if persisted.Failure? {
        assert FailingStep(s, plan) == Some(EvictControlStep);
        return Failure(EvictControlStep);
      }
      assert transient == s.transient[ek := EkPublic(s)];
      assert State() == AfterScript(s, plan, 4);
      var flushed := FlushContext(ek, plan.failAt != Some(FlushStep));
      if flushed.Failure? {
        assert FailingStep(s, plan) == Some(FlushStep);
        return Failure(FlushStep);
      }
      assert transient == s.transient;
      assert FailingStep(s, plan) == None;
      r := Success(());
    }

    /**
     * provision_ak: leave the TPM alone when the AK handle already resolves; otherwise create
     * the EK, create the AK under it, load the AK, persist it at AK_HANDLE and flush the EK,
     * aborting at the first command that fails.
     */
    method ProvisionAk(plan: Plan) returns (r: Result<(), ProvisionError>)
      requires Valid()
      modifies this
      ensures Valid()
      ensures var run := ProvisionRun(old(State()), plan);
              r == run.outcome && State() == run.state && history == old(history) + run.issued
    {
      if plan.failAt == Some(OpenContext) {
        return Failure(ContextFailed);
      }
      ghost var s := State();
      AkHandleIsPersistent();
      var alreadyExists := TrFromTpmPublic(AK_HANDLE, plan.checkFails);
      if alreadyExists {
        return Success(());
      }
      var loaded := LoadAk(plan);
      if loaded.Failure? {
        return Failure(ProvisioningFailed(loaded.error));
      }
      var persisted := PersistAk(plan, s, loaded.value.0, loaded.value.1);
      if persisted.Failure? {
        assert Script(s)[..3] + Script(s)[3..Position(persisted.error) + 1]
            == Script(s)[..Position(persisted.error) + 1];
        return Failure(ProvisioningFailed(persisted.error));
      }
      assert Script(s)[..3] + Script(s)[3..] == Script(s);
      r := Success(());
    }
  }
}
