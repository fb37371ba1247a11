/**
 * The main pipeline of kbs-local-provider: parse init_data, detect the seed provider,
 * read its key material, derive the seed and serve it, stopping at the first error.
 *
 * Everything the process reads from its host is a Host value; the foreign primitives
 * are a Libraries value.
 */
module KbsLocalProvider {
  import opened Bytes
  import opened Wrappers
  import InitData
  import TpmProvider
  import Provider
  import Crypto
  import Fifo

  datatype Host = Host(
    env: map<string, string>,
    files: map<string, seq<byte>>,
    existingPaths: set<string>,
    devices: map<string, TpmProvider.Snapshot>,
    tpmFeature: bool)            // whether the tpm-provider feature is compiled in

  datatype Libraries = Libraries(
    toml: InitData.TomlParser,
    sha256: InitData.Sha256,
    hmac: Crypto.Hmac,
    spki: TpmProvider.SpkiEncoder)

  /** The pipeline's stages, in the order main runs them. */
  datatype Stage = ParseStage | DetectStage | IkmStage | DeriveStage | ServeStage

  const STAGES: seq<Stage> := [ParseStage, DetectStage, IkmStage, DeriveStage, ServeStage]

  datatype Exit =
    | ParseFailed(parseError: InitData.ParseError)
    | DetectFailed(detectError: Provider.DetectError)
    | IkmFailed(ikmError: TpmProvider.IkmError)
    | ServeFailed(serveError: Fifo.ServeError)
    | StillServing

  /**
   * The seed main serves, or why there is none: the first of parse, detection and key
   * material retrieval that fails.
   */
  function Seed(host: Host, libs: Libraries): (r: Result<Hash, Exit>)
    ensures var parsed := InitData.Parse(host.env, host.files, libs.toml, libs.sha256);
            var provider := Provider.DetectProvider(host.tpmFeature, host.existingPaths);
            r.Success? <==>
              && parsed.Success? && provider.Success?
              && provider.value.Ikm(host.devices, libs.spki).Success?
    ensures var parsed := InitData.Parse(host.env, host.files, libs.toml, libs.sha256);
            parsed.Failure? ==> r == Failure(ParseFailed(parsed.error))
    ensures r.Success? ==>
              var parsed := InitData.Parse(host.env, host.files, libs.toml, libs.sha256).value;
              var provider := Provider.DetectProvider(host.tpmFeature, host.existingPaths).value;
              var ikm := provider.Ikm(host.devices, libs.spki).value;
              r.value == Crypto.DeriveEd25519Seed(libs.hmac, ikm, parsed.initDataDigest, parsed.domainSeparator)
  {
    match InitData.Parse(host.env, host.files, libs.toml, libs.sha256)
    case Failure(e) => Failure(ParseFailed(e))
    case Success(parsed) =>
      match Provider.DetectProvider(host.tpmFeature, host.existingPaths)
      case Failure(e) => Failure(DetectFailed(e))
      case Success(provider) =>
        match provider.Ikm(host.devices, libs.spki)
        case Failure(e) => Failure(IkmFailed(e))
        case Success(ikm) =>
          Success(Crypto.DeriveEd25519Seed(libs.hmac, ikm, parsed.initDataDigest, parsed.domainSeparator))
  }

  /**
   * The security gate comes first: when init_data does not pass, the outcome is the same
   * whatever TPMs and device paths the host has, so none of them was looked at.
   */
  lemma GateBeforeTpm(host: Host, libs: Libraries, existingPaths: set<string>,
                      devices: map<string, TpmProvider.Snapshot>)
    requires InitData.Parse(host.env, host.files, libs.toml, libs.sha256).Failure?
    ensures Seed(host.(existingPaths := existingPaths, devices := devices), libs) == Seed(host, libs)
  {
  }

  /**
   * main: the stages run in order and each failure ends the run with its error. With a
   * seed, the written messages are those of Fifo.Serve for that seed.
   */
  method Run(host: Host, libs: Libraries, attempts: seq<Fifo.Attempt>)
    returns (exit: Exit, stages: seq<Stage>, written: seq<seq<byte>>)
    ensures 1 <= |stages| <= |STAGES| && stages == STAGES[..|stages|]
    ensures DeriveStage in stages <==> Seed(host, libs).Success?
    ensures Seed(host, libs).Failure? ==> exit == Seed(host, libs).error && written == []
    ensures InitData.Parse(host.env, host.files, libs.toml, libs.sha256).Failure? ==> stages == [ParseStage]
    ensures exit.DetectFailed? ==> stages == STAGES[..2]
    ensures exit.IkmFailed? ==> stages == STAGES[..3]
    ensures Seed(host, libs).Success? ==>
              && stages == STAGES
              && |written| == Fifo.ServedCount(attempts)
              && (forall i :: 0 <= i < |written| ==> written[i] == Fifo.MessageBytes(Seed(host, libs).value))
              && (exit == StillServing <==> Fifo.ServedCount(attempts) == |attempts|)
              && (exit != StillServing ==>
                    exit == ServeFailed(Fifo.ErrorOf(attempts[Fifo.ServedCount(attempts)])))
  {
    written := [];
    stages := [ParseStage];
    var parsed := InitData.Parse(host.env, host.files, libs.toml, libs.sha256);
    if parsed.Failure? {
      return ParseFailed(parsed.error), stages, written;
    }
    stages := stages + [DetectStage];
    var provider := Provider.DetectProvider(host.tpmFeature, host.existingPaths);
    if provider.Failure? {
      return DetectFailed(provider.error), stages, written;
    }
    stages := stages + [IkmStage];
    var ikm := provider.value.Ikm(host.devices, libs.spki);
    if ikm.Failure? {
      return IkmFailed(ikm.error), stages, written;
    }
    stages := stages + [DeriveStage];
    var seed := Crypto.DeriveEd25519Seed(libs.hmac, ikm.value, parsed.value.initDataDigest,
                                         parsed.value.domainSeparator);
    stages := stages + [ServeStage];
    var stopped;
    written, stopped := Fifo.Serve(seed, attempts);
    exit := if stopped.Some? then ServeFailed(stopped.value) else StillServing;
  }
}
