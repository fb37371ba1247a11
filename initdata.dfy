/**
 * initdata::parse of kbs-local-provider: find init_data.toml, read its raw bytes, check
 * that they are UTF-8, parse the TOML, enforce the domain-separator gate and take the
 * SHA-256 digest of the raw bytes.
 *
 * The environment and the file system are maps; the TOML deserialiser and SHA-256 are
 * parameters.
 */
module InitData {
  import opened Bytes
  import opened Wrappers
  import Utf8

  const DEFAULT_INIT_DATA_PATH: string := "/run/confidential-containers/initdata/init_data.toml"

  const INIT_DATA_PATH_ENV: string := "CC_INIT_DATA"

  /**
   * What deserialising the text into the expected shape yields: an error (bad TOML, or no
   * `data` table), or the optional `data.domain_separator` string.
   */
  datatype Toml = TomlError | Document(domainSeparator: Option<string>)

  type TomlParser = string -> Toml

  type Sha256 = seq<byte> -> Hash

  datatype ParsedInitData = ParsedInitData(domainSeparator: string, initDataDigest: Hash)

  datatype ParseError =
    | ReadError(path: string)
    | NotUtf8
    | TomlInvalid
    | DomainSeparatorMissingOrEmpty   // the security gate

  /** The file to read: the value of CC_INIT_DATA when it is set, else the default path. */
  function InitDataPath(env: map<string, string>): (path: string)
    ensures INIT_DATA_PATH_ENV in env ==> path == env[INIT_DATA_PATH_ENV]
    ensures INIT_DATA_PATH_ENV !in env ==> path == DEFAULT_INIT_DATA_PATH
  {
    if INIT_DATA_PATH_ENV in env then env[INIT_DATA_PATH_ENV] else DEFAULT_INIT_DATA_PATH
  }

  function Parse(env: map<string, string>, files: map<string, seq<byte>>, toml: TomlParser, sha256: Sha256)
    : (r: Result<ParsedInitData, ParseError>)
    ensures InitDataPath(env) !in files ==> r == Failure(ReadError(InitDataPath(env)))
    ensures InitDataPath(env) in files && Utf8.Decode(files[InitDataPath(env)]).None? ==>
              r == Failure(NotUtf8)
    ensures r.Success? <==>
              && InitDataPath(env) in files
              && Utf8.Decode(files[InitDataPath(env)]).Some?
              && toml(Utf8.Decode(files[InitDataPath(env)]).value).Document?
              && toml(Utf8.Decode(files[InitDataPath(env)]).value).domainSeparator.Some?
              && toml(Utf8.Decode(files[InitDataPath(env)]).value).domainSeparator.value != ""
    ensures r.Success? ==>
              var raw := files[InitDataPath(env)];
              && r.value.domainSeparator != ""
              && Some(r.value.domainSeparator) == toml(Utf8.Decode(raw).value).domainSeparator
              && r.value.initDataDigest == sha256(raw)
              && Utf8.Encode(Utf8.Decode(raw).value) == raw
  {
    var path := InitDataPath(env);
    if path !in files then Failure(ReadError(path))
    else
      var raw := files[path];
      match Utf8.Decode(raw)
      case None => Failure(NotUtf8)
      case Some(text) =>
        Utf8.EncodeDecode(raw);
        match toml(text)
        case TomlError => Failure(TomlInvalid)
        case Document(domainSeparator) =>
          if domainSeparator.None? || domainSeparator.value == "" then Failure(DomainSeparatorMissingOrEmpty)
          else Success(ParsedInitData(domainSeparator.value, sha256(raw)))
  }

  /** The gate: an absent or empty domain separator is refused, whatever else the file holds. */
  lemma GateRefusesMissingOrEmpty(env: map<string, string>, files: map<string, seq<byte>>,
                                  toml: TomlParser, sha256: Sha256)
    requires InitDataPath(env) in files
    requires var text := Utf8.Decode(files[InitDataPath(env)]);
             text.Some? && toml(text.value).Document?
             && (toml(text.value).domainSeparator.None? || toml(text.value).domainSeparator == Some(""))
    ensures Parse(env, files, toml, sha256) == Failure(DomainSeparatorMissingOrEmpty)
  {
  }

  /**
   * The digest is taken over the file's bytes and not over anything parsed from them: two
   * deserialisers that both accept the file, however differently they read it, give the
   * same digest, the SHA-256 of the raw bytes.
   */
  lemma DigestOfRawBytes(env: map<string, string>, files: map<string, seq<byte>>,
                         toml1: TomlParser, toml2: TomlParser, sha256: Sha256)
    requires Parse(env, files, toml1, sha256).Success? && Parse(env, files, toml2, sha256).Success?
    ensures Parse(env, files, toml1, sha256).value.initDataDigest
            == Parse(env, files, toml2, sha256).value.initDataDigest
            == sha256(files[InitDataPath(env)])
  {
  }
}
