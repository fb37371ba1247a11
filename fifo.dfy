/**
 * fifo::serve of kbs-local-provider: the seed is published to the Confidential Data Hub
 * as a one-key JSON object whose value is the seed in base 64, written to every reader
 * that opens the FIFO.
 *
 * The FIFO itself (mkfifo, open, write, remove) is not modelled; each connection attempt
 * is an input that says how far it got.
 */
module Fifo {
  import opened Bytes
  import opened Wrappers
  import Base64
  import Utf8

  const CDH_RESOURCES_PATH: string := "/etc/aa-offline_fs_kbc-resources.json"

  /** The resource the seed is published as. */
  const RESOURCE_KEY: string := "default/key/1"

  const PREFIX: string := "{\"default/key/1\": \""

  const SUFFIX: string := "\"}\n"

  /** The JSON line served to readers. */
  function Message(seed: Hash): (m: string)
    ensures |m| == 66
    ensures m[..19] == PREFIX && m[63..] == SUFFIX
    ensures m[19..63] == Base64.Encode(seed)
  {
    Base64.EncodeLength(seed);
    PREFIX + Base64.Encode(seed) + SUFFIX
  }

  /** A reader's view: the bytes between the quotes after the key, decoded from base 64. */
  function ParseMessage(m: string): (r: Option<seq<byte>>)
    ensures r.Some? ==> |m| >= |PREFIX| + |SUFFIX| && m[..|PREFIX|] == PREFIX
  {
    if |m| >= |PREFIX| + |SUFFIX| && m[..|PREFIX|] == PREFIX && m[|m| - |SUFFIX|..] == SUFFIX
    then Base64.Decode(m[|PREFIX|..|m| - |SUFFIX|])
    else None
  }

  /** A reader recovers the seed from the message. */
  lemma MessageRoundTrip(seed: Hash)
    ensures ParseMessage(Message(seed)) == Some(seed)
  {
    var m := Message(seed);
    assert m[|PREFIX|..|m| - |SUFFIX|] == Base64.Encode(seed);
    Base64.DecodeEncode(seed);
  }

  /**
   * The base 64 form of a seed is 44 characters: 43 from the alphabet and one '=', last.
   */
  lemma SeedEncoding(seed: Hash)
    ensures var e := Base64.Encode(seed);
            && |e| == 44 && e[43] == '='
            && forall i :: 0 <= i < 43 ==> Base64.IsAlphabetChar(e[i])
  {
    Base64.EncodeLength(seed);
    Base64.EncodeCharacters(seed);
    assert Base64.Padding(|seed|) == 1;
  }

  /** A character that may stand unescaped inside a JSON string (RFC 8259 section 7). */
  predicate Unescaped(c: char) {
    c as int >= 0x20 && c != '"' && c != '\\'
  }

  /** A JSON string of characters that need no escape. */
  function Quote(s: string): (q: string)
    ensures |q| == |s| + 2 && q[0] == '"' && q[|q| - 1] == '"'
  {
    "\"" + s + "\""
  }

  /**
   * The message is a JSON object with one member, RESOURCE_KEY, whose value is the base 64
   * text; neither needs escaping, so the quotes delimit them exactly. A newline ends it.
   */
  lemma MessageIsJsonObject(seed: Hash)
    ensures Message(seed) == "{" + Quote(RESOURCE_KEY) + ": " + Quote(Base64.Encode(seed)) + "}\n"
    ensures forall i :: 0 <= i < |RESOURCE_KEY| ==> Unescaped(RESOURCE_KEY[i])
    ensures forall i :: 0 <= i < |Base64.Encode(seed)| ==> Unescaped(Base64.Encode(seed)[i])
  {
    SeedEncoding(seed);
    var e := Base64.Encode(seed);
    assert PREFIX == "{" + Quote(RESOURCE_KEY) + ": " + "\"";
    assert Message(seed) == "{" + Quote(RESOURCE_KEY) + ": " + Quote(e) + "}\n";
  }

  /** Every character of the message is ASCII. */
  lemma MessageIsAscii(seed: Hash)
    ensures forall i :: 0 <= i < |Message(seed)| ==> Message(seed)[i] as int < 0x80
  {
    SeedEncoding(seed);
    var m := Message(seed);
    forall i | 0 <= i < |m|
      ensures m[i] as int < 0x80
    {
      if 19 <= i < 63 {
        assert m[i] == Base64.Encode(seed)[i - 19];
      }
    }
  }

  /** The bytes written: the message in UTF-8, which for this ASCII text is 66 bytes. */
  function MessageBytes(seed: Hash): (b: seq<byte>)
    ensures |b| == 66
    ensures forall i :: 0 <= i < 66 ==> b[i] as int == Message(seed)[i] as int
    ensures Utf8.Decode(b) == Some(Message(seed))
  {
    MessageIsAscii(seed);
    Utf8.EncodeAscii(Message(seed));
    Utf8.DecodeEncode(Message(seed));
    Utf8.Encode(Message(seed))
  }

  /** How far one iteration of the serving loop gets. */
  datatype Attempt = Served | CreateFailed | OpenFailed | WriteFailed

  datatype ServeError = CreateFifoError | OpenError | WriteError

  /** The number of attempts before the first one that fails. */
  function ServedCount(attempts: seq<Attempt>): (k: nat)
    ensures k <= |attempts|
    ensures forall i :: 0 <= i < k ==> attempts[i] == Served
    ensures k < |attempts| ==> attempts[k] != Served
  {
    if attempts == [] || attempts[0] != Served then 0 else 1 + ServedCount(attempts[1..])
  }

  function ErrorOf(a: Attempt): ServeError
    requires a != Served
  {
    match a
    case CreateFailed => CreateFifoError
    case OpenFailed => OpenError
    case WriteFailed => WriteError
  }

  /**
   * serve: compute the message once, then for each reader recreate the FIFO, open it, write
   * the message and remove it, stopping at the first failure. Over a finite sequence of
   * attempts with no failure it is still serving when they run out.
   */
  method Serve(seed: Hash, attempts: seq<Attempt>) returns (written: seq<seq<byte>>, stopped: Option<ServeError>)
    ensures |written| == ServedCount(attempts)
    ensures forall i :: 0 <= i < |written| ==> written[i] == MessageBytes(seed)
    ensures ServedCount(attempts) < |attempts| <==> stopped.Some?
    ensures stopped.Some? ==> stopped.value == ErrorOf(attempts[ServedCount(attempts)])
  {
    var encoded := Base64.Encode(seed);
    var json := PREFIX + encoded + SUFFIX;
    var bytes := Utf8.Encode(json);
    written := [];
    var i := 0;
    while i < |attempts|
      invariant 0 <= i <= |attempts|
      invariant i == |written| && forall j :: 0 <= j < i ==> attempts[j] == Served
      invariant forall j :: 0 <= j < |written| ==> written[j] == bytes
    {
      match attempts[i] {
        case CreateFailed => return written, Some(CreateFifoError);
        case OpenFailed => return written, Some(OpenError);
        case WriteFailed => return written, Some(WriteError);
        case Served => written := written + [bytes];
      }
      i := i + 1;
    }
    stopped := None;
  }
}
