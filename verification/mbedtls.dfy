/** The part of the mbedtls library the configuration builder talks to.

    Every fallible library call is described by a `Call` value that carries
    the arguments the builder passes; what the library answers is not
    computed here but supplied by a `Library` oracle, a function from the
    call to the `int` result code the C function returns (0 is success).
    A `Library` is given per build, so anything the real result depends
    on (file contents, buffer contents, whether a key matches a
    certificate) is folded into the choice of oracle. */
module Mbedtls {
  import opened Wrappers

  newtype byte = b: int | 0 <= b < 256

  /** MBEDTLS_SSL_IS_SERVER / MBEDTLS_SSL_IS_CLIENT */
  datatype Endpoint = IsServer | IsClient

  /** MBEDTLS_SSL_TRANSPORT_STREAM (the only transport the builder uses) */
  datatype Transport = TransportStream

  /** MBEDTLS_SSL_PRESET_DEFAULT (the only preset the builder uses) */
  datatype Preset = PresetDefault

  /** The three certificate contexts a configuration owns:
      m_srvcert, m_clientcert and m_cachain. */
  datatype CertSlot = SrvCert | ClientCert | CaChain

  /** One fallible mbedtls call, with the arguments the builder hands it.
      Pointer-and-length pairs become sequences; a nullable C string
      becomes an `Option`. */
  datatype Call =
    | DrbgSeed(custom: seq<byte>)
      // seed the CTR_DRBG from the owned entropy context, with personalisation `custom`
    | CrtParseFile(into: CertSlot, path: string)
      // parse a certificate (chain) file into a certificate context
    | CrtParse(into: CertSlot, buf: seq<byte>)
      // parse a certificate (chain) from a memory buffer into a certificate context
    | PkParseKeyfile(keyPath: string, password: Option<string>)
      // parse a private key file, with an optional (nullable) passphrase
    | PkParseKey(keyBuf: seq<byte>, keyPassword: seq<byte>)
      // parse a private key from a memory buffer, with a passphrase buffer
    | ConfigDefaults(endpoint: Endpoint, transport: Transport, preset: Preset)
      // load the library defaults for a role, transport and preset
    | ConfOwnCert(cert: CertSlot)
      // bind a certificate context and the private key as the own identity

  /** The result code mbedtls returns for each call. */
  type Library = Call -> int

  /** The index of the first call in `calls` that the library rejects
      (answers with a non-zero code), or `None` when it accepts them all. */
  function FirstRejected(calls: seq<Call>, lib: Library): (k: Option<nat>)
    ensures k.None? <==> forall i :: 0 <= i < |calls| ==> lib(calls[i]) == 0
    ensures k.Some? ==> k.value < |calls| && lib(calls[k.value]) != 0
    ensures k.Some? ==> forall j :: 0 <= j < k.value ==> lib(calls[j]) == 0
  {
    if |calls| == 0 then None
    else if lib(calls[0]) != 0 then Some(0)
    else
      match FirstRejected(calls[1..], lib)
      case None => None
      case Some(k) => Some(k + 1)
  }

  /** The first rejection is unique: a rejected call preceded only by
      accepted ones is the one `FirstRejected` finds. */
  lemma FirstRejectedIs(calls: seq<Call>, lib: Library, k: nat)
    requires k < |calls| && lib(calls[k]) != 0
    requires forall j :: 0 <= j < k ==> lib(calls[j]) == 0
    ensures FirstRejected(calls, lib) == Some(k)
  {
  }

  /** Splitting a call list: the first rejection of `a + b` is the first
      rejection in `a`, or, when `a` is accepted throughout, the first in `b`
      shifted past `a`. */
  lemma {:induction false} FirstRejectedAppend(a: seq<Call>, b: seq<Call>, lib: Library)
    ensures FirstRejected(a + b, lib) ==
            match FirstRejected(a, lib)
            case Some(k) => Some(k)
            case None =>
              match FirstRejected(b, lib)
              case None => None
              case Some(k) => Some(|a| + k)
  {
    if |a| > 0 {
      assert (a + b)[0] == a[0];
      assert (a + b)[1..] == a[1..] + b;
      FirstRejectedAppend(a[1..], b, lib);
    } else {
      assert a + b == b;
    }
  }

  /** How many of `calls` a builder that stops at the first rejection
      actually issues: all of them, or up to and including the rejected one. */
  function Issued(calls: seq<Call>, lib: Library): (n: nat)
    ensures n <= |calls|
  {
    match FirstRejected(calls, lib)
    case None => |calls|
    case Some(k) => k + 1
  }

  /** Two libraries that answer the issued calls alike find the same first
      rejection: the answers to calls after it are never consulted. */
  lemma FirstRejectedReadsOnlyIssued(calls: seq<Call>, lib1: Library, lib2: Library)
    requires forall i :: 0 <= i < Issued(calls, lib1) ==> lib1(calls[i]) == lib2(calls[i])
    ensures FirstRejected(calls, lib1) == FirstRejected(calls, lib2)
    ensures Issued(calls, lib1) == Issued(calls, lib2)
  {
  }
}
