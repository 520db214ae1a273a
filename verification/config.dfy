/** The TLS configuration object of oatpp-mbedtls (`oatpp::mbedtls::Config`)
    and its three factories: a server configuration from certificate and key
    files, a client configuration from an optional CA file, and a client
    configuration from in-memory CA, certificate and key buffers.

    The C++ object owns a set of mbedtls contexts that the factories fill in
    one fallible library call at a time; every non-zero result code throws
    and the half-built object is dropped.  Here the object is an immutable
    `Config` record, each factory is a function from its inputs and a
    `Library` oracle to `Result<Config, Failure>`, and the `Failure` names
    the call that was rejected together with its result code. */
module TlsConfig {
  import opened Wrappers
  import opened Mbedtls

  /** Where a parsed certificate or key came from. */
  datatype Material = File(path: string) | Buffer(bytes: seq<byte>)

  /** A certificate or key context: still as `*_init` left it, or filled by
      a successful parse of `from`. */
  datatype Slot = Empty | Parsed(from: Material)

  /** The CTR_DRBG context, seeded from the owned entropy context with a
      personalisation string once construction succeeds. */
  datatype Drbg = Unseeded | Seeded(personalisation: seq<byte>)

  /** The arguments of a successful `mbedtls_ssl_config_defaults` call. */
  datatype Defaults = Defaults(endpoint: Endpoint, transport: Transport, preset: Preset)

  /** The peer-verification mode set explicitly on the SSL configuration.
      `Unset` means no explicit call was made, so whatever the library
      defaults chose for the role is in force. */
  datatype AuthMode = Unset | VerifyNone | VerifyRequired

  /** Whether the SSL configuration's random generator has been bound to
      `mbedtls_ctr_drbg_random` over this object's own DRBG context. */
  datatype RngBinding = Unbound | OwnCtrDrbg

  /** Everything a configuration holds.  The certificate slots are
      m_srvcert, m_clientcert and m_cachain; `privateKey` is m_privateKey;
      `ownCert` records which certificate slot was bound, together with
      m_privateKey, as the endpoint's own identity. */
  datatype Config = Config(
    drbg: Drbg,
    defaults: Option<Defaults>,
    authmode: AuthMode,
    caChainInstalled: bool,
    rng: RngBinding,
    ownCert: Option<CertSlot>,
    throwOnVerificationFailed: bool,
    srvcert: Slot,
    clientcert: Slot,
    cachain: Slot,
    privateKey: Slot)

  /** Why a build produced nothing: the library call that returned the
      non-zero `code`. */
  datatype Failure = Failed(call: Call, code: int)

  /** The certificate context a slot name refers to. */
  function CertIn(c: Config, slot: CertSlot): Slot {
    match slot
    case SrvCert => c.srvcert
    case ClientCert => c.clientcert
    case CaChain => c.cachain
  }

  /** `a` and `b` agree on everything except the three certificate slots. */
  predicate SameExceptCerts(a: Config, b: Config) {
    && a.drbg == b.drbg
    && a.defaults == b.defaults
    && a.authmode == b.authmode
    && a.caChainInstalled == b.caChainInstalled
    && a.rng == b.rng
    && a.ownCert == b.ownCert
    && a.throwOnVerificationFailed == b.throwOnVerificationFailed
    && a.privateKey == b.privateKey
  }

  /** Fill one certificate slot; nothing else changes. */
  function StoreCert(c: Config, slot: CertSlot, s: Slot): (r: Config)
    ensures CertIn(r, slot) == s
    ensures forall other: CertSlot :: other != slot ==> CertIn(r, other) == CertIn(c, other)
    ensures SameExceptCerts(r, c)
  {
    match slot
    case SrvCert => c.(srvcert := s)
    case ClientCert => c.(clientcert := s)
    case CaChain => c.(cachain := s)
  }

  /** The object right after the `*_init` calls of the constructor, before
      seeding.  The initial value of the verification flag is declared in
      Config.hpp, which is not part of this model, so it is a parameter. */
  function Initial(declaredThrow: bool): Config {
    Config(Unseeded, None, Unset, false, Unbound, None, declaredThrow,
           Empty, Empty, Empty, Empty)
  }

  /** No SSL setting has been made and no certificate or key is loaded. */
  predicate Unpopulated(c: Config) {
    && c.defaults.None?
    && c.authmode == Unset
    && !c.caChainInstalled
    && c.rng == Unbound
    && c.ownCert.None?
    && c.srvcert == Empty
    && c.clientcert == Empty
    && c.cachain == Empty
    && c.privateKey == Empty
  }

  /** What an accepted call leaves in the configuration. */
  function Perform(c: Config, call: Call): Config {
    match call
    case DrbgSeed(custom) => c.(drbg := Seeded(custom))
    case CrtParseFile(slot, path) => StoreCert(c, slot, Parsed(File(path)))
    case CrtParse(slot, buf) => StoreCert(c, slot, Parsed(Buffer(buf)))
    case PkParseKeyfile(path, _) => c.(privateKey := Parsed(File(path)))
    case PkParseKey(buf, _) => c.(privateKey := Parsed(Buffer(buf)))
    case ConfigDefaults(e, t, p) => c.(defaults := Some(Defaults(e, t, p)))
    case ConfOwnCert(slot) => c.(ownCert := Some(slot))
  }

  /** Issue one call: a non-zero result aborts the build with that call and
      code, zero lets it continue with the call's effect. */
  function Invoke(lib: Library, c: Config, call: Call): Result<Config, Failure> {
    if lib(call) != 0 then Err(Failed(call, lib(call))) else Ok(Perform(c, call))
  }

  /** A std::string buffer as the parsers receive it: `size() + 1` bytes,
      the contents followed by the string's terminating zero byte. */
  function Terminated(s: seq<byte>): seq<byte> {
    s + [0]
  }

  /** Parse the CA chain; on success require peer verification against it
      and install it (with no revocation list). */
  function TrustCaChain(lib: Library, c: Config, parse: Call): Result<Config, Failure> {
    var parsed :- Invoke(lib, c, parse);
    Ok(parsed.(authmode := VerifyRequired, caChainInstalled := true))
  }

  // ---------------------------------------------------------------------
  // Construction

  /** `Config::Config`: initialise every context, then seed the DRBG from
      the entropy context with no personalisation string; a non-zero seed
      result throws. */
  function Create(lib: Library, declaredThrow: bool): (r: Result<Config, Failure>)
    ensures r.Ok? <==> lib(DrbgSeed([])) == 0
    ensures r.Err? ==> r.error == Failed(DrbgSeed([]), lib(DrbgSeed([])))
    ensures r.Ok? ==> r.value.drbg == Seeded([]) && Unpopulated(r.value)
    ensures r.Ok? ==> r.value.throwOnVerificationFailed == declaredThrow
  {
    Invoke(lib, Initial(declaredThrow), DrbgSeed([]))
  }

  // ---------------------------------------------------------------------
  // Server from files

  /** The fallible calls of the server build, in the order it makes them. */
  function ServerCalls(serverCertFile: string, privateKeyFile: string, pkPassword: Option<string>): seq<Call> {
    [ DrbgSeed([]),
      CrtParseFile(SrvCert, serverCertFile),
      PkParseKeyfile(privateKeyFile, pkPassword),
      ConfigDefaults(IsServer, TransportStream, PresetDefault),
      ConfOwnCert(SrvCert) ]
  }

  /** A server configuration holding the given certificate and key files as
      its bound identity, on a seeded DRBG. */
  predicate ServerReady(c: Config, serverCertFile: string, privateKeyFile: string) {
    && c.drbg == Seeded([])
    && c.defaults == Some(Defaults(IsServer, TransportStream, PresetDefault))
    && c.rng == OwnCtrDrbg
    && c.srvcert == Parsed(File(serverCertFile))
    && c.privateKey == Parsed(File(privateKeyFile))
    && c.ownCert == Some(SrvCert)
  }

  /** `Config::createDefaultServerConfigShared`. */
  function CreateDefaultServerConfig(lib: Library, declaredThrow: bool,
                                     serverCertFile: string, privateKeyFile: string,
                                     pkPassword: Option<string>): (r: Result<Config, Failure>)
    ensures r.Ok? ==> ServerReady(r.value, serverCertFile, privateKeyFile)
    ensures r.Ok? ==> r.value.authmode == Unset && !r.value.caChainInstalled
    ensures r.Ok? ==> r.value.cachain == Empty && r.value.clientcert == Empty
    ensures r.Ok? ==> r.value.throwOnVerificationFailed == declaredThrow
    ensures r.Ok? <==> forall call :: call in ServerCalls(serverCertFile, privateKeyFile, pkPassword) ==> lib(call) == 0
    ensures r.Err? ==> r.error.call in ServerCalls(serverCertFile, privateKeyFile, pkPassword) && r.error.code != 0
  {
    var created :- Create(lib, declaredThrow);
    var withCert :- Invoke(lib, created, CrtParseFile(SrvCert, serverCertFile));
    var withKey :- Invoke(lib, withCert, PkParseKeyfile(privateKeyFile, pkPassword));
    var withDefaults :- Invoke(lib, withKey, ConfigDefaults(IsServer, TransportStream, PresetDefault));
    var withRng := withDefaults.(rng := OwnCtrDrbg);
    Invoke(lib, withRng, ConfOwnCert(SrvCert))
  }

  // ---------------------------------------------------------------------
  // Client from an optional CA file

  /** Peer verification follows the presence of a CA chain: required with
      the chain installed, or switched off with no chain loaded. */
  predicate VerificationFollowsTrust(c: Config) {
    || (c.authmode == VerifyRequired && c.caChainInstalled && c.cachain.Parsed?)
    || (c.authmode == VerifyNone && !c.caChainInstalled && c.cachain == Empty)
  }

  /** Settings every successful client build shares. */
  predicate ClientReady(c: Config, throwOnVerificationFailed: bool) {
    && c.drbg == Seeded([])
    && c.defaults == Some(Defaults(IsClient, TransportStream, PresetDefault))
    && c.rng == OwnCtrDrbg
    && c.throwOnVerificationFailed == throwOnVerificationFailed
    && c.srvcert == Empty
    && VerificationFollowsTrust(c)
  }

  /** The fallible calls of the file-based client build, in order. */
  function ClientFileCalls(caRootCertFile: Option<string>): seq<Call> {
    [ DrbgSeed([]), ConfigDefaults(IsClient, TransportStream, PresetDefault) ]
    + match caRootCertFile
      case Some(path) => [CrtParseFile(CaChain, path)]
      case None => []
  }

  /** `Config::createDefaultClientConfigShared(bool, const char*)`;
      `caRootCertFile` is `None` for a null pointer. */
  function CreateDefaultClientConfigFromFile(lib: Library, declaredThrow: bool,
                                             throwOnVerificationFailed: bool,
                                             caRootCertFile: Option<string>): (r: Result<Config, Failure>)
    ensures r.Ok? ==> ClientReady(r.value, throwOnVerificationFailed)
    ensures r.Ok? ==> (r.value.authmode == VerifyRequired <==> caRootCertFile.Some?)
    ensures r.Ok? ==> r.value.cachain == (if caRootCertFile.Some? then Parsed(File(caRootCertFile.value)) else Empty)
    ensures r.Ok? ==> r.value.ownCert.None? && r.value.clientcert == Empty && r.value.privateKey == Empty
    ensures r.Ok? <==> forall call :: call in ClientFileCalls(caRootCertFile) ==> lib(call) == 0
    ensures r.Err? ==> r.error.call in ClientFileCalls(caRootCertFile) && r.error.code != 0
  {
    var created :- Create(lib, declaredThrow);
    var flagged := created.(throwOnVerificationFailed := throwOnVerificationFailed);
    var withDefaults :- Invoke(lib, flagged, ConfigDefaults(IsClient, TransportStream, PresetDefault));
    var verified :- match caRootCertFile
      case Some(path) => TrustCaChain(lib, withDefaults, CrtParseFile(CaChain, path))
      case None => Ok(withDefaults.(authmode := VerifyNone));
    Ok(verified.(rng := OwnCtrDrbg))
  }

  // ---------------------------------------------------------------------
  // Client from memory buffers

  /** The one-element call list for a buffer that is present, else nothing. */
  function WhenNonEmpty(buffer: seq<byte>, call: Call): seq<Call> {
    if |buffer| > 0 then [call] else []
  }

  /** What a slot holds after the memory build offered it `buffer`. */
  function LoadedFrom(buffer: seq<byte>): Slot {
    if |buffer| > 0 then Parsed(Buffer(Terminated(buffer))) else Empty
  }

  /** The fallible calls of the memory-based client build, in order. */
  function ClientMemoryCalls(caRootCert: seq<byte>, clientCert: seq<byte>, privateKey: seq<byte>): seq<Call> {
    [ DrbgSeed([]), ConfigDefaults(IsClient, TransportStream, PresetDefault) ]
    + WhenNonEmpty(caRootCert, CrtParse(CaChain, Terminated(caRootCert)))
    + WhenNonEmpty(clientCert, CrtParse(ClientCert, Terminated(clientCert)))
    + WhenNonEmpty(privateKey, PkParseKey(Terminated(privateKey), []))
    + [ ConfOwnCert(ClientCert) ]
  }

  /** `Config::createDefaultClientConfigShared(bool, std::string, std::string,
      std::string)`; an empty string means "no such material". */
  function CreateDefaultClientConfigFromMemory(lib: Library, declaredThrow: bool,
                                               throwOnVerificationFailed: bool,
                                               caRootCert: seq<byte>, clientCert: seq<byte>,
                                               privateKey: seq<byte>): (r: Result<Config, Failure>)
    ensures r.Ok? ==> ClientReady(r.value, throwOnVerificationFailed)
    ensures r.Ok? ==> (r.value.authmode == VerifyRequired <==> |caRootCert| > 0)
    ensures r.Ok? ==> r.value.cachain == LoadedFrom(caRootCert)
    ensures r.Ok? ==> r.value.clientcert == LoadedFrom(clientCert) && r.value.privateKey == LoadedFrom(privateKey)
    ensures r.Ok? ==> r.value.ownCert == Some(ClientCert)
    ensures lib(ConfOwnCert(ClientCert)) != 0 ==> r.Err?
    ensures r.Ok? <==> forall call :: call in ClientMemoryCalls(caRootCert, clientCert, privateKey) ==> lib(call) == 0
    ensures r.Err? ==> r.error.call in ClientMemoryCalls(caRootCert, clientCert, privateKey) && r.error.code != 0
  {
    var created :- Create(lib, declaredThrow);
    var flagged := created.(throwOnVerificationFailed := throwOnVerificationFailed);
    var withDefaults :- Invoke(lib, flagged, ConfigDefaults(IsClient, TransportStream, PresetDefault));
    var verified :- if |caRootCert| > 0
      then TrustCaChain(lib, withDefaults, CrtParse(CaChain, Terminated(caRootCert)))
      else Ok(withDefaults.(authmode := VerifyNone));
    BindClientIdentity(lib, verified.(rng := OwnCtrDrbg), clientCert, privateKey)
  }

  /** The identity half of the memory-based client build: parse the client
      certificate and key buffers when they are non-empty, then bind
      m_clientcert with m_privateKey as the own certificate whatever was
      supplied. */
  function BindClientIdentity(lib: Library, c: Config, clientCert: seq<byte>, privateKey: seq<byte>): Result<Config, Failure> {
    var withCert :- if |clientCert| > 0
      then Invoke(lib, c, CrtParse(ClientCert, Terminated(clientCert)))
      else Ok(c);
    var withKey :- if |privateKey| > 0
      then Invoke(lib, withCert, PkParseKey(Terminated(privateKey), []))
      else Ok(withCert);
    Invoke(lib, withKey, ConfOwnCert(ClientCert))
  }

  // ---------------------------------------------------------------------
  // Accessors

  /** `getServerCertificate`: the m_srvcert context. */
  function GetServerCertificate(c: Config): Slot {
    c.srvcert
  }

  /** `getCAChain`: the m_cachain context. */
  function GetCAChain(c: Config): Slot {
    c.cachain
  }

  /** `getPrivateKey`: the m_privateKey context. */
  function GetPrivateKey(c: Config): Slot {
    c.privateKey
  }

  /** `shouldThrowOnVerificationFailed`: the stored verification flag. */
  function ShouldThrowOnVerificationFailed(c: Config): bool {
    c.throwOnVerificationFailed
  }
}
