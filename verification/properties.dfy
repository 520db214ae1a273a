/** Properties of the configuration factories that relate several calls,
    or relate a factory to the flat list of library calls it makes. */
module TlsConfigProperties {
  import opened Wrappers
  import opened Mbedtls
  import opened TlsConfig

  // ---------------------------------------------------------------------
  // Abort at the first rejected call

  /** `r` is what a builder that issues `calls` in order and aborts at the
      first non-zero result must return: success when every call is
      accepted, otherwise the first rejected call with its code. */
  predicate StopsAtFirstRejection(r: Result<Config, Failure>, calls: seq<Call>, lib: Library) {
    match FirstRejected(calls, lib)
    case None => r.Ok?
    case Some(k) => k < |calls| && r == Err(Failed(calls[k], lib(calls[k])))
  }

  /** Running a stage that issues `a` and then, if it succeeded, a stage
      that issues `b` stops at the first rejection of `a + b`. */
  lemma SequenceStops(first: Result<Config, Failure>, rest: Result<Config, Failure>,
                                         a: seq<Call>, b: seq<Call>, lib: Library)
    requires StopsAtFirstRejection(first, a, lib)
    requires first.Ok? ==> StopsAtFirstRejection(rest, b, lib)
    ensures StopsAtFirstRejection(if first.Ok? then rest else Err(first.error), a + b, lib)
  {
    FirstRejectedAppend(a, b, lib);
    match FirstRejected(a, lib)
    case Some(k) =>
      assert (a + b)[k] == a[k];
    case None =>
      match FirstRejected(b, lib)
      case None =>
      case Some(k) =>
        assert (a + b)[|a| + k] == b[k];
  }

  /** A single call stops at its own rejection. */
  lemma InvokeStops(lib: Library, c: Config, call: Call)
    ensures StopsAtFirstRejection(Invoke(lib, c, call), [call], lib)
  {
  }

  /** The server build makes its calls in the fixed order of `ServerCalls`:
      it succeeds when the library accepts all of them, and otherwise fails
      with exactly the first call the library rejects and that call's code. */
  lemma ServerBuildStopsAtFirstRejection(lib: Library, declaredThrow: bool, serverCertFile: string,
                                         privateKeyFile: string, pkPassword: Option<string>)
    ensures StopsAtFirstRejection(CreateDefaultServerConfig(lib, declaredThrow, serverCertFile, privateKeyFile, pkPassword),
                                  ServerCalls(serverCertFile, privateKeyFile, pkPassword), lib)
  {
  }

  /** The file-based client build aborts exactly at the first rejected call
      of `ClientFileCalls`. */
  lemma ClientFileBuildStopsAtFirstRejection(lib: Library, declaredThrow: bool,
                                             throwOnVerificationFailed: bool, caRootCertFile: Option<string>)
    ensures StopsAtFirstRejection(CreateDefaultClientConfigFromFile(lib, declaredThrow, throwOnVerificationFailed, caRootCertFile),
                                  ClientFileCalls(caRootCertFile), lib)
  {
  }

  /** The identity half of the memory build stops at the first rejection
      among the certificate parse, key parse (each only for a non-empty
      buffer) and the own-certificate binding. */
  lemma BindClientIdentityStops(lib: Library, c: Config, clientCert: seq<byte>, privateKey: seq<byte>)
    ensures StopsAtFirstRejection(BindClientIdentity(lib, c, clientCert, privateKey),
                                  WhenNonEmpty(clientCert, CrtParse(ClientCert, Terminated(clientCert)))
                                  + WhenNonEmpty(privateKey, PkParseKey(Terminated(privateKey), []))
                                  + [ConfOwnCert(ClientCert)], lib)
  {
    var certCalls := WhenNonEmpty(clientCert, CrtParse(ClientCert, Terminated(clientCert)));
    var keyCalls := WhenNonEmpty(privateKey, PkParseKey(Terminated(privateKey), []));
    var withCert := if |clientCert| > 0
      then Invoke(lib, c, CrtParse(ClientCert, Terminated(clientCert)))
      else Ok(c);
    if |clientCert| > 0 { InvokeStops(lib, c, CrtParse(ClientCert, Terminated(clientCert))); }
    if withCert.Ok? {
      var withKey := if |privateKey| > 0
        then Invoke(lib, withCert.value, PkParseKey(Terminated(privateKey), []))
        else Ok(withCert.value);
      if |privateKey| > 0 { InvokeStops(lib, withCert.value, PkParseKey(Terminated(privateKey), [])); }
      if withKey.Ok? {
        InvokeStops(lib, withKey.value, ConfOwnCert(ClientCert));
      }
      SequenceStops(withKey, if withKey.Ok? then Invoke(lib, withKey.value, ConfOwnCert(ClientCert)) else withKey,
                    keyCalls, [ConfOwnCert(ClientCert)], lib);
    }
  }

  /** The memory-based client build aborts exactly at the first rejected call
      of `ClientMemoryCalls`, however many of the buffers are empty. */
  lemma ClientMemoryBuildStopsAtFirstRejection(lib: Library, declaredThrow: bool,
                                                                  throwOnVerificationFailed: bool, caRootCert: seq<byte>,
                                                                  clientCert: seq<byte>, privateKey: seq<byte>)
    ensures StopsAtFirstRejection(CreateDefaultClientConfigFromMemory(lib, declaredThrow, throwOnVerificationFailed,
                                                                      caRootCert, clientCert, privateKey),
                                  ClientMemoryCalls(caRootCert, clientCert, privateKey), lib)
  {
    var seedCall := DrbgSeed([]);
    var defaultsCall := ConfigDefaults(IsClient, TransportStream, PresetDefault);
    var caCall := CrtParse(CaChain, Terminated(caRootCert));
    var caCalls := WhenNonEmpty(caRootCert, caCall);
    var tail := WhenNonEmpty(clientCert, CrtParse(ClientCert, Terminated(clientCert)))
                + WhenNonEmpty(privateKey, PkParseKey(Terminated(privateKey), []))
                + [ConfOwnCert(ClientCert)];

    // The stages of the build; a failed stage is passed on unchanged.
    var s0 := Create(lib, declaredThrow);
    var s1 := if s0.Ok? then Invoke(lib, s0.value.(throwOnVerificationFailed := throwOnVerificationFailed), defaultsCall) else s0;
    var s2 := if s1.Ok? then
                (if |caRootCert| > 0 then TrustCaChain(lib, s1.value, caCall) else Ok(s1.value.(authmode := VerifyNone)))
              else s1;
    var s3 := if s2.Ok? then BindClientIdentity(lib, s2.value.(rng := OwnCtrDrbg), clientCert, privateKey) else s2;

    assert s1.Ok? ==> StopsAtFirstRejection(s3, caCalls + tail, lib) by {
      if s1.Ok? {
        if |caRootCert| > 0 {
          InvokeStops(lib, s1.value, caCall);
        }
        if s2.Ok? {
          BindClientIdentityStops(lib, s2.value.(rng := OwnCtrDrbg), clientCert, privateKey);
        }
        SequenceStops(s2, s3, caCalls, tail, lib);
      }
    }
    assert s0.Ok? ==> StopsAtFirstRejection(s3, [defaultsCall] + (caCalls + tail), lib) by {
      if s0.Ok? {
        InvokeStops(lib, s0.value.(throwOnVerificationFailed := throwOnVerificationFailed), defaultsCall);
        SequenceStops(s1, s3, [defaultsCall], caCalls + tail, lib);
      }
    }
    assert StopsAtFirstRejection(s3, [seedCall] + ([defaultsCall] + (caCalls + tail)), lib) by {
      InvokeStops(lib, Initial(declaredThrow), seedCall);
      SequenceStops(s0, s3, [seedCall], [defaultsCall] + (caCalls + tail), lib);
    }
    assert [seedCall] + ([defaultsCall] + (caCalls + tail)) == ClientMemoryCalls(caRootCert, clientCert, privateKey);
    assert s3 == CreateDefaultClientConfigFromMemory(lib, declaredThrow, throwOnVerificationFailed,
                                                     caRootCert, clientCert, privateKey);
  }

  // ---------------------------------------------------------------------
  // Calls after the rejected one are never consulted

  /** Two outcomes that each stop at the first rejection of `calls`, under
      libraries that answer the issued calls alike, are equal when their
      successful configurations are. */
  lemma SameAnswersSameOutcome(r1: Result<Config, Failure>, r2: Result<Config, Failure>,
                               calls: seq<Call>, lib1: Library, lib2: Library)
    requires StopsAtFirstRejection(r1, calls, lib1) && StopsAtFirstRejection(r2, calls, lib2)
    requires forall i :: 0 <= i < Issued(calls, lib1) ==> lib1(calls[i]) == lib2(calls[i])
    requires r1.Ok? && r2.Ok? ==> r1.value == r2.value
    ensures r1 == r2
  {
    FirstRejectedReadsOnlyIssued(calls, lib1, lib2);
  }

  /** Whatever the library would answer to the server build's calls after
      the first rejected one cannot change the outcome: those calls are not
      made. */
  lemma ServerBuildReadsOnlyIssuedCalls(lib1: Library, lib2: Library, declaredThrow: bool, serverCertFile: string,
                                        privateKeyFile: string, pkPassword: Option<string>)
    requires var calls := ServerCalls(serverCertFile, privateKeyFile, pkPassword);
             forall i :: 0 <= i < Issued(calls, lib1) ==> lib1(calls[i]) == lib2(calls[i])
    ensures CreateDefaultServerConfig(lib1, declaredThrow, serverCertFile, privateKeyFile, pkPassword)
         == CreateDefaultServerConfig(lib2, declaredThrow, serverCertFile, privateKeyFile, pkPassword)
  {
    ServerBuildStopsAtFirstRejection(lib1, declaredThrow, serverCertFile, privateKeyFile, pkPassword);
    ServerBuildStopsAtFirstRejection(lib2, declaredThrow, serverCertFile, privateKeyFile, pkPassword);
    SameAnswersSameOutcome(CreateDefaultServerConfig(lib1, declaredThrow, serverCertFile, privateKeyFile, pkPassword),
                           CreateDefaultServerConfig(lib2, declaredThrow, serverCertFile, privateKeyFile, pkPassword),
                           ServerCalls(serverCertFile, privateKeyFile, pkPassword), lib1, lib2);
  }

  /** The file-based client build consults only the calls it issues. */
  lemma ClientFileBuildReadsOnlyIssuedCalls(lib1: Library, lib2: Library, declaredThrow: bool,
                                            throwOnVerificationFailed: bool, caRootCertFile: Option<string>)
    requires var calls := ClientFileCalls(caRootCertFile);
             forall i :: 0 <= i < Issued(calls, lib1) ==> lib1(calls[i]) == lib2(calls[i])
    ensures CreateDefaultClientConfigFromFile(lib1, declaredThrow, throwOnVerificationFailed, caRootCertFile)
         == CreateDefaultClientConfigFromFile(lib2, declaredThrow, throwOnVerificationFailed, caRootCertFile)
  {
    ClientFileBuildStopsAtFirstRejection(lib1, declaredThrow, throwOnVerificationFailed, caRootCertFile);
    ClientFileBuildStopsAtFirstRejection(lib2, declaredThrow, throwOnVerificationFailed, caRootCertFile);
    SameAnswersSameOutcome(CreateDefaultClientConfigFromFile(lib1, declaredThrow, throwOnVerificationFailed, caRootCertFile),
                           CreateDefaultClientConfigFromFile(lib2, declaredThrow, throwOnVerificationFailed, caRootCertFile),
                           ClientFileCalls(caRootCertFile), lib1, lib2);
  }

  /** The memory-based client build consults only the calls it issues. */
  lemma ClientMemoryBuildReadsOnlyIssuedCalls(lib1: Library, lib2: Library, declaredThrow: bool,
                                              throwOnVerificationFailed: bool, caRootCert: seq<byte>,
                                              clientCert: seq<byte>, privateKey: seq<byte>)
    requires var calls := ClientMemoryCalls(caRootCert, clientCert, privateKey);
             forall i :: 0 <= i < Issued(calls, lib1) ==> lib1(calls[i]) == lib2(calls[i])
    ensures CreateDefaultClientConfigFromMemory(lib1, declaredThrow, throwOnVerificationFailed, caRootCert, clientCert, privateKey)
         == CreateDefaultClientConfigFromMemory(lib2, declaredThrow, throwOnVerificationFailed, caRootCert, clientCert, privateKey)
  {
    var r1 := CreateDefaultClientConfigFromMemory(lib1, declaredThrow, throwOnVerificationFailed, caRootCert, clientCert, privateKey);
    var r2 := CreateDefaultClientConfigFromMemory(lib2, declaredThrow, throwOnVerificationFailed, caRootCert, clientCert, privateKey);
    ClientMemoryBuildStopsAtFirstRejection(lib1, declaredThrow, throwOnVerificationFailed, caRootCert, clientCert, privateKey);
    ClientMemoryBuildStopsAtFirstRejection(lib2, declaredThrow, throwOnVerificationFailed, caRootCert, clientCert, privateKey);
    if r1.Ok? && r2.Ok? {
      assert r1.value.authmode == r2.value.authmode;
    }
    SameAnswersSameOutcome(r1, r2, ClientMemoryCalls(caRootCert, clientCert, privateKey), lib1, lib2);
  }

  // ---------------------------------------------------------------------
  // The verification flag is stored, never interpreted

  /** Changing `throwOnVerificationFailed` changes nothing in the file-based
      client build but the stored flag, which the accessor hands back. */
  lemma ClientFileFlagIsOnlyStored(lib: Library, declaredThrow: bool, flag1: bool, flag2: bool,
                                   caRootCertFile: Option<string>)
    ensures var r1 := CreateDefaultClientConfigFromFile(lib, declaredThrow, flag1, caRootCertFile);
            var r2 := CreateDefaultClientConfigFromFile(lib, declaredThrow, flag2, caRootCertFile);
            && (r1.Ok? <==> r2.Ok?)
            && (r1.Err? ==> r1.error == r2.error)
            && (r1.Ok? ==> r1.value.(throwOnVerificationFailed := flag2) == r2.value)
            && (r1.Ok? ==> ShouldThrowOnVerificationFailed(r1.value) == flag1)
  {
  }

  /** Changing `throwOnVerificationFailed` changes nothing in the memory-based
      client build but the stored flag, which the accessor hands back. */
  lemma ClientMemoryFlagIsOnlyStored(lib: Library, declaredThrow: bool, flag1: bool, flag2: bool,
                                     caRootCert: seq<byte>, clientCert: seq<byte>, privateKey: seq<byte>)
    ensures var r1 := CreateDefaultClientConfigFromMemory(lib, declaredThrow, flag1, caRootCert, clientCert, privateKey);
            var r2 := CreateDefaultClientConfigFromMemory(lib, declaredThrow, flag2, caRootCert, clientCert, privateKey);
            && (r1.Ok? <==> r2.Ok?)
            && (r1.Err? ==> r1.error == r2.error)
            && (r1.Ok? ==> r1.value.(throwOnVerificationFailed := flag2) == r2.value)
            && (r1.Ok? ==> ShouldThrowOnVerificationFailed(r1.value) == flag1)
  {
    var r1 := CreateDefaultClientConfigFromMemory(lib, declaredThrow, flag1, caRootCert, clientCert, privateKey);
    var r2 := CreateDefaultClientConfigFromMemory(lib, declaredThrow, flag2, caRootCert, clientCert, privateKey);
    // Both builds issue the same calls to the same library, so they stop at
    // the same rejection; a success is pinned down field by field.
    ClientMemoryBuildStopsAtFirstRejection(lib, declaredThrow, flag1, caRootCert, clientCert, privateKey);
    ClientMemoryBuildStopsAtFirstRejection(lib, declaredThrow, flag2, caRootCert, clientCert, privateKey);
    if r1.Ok? {
      assert r1.value.authmode == r2.value.authmode;
    }
  }

  // ---------------------------------------------------------------------
  // Memory buffers

  /** `buf` is what a parser receives for the std::string `s`: `size() + 1`
      bytes, the string's bytes followed by a zero byte. */
  predicate ZeroTerminated(buf: seq<byte>, s: seq<byte>) {
    |buf| == |s| + 1 && buf[..|s|] == s && buf[|s|] == 0
  }

  /** In the memory-based client build a buffer is parsed exactly when it is
      non-empty, always from its zero-terminated form; an empty buffer is
      therefore never the cause of a failure. */
  lemma ClientMemoryParsesOnlyNonEmptyBuffers(lib: Library, declaredThrow: bool, throwOnVerificationFailed: bool,
                                              caRootCert: seq<byte>, clientCert: seq<byte>, privateKey: seq<byte>)
    ensures var calls := ClientMemoryCalls(caRootCert, clientCert, privateKey);
            && ((exists i :: 0 <= i < |calls| && calls[i].CrtParse? && calls[i].into == CaChain) <==> |caRootCert| > 0)
            && ((exists i :: 0 <= i < |calls| && calls[i].CrtParse? && calls[i].into == ClientCert) <==> |clientCert| > 0)
            && ((exists i :: 0 <= i < |calls| && calls[i].PkParseKey?) <==> |privateKey| > 0)
            && (forall i :: 0 <= i < |calls| && calls[i].CrtParse? && calls[i].into == CaChain ==>
                  calls[i].buf == Terminated(caRootCert) && ZeroTerminated(calls[i].buf, caRootCert))
            && (forall i :: 0 <= i < |calls| && calls[i].CrtParse? && calls[i].into == ClientCert ==>
                  calls[i].buf == Terminated(clientCert) && ZeroTerminated(calls[i].buf, clientCert))
            && (forall i :: 0 <= i < |calls| && calls[i].PkParseKey? ==>
                  calls[i].keyBuf == Terminated(privateKey) && ZeroTerminated(calls[i].keyBuf, privateKey)
                  && calls[i].keyPassword == [])
    ensures var r := CreateDefaultClientConfigFromMemory(lib, declaredThrow, throwOnVerificationFailed,
                                                         caRootCert, clientCert, privateKey);
            && (|caRootCert| == 0 && r.Err? ==> !(r.error.call.CrtParse? && r.error.call.into == CaChain))
            && (|clientCert| == 0 && r.Err? ==> !(r.error.call.CrtParse? && r.error.call.into == ClientCert))
            && (|privateKey| == 0 && r.Err? ==> !r.error.call.PkParseKey?)
  {
    var calls := ClientMemoryCalls(caRootCert, clientCert, privateKey);
    var ca := WhenNonEmpty(caRootCert, CrtParse(CaChain, Terminated(caRootCert)));
    var cert := WhenNonEmpty(clientCert, CrtParse(ClientCert, Terminated(clientCert)));
    var key := WhenNonEmpty(privateKey, PkParseKey(Terminated(privateKey), []));
    var head := [DrbgSeed([]), ConfigDefaults(IsClient, TransportStream, PresetDefault)];
    assert calls == head + ca + cert + key + [ConfOwnCert(ClientCert)];
    if |caRootCert| > 0 { assert calls[2] == ca[0]; }
    if |clientCert| > 0 { assert calls[2 + |ca|] == cert[0]; }
    if |privateKey| > 0 { assert calls[2 + |ca| + |cert|] == key[0]; }
    forall i | 0 <= i < |calls|
      ensures calls[i].CrtParse? && calls[i].into == CaChain ==> |caRootCert| > 0 && calls[i] == ca[0]
      ensures calls[i].CrtParse? && calls[i].into == ClientCert ==> |clientCert| > 0 && calls[i] == cert[0]
      ensures calls[i].PkParseKey? ==> |privateKey| > 0 && calls[i] == key[0]
    {
      if i < 2 {
        assert calls[i] == head[i];
      } else if i < 2 + |ca| {
        assert calls[i] == ca[i - 2];
      } else if i < 2 + |ca| + |cert| {
        assert calls[i] == cert[i - 2 - |ca|];
      } else if i < 2 + |ca| + |cert| + |key| {
        assert calls[i] == key[i - 2 - |ca| - |cert|];
      }
    }
  }

  /** The memory-based client build always attempts to bind m_clientcert and
      m_privateKey as its own certificate, last, even with every buffer
      empty; with every buffer empty it succeeds exactly when seeding, the
      defaults and that binding are accepted. */
  lemma ClientMemoryAlwaysBindsOwnCert(lib: Library, declaredThrow: bool, throwOnVerificationFailed: bool,
                                       caRootCert: seq<byte>, clientCert: seq<byte>, privateKey: seq<byte>)
    ensures var calls := ClientMemoryCalls(caRootCert, clientCert, privateKey);
            |calls| >= 3 && calls[|calls| - 1] == ConfOwnCert(ClientCert)
    ensures |caRootCert| == 0 && |clientCert| == 0 && |privateKey| == 0 ==>
            var r := CreateDefaultClientConfigFromMemory(lib, declaredThrow, throwOnVerificationFailed,
                                                         caRootCert, clientCert, privateKey);
            (r.Ok? <==> lib(DrbgSeed([])) == 0 && lib(ConfigDefaults(IsClient, TransportStream, PresetDefault)) == 0
                        && lib(ConfOwnCert(ClientCert)) == 0)
  {
    var calls := ClientMemoryCalls(caRootCert, clientCert, privateKey);
    if |caRootCert| == 0 && |clientCert| == 0 && |privateKey| == 0 {
      assert calls == [DrbgSeed([]), ConfigDefaults(IsClient, TransportStream, PresetDefault), ConfOwnCert(ClientCert)];
    }
  }

  // ---------------------------------------------------------------------
  // One verification rule for both client builds

  /** Given CA material in the one build exactly when it is given in the
      other, the file-based and memory-based client builds agree on the
      verification mode and on whether a chain is installed. */
  lemma ClientBuildsShareVerificationRule(lib: Library, declaredThrow: bool, throwOnVerificationFailed: bool,
                                          caRootCertFile: Option<string>, caRootCert: seq<byte>,
                                          clientCert: seq<byte>, privateKey: seq<byte>)
    requires caRootCertFile.Some? <==> |caRootCert| > 0
    ensures var fromFile := CreateDefaultClientConfigFromFile(lib, declaredThrow, throwOnVerificationFailed, caRootCertFile);
            var fromMemory := CreateDefaultClientConfigFromMemory(lib, declaredThrow, throwOnVerificationFailed,
                                                                  caRootCert, clientCert, privateKey);
            fromFile.Ok? && fromMemory.Ok? ==>
              && fromFile.value.authmode == fromMemory.value.authmode
              && fromFile.value.caChainInstalled == fromMemory.value.caChainInstalled
              && (GetCAChain(fromFile.value).Parsed? <==> GetCAChain(fromMemory.value).Parsed?)
  {
  }

  // ---------------------------------------------------------------------
  // Accessors

  /** After a server build the accessors expose the parsed server
      certificate and key, and an empty CA chain. */
  lemma ServerAccessors(lib: Library, declaredThrow: bool, serverCertFile: string,
                        privateKeyFile: string, pkPassword: Option<string>)
    ensures var r := CreateDefaultServerConfig(lib, declaredThrow, serverCertFile, privateKeyFile, pkPassword);
            r.Ok? ==>
              && GetServerCertificate(r.value) == Parsed(File(serverCertFile))
              && GetPrivateKey(r.value) == Parsed(File(privateKeyFile))
              && GetCAChain(r.value) == Empty
              && ShouldThrowOnVerificationFailed(r.value) == declaredThrow
  {
  }

  /** After a memory-based client build the server-certificate accessor
      returns the untouched m_srvcert, because the client certificate went
      to m_clientcert; the CA chain and key accessors return what the
      non-empty buffers were parsed from. */
  lemma ClientMemoryAccessors(lib: Library, declaredThrow: bool, throwOnVerificationFailed: bool,
                              caRootCert: seq<byte>, clientCert: seq<byte>, privateKey: seq<byte>)
    ensures var r := CreateDefaultClientConfigFromMemory(lib, declaredThrow, throwOnVerificationFailed,
                                                         caRootCert, clientCert, privateKey);
            r.Ok? ==>
              && GetServerCertificate(r.value) == Empty
              && GetCAChain(r.value) == LoadedFrom(caRootCert)
              && GetPrivateKey(r.value) == LoadedFrom(privateKey)
              && ShouldThrowOnVerificationFailed(r.value) == throwOnVerificationFailed
  {
  }

  /** After a file-based client build the CA-chain accessor returns the
      parsed CA file when one was named and the untouched context otherwise;
      no server certificate or key is loaded. */
  lemma ClientFileAccessors(lib: Library, declaredThrow: bool, throwOnVerificationFailed: bool,
                            caRootCertFile: Option<string>)
    ensures var r := CreateDefaultClientConfigFromFile(lib, declaredThrow, throwOnVerificationFailed, caRootCertFile);
            r.Ok? ==>
              && GetCAChain(r.value) == (match caRootCertFile case Some(path) => Parsed(File(path)) case None => Empty)
              && GetServerCertificate(r.value) == Empty
              && GetPrivateKey(r.value) == Empty
              && ShouldThrowOnVerificationFailed(r.value) == throwOnVerificationFailed
  {
  }
}
