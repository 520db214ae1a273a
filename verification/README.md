# oatpp-mbedtls TLS configuration builder, in Dafny

This project models `oatpp::mbedtls::Config`, the object that prepares an
mbedtls SSL configuration before any handshake: it owns an entropy context,
a CTR_DRBG, three certificate contexts (`m_srvcert`, `m_clientcert`,
`m_cachain`) and a private key context, and three factories fill them in:

- a **server** configuration from a certificate file, a key file and an
  optional key passphrase;
- a **client** configuration from an optional CA file;
- a **client** configuration from in-memory CA, client-certificate and
  private-key strings.

Each factory is a fixed sequence of mbedtls calls. A non-zero result from
any call throws, and no configuration is returned. Between the calls the
factories make a few policy decisions:

- peer verification is `REQUIRED` with the CA chain installed when CA
  material is given, and `NONE` otherwise;
- an empty in-memory string is skipped, never parsed;
- the memory build always attempts the own-certificate binding;
- the `throwOnVerificationFailed` flag is stored unchanged.

The cryptography lives in mbedtls and is not modelled. Every fallible mbedtls
call is a `Call` value that carries the arguments the builder passes. A
`Library` oracle (`Call -> int`) supplies its result code, and the oracle is
an input of every build.

Layout:

- `wrappers.dfy`: `Option` and `Result`.
- `mbedtls.dfy`: module `Mbedtls`, the calls, the oracle type, and
  `FirstRejected`, the first call of a list that the oracle rejects.
- `config.dfy`: module `TlsConfig`, the `Config` record, the constructor,
  the three factories, the flat list of calls each factory makes, and the
  accessors.
- `properties.dfy`: module `TlsConfigProperties`, lemmas that relate
  several builds, or a build to its list of calls.

Each factory is written the way the C++ is, as a chain of `:-` steps. Its
independent partner is its flat list of calls in source order, such as
`ServerCalls`. The `...StopsAtFirstRejection` lemmas prove that the build
returns exactly the first rejected call of that list and its code, and
succeeds when there is none. The `...ReadsOnlyIssuedCalls` lemmas prove that
answers to calls after the rejected one cannot change the outcome, which is
the pure-function form of "later steps do not run".

## Model

| member | source | states |
|---|---|---|
| Mbedtls.FirstRejected | src/oatpp-mbedtls/Config.cpp:94-118 | the index found is a rejected call preceded only by accepted calls; none is found exactly when every call is accepted |
| Mbedtls.FirstRejectedReadsOnlyIssued | src/oatpp-mbedtls/Config.cpp:94-118 | two oracles that answer the issued calls (up to and including the first rejection) alike find the same rejection: answers to later calls are never consulted |
| TlsConfig.Create | src/oatpp-mbedtls/Config.cpp:47-64 | construction fails exactly when seeding the DRBG with no personalisation string (an empty one) is rejected, and the error carries that call and its code; on success the DRBG is seeded with the empty personalisation and nothing else is configured or loaded |
| TlsConfig.StoreCert | src/oatpp-mbedtls/Config.cpp:178-199 | parsing into a certificate context fills that context and leaves the other two contexts and every other setting unchanged |
| TlsConfig.CreateDefaultServerConfig | src/oatpp-mbedtls/Config.cpp:85-122 | success exactly when every server call is accepted; a success holds the cert file in m_srvcert and the key file in m_privateKey, bound as own certificate, with server/stream/default defaults and the RNG bound to the own DRBG; authmode is never set, no CA chain is installed, m_cachain and m_clientcert stay empty; a failure names one of the server calls with a non-zero code |
| TlsConfig.CreateDefaultClientConfigFromFile | src/oatpp-mbedtls/Config.cpp:124-159 | success exactly when every call is accepted; authmode is REQUIRED if and only if a CA file was given, then with that file parsed into m_cachain and installed, otherwise NONE with nothing installed; the flag is stored; no own certificate or key; the RNG is bound to the own DRBG |
| TlsConfig.CreateDefaultClientConfigFromMemory | src/oatpp-mbedtls/Config.cpp:161-218 | success exactly when every call is accepted; authmode is REQUIRED if and only if the CA string is non-empty; each slot holds its string plus terminating zero when non-empty and stays empty otherwise; m_clientcert is bound as own certificate and m_srvcert stays empty; a rejected own-cert binding always fails the build |
| TlsConfigProperties.ServerBuildStopsAtFirstRejection | src/oatpp-mbedtls/Config.cpp:94-118 | the server build makes seed, cert parse, key parse with the passphrase, server/stream defaults, then own-cert binding, in that order; it fails with exactly the first rejected call and its code, and succeeds when none is rejected |
| TlsConfigProperties.ClientFileBuildStopsAtFirstRejection | src/oatpp-mbedtls/Config.cpp:136-155 | the file client build makes seed, client/stream defaults, then the CA file parse only for a non-null path; it fails with exactly the first rejected call |
| TlsConfigProperties.BindClientIdentityStops | src/oatpp-mbedtls/Config.cpp:192-215 | the identity part of the memory build parses the certificate, then the key (each only when non-empty), then binds the own certificate, and stops at the first rejection among them |
| TlsConfigProperties.ClientMemoryBuildStopsAtFirstRejection | src/oatpp-mbedtls/Config.cpp:172-215 | the memory client build fails with exactly the first rejected call of its call list, whichever strings are empty, and succeeds when none is rejected |
| TlsConfigProperties.ServerBuildReadsOnlyIssuedCalls | src/oatpp-mbedtls/Config.cpp:94-118 | oracles that agree on the calls the server build issues give the same outcome: calls after the first rejection are never made |
| TlsConfigProperties.ClientFileBuildReadsOnlyIssuedCalls | src/oatpp-mbedtls/Config.cpp:136-155 | the same for the file client build |
| TlsConfigProperties.ClientMemoryBuildReadsOnlyIssuedCalls | src/oatpp-mbedtls/Config.cpp:172-215 | the same for the memory client build |
| TlsConfigProperties.ClientFileFlagIsOnlyStored | src/oatpp-mbedtls/Config.cpp:124-159 | changing throwOnVerificationFailed changes neither success, nor the error, nor any field but the stored flag, and shouldThrowOnVerificationFailed returns the flag given |
| TlsConfigProperties.ClientMemoryFlagIsOnlyStored | src/oatpp-mbedtls/Config.cpp:161-218 | the same for the memory client build |
| TlsConfigProperties.ClientMemoryParsesOnlyNonEmptyBuffers | src/oatpp-mbedtls/Config.cpp:178-209 | a parse call for each string is made if and only if the string is non-empty; the buffer it gets is size()+1 bytes, the string's bytes followed by a zero byte (the key with an empty password); a failure is never caused by parsing an empty string |
| TlsConfigProperties.ClientMemoryAlwaysBindsOwnCert | src/oatpp-mbedtls/Config.cpp:211-215 | the own-cert binding of m_clientcert is always the last call, whatever strings were supplied; with all strings empty the build succeeds exactly when seeding, defaults and that binding are accepted |
| TlsConfigProperties.ClientBuildsShareVerificationRule | src/oatpp-mbedtls/Config.cpp:143-188 | when CA material is given to both client builds or to neither, they agree on authmode, on whether a chain is installed, and on whether the CA chain accessor shows a parsed chain |
| TlsConfigProperties.ServerAccessors | src/oatpp-mbedtls/Config.cpp:232-246 | after a server build, getServerCertificate and getPrivateKey show the parsed files, getCAChain shows an empty chain, and the flag keeps its declared initial value |
| TlsConfigProperties.ClientFileAccessors | src/oatpp-mbedtls/Config.cpp:232-246 | after a file client build, getCAChain shows the parsed CA file if one was named and an empty chain otherwise, no server certificate or key is loaded, and the flag is the one given |
| TlsConfigProperties.ClientMemoryAccessors | src/oatpp-mbedtls/Config.cpp:232-246 | after a memory client build, getServerCertificate shows an empty m_srvcert, getCAChain and getPrivateKey show what the non-empty strings were parsed from, and the flag is the one given |

## Notes on the code

- Config.cpp:211 calls `mbedtls_ssl_conf_own_cert` on m_clientcert and
  m_privateKey unconditionally, even when all three strings are empty, so
  neither context has been parsed. mbedtls decides whether that call
  succeeds. The model makes the result an oracle answer and does not claim
  the call fails.
- Each failed step throws a `std::runtime_error` with a message naming that
  step. The model's `Failure` records the rejected call, with its
  arguments, and the result code.
- No lock guards `m_ctr_drbg`. The configuration hands the DRBG to the SSL
  configuration as is (Config.cpp:112, 155, 190).

## Left out

- X.509 certificate parsing, PEM/DER decoding and private-key parsing (RFC 5280, RFC 7468): foreign library code; their outcomes are oracle result codes.
- Whether `mbedtls_ssl_conf_own_cert` rejects a mismatched or incomplete pair: decided inside mbedtls; an oracle answer.
- The authmode that `mbedtls_ssl_config_defaults` chooses for each role: library internals. `Unset` stands for "no explicit call was made".
- CTR_DRBG and the entropy source (NIST SP 800-90A): cryptographic primitives. The model records only that seeding used the owned entropy context with an empty personalisation, and that the SSL configuration's RNG is bound to this DRBG.
- The initial value of `m_throwOnVerificationFailed`: it is declared in Config.hpp, which is not part of this model. It is the parameter `declaredThrow`.
- Null server certificate and key paths: modelled as strings, because what mbedtls does with a null path is library behaviour. The key passphrase and the client CA path are nullable in the source and are `Option` here.
- The destructor, `createShared` and `shared_ptr` ownership: resource management with no stateable logic.
- `getTLSConfig`, `getEntropy` and `getCTR_DRBG`: they return pointers to the contexts. The record's fields are those contexts.
- The `OATPP_MBEDTLS_DEBUG` debug hook and all logging: side channels.
- The exception message texts: only which call failed, and its code, are kept.
- Concurrency, and whether a file-sourced CA chain and the same chain supplied in memory accept the same peers: there is no handshake here to state that against.
- test/oatpp-mbedtls/tests.cpp: networked integration tests and an object-leak count, with no logic to model.
