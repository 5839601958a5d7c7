# Camlistore client configuration resolver, in Dafny

This project models `pkg/client/config.go` of Camlistore. That file is the client-side resolver that decides:

- which blob server to talk to (`cleanServer`, `serverOrDie`, `ExplicitServer`, `useTLS`);
- how to authenticate (`SetupAuth`, `SetupAuthFromConfig`);
- which secret keyring and signer public key represent the local user (`SecretRingFile`, `getSignerPublicKeyBlobref` and its once-cache);
- which certificate fingerprints are trusted (`initTrustedCerts`, `GetTrustedCerts`).

The model has two layers.

- **Pure functions.** Each decision is a function of the loaded configuration, the filesystem and the environment. The modules are `Server`, `Auth`, `Identity`, `Trust` and `ConfigStore`. Their contracts and lemmas state the resolver's properties.
- **Classes.** The package-level state is class `ClientConfig.Process`: `configOnce`/`config`/`parseConfigErr`, `signerPublicKeyRefOnce`/`signerPublicKeyRef` and `initTrustedCertsOnce`, together with the filesystem. The per-client fields `server`, `authMode` and `trustedCerts` are class `ClientConfig.Client`. Their methods follow the Go code step by step, including the early returns and the `range` loop. Each is proved equal to the pure functions applied to the configuration: the one a first load in that call produces from the filesystem, or the one cached by an earlier load. A configuration loaded earlier is never changed, and a method ends the process only when its own load is the first one and the file is malformed (or, for `serverOrDie`, through its own fatal outcomes).

Other modelling choices:

- Each `sync.Once` is a "done" flag beside its cached value.
- `log.Fatal`, `log.Fatalf` and the panic of a failed `value.(string)` assertion end the process. The model records this in `Process.exited`, and no method may be called after that.
- The filesystem is a map from path to contents plus a set of directories. `os.Stat` succeeds when a path is in either.
- The foreign calls are fields of function type in `Host.Collaborators` and `Host.Environment`. These are JSON parsing, `auth.FromEnv` and `auth.FromConfig`, keyring lookup, armoring, SHA-1, `filepath.Join`, the success of `ioutil.WriteFile`, and the two standard keyring paths. The model assumes nothing about them.

Where the code behaves differently from what its names and comments suggest, the model follows the code:

- **`cleanServer` is not idempotent and may leave a trailing slash.** `"a//"` cleans to `"https://a/"`, and cleaning that again gives `"https://a"` (`Server.CleanServerNotIdempotent`). Re-cleaning is a no-op exactly when the first result has no trailing slash (`Server.CleanServerTwice`).
- **The scheme test checks for the prefix "http", not for a scheme.** A host such as `httpbin.org` is left without a scheme (`Server.CleanServerHostBeginningWithHttp`).
- **A present but empty `"server"` entry is not fatal.** It resolves to `"https://"`. The emptiness test in `serverOrDie` runs after cleaning, and a cleaned value is never empty (`Server.EmptyServerEntryAccepted`).
- **The `CAMLI_TRUSTED_CERT` value is used verbatim.** It is not lower-cased (`Trust.EnvironmentCertNotLowercased`).
- **The trusted-certificate once-guard is package-wide, but the field it fills is per client.** Only the first client that calls `GetTrustedCerts` is initialised (`ClientConfig.SecondClientGetsNoTrustedCerts`).
- **The trusted-certificate list stops at its first non-string element and keeps what came before.** The code does exactly this, and the model does the same (`Trust.LoweredStringPrefixIgnoresTail`).

## Model

| member | source | states |
|---|---|---|
| `Server.ExplicitServer` | pkg/client/config.go:46-52 | the flag's value when flags are registered, "" otherwise |
| `Server.HasExplicitServer` | pkg/client/config.go:89 | the override guard used by `serverOrDie` and `SetupAuth` holds exactly when `ExplicitServer` is non-empty |
| `Host.Exists` | pkg/client/config.go:155-158 | `fileExists` (and the direct `os.Stat` tests at lines 64, 210 and 219): a path exists exactly when it is a regular file or a directory |
| `ConfigStore.ParseConfig` | pkg/client/config.go:62-74 | an absent file is "not configured" (not fatal); an existing file either parses to the returned object or is fatal (a directory or a parse failure) |
| `ClientConfig.Process.constructor` | pkg/client/config.go:58-60 | at start-up no once-guard has fired, `config` is the empty map, and the environment, collaborators and filesystem are the given ones |
| `ConfigStore.ConfigAfterLoad` | pkg/client/config.go:59-73 | the package `config` after a non-fatal load: the parsed object, or the initial empty map when the file is absent |
| `ClientConfig.Process.LoadConfig` | pkg/client/config.go:58-74 | `configOnce.Do(parseConfig)`: the first call loads the file and records not-configured, fatal or the parsed map; every later call changes nothing, so the configuration is never reloaded |
| `Server.DropTrailingSlash` | pkg/client/config.go:77-80 | at most one trailing "/" is removed, and only when there is one |
| `Server.CleanServer` | pkg/client/config.go:76-86 | the result starts with "http" and ends with the slash-stripped input; "https://" is prepended exactly when the stripped input lacks the "http" prefix |
| `Server.CleanServerFixedPoints` | pkg/client/config.go:76-86 | a value with an "http" prefix and no trailing slash is left unchanged |
| `Server.CleanServerTwice` | pkg/client/config.go:76-86 | cleaning twice equals cleaning once if and only if the first result does not end in "/" |
| `Server.CleanServerNotIdempotent` | pkg/client/config.go:76-86 | "a//" cleans to "https://a/", which cleans again to "https://a" |
| `Server.CleanServerOfEmpty` | pkg/client/config.go:76-86 | the empty value cleans to "https://" |
| `Server.CleanServerHostBeginningWithHttp` | pkg/client/config.go:81-84 | "httpbin.org" is left as it is and does not use TLS |
| `Server.ResolveServer` | pkg/client/config.go:88-103 | a non-empty flag wins without reading the configuration; otherwise a missing "server" is fatal, a non-string one panics, and a string (even "") is cleaned and accepted; a resolved URL starts with "http" |
| `Server.EmptyServerEntryAccepted` | pkg/client/config.go:93-101 | `"server": ""` resolves to "https://" instead of failing |
| `ClientConfig.Process.ServerOrDie` | pkg/client/config.go:88-103 | with a non-empty flag the process state is untouched; otherwise the configuration is loaded once (a first load fixes `config` from the file), the result is `ResolveServer` on it unless that first load was fatal, and every non-URL outcome ends the process |
| `ClientConfig.ConfigServerEntryResolves` | pkg/client/config.go:92-102 | a file parsed to `"server": "x"` loads as that object, which resolves to "https://x" when no flag overrides it |
| `ClientConfig.ServerFromFirstLoad` | pkg/client/config.go:92-102 | a fresh process whose file holds `"server": "x"` resolves "https://x" on the loading call and the same URL from the cache on the next |
| `Server.BareHostUsesTLS` | pkg/client/config.go:105-107 | any value whose slash-stripped form lacks "http" cleans to an address for which `useTLS` holds |
| `Server.PlainHttpStaysPlain` | pkg/client/config.go:105-107 | an "http://" address cleans to one for which `useTLS` is false |
| `Server.UsesTLS` | pkg/client/config.go:105-107 | an address passing the `useTLS` test is http-like and is never given a second scheme by cleaning |
| `ClientConfig.Client.UseTLS` | pkg/client/config.go:105-107 | a client's `useTLS` is that test on its stored server string |
| `ClientConfig.BareHostClientUsesTLS` | pkg/client/config.go:105-107 | a client whose server is a cleaned bare host uses TLS |
| `ConfigValue.StringAt` | pkg/client/config.go:178 | the comma-ok string assertion (also at lines 145, 183, 205): a string exactly when the key is present and holds one |
| `ConfigValue.ListAt` | pkg/client/config.go:250 | the comma-ok list assertion: the elements exactly when the key is present and holds a JSON array |
| `Auth.AuthStringOf` | pkg/client/config.go:128-131 | a string "auth" entry is passed on as it is; any other value becomes "" |
| `ClientConfig.Client.SetupAuthFromConfig` | pkg/client/config.go:125-136 | with an "auth" key, the mode and error are those of `FromConfig` on its string (or ""); without one, those of `FromEnv`; the error is returned unchanged |
| `ClientConfig.Client.SetupAuth` | pkg/client/config.go:109-123 | with an explicit server the mode and error (`ErrNoAuth` included) are `FromEnv`'s and the configuration is neither loaded nor read; otherwise the configuration is loaded once, the process ends only if this first load finds the file malformed, and the loaded configuration decides as in `SetupAuthFromConfig` |
| `Identity.SecretRingPath` | pkg/client/config.go:143-153 | a non-empty string "secretRing" wins, else the identity ring if it exists, else the default path without an existence check |
| `ClientConfig.Client.SecretRingFile` | pkg/client/config.go:143-153 | loads the configuration once (ending the process only on a malformed first load) and returns `SecretRingPath` of it and the filesystem |
| `Identity.SignerRing` | pkg/client/config.go:183-193 | any string "secretRing" (even "") is used; otherwise the first existing of the identity and default rings; none when neither exists |
| `Identity.SignerRingAgreesWithSecretRingFile` | pkg/client/config.go:183-193 | the signer's keyring equals `SecretRingFile`'s whenever the signer finds one and "secretRing" is not the empty string |
| `Identity.ArmoredKey` | pkg/client/config.go:175-203 | an armored key exists exactly when "keyId" is a string, a keyring is found, the entity lookup succeeds and armoring succeeds |
| `Identity.KeyDir` | pkg/client/config.go:205-214 | "selfPubKeyDir" is used only when it is a string naming an existing directory |
| `Identity.PublishSigner` | pkg/client/config.go:175-229 | every failing step returns nil and writes nothing; success returns the SHA-1 of the armored key; the key file exists afterwards; no existing file is changed; only the key file can appear, holding the armored key, and only when it was absent |
| `Identity.NoKeyIdNoIdentity` | pkg/client/config.go:176-182 | without a string "keyId" the result is nil and the filesystem is unchanged |
| `Identity.PublishSignerIdempotent` | pkg/client/config.go:216-228 | a second run on the filesystem left by the first returns the same blobref and writes nothing |
| `ClientConfig.Process.GetSignerPublicKeyBlobref` | pkg/client/config.go:175-229 | loads the configuration once (ending the process only on a malformed first load); the returned blobref and the new filesystem are `PublishSigner` of that configuration and the old filesystem; the filesystem only grows |
| `ClientConfig.Process.SignerPublicKeyBlobref` | pkg/client/config.go:160-173 | the first call loads the configuration once, resolves as `PublishSigner` and caches; later calls return the cached value and change nothing; the filesystem only grows; a cached blobref's key file stays present (object invariant) |
| `ClientConfig.Client.SignerPublicKeyBlobref` | pkg/client/config.go:138-141 | forwards to the process-wide cache: the guard is set, the result is the cached value, a first call loads once and resolves as `PublishSigner`, and the filesystem only grows |
| `Trust.LowerAscii` | pkg/client/config.go:260 | the lower-cased string has the same length, no upper-case letter, and every other character unchanged |
| `Trust.LowerAsciiIdempotent` | pkg/client/config.go:260 | lower-casing twice is lower-casing once |
| `Trust.LoweredStringPrefix` | pkg/client/config.go:254-261 | the result lower-cases the leading run of string elements, and the element after that run, if any, is not a string |
| `Trust.LoweredStringPrefixUnique` | pkg/client/config.go:254-261 | any list with those three properties is `LoweredStringPrefix` |
| `Trust.LoweredStringPrefixIgnoresTail` | pkg/client/config.go:254-259 | elements after the first non-string never affect the result |
| `Trust.TrustedCertsFrom` | pkg/client/config.go:243-262 | a non-empty environment value gives exactly that value, verbatim; otherwise a non-list "trustedCerts" gives []; otherwise the lower-cased leading run of strings, all lower-case |
| `Trust.TrustedCertsLowercased` | pkg/client/config.go:248-261 | `"trustedCerts": ["ABC123"]` gives ["abc123"] |
| `Trust.TrustedCertsStopAtNonString` | pkg/client/config.go:254-259 | ["AB", 5, "CD"] gives ["ab"] |
| `Trust.EnvironmentCertNotLowercased` | pkg/client/config.go:244-247 | the environment value "ABC" is kept as "ABC" |
| `ClientConfig.Client.InitTrustedCerts` | pkg/client/config.go:243-262 | the loop leaves `trustedCerts` equal to `TrustedCertsFrom` of the environment and the configuration, loaded once; with the environment value set, the configuration is not loaded |
| `ClientConfig.Client.GetTrustedCerts` | pkg/client/config.go:264-267 | the first call in the process initialises the calling client (loading the configuration once when the environment value is empty; when it is set, neither loading nor changing the configuration and never ending the process); every later call, on any client, returns that client's field unchanged |
| `ClientConfig.ServerAfterEnvironmentCerts` | pkg/client/config.go:243-246 | with `CAMLI_TRUSTED_CERT` set the first client gets that value and the configuration stays unloaded, so a later `serverOrDie` loads it and resolves "https://x" |
| `ClientConfig.TrustedCertsFromFirstLoad` | pkg/client/config.go:243-267 | a fresh process whose file lists ["AB", 5, "CD"] gives its first client ["ab"] |
| `ClientConfig.SecondClientGetsNoTrustedCerts` | pkg/client/config.go:241-267 | with the environment value set, the first client gets it and a second client of the same process gets [] |

## Left out

- `AddFlags` and `ConfigFilePath` (pkg/client/config.go:41-44, 54-56) are flag registration and directory lookup. The flag value and the configuration path are inputs (`Host.Environment.flagServer`, `Host.Collaborators.configPath`).
- The JSON grammar of the configuration file is not modelled. `jsonconfig.ReadFile` is the function `parseJson`, and its failure is the fatal outcome.
- The internals of `auth.FromEnv` and `auth.FromConfig` are not modelled. The first is a fixed result in `Host.Environment`; the second is an uninterpreted function.
- The OpenPGP work (`jsonsign.EntityFromSecring`, `jsonsign.ArmoredPublicKey`), SHA-1 hashing, `filepath.Join`, and the `osutil`/`jsonsign` default keyring paths are not modelled. Each is an uninterpreted function or value. The keyring lookup depends on the key id and the ring path, not on the ring file's bytes.
- The concurrency guarantees of `sync.Once` are not modelled. Each guard is a sequential flag.
- `log.Printf` output is dropped. `log.Fatal` and panics become `Process.exited`.
- `GetBlobFetcher` (pkg/client/config.go:231-234) is a one-line wrapper around another package and is not modelled.
- `os.Stat` failures other than "does not exist" (permissions, I/O errors) are not modelled. The model's filesystem has no permissions.
- A failed `ioutil.WriteFile` is modelled as writing nothing. A partially written file is not represented.
- Go's distinction between a nil slice and an empty slice for `trustedCerts` is not kept. Both are `[]`.
- `Trust.LowerAscii` lower-cases ASCII letters only. `strings.ToLower` also maps non-ASCII letters, which certificate fingerprints (hex digits) do not contain.
- `Identity.PublishSignerIdempotent` assumes the key file's path is not one of the two probed keyring paths. If it were, writing the key file would change which keyring a second run opens.
- dev/devcam/doc.go holds package documentation only, with no logic to model.
