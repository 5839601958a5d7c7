/** The stateful half of `pkg/client/config.go`: the package-level state
    guarded by `sync.Once` values (class `Process`) and the per-client
    fields (class `Client`). Each once-guard is a "done" flag beside the
    cached value; `log.Fatal` and a panic end the process, which the model
    records in `exited`. */
module ClientConfig {
  import opened Wrappers
  import opened ConfigValue
  import opened Auth
  import opened Host
  import opened ConfigStore
  import opened Server
  import opened Identity
  import opened Trust

  /** The package-level variables of one process, with the filesystem and
      the environment it runs in. */
  class Process {
    const env: Environment
    const sys: Collaborators
    var fs: FileSystem

    // configOnce, config, parseConfigErr (only ever os.ErrNotExist)
    var configDone: bool
    var config: ConfigObj
    var notConfigured: bool

    // log.Fatal or a panic has ended the process
    var exited: bool

    // signerPublicKeyRefOnce, signerPublicKeyRef
    var signerRefDone: bool
    var signerRef: Option<BlobRef>

    // initTrustedCertsOnce: one flag for the whole package
    var trustedCertsDone: bool

    /** The once-guards' invariants: nothing is set before its guard fires,
        and a resolved signer key is published in the key directory. */
    ghost predicate Valid()
      reads this
    {
      && (!configDone ==> config == map[] && !notConfigured && !exited)
      && (notConfigured ==> config == map[])
      && (signerRefDone ==> configDone)
      && (signerRef.Some? ==>
            && signerRefDone
            && KeyDir(config, fs).Some?
            && Exists(fs, PubKeyPath(KeyDir(config, fs).value, signerRef.value, sys)))
    }

    /** A process at start-up: no guard has fired, `config` is the empty map. */
    constructor (env: Environment, sys: Collaborators, fs: FileSystem)
      ensures Valid()
      ensures this.env == env && this.sys == sys && this.fs == fs
      ensures !configDone && !signerRefDone && !trustedCertsDone && !exited
      ensures config == map[] && signerRef == None
    {
      this.env := env;
      this.sys := sys;
      this.fs := fs;
      configDone, config, notConfigured := false, map[], false;
      exited := false;
      signerRefDone, signerRef := false, None;
      trustedCertsDone := false;
    }

    /** The outcome of `parseConfig` on the filesystem `fs0`. */
    function FirstLoad(fs0: FileSystem): LoadOutcome {
      ParseConfig(fs0, sys.configPath, sys.parseJson)
    }

    /** Across a call that fires `configOnce`: a configuration loaded
        earlier is kept as it was; otherwise the load done during the call,
        on the filesystem as it was when the call began, decides
        `notConfigured` and, unless that load was fatal, `config`. */
    twostate predicate LoadedOnce()
      reads this
    {
      var o := FirstLoad(old(fs));
      && configDone
      && (old(configDone) ==> config == old(config) && notConfigured == old(notConfigured))
      && (!old(configDone) ==>
            && notConfigured == o.NotConfigured?
            && (!o.Malformed? ==> config == ConfigAfterLoad(o)))
    }

    /** Across a call that may load the configuration and has no fatal
        outcome of its own: the process ends exactly when this call did the
        first load and the file was malformed. */
    twostate predicate ExitsOnlyOnBadConfig()
      reads this
    {
      exited <==> !old(configDone) && FirstLoad(old(fs)).Malformed?
    }

    /** `configOnce.Do(parseConfig)`: the first call loads the file, every
        later call leaves the cached outcome as it is. */
    method LoadConfig()
      requires Valid() && !exited
      modifies this`configDone, this`config, this`notConfigured, this`exited
      ensures Valid() && LoadedOnce() && ExitsOnlyOnBadConfig()
      ensures old(configDone) ==> unchanged(this)
    {
      if configDone {
        return;
      }
      configDone := true;
      var path := sys.configPath;
      if !Exists(fs, path) {
        notConfigured := true;
        return;
      }
      var parsed := if path in fs.files then sys.parseJson(fs.files[path]) else None;
      if parsed.None? {
        exited := true;
        return;
      }
      config := parsed.value;
    }

    /** `serverOrDie`. */
    method ServerOrDie() returns (r: ServerOutcome)
      requires Valid() && !exited
      modifies this`configDone, this`config, this`notConfigured, this`exited
      ensures Valid()
      // with a non-empty flag the configuration is not even loaded
      ensures HasExplicitServer(env.flagServer) ==>
                r == Resolved(CleanServer(env.flagServer.value)) && unchanged(this)
      // otherwise the configuration is loaded (once) and decides, unless
      // that first load was fatal
      ensures !HasExplicitServer(env.flagServer) ==> LoadedOnce()
      ensures r == ConfigUnreadable <==>
                !HasExplicitServer(env.flagServer) && !old(configDone) && FirstLoad(old(fs)).Malformed?
      ensures r != ConfigUnreadable ==> r == ResolveServer(env.flagServer, config)
      // every outcome but a URL ends the process
      ensures exited <==> !r.Resolved?
    {
      if HasExplicitServer(env.flagServer) {
        return Resolved(CleanServer(env.flagServer.value));
      }
      LoadConfig();
      if exited {
        return ConfigUnreadable;
      }
      var ok := "server" in config;
      var server := "";
      if ok {
        if !config["server"].Str? {
          exited := true;
          return ServerNotString;
        }
        server := config["server"].s;
      }
      server := CleanServer(server);
      if !ok || server == "" {
        exited := true;
        return MissingServer;
      }
      return Resolved(server);
    }

    /** `getSignerPublicKeyBlobref`: each failing step returns nil; on
        success the key file is written unless something is already there. */
    method GetSignerPublicKeyBlobref() returns (r: Option<BlobRef>)
      requires Valid() && !exited
      modifies this`configDone, this`config, this`notConfigured, this`exited, this`fs
      ensures Valid() && LoadedOnce() && ExitsOnlyOnBadConfig()
      ensures !exited ==> Publication(r, fs) == PublishSigner(config, old(fs), sys)
      ensures exited ==> r.None? && fs == old(fs)
      ensures Extends(old(fs), fs)
    {
      LoadConfig();
      if exited {
        return None;
      }
      var keyId := StringAt(config, "keyId");
      if keyId.None? {
        return None;
      }
      var keyRing := StringAt(config, "secretRing");
      if keyRing.None? {
        if Exists(fs, sys.identityRing) {
          keyRing := Some(sys.identityRing);
        } else if Exists(fs, sys.defaultRing) {
          keyRing := Some(sys.defaultRing);
        } else {
          return None;
        }
      }
      var entity := sys.entityFromSecring(keyId.value, keyRing.value);
      if entity.None? {
        return None;
      }
      var armored := sys.armoredPublicKey(entity.value);
      if armored.None? {
        return None;
      }
      var selfPubKeyDir := StringAt(config, "selfPubKeyDir");
      if selfPubKeyDir.None? {
        return None;
      }
      if !IsDir(fs, selfPubKeyDir.value) {
        return None;
      }
      var br := RefOf(armored.value, sys);
      var pubFile := PubKeyPath(selfPubKeyDir.value, br, sys);
      if !Exists(fs, pubFile) {
        if !sys.writable(pubFile) {
          return None;
        }
        fs := fs.(files := fs.files[pubFile := armored.value]);
      }
      return Some(br);
    }

    /** `SignerPublicKeyBlobref`: resolved once per process; later calls
        return the cached value and touch nothing. */
    method SignerPublicKeyBlobref() returns (r: Option<BlobRef>)
      requires Valid() && !exited
      modifies this`configDone, this`config, this`notConfigured, this`exited, this`fs,
               this`signerRefDone, this`signerRef
      ensures Valid() && signerRefDone && r == signerRef
      ensures old(signerRefDone) ==> r == old(signerRef) && unchanged(this)
      ensures !old(signerRefDone) ==> LoadedOnce() && ExitsOnlyOnBadConfig()
      ensures !old(signerRefDone) && !exited ==> Publication(r, fs) == PublishSigner(config, old(fs), sys)
      ensures Extends(old(fs), fs)
    {
      if !signerRefDone {
        var ref := GetSignerPublicKeyBlobref();
        signerRef := ref;
        signerRefDone := true;
      }
      r := signerRef;
    }
  }

  /** The per-client fields the resolver sets. */
  class Client {
    const process: Process
    var server: string
    var authMode: AuthMode
    var trustedCerts: seq<string>

    /** A client for `server`; its auth mode and trusted certificates are
        still unset (the nil interface and the nil slice). */
    constructor (process: Process, server: string)
      ensures this.process == process && this.server == server
      ensures authMode == NoMode && trustedCerts == []
    {
      this.process := process;
      this.server := server;
      authMode := NoMode;
      trustedCerts := [];
    }

    /** `useTLS`: the test on this client's stored server string. */
    predicate UseTLS()
      reads this
      ensures UseTLS() <==> UsesTLS(server)
    {
      UsesTLS(server)
    }

    /** `SetupAuthFromConfig(conf)`: the mode comes from `FromConfig` when
        "auth" is present (with "" for a non-string entry) and from
        `FromEnv` when it is absent; the error is returned as it is. */
    method SetupAuthFromConfig(conf: ConfigObj) returns (err: Option<AuthError>)
      modifies this`authMode
      ensures "auth" in conf ==>
                AuthResult(authMode, err) == process.sys.authFromConfig(AuthStringOf(conf["auth"]))
      ensures "auth" !in conf ==> AuthResult(authMode, err) == process.env.authFromEnv
    {
      var result: AuthResult;
      if "auth" in conf {
        var authString := AuthStringOf(conf["auth"]);
        result := process.sys.authFromConfig(authString);
      } else {
        result := process.env.authFromEnv;
      }
      authMode := result.mode;
      err := result.err;
    }

    /** `SetupAuth`: with an explicit server only the environment is
        consulted and the configuration is neither loaded nor read; without
        one the loaded configuration decides. */
    method SetupAuth() returns (err: Option<AuthError>)
      requires process.Valid() && !process.exited
      modifies this`authMode, process`configDone, process`config, process`notConfigured, process`exited
      ensures process.Valid()
      ensures HasExplicitServer(process.env.flagServer) ==>
                && AuthResult(authMode, err) == process.env.authFromEnv
                && unchanged(process)
      ensures !HasExplicitServer(process.env.flagServer) ==>
                process.LoadedOnce() && process.ExitsOnlyOnBadConfig()
      ensures !HasExplicitServer(process.env.flagServer) && !process.exited ==>
                && ("auth" in process.config ==>
                      AuthResult(authMode, err) == process.sys.authFromConfig(AuthStringOf(process.config["auth"])))
                && ("auth" !in process.config ==> AuthResult(authMode, err) == process.env.authFromEnv)
    {
      if HasExplicitServer(process.env.flagServer) {
        var result := process.env.authFromEnv;
        authMode := result.mode;
        err := result.err;
        return;
      }
      process.LoadConfig();
      if process.exited {
        return None;
      }
      err := SetupAuthFromConfig(process.config);
    }

    /** `SecretRingFile`. */
    method SecretRingFile() returns (path: string)
      requires process.Valid() && !process.exited
      modifies process`configDone, process`config, process`notConfigured, process`exited
      ensures process.Valid() && process.LoadedOnce() && process.ExitsOnlyOnBadConfig()
      ensures !process.exited ==> path == SecretRingPath(process.config, process.fs, process.sys)
    {
      process.LoadConfig();
      if process.exited {
        return "";
      }
      var keyRing := StringAt(process.config, "secretRing");
      if keyRing.Some? && keyRing.value != "" {
        return keyRing.value;
      }
      if Exists(process.fs, process.sys.identityRing) {
        return process.sys.identityRing;
      }
      return process.sys.defaultRing;
    }

    /** `Client.SignerPublicKeyBlobref` forwards to the process-wide one. */
    method SignerPublicKeyBlobref() returns (r: Option<BlobRef>)
      requires process.Valid() && !process.exited
      modifies process`configDone, process`config, process`notConfigured, process`exited, process`fs,
               process`signerRefDone, process`signerRef
      ensures process.Valid() && process.signerRefDone && r == process.signerRef
      ensures old(process.signerRefDone) ==> r == old(process.signerRef) && unchanged(process)
      ensures !old(process.signerRefDone) ==> process.LoadedOnce() && process.ExitsOnlyOnBadConfig()
      ensures !old(process.signerRefDone) && !process.exited ==>
                Publication(r, process.fs) == PublishSigner(process.config, old(process.fs), process.sys)
      ensures Extends(old(process.fs), process.fs)
    {
      r := process.SignerPublicKeyBlobref();
    }

    /** `initTrustedCerts`: the environment override, or the loop over the
        "trustedCerts" list that appends lower-cased strings and returns at
        the first element that is not one. */
    method InitTrustedCerts()
      requires process.Valid() && !process.exited
      modifies this`trustedCerts, process`configDone, process`config, process`notConfigured, process`exited
      ensures process.Valid()
      ensures process.env.trustedCertEnv != "" ==> trustedCerts == [process.env.trustedCertEnv] && unchanged(process)
      ensures process.env.trustedCertEnv == "" ==> process.LoadedOnce() && process.ExitsOnlyOnBadConfig()
      ensures !process.exited ==> trustedCerts == TrustedCertsFrom(process.env.trustedCertEnv, process.config)
    {
      var e := process.env.trustedCertEnv;
      if e != "" {
        trustedCerts := [e];
        return;
      }
      trustedCerts := [];
      process.LoadConfig();
      if process.exited {
        return;
      }
      var val := ListAt(process.config, "trustedCerts");
      if val.None? {
        return;
      }
      var items := val.value;
      var i := 0;
      while i < |items|
        modifies this`trustedCerts
        invariant 0 <= i <= |items|
        invariant |trustedCerts| == i
        invariant forall k :: 0 <= k < i ==> items[k].Str? && trustedCerts[k] == LowerAscii(items[k].s)
      {
        if !items[i].Str? {
          LoweredStringPrefixUnique(items, trustedCerts);
          return;
        }
        trustedCerts := trustedCerts + [LowerAscii(items[i].s)];
        i := i + 1;
      }
      LoweredStringPrefixUnique(items, trustedCerts);
    }

    /** `GetTrustedCerts`: the once-guard is package-wide while the field
        is per client, so only the first client ever to call it is
        initialised; every later call, on any client, returns that client's
        field as it stands. */
    method GetTrustedCerts() returns (certs: seq<string>)
      requires process.Valid() && !process.exited
      modifies this`trustedCerts, process`trustedCertsDone,
               process`configDone, process`config, process`notConfigured, process`exited
      ensures process.Valid() && process.trustedCertsDone && certs == trustedCerts
      ensures old(process.trustedCertsDone) ==> certs == old(trustedCerts) && unchanged(this, process)
      ensures !old(process.trustedCertsDone) && process.env.trustedCertEnv == "" ==>
                process.LoadedOnce() && process.ExitsOnlyOnBadConfig()
      ensures !old(process.trustedCertsDone) && process.env.trustedCertEnv != "" ==>
                && !process.exited
                && process.configDone == old(process.configDone)
                && process.config == old(process.config)
                && process.notConfigured == old(process.notConfigured)
      ensures !old(process.trustedCertsDone) && !process.exited ==>
                certs == TrustedCertsFrom(process.env.trustedCertEnv, process.config)
    {
      if !process.trustedCertsDone {
        process.trustedCertsDone := true;
        InitTrustedCerts();
      }
      certs := trustedCerts;
    }
  }

  /** Two clients of one process asking for their trusted certificates: the
      first gets the resolved set, the second a fresh client's empty one,
      because the once-guard has already fired. */
  method SecondClientGetsNoTrustedCerts(p: Process) returns (first: seq<string>, second: seq<string>)
    requires p.Valid() && !p.exited && !p.trustedCertsDone
    requires p.env.trustedCertEnv != ""
    modifies p
    ensures first == [p.env.trustedCertEnv]
    ensures second == []
  {
    var a := new Client(p, "https://a.example");
    var b := new Client(p, "https://b.example");
    first := a.GetTrustedCerts();
    second := b.GetTrustedCerts();
  }

  /** A client created for a bare host, cleaned as `serverOrDie` cleans
      it, talks TLS. */
  lemma BareHostClientUsesTLS(c: Client, host: string)
    requires c.server == CleanServer(host)
    requires !HasPrefix(DropTrailingSlash(host), "http")
    ensures c.UseTLS()
  {
    BareHostUsesTLS(host);
  }

  /** The pure half of `ServerFromFirstLoad`: the file parses to
      `"server": "x"`, which resolves to "https://x". */
  lemma ConfigServerEntryResolves(flag: Option<string>, sys: Collaborators, fs: FileSystem)
    requires !HasExplicitServer(flag)
    requires sys.parseJson("T") == Some(map["server" := Str("x")])
    requires fs == FileSystem(map[sys.configPath := "T"], {})
    ensures ParseConfig(fs, sys.configPath, sys.parseJson) == Loaded(map["server" := Str("x")])
    ensures ResolveServer(flag, ConfigAfterLoad(ParseConfig(fs, sys.configPath, sys.parseJson))) == Resolved("https://x")
  {
    var o := ParseConfig(fs, sys.configPath, sys.parseJson);
    assert o == Loaded(map["server" := Str("x")]);
    assert ConfigAfterLoad(o) == map["server" := Str("x")];
    assert CleanServer("x") == "https://x" by {
      assert !HasSuffix("x", "/");
      assert !HasPrefix("x", "http");
    }
  }

  /** A fresh process whose configuration file holds `"server": "x"`
      resolves the server to "https://x" on the call that loads the file,
      and a second call returns the same URL from the cached configuration. */
  method ServerFromFirstLoad(env: Environment, sys: Collaborators) returns (first: ServerOutcome, second: ServerOutcome)
    requires !HasExplicitServer(env.flagServer)
    requires sys.parseJson("T") == Some(map["server" := Str("x")])
    ensures first == Resolved("https://x") && second == first
  {
    var fs := FileSystem(map[sys.configPath := "T"], {});
    ConfigServerEntryResolves(env.flagServer, sys, fs);
    var p := new Process(env, sys, fs);
    first := p.ServerOrDie();
    second := p.ServerOrDie();
  }

  /** With `CAMLI_TRUSTED_CERT` set, resolving the trusted certificates
      does not load the configuration, so a later `serverOrDie` still loads
      it itself and resolves the file's `"server": "x"` to "https://x". */
  method ServerAfterEnvironmentCerts(env: Environment, sys: Collaborators) returns (certs: seq<string>, server: ServerOutcome)
    requires !HasExplicitServer(env.flagServer) && env.trustedCertEnv != ""
    requires sys.parseJson("T") == Some(map["server" := Str("x")])
    ensures certs == [env.trustedCertEnv] && server == Resolved("https://x")
  {
    var fs := FileSystem(map[sys.configPath := "T"], {});
    ConfigServerEntryResolves(env.flagServer, sys, fs);
    var p := new Process(env, sys, fs);
    var c := new Client(p, "https://example");
    certs := c.GetTrustedCerts();
    server := p.ServerOrDie();
  }

  /** A fresh process whose configuration lists `["AB", 5, "CD"]` as
      trusted certificates gives its first client ["ab"]. */
  method TrustedCertsFromFirstLoad(env: Environment, sys: Collaborators) returns (certs: seq<string>)
    requires env.trustedCertEnv == ""
    requires sys.parseJson("T") == Some(map["trustedCerts" := List([Str("AB"), Number(5.0), Str("CD")])])
    ensures certs == ["ab"]
  {
    var p := new Process(env, sys, FileSystem(map[sys.configPath := "T"], {}));
    var c := new Client(p, "https://example");
    TrustedCertsStopAtNonString();
    certs := c.GetTrustedCerts();
  }
}
