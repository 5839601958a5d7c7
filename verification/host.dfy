/** The outside world the resolver consults: a small filesystem, the
    process environment and command-line flag, and the foreign functions it
    calls (JSON parsing, the auth package, OpenPGP keyring work, SHA-1,
    path joining). Foreign functions are fields of function type, so the
    model assumes nothing about them beyond being functions. */
module Host {
  import opened Wrappers
  import opened ConfigValue
  import opened Auth

  /** Regular files with their contents, and the set of directories. */
  datatype FileSystem = FileSystem(files: map<string, string>, dirs: set<string>)

  /** `fileExists`: `os.Stat(path)` succeeds, which is also the test the
      configuration load and the public-key publication make directly. A
      path exists exactly when it names a regular file or a directory. */
  predicate Exists(fs: FileSystem, path: string)
    ensures Exists(fs, path) <==> path in fs.files || IsDir(fs, path)
  {
    path in fs.files || path in fs.dirs
  }

  /** `os.Stat(path)` succeeds and `fi.IsDir()`. */
  predicate IsDir(fs: FileSystem, path: string) {
    path in fs.dirs
  }

  /** `later` keeps every file and directory of `earlier`, with the same contents. */
  ghost predicate Extends(earlier: FileSystem, later: FileSystem) {
    && later.dirs == earlier.dirs
    && forall p :: p in earlier.files ==> p in later.files && later.files[p] == earlier.files[p]
  }

  /** An OpenPGP entity found in a secret keyring. */
  datatype Entity = Entity(keyId: string, fingerprint: string)

  /** What the process is started with: the `--server` flag (`flagServer`,
      nil when `AddFlags` was never called), the `CAMLI_TRUSTED_CERT`
      variable, and what `auth.FromEnv()` yields from the environment. */
  datatype Environment = Environment(
    flagServer: Option<string>,
    trustedCertEnv: string,
    authFromEnv: AuthResult)

  /** The paths and foreign functions the resolver depends on. */
  datatype Collaborators = Collaborators(
    configPath: string,                                   // ConfigFilePath()
    parseJson: string -> Option<ConfigObj>,               // jsonconfig.ReadFile on the file's text
    authFromConfig: string -> AuthResult,                 // auth.FromConfig
    identityRing: string,                                 // osutil.IdentitySecretRing()
    defaultRing: string,                                  // jsonsign.DefaultSecRingPath()
    entityFromSecring: (string, string) -> Option<Entity>,// jsonsign.EntityFromSecring(keyId, ring)
    armoredPublicKey: Entity -> Option<string>,           // jsonsign.ArmoredPublicKey
    sha1Hex: string -> string,                            // hex SHA-1 digest of a string
    join: (string, string) -> string,                     // filepath.Join
    writable: string -> bool)                             // ioutil.WriteFile(path, ...) succeeds
}
