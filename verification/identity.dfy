/** The signer's identity: which secret keyring to use, the armored public
    key, its SHA-1 blobref and the "write only if absent" publication of
    `<blobref>.camli` into `selfPubKeyDir`. Everything here is a function
    of the loaded configuration and the filesystem; the once-cache and the
    actual write live in `ClientConfig.Process`. */
module Identity {
  import opened Wrappers
  import opened ConfigValue
  import opened Host

  /** A SHA-1 blobref; `String()` is its "sha1-<hex>" text form. */
  datatype BlobRef = BlobRef(hex: string) {
    function String(): string {
      "sha1-" + hex
    }
  }

  /** `blobref.SHA1FromString(armored)`. */
  function RefOf(armored: string, c: Collaborators): BlobRef {
    BlobRef(c.sha1Hex(armored))
  }

  /** `filepath.Join(dir, br.String() + ".camli")`. */
  function PubKeyPath(dir: string, br: BlobRef, c: Collaborators): string {
    c.join(dir, br.String() + ".camli")
  }

  /** `Client.SecretRingFile`: a non-empty string "secretRing" entry wins;
      otherwise the identity ring if it exists; otherwise the library's
      default path, returned without checking that it exists. */
  function SecretRingPath(conf: ConfigObj, fs: FileSystem, c: Collaborators): (r: string)
    ensures StringAt(conf, "secretRing").Some? && StringAt(conf, "secretRing").value != "" ==>
              r == StringAt(conf, "secretRing").value
    ensures (StringAt(conf, "secretRing").None? || StringAt(conf, "secretRing").value == "") ==>
              r == (if Exists(fs, c.identityRing) then c.identityRing else c.defaultRing)
  {
    var keyRing := StringAt(conf, "secretRing");
    if keyRing.Some? && keyRing.value != "" then keyRing.value
    else if Exists(fs, c.identityRing) then c.identityRing
    else c.defaultRing
  }

  /** The keyring `getSignerPublicKeyBlobref` opens: any string
      "secretRing" entry, even an empty one; otherwise the first of the
      identity ring and the default ring that exists; otherwise none. */
  function SignerRing(conf: ConfigObj, fs: FileSystem, c: Collaborators): (r: Option<string>)
    ensures StringAt(conf, "secretRing").Some? ==> r == StringAt(conf, "secretRing")
    ensures r.None? <==>
              StringAt(conf, "secretRing").None? && !Exists(fs, c.identityRing) && !Exists(fs, c.defaultRing)
    // a probed ring is only chosen when it exists, the identity ring first
    ensures StringAt(conf, "secretRing").None? && r.Some? ==>
              Exists(fs, r.value) && (Exists(fs, c.identityRing) ==> r.value == c.identityRing)
  {
    var keyRing := StringAt(conf, "secretRing");
    if keyRing.Some? then keyRing
    else if Exists(fs, c.identityRing) then Some(c.identityRing)
    else if Exists(fs, c.defaultRing) then Some(c.defaultRing)
    else None
  }

  /** The keyId, keyring, entity and armoring steps of
      `getSignerPublicKeyBlobref`: the "keyId" string, the keyring, the
      entity found in it, and its armored public key; any failing step
      yields nothing. */
  function ArmoredKey(conf: ConfigObj, fs: FileSystem, c: Collaborators): (r: Option<string>)
    ensures StringAt(conf, "keyId").None? ==> r.None?
    ensures SignerRing(conf, fs, c).None? ==> r.None?
    ensures r.Some? <==>
              && StringAt(conf, "keyId").Some?
              && SignerRing(conf, fs, c).Some?
              && c.entityFromSecring(StringAt(conf, "keyId").value, SignerRing(conf, fs, c).value).Some?
              && c.armoredPublicKey(c.entityFromSecring(StringAt(conf, "keyId").value, SignerRing(conf, fs, c).value).value).Some?
    ensures r.Some? ==>
              r == c.armoredPublicKey(c.entityFromSecring(StringAt(conf, "keyId").value, SignerRing(conf, fs, c).value).value)
  {
    var keyId := StringAt(conf, "keyId");
    if keyId.None? then None
    else
      var keyRing := SignerRing(conf, fs, c);
      if keyRing.None? then None
      else
        var entity := c.entityFromSecring(keyId.value, keyRing.value);
        if entity.None? then None
        else c.armoredPublicKey(entity.value)
  }

  /** The selfPubKeyDir check: the "selfPubKeyDir" entry, when it is a
      string naming an existing directory. */
  function KeyDir(conf: ConfigObj, fs: FileSystem): (r: Option<string>)
    ensures r.Some? <==> StringAt(conf, "selfPubKeyDir").Some? && IsDir(fs, StringAt(conf, "selfPubKeyDir").value)
    ensures r.Some? ==> r == StringAt(conf, "selfPubKeyDir")
  {
    var dir := StringAt(conf, "selfPubKeyDir");
    if dir.Some? && IsDir(fs, dir.value) then dir else None
  }

  /** The file the publication targets once every step before the write
      has succeeded. */
  function KeyFile(conf: ConfigObj, fs: FileSystem, c: Collaborators): Option<string> {
    var armored := ArmoredKey(conf, fs, c);
    var dir := KeyDir(conf, fs);
    if armored.Some? && dir.Some? then Some(PubKeyPath(dir.value, RefOf(armored.value, c), c)) else None
  }

  /** The blobref `getSignerPublicKeyBlobref` returns (nil as `None`) and
      the filesystem after it. */
  datatype Publication = Publication(ref: Option<BlobRef>, fs: FileSystem)

  /** `getSignerPublicKeyBlobref`. */
  function PublishSigner(conf: ConfigObj, fs: FileSystem, c: Collaborators): (p: Publication)
    // every failure degrades to nil and writes nothing
    ensures p.ref.None? ==> p.fs == fs
    ensures ArmoredKey(conf, fs, c).None? || KeyDir(conf, fs).None? ==> p == Publication(None, fs)
    // success exactly when every step succeeded and the key file is
    // already there or can be written
    ensures p.ref.Some? <==> KeyFile(conf, fs, c).Some? && (Exists(fs, KeyFile(conf, fs, c).value) || c.writable(KeyFile(conf, fs, c).value))
    // the reference is the SHA-1 of the armored key, and its file is there afterwards
    ensures p.ref.Some? ==> p.ref.value == RefOf(ArmoredKey(conf, fs, c).value, c)
    ensures p.ref.Some? ==> Exists(p.fs, KeyFile(conf, fs, c).value)
    // nothing existing is overwritten, and the only file that may appear is
    // the key file, holding the armored key
    ensures Extends(fs, p.fs)
    ensures forall path :: path in p.fs.files && path !in fs.files ==>
              KeyFile(conf, fs, c) == Some(path) && p.fs.files[path] == ArmoredKey(conf, fs, c).value
    ensures KeyFile(conf, fs, c).Some? && Exists(fs, KeyFile(conf, fs, c).value) ==> p.fs == fs
  {
    var armored := ArmoredKey(conf, fs, c);
    var dir := KeyDir(conf, fs);
    if armored.None? || dir.None? then Publication(None, fs)
    else
      var br := RefOf(armored.value, c);
      var pubFile := PubKeyPath(dir.value, br, c);
      if Exists(fs, pubFile) then Publication(Some(br), fs)
      else if c.writable(pubFile) then Publication(Some(br), fs.(files := fs.files[pubFile := armored.value]))
      else Publication(None, fs)
  }

  /** With no "keyId" string nothing is resolved and no file is created. */
  lemma NoKeyIdNoIdentity(conf: ConfigObj, fs: FileSystem, c: Collaborators)
    requires "keyId" !in conf || !conf["keyId"].Str?
    ensures PublishSigner(conf, fs, c) == Publication(None, fs)
  {
  }

  /** Running the resolution again on the filesystem it left behind returns
      the same blobref and changes nothing: the key file now exists and is
      not rewritten. The side condition excludes the degenerate case where
      the key file's path is itself one of the probed keyring paths, whose
      appearance would change which keyring the second run opens. */
  lemma PublishSignerIdempotent(conf: ConfigObj, fs: FileSystem, c: Collaborators)
    requires KeyFile(conf, fs, c) != Some(c.identityRing) && KeyFile(conf, fs, c) != Some(c.defaultRing)
    ensures PublishSigner(conf, PublishSigner(conf, fs, c).fs, c) == PublishSigner(conf, fs, c)
  {
  }

  /** The two keyring choices agree whenever the configuration names a
      non-empty keyring or the identity ring exists; they differ only in
      that the signer does not open a default ring that is missing, and
      that it opens an empty "secretRing" entry as given. */
  lemma SignerRingAgreesWithSecretRingFile(conf: ConfigObj, fs: FileSystem, c: Collaborators)
    requires StringAt(conf, "secretRing") != Some("")
    requires SignerRing(conf, fs, c).Some?
    ensures SignerRing(conf, fs, c).value == SecretRingPath(conf, fs, c)
  {
  }
}
