/** `parseConfig`: what one load of the configuration file produces. The
    once-guard around it lives in `ClientConfig.Process.LoadConfig`. */
module ConfigStore {
  import opened Wrappers
  import opened ConfigValue
  import opened Host

  /** The three outcomes of `parseConfig`: the file is absent
      (`parseConfigErr = os.ErrNotExist`), it parsed, or reading or parsing
      it failed (`log.Fatal`). */
  datatype LoadOutcome = NotConfigured | Loaded(obj: ConfigObj) | Malformed

  function ParseConfig(fs: FileSystem, path: string, parse: string -> Option<ConfigObj>): (r: LoadOutcome)
    ensures r.NotConfigured? <==> !Exists(fs, path)
    ensures r.Loaded? ==> path in fs.files && parse(fs.files[path]) == Some(r.obj)
    ensures r.Malformed? <==> Exists(fs, path) && (path in fs.files ==> parse(fs.files[path]).None?)
  {
    if !Exists(fs, path) then NotConfigured
    else if path in fs.files && parse(fs.files[path]).Some? then Loaded(parse(fs.files[path]).value)
    else Malformed
  }

  /** The package-level `config` map after a load that did not end the
      process: the parsed object, or the initial empty map when the file is
      absent ("unconfigured" is not an error at this layer). */
  function ConfigAfterLoad(o: LoadOutcome): (conf: ConfigObj)
    ensures o.Loaded? ==> conf == o.obj
    ensures !o.Loaded? ==> conf == map[]
  {
    if o.Loaded? then o.obj else map[]
  }
}
