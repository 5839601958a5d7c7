/** Server-address resolution: `cleanServer`, `ExplicitServer`, the
    precedence rule of `serverOrDie` and the `useTLS` prefix test. */
module Server {
  import opened Wrappers
  import opened ConfigValue

  /** `strings.HasPrefix`. */
  predicate HasPrefix(s: string, p: string) {
    |p| <= |s| && s[..|p|] == p
  }

  /** `strings.HasSuffix`. */
  predicate HasSuffix(s: string, p: string) {
    |p| <= |s| && s[|s| - |p|..] == p
  }

  /** The first step of `cleanServer`: remove one trailing slash, if any. */
  function DropTrailingSlash(s: string): (t: string)
    ensures HasSuffix(s, "/") ==> s == t + "/"
    ensures !HasSuffix(s, "/") ==> t == s
  {
    if HasSuffix(s, "/") then s[..|s| - 1] else s
  }

  /** `cleanServer`: strip one trailing slash, then default the scheme to
      "https://" unless the value already begins with "http". */
  function CleanServer(server: string): (r: string)
    // the result always carries an http-like prefix ...
    ensures HasPrefix(r, "http")
    // ... and ends with the slash-stripped input, which it either is or
    // follows "https://"; the scheme is added exactly when it was missing
    ensures HasSuffix(r, DropTrailingSlash(server))
    ensures r == DropTrailingSlash(server) <==> HasPrefix(DropTrailingSlash(server), "http")
    ensures r != DropTrailingSlash(server) ==> r == "https://" + DropTrailingSlash(server)
  {
    var s := DropTrailingSlash(server);
    if !HasPrefix(s, "http") && !HasPrefix(s, "https") then "https://" + s else s
  }

  /** `ExplicitServer`: the `--server` flag value, or "" when flags were not
      registered. */
  function ExplicitServer(flag: Option<string>): (r: string)
    ensures flag.Some? ==> r == flag.value
    ensures flag.None? ==> r == ""
  {
    if flag.Some? then flag.value else ""
  }

  /** The override test (flag registered and non-empty) shared by
      `serverOrDie` and `SetupAuth`: it holds exactly when `ExplicitServer`
      returns a non-empty string. */
  predicate HasExplicitServer(flag: Option<string>)
    ensures HasExplicitServer(flag) <==> ExplicitServer(flag) != ""
  {
    flag.Some? && flag.value != ""
  }

  /** The test `useTLS` applies to a client's server string: it begins
      with "https://". Such an address is http-like and is never given a
      second scheme by `CleanServer`. */
  predicate UsesTLS(server: string)
    ensures UsesTLS(server) ==> HasPrefix(server, "http") && CleanServer(server) == DropTrailingSlash(server)
  {
    HasPrefix(server, "https://")
  }

  /** How `serverOrDie` ends: with a URL, with `log.Fatalf` for a missing
      key, with a panic of the `value.(string)` assertion, or with the
      `log.Fatal` of an unreadable configuration file on the way. */
  datatype ServerOutcome = Resolved(url: string) | MissingServer | ServerNotString | ConfigUnreadable

  /** `serverOrDie` given the loaded configuration `conf`. */
  function ResolveServer(flag: Option<string>, conf: ConfigObj): (r: ServerOutcome)
    // a non-empty flag wins, and the configuration is not looked at
    ensures HasExplicitServer(flag) ==> r == Resolved(CleanServer(flag.value))
    // without it, a missing "server" key is fatal and a non-string one panics
    ensures !HasExplicitServer(flag) && "server" !in conf ==> r == MissingServer
    ensures !HasExplicitServer(flag) && "server" in conf && !conf["server"].Str? ==> r == ServerNotString
    // a present string, even "", is cleaned and accepted
    ensures !HasExplicitServer(flag) && StringAt(conf, "server").Some? ==>
              r == Resolved(CleanServer(StringAt(conf, "server").value))
    ensures r != ConfigUnreadable
    ensures r.Resolved? ==> HasPrefix(r.url, "http")
  {
    if HasExplicitServer(flag) then
      Resolved(CleanServer(flag.value))
    else if "server" !in conf then
      MissingServer
    else if !conf["server"].Str? then
      ServerNotString
    else
      var server := CleanServer(conf["server"].s);
      if server == "" then MissingServer else Resolved(server)
  }

  /** Cleaning a value with no trailing slash and an http-like prefix
      changes nothing. */
  lemma CleanServerFixedPoints(s: string)
    requires !HasSuffix(s, "/") && HasPrefix(s, "http")
    ensures CleanServer(s) == s
  {
  }

  /** Re-cleaning is a no-op exactly when the first result does not end in
      a slash; when it does, the second pass strips that slash too. */
  lemma CleanServerTwice(s: string)
    ensures CleanServer(CleanServer(s)) == CleanServer(s) <==> !HasSuffix(CleanServer(s), "/")
  {
  }

  /** `cleanServer` is not idempotent: an input with two trailing slashes
      keeps one, and cleaning again removes it. */
  lemma CleanServerNotIdempotent()
    ensures CleanServer("a//") == "https://a/"
    ensures CleanServer("https://a/") == "https://a"
  {
  }

  /** The empty value cleans to the bare scheme. */
  lemma CleanServerOfEmpty()
    ensures CleanServer("") == "https://"
  {
  }

  /** The prefix test is on "http", not on a scheme: a host name that
      happens to begin with those letters gets no scheme and no TLS. */
  lemma CleanServerHostBeginningWithHttp()
    ensures CleanServer("httpbin.org") == "httpbin.org"
    ensures !UsesTLS(CleanServer("httpbin.org"))
  {
    assert HasPrefix("httpbin.org", "http");
    assert !HasSuffix("httpbin.org", "/");
    assert "httpbin.org"[4] == 'b';
  }

  /** Any value whose slash-stripped form lacks the "http" prefix (a bare
      host such as "example.com:1345") cleans to a TLS address. */
  lemma BareHostUsesTLS(host: string)
    requires !HasPrefix(DropTrailingSlash(host), "http")
    ensures UsesTLS(CleanServer(host))
  {
  }

  /** An explicit "http://" address stays plain-text. */
  lemma PlainHttpStaysPlain(server: string)
    requires HasPrefix(server, "http://")
    ensures !UsesTLS(CleanServer(server))
  {
    var t := DropTrailingSlash(server);
    assert |server| >= 7;
    assert HasPrefix(t, "http") by {
      if HasSuffix(server, "/") {
        assert |server| > 7 || server[6] == '/';
        assert t[..4] == server[..4];
      }
    }
    assert CleanServer(server) == t;
    if |t| >= 8 {
      assert t[4] == server[4] == ':';
    }
  }

  /** A present but empty "server" entry is not fatal: it resolves to the
      bare scheme. The emptiness test in `serverOrDie` never fires, because
      a cleaned value is never empty. */
  lemma EmptyServerEntryAccepted(flag: Option<string>, conf: ConfigObj)
    requires !HasExplicitServer(flag)
    requires "server" in conf && conf["server"] == Str("")
    ensures ResolveServer(flag, conf) == Resolved("https://")
  {
  }
}
