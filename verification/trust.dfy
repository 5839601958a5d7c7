/** Trusted certificate fingerprints: the `CAMLI_TRUSTED_CERT` override,
    else the lower-cased leading run of strings in "trustedCerts". The loop
    and the once-guard live in `ClientConfig.Client`. */
module Trust {
  import opened Wrappers
  import opened ConfigValue

  predicate IsUpper(ch: char) {
    'A' <= ch <= 'Z'
  }

  /** `unicode.ToLower` on the ASCII range. */
  function LowerChar(ch: char): char {
    if IsUpper(ch) then (ch as int + 32) as char else ch
  }

  /** `strings.ToLower`, over ASCII letters. */
  function LowerAscii(s: string): (r: string)
    ensures |r| == |s|
    ensures forall i :: 0 <= i < |s| ==> r[i] == LowerChar(s[i])
    // no upper-case letter survives, and every other character is kept
    ensures forall i :: 0 <= i < |r| ==> !IsUpper(r[i])
    ensures forall i :: 0 <= i < |s| && !IsUpper(s[i]) ==> r[i] == s[i]
  {
    seq(|s|, i requires 0 <= i < |s| => LowerChar(s[i]))
  }

  /** Lower-casing twice is lower-casing once. */
  lemma LowerAsciiIdempotent(s: string)
    ensures LowerAscii(LowerAscii(s)) == LowerAscii(s)
  {
  }

  /** What the loop over the "trustedCerts" elements leaves appended: the lower-cased
      leading run of string elements; the first non-string element stops
      it, and what came before is kept. */
  function LoweredStringPrefix(vals: seq<Value>): (r: seq<string>)
    ensures |r| <= |vals|
    ensures forall i :: 0 <= i < |r| ==> vals[i].Str? && r[i] == LowerAscii(vals[i].s)
    ensures |r| < |vals| ==> !vals[|r|].Str?
    decreases |vals|
  {
    if vals == [] || !vals[0].Str? then []
    else [LowerAscii(vals[0].s)] + LoweredStringPrefix(vals[1..])
  }

  /** The three properties of `LoweredStringPrefix` determine it: any list
      that lower-cases a leading run of strings ended by the input's end or
      by a non-string is that list. */
  lemma LoweredStringPrefixUnique(vals: seq<Value>, certs: seq<string>)
    requires |certs| <= |vals|
    requires forall i :: 0 <= i < |certs| ==> vals[i].Str? && certs[i] == LowerAscii(vals[i].s)
    requires |certs| < |vals| ==> !vals[|certs|].Str?
    ensures certs == LoweredStringPrefix(vals)
  {
  }

  /** Elements after the first non-string are never looked at: whatever
      follows it leaves the result unchanged. */
  lemma {:induction false} LoweredStringPrefixIgnoresTail(vals: seq<Value>, rest: seq<Value>)
    requires exists i :: 0 <= i < |vals| && !vals[i].Str?
    ensures LoweredStringPrefix(vals + rest) == LoweredStringPrefix(vals)
  {
    if vals[0].Str? {
      assert (vals + rest)[1..] == vals[1..] + rest;
      var i :| 0 <= i < |vals| && !vals[i].Str?;
      assert !vals[1..][i - 1].Str?;
      LoweredStringPrefixIgnoresTail(vals[1..], rest);
    }
  }

  /** `initTrustedCerts` given the loaded configuration. */
  function TrustedCertsFrom(envCert: string, conf: ConfigObj): (r: seq<string>)
    // a non-empty environment value is the whole set, verbatim
    ensures envCert != "" ==> r == [envCert]
    // otherwise a missing or non-list entry gives the empty set ...
    ensures envCert == "" && ListAt(conf, "trustedCerts").None? ==> r == []
    // ... and a list gives its lower-cased leading run of strings
    ensures envCert == "" && ListAt(conf, "trustedCerts").Some? ==>
              r == LoweredStringPrefix(ListAt(conf, "trustedCerts").value)
    ensures envCert == "" ==> forall i, j :: 0 <= i < |r| && 0 <= j < |r[i]| ==> !IsUpper(r[i][j])
  {
    if envCert != "" then [envCert]
    else
      var val := ListAt(conf, "trustedCerts");
      if val.None? then [] else LoweredStringPrefix(val.value)
  }

  /** `"trustedCerts": ["ABC123"]` resolves to `["abc123"]`. */
  lemma TrustedCertsLowercased()
    ensures TrustedCertsFrom("", map["trustedCerts" := List([Str("ABC123")])]) == ["abc123"]
  {
    var vals := [Str("ABC123")];
    assert ListAt(map["trustedCerts" := List(vals)], "trustedCerts") == Some(vals);
    assert LowerAscii("ABC123") == "abc123";
    assert LoweredStringPrefix(vals[1..]) == [];
  }

  /** A number in the list stops processing there; the string before it is
      kept and the one after it is dropped. */
  lemma TrustedCertsStopAtNonString()
    ensures TrustedCertsFrom("", map["trustedCerts" := List([Str("AB"), Number(5.0), Str("CD")])]) == ["ab"]
  {
    var vals := [Str("AB"), Number(5.0), Str("CD")];
    assert ListAt(map["trustedCerts" := List(vals)], "trustedCerts") == Some(vals);
    assert LowerAscii("AB") == "ab";
    assert LoweredStringPrefix(vals[1..]) == [];
  }

  /** The environment value is taken verbatim, not lower-cased. */
  lemma EnvironmentCertNotLowercased(conf: ConfigObj)
    ensures TrustedCertsFrom("ABC", conf) == ["ABC"]
  {
  }
}
