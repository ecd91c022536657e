/**
 * `Api::load`, the explicit choice of a client by API type and version, and
 * `Api::guessVersion`, which reads the version off a base URL.
 */
module Api {
  import opened Wrappers
  import opened PhpStrings
  import opened PhpValues
  import opened Backends

  /** The fragment of a version 1 base URL, as `guessVersion` looks for it. */
  const V1Fragment: string := "//api.clickatell.com/rest"

  /** The fragment of a version 2 base URL, as `guessVersion` looks for it. */
  const V2Fragment: string := "//platform.clickatell.com"

  /** Both fragments are already lower case, so `stripos` compares them as written. */
  lemma FragmentsAreLowerCase()
    ensures Lower(V1Fragment) == V1Fragment && Lower(V2Fragment) == V2Fragment
  {
    LowerOfLowerCase(V1Fragment);
    LowerOfLowerCase(V2Fragment);
  }

  /** "REST" is not a numeric string, so loose comparison with it is plain equality. */
  lemma LooseRestIsExact(apiType: string)
    ensures LooseEqualsStrings(apiType, "REST") <==> apiType == "REST"
  {
    assert NumericCore("REST") == "REST";
  }

  /** '1' and '2' are integer numeric strings, so `LooseEqualsNumeric` applies to them. */
  lemma VersionsAreNumeric()
    ensures IsIntegerString("1") && IntegerValue("1") == 1
    ensures IsIntegerString("2") && IntegerValue("2") == 2
  {
    assert NumericCore("1") == "1";
    assert NumericCore("2") == "2";
  }

  /**
   * `load($apiToken, $type, $version)`. The switch is on the boolean
   * `$type == 'REST'` and its one case is the string 'REST', which is true,
   * so the case is taken exactly when the type is "REST". `$version` has no
   * declared type and is compared loosely with '1', then with '2'. Any other
   * version falls through to `break`: no client, no error.
   */
  function Load(apiToken: string, apiType: string, version: Value): (r: Option<Client>)
    ensures r.Some? ==> r.value.apiToken == apiToken
    ensures r.Some? ==> apiType == "REST"
    ensures (VersionsAreNumeric();
      r == Some(RestV1Client(apiToken)) <==> apiType == "REST" && LooseEqualsNumeric(version, "1"))
    ensures (VersionsAreNumeric();
      r == Some(RestV2Client(apiToken)) <==>
        apiType == "REST" && !LooseEqualsNumeric(version, "1") && LooseEqualsNumeric(version, "2"))
  {
    LooseRestIsExact(apiType);
    VersionsAreNumeric();
    var switchValue := LooseEqualsStrings(apiType, "REST");
    if switchValue == Truthy(Str("REST")) then
      if LooseEqualsNumeric(version, "1") then Some(RestV1Client(apiToken))
      else if LooseEqualsNumeric(version, "2") then Some(RestV2Client(apiToken))
      else None
    else None
  }

  /**
   * `guessVersion($baseUri)`: "1" if the URL holds the version 1 fragment,
   * else "2" if it holds the version 2 fragment, compared without regard to
   * case; otherwise an exception naming the URL.
   */
  function GuessVersion(baseUri: string): (r: Result<string, string>)
    ensures r == Success("1") <==> Contains(Lower(baseUri), V1Fragment)
    ensures r == Success("2") <==> !Contains(Lower(baseUri), V1Fragment) && Contains(Lower(baseUri), V2Fragment)
    ensures r.Failure? <==> !Contains(Lower(baseUri), V1Fragment) && !Contains(Lower(baseUri), V2Fragment)
    ensures r.Failure? ==> r.error == "Couldn't guess version of rest api, base url not known [" + baseUri + "]"
  {
    FragmentsAreLowerCase();
    if StrIPos(baseUri, V1Fragment).Some? then Success("1")
    else if StrIPos(baseUri, V2Fragment).Some? then Success("2")
    else Failure("Couldn't guess version of rest api, base url not known [" + baseUri + "]")
  }

  /** The defaults of `load`, type 'REST' and version '1', give a version 1 client. */
  lemma LoadExplicitVersions(apiToken: string)
    ensures Load(apiToken, "REST", Str("1")) == Some(RestV1Client(apiToken))
    ensures Load(apiToken, "REST", Str("2")) == Some(RestV2Client(apiToken))
    ensures Load(apiToken, "REST", Str("3")) == None
    ensures Load(apiToken, "rest", Str("1")) == None
  {
    assert NumericCore("1") == "1";
    assert NumericCore("2") == "2";
    assert NumericCore("3") == "3";
  }

  /** Loose comparison lets numeric spellings of a version through: " 01" selects version 1. */
  lemma LoadNumericSpelling(apiToken: string)
    ensures Load(apiToken, "REST", Str(" 01")) == Some(RestV1Client(apiToken))
  {
    assert NumericCore(" 01") == "01";
    assert NumericCore("1") == "1";
    assert DigitsValue("01") == 1 by {
      assert "01"[..1] == "0";
    }
  }

  /**
   * Versions that are not strings: `true` equals the non-empty string '1', so
   * it selects version 1; the numbers 2 and 2.0 select version 2; `null`
   * equals neither and selects nothing.
   */
  lemma LoadOtherVersionTypes(apiToken: string)
    ensures Load(apiToken, "REST", Bool(true)) == Some(RestV1Client(apiToken))
    ensures Load(apiToken, "REST", Int(2)) == Some(RestV2Client(apiToken))
    ensures Load(apiToken, "REST", Float(2.0)) == Some(RestV2Client(apiToken))
    ensures Load(apiToken, "REST", Null) == None
    ensures Load(apiToken, "REST", Bool(false)) == None
  {
    VersionsAreNumeric();
  }
}
