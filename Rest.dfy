/**
 * `Rest::load`, which picks a client by looking for a host name anywhere in
 * the base URL, and how its choice relates to `Api::guessVersion`.
 */
module Rest {
  import opened Wrappers
  import opened PhpStrings
  import opened Backends
  import Api

  /** The version 1 host, as `Rest::load` looks for it. */
  const V1Host: string := "api.clickatell.com"

  /** The version 2 host, as `Rest::load` looks for it. */
  const V2Host: string := "platform.clickatell.com"

  /** The message of the exception thrown for an unrecognised URL. */
  const UnknownUrlMessage: string :=
    "Couldn't guess version of rest api, please use RestV1 or RestV2 explicitly."

  /** Both host names are already lower case, so `stripos` compares them as written. */
  lemma HostsAreLowerCase()
    ensures Lower(V1Host) == V1Host && Lower(V2Host) == V2Host
  {
    LowerOfLowerCase(V1Host);
    LowerOfLowerCase(V2Host);
  }

  /**
   * `load($apiToken, $baseUri)`: a version 1 client if the URL contains the
   * version 1 host anywhere, compared without regard to case; else a version 2
   * client if it contains the version 2 host; otherwise an exception. The
   * version 1 test comes first, so a URL with both hosts gets version 1.
   */
  function Load(apiToken: string, baseUri: string): (r: Result<Client, string>)
    ensures r == Success(RestV1Client(apiToken)) <==> Contains(Lower(baseUri), V1Host)
    ensures r == Success(RestV2Client(apiToken)) <==>
      !Contains(Lower(baseUri), V1Host) && Contains(Lower(baseUri), V2Host)
    ensures r.Failure? <==> !Contains(Lower(baseUri), V1Host) && !Contains(Lower(baseUri), V2Host)
    ensures r.Failure? ==> r.error == UnknownUrlMessage
  {
    HostsAreLowerCase();
    if StrIPos(baseUri, V1Host).Some? then Success(RestV1Client(apiToken))
    else if StrIPos(baseUri, V2Host).Some? then Success(RestV2Client(apiToken))
    else Failure(UnknownUrlMessage)
  }

  /** Upper and lower case make no difference to the choice. */
  lemma LoadIgnoresCase(apiToken: string, baseUri: string)
    ensures Load(apiToken, Lower(baseUri)) == Load(apiToken, baseUri)
  {
    LowerIdempotent(baseUri);
  }

  /** A host name found inside a longer word still counts: the match is on text, not on the host. */
  lemma SubstringNotHost(apiToken: string, prefix: string, suffix: string)
    ensures Load(apiToken, prefix + "x" + V1Host + suffix) == Success(RestV1Client(apiToken))
  {
    var u := prefix + "x" + V1Host + suffix;
    var i := |prefix| + 1;
    assert u[i..i + |V1Host|] == V1Host;
    OccursAtLower(u, V1Host, i);
    HostsAreLowerCase();
  }

  /** The version 1 fragment of `guessVersion` holds the version 1 host after its two slashes. */
  lemma V1HostInFragment()
    ensures OccursAt(Api.V1Fragment, V1Host, 2)
  {
    assert Api.V1Fragment == "//" + V1Host + "/rest";
    OccursInMiddle("//", V1Host, "/rest");
  }

  /** The version 2 fragment of `guessVersion` holds the version 2 host after its two slashes. */
  lemma V2HostInFragment()
    ensures OccursAt(Api.V2Fragment, V2Host, 2)
  {
    assert Api.V2Fragment == "//" + V2Host + "";
    OccursInMiddle("//", V2Host, "");
  }

  /** Where `guessVersion` answers "1", `load` picks version 1 as well. */
  lemma GuessedV1LoadsV1(apiToken: string, baseUri: string)
    requires Api.GuessVersion(baseUri) == Success("1")
    ensures Load(apiToken, baseUri) == Success(RestV1Client(apiToken))
  {
    var h := Lower(baseUri);
    var i :| OccursAt(h, Api.V1Fragment, i);
    V1HostInFragment();
    OccursAtTransitive(h, Api.V1Fragment, V1Host, i, 2);
  }

  /**
   * Where `guessVersion` answers "2", `load` finds a client too, but it is
   * version 1 when the URL also mentions the version 1 host elsewhere.
   */
  lemma GuessedV2Loads(apiToken: string, baseUri: string)
    requires Api.GuessVersion(baseUri) == Success("2")
    ensures Load(apiToken, baseUri).Success?
    ensures Load(apiToken, baseUri) == Success(RestV2Client(apiToken)) <==> !Contains(Lower(baseUri), V1Host)
  {
    var h := Lower(baseUri);
    var i :| OccursAt(h, Api.V2Fragment, i);
    V2HostInFragment();
    OccursAtTransitive(h, Api.V2Fragment, V2Host, i, 2);
  }

  /** The base URL of Clickatell's older HTTP API, on the version 1 host. */
  const LegacyUrl: string := "https://api.clickatell.com/http"

  lemma LegacyUrlHasV1Host()
    ensures OccursAt(LegacyUrl, V1Host, 8)
  {
    assert LegacyUrl == "https://" + V1Host + "/http";
    OccursInMiddle("https://", V1Host, "/http");
  }

  /** The legacy URL has no upper-case letters. */
  lemma LegacyUrlIsLowerCase()
    ensures Lower(LegacyUrl) == LegacyUrl
  {
    LowerOfLowerCase(LegacyUrl);
  }

  /** The version 1 fragment does not occur in the legacy URL. */
  lemma LegacyUrlLacksV1Fragment(i: int)
    ensures !OccursAt(LegacyUrl, Api.V1Fragment, i)
  {
    if 0 <= i < 6 {
      MismatchAt(LegacyUrl, Api.V1Fragment, i, 0);
    } else if i == 6 {
      MismatchAt(LegacyUrl, Api.V1Fragment, i, 21);
    }
  }

  /** The version 2 fragment does not occur in the legacy URL. */
  lemma LegacyUrlLacksV2Fragment(i: int)
    ensures !OccursAt(LegacyUrl, Api.V2Fragment, i)
  {
    if 0 <= i < 6 {
      MismatchAt(LegacyUrl, Api.V2Fragment, i, 0);
    } else if i == 6 {
      MismatchAt(LegacyUrl, Api.V2Fragment, i, 2);
    }
  }

  /** `guessVersion` finds neither fragment in the legacy URL. */
  lemma LegacyUrlNotGuessed()
    ensures Api.GuessVersion(LegacyUrl).Failure?
  {
    LegacyUrlIsLowerCase();
    forall i | 0 <= i
      ensures !OccursAt(LegacyUrl, Api.V1Fragment, i) && !OccursAt(LegacyUrl, Api.V2Fragment, i)
    {
      LegacyUrlLacksV1Fragment(i);
      LegacyUrlLacksV2Fragment(i);
    }
  }

  /**
   * A URL on the version 1 host but outside its REST path: `load` picks
   * version 1, while `guessVersion` throws.
   */
  lemma ResolversDisagree(apiToken: string)
    ensures Load(apiToken, LegacyUrl) == Success(RestV1Client(apiToken))
    ensures Api.GuessVersion(LegacyUrl).Failure?
  {
    LegacyUrlIsLowerCase();
    LegacyUrlHasV1Host();
    LegacyUrlNotGuessed();
  }
}
