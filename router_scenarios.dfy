/**
 * Concrete payloads: those of the use case's unit tests, with the parser fixed
 * to give the scheme Android's `Uri.parse` gives those strings, and one more
 * (`https://linux.com`) that shows what substring matching of domains implies.
 */
module RouterScenarios {
  import opened Wrappers
  import opened Text
  import opened HandleQrCodeUseCase

  /** A LINE deep link with LINE installed opens in LINE. */
  lemma LineSchemeWithLineInstalled(parse: UriParser, repo: AppRepository)
    requires parse("line://ti/p/@example") == Some(Uri("line://ti/p/@example", Some("line")))
    requires repo(LineAppPackageName) == Some(true)
    ensures Invoke("line://ti/p/@example", parse, repo).result ==
      Success(Intent(ActionView, Uri("line://ti/p/@example", Some("line")), Some(LineAppPackageName)))
  {
  }

  /** A `line.me` web link without LINE installed opens with no package. */
  lemma LineUrlWithoutLine(parse: UriParser, repo: AppRepository)
    requires parse("https://line.me/R/ti/p/@example") == Some(Uri("https://line.me/R/ti/p/@example", Some("https")))
    requires repo(LineAppPackageName) == Some(false)
    ensures Invoke("https://line.me/R/ti/p/@example", parse, repo) ==
      Invocation(Success(Intent(ActionView, Uri("https://line.me/R/ti/p/@example", Some("https")), None)),
                 [LineAppPackageName])
  {
    var qr := "https://line.me/R/ti/p/@example";
    assert qr == "https://" + "line.me" + "/R/ti/p/@example";
    ContainsMiddle("https://", "line.me", "/R/ti/p/@example");
  }

  /** A `line.me` web link with LINE installed opens in LINE after one query. */
  lemma LineUrlWithLineInstalled(parse: UriParser, repo: AppRepository)
    requires parse("https://line.me/R/ti/p/@example") == Some(Uri("https://line.me/R/ti/p/@example", Some("https")))
    requires repo(LineAppPackageName) == Some(true)
    ensures Invoke("https://line.me/R/ti/p/@example", parse, repo) ==
      Invocation(Success(Intent(ActionView, Uri("https://line.me/R/ti/p/@example", Some("https")), Some(LineAppPackageName))),
                 [LineAppPackageName])
  {
    var qr := "https://line.me/R/ti/p/@example";
    assert qr == "https://" + "line.me" + "/R/ti/p/@example";
    ContainsMiddle("https://", "line.me", "/R/ti/p/@example");
  }

  /** An Instagram deep link without Instagram installed opens with no package, whatever the raw string contains. */
  lemma InstagramSchemeWithoutInstagram(parse: UriParser, repo: AppRepository)
    requires parse("instagram://user?username=someuser") ==
      Some(Uri("instagram://user?username=someuser", Some("instagram")))
    requires repo(InstagramAppPackageName) == Some(false)
    ensures Invoke("instagram://user?username=someuser", parse, repo) ==
      Invocation(Success(Intent(ActionView, Uri("instagram://user?username=someuser", Some("instagram")), None)),
                 [InstagramAppPackageName])
  {
  }

  /** `invalid_uri_string_without_scheme_or_domain` has no `.`, so it contains none of the known domains. */
  lemma InvalidUriDomains()
    ensures !Contains("invalid_uri_string_without_scheme_or_domain", "line.me")
    ensures !Contains("invalid_uri_string_without_scheme_or_domain", "twitter.com")
    ensures !Contains("invalid_uri_string_without_scheme_or_domain", "x.com")
    ensures !Contains("invalid_uri_string_without_scheme_or_domain", "instagram.com")
  {
    var qr := "invalid_uri_string_without_scheme_or_domain";
    NotContainedWithoutChar(qr, "line.me", '.');
    NotContainedWithoutChar(qr, "twitter.com", '.');
    NotContainedWithoutChar(qr, "x.com", '.');
    NotContainedWithoutChar(qr, "instagram.com", '.');
  }

  /**
   * The string the "invalid URI" test scans is `Error` only when the parse step
   * fails on it (a JVM stub returning null does): should the parser return a URI
   * with none of the known schemes, the router gives a package-less VIEW intent
   * and asks the repository nothing.
   */
  lemma InvalidUriIsErrorOnlyIfParseFails(parse: UriParser, repo: AppRepository)
    ensures parse("invalid_uri_string_without_scheme_or_domain").None? ==>
      Invoke("invalid_uri_string_without_scheme_or_domain", parse, repo) ==
        Invocation(Error("invalid_uri_string_without_scheme_or_domain"), [])
    ensures parse("invalid_uri_string_without_scheme_or_domain").Some? &&
            parse("invalid_uri_string_without_scheme_or_domain").value.scheme
              !in {Some("line"), Some("twitter"), Some("instagram")} ==>
      Invoke("invalid_uri_string_without_scheme_or_domain", parse, repo) ==
        Invocation(Success(Intent(ActionView, parse("invalid_uri_string_without_scheme_or_domain").value, None)), [])
  {
    InvalidUriDomains();
  }

  /** `https://twitter.com/someuser` contains `twitter.com` and not `line.me`. */
  lemma TwitterUrlDomains()
    ensures !Contains("https://twitter.com/someuser", "line.me")
    ensures Contains("https://twitter.com/someuser", "twitter.com")
  {
    var qr := "https://twitter.com/someuser";
    NotContainedWithoutChar(qr, "line.me", 'l');
    assert qr == "https://" + "twitter.com" + "/someuser";
    ContainsMiddle("https://", "twitter.com", "/someuser");
  }

  /** A `twitter.com` web link with only the X app installed opens in X. */
  lemma TwitterUrlWithOnlyX(parse: UriParser, repo: AppRepository)
    requires parse("https://twitter.com/someuser") == Some(Uri("https://twitter.com/someuser", Some("https")))
    requires repo(TwitterAppPackageName) == Some(false) && repo(XAppPackageName) == Some(true)
    ensures Invoke("https://twitter.com/someuser", parse, repo) ==
      Invocation(Success(Intent(ActionView, Uri("https://twitter.com/someuser", Some("https")), Some(XAppPackageName))),
                 [TwitterAppPackageName, XAppPackageName])
  {
    TwitterUrlDomains();
  }

  /** `http://www.google.com` contains none of the known domains. */
  lemma GoogleUrlDomains()
    ensures !Contains("http://www.google.com", "line.me")
    ensures !Contains("http://www.google.com", "twitter.com")
    ensures !Contains("http://www.google.com", "x.com")
    ensures !Contains("http://www.google.com", "instagram.com")
  {
    var qr := "http://www.google.com";
    NotContainedWithoutChar(qr, "line.me", 'i');
    NotContainedWithoutChar(qr, "twitter.com", 'i');
    NotContainedWithoutChar(qr, "x.com", 'x');
    NotContainedWithoutChar(qr, "instagram.com", 'i');
  }

  /** A plain web link matching no known domain opens with no package and no installation query. */
  lemma GenericHttpUrl(parse: UriParser, repo: AppRepository)
    requires parse("http://www.google.com") == Some(Uri("http://www.google.com", Some("http")))
    ensures Invoke("http://www.google.com", parse, repo) ==
      Invocation(Success(Intent(ActionView, Uri("http://www.google.com", Some("http")), None)), [])
  {
    GoogleUrlDomains();
  }

  /** `https://www.instagram.com/someprofile/` has no `ne`, so it does not contain `line.me`. */
  lemma InstagramUrlLacksLine()
    ensures !Contains("https://www.instagram.com/someprofile/", "line.me")
  {
    var qr := "https://www.instagram.com/someprofile/";
    assert qr == "https://www.in" + "stagram.com/someprofile/";
    NotContainedWithoutChar("https://www.in", "ne", 'e');
    NotContainedWithoutChar("stagram.com/someprofile/", "ne", 'n');
    PairNotContainedAcross("https://www.in", "stagram.com/someprofile/", "ne");
    NotContainedWithoutPiece(qr, "li", "ne", ".me");
    assert "li" + "ne" + ".me" == "line.me";
  }

  /** `https://www.instagram.com/someprofile/` has no `te`, so it does not contain `twitter.com`. */
  lemma InstagramUrlLacksTwitter()
    ensures !Contains("https://www.instagram.com/someprofile/", "twitter.com")
  {
    var qr := "https://www.instagram.com/someprofile/";
    assert qr == "https://www.instagram.com/som" + "eprofile/";
    NotContainedWithoutChar("https://www.instagram.com/som", "te", 'e');
    NotContainedWithoutChar("eprofile/", "te", 't');
    PairNotContainedAcross("https://www.instagram.com/som", "eprofile/", "te");
    NotContainedWithoutPiece(qr, "twit", "te", "r.com");
    assert "twit" + "te" + "r.com" == "twitter.com";
  }

  /** `https://www.instagram.com/someprofile/` contains `instagram.com` and none of the earlier domains. */
  lemma InstagramUrlDomains()
    ensures !Contains("https://www.instagram.com/someprofile/", "line.me")
    ensures !Contains("https://www.instagram.com/someprofile/", "twitter.com")
    ensures !Contains("https://www.instagram.com/someprofile/", "x.com")
    ensures Contains("https://www.instagram.com/someprofile/", "instagram.com")
  {
    var qr := "https://www.instagram.com/someprofile/";
    InstagramUrlLacksLine();
    InstagramUrlLacksTwitter();
    NotContainedWithoutChar(qr, "x.com", 'x');
    assert qr == "https://www." + "instagram.com" + "/someprofile/";
    ContainsMiddle("https://www.", "instagram.com", "/someprofile/");
  }

  /** An `instagram.com` web link with Instagram installed opens in Instagram after one query. */
  lemma InstagramUrlWithInstagramInstalled(parse: UriParser, repo: AppRepository)
    requires parse("https://www.instagram.com/someprofile/") ==
      Some(Uri("https://www.instagram.com/someprofile/", Some("https")))
    requires repo(InstagramAppPackageName) == Some(true)
    ensures Invoke("https://www.instagram.com/someprofile/", parse, repo) ==
      Invocation(Success(Intent(ActionView, Uri("https://www.instagram.com/someprofile/", Some("https")),
                                Some(InstagramAppPackageName))),
                 [InstagramAppPackageName])
  {
    InstagramUrlDomains();
  }

  /** `https://linux.com` contains `x.com` and not `line.me`. */
  lemma LinuxComDomains()
    ensures !Contains("https://linux.com", "line.me")
    ensures Contains("https://linux.com", "x.com")
  {
    var qr := "https://linux.com";
    NotContainedWithoutChar(qr, "line.me", 'e');
    assert qr == "https://linu" + "x.com" + "";
    ContainsMiddle("https://linu", "x.com", "");
  }

  /**
   * Domain matching is by substring, not by host: `x.com` occurs inside
   * `linux.com`, so that site is routed to the Twitter family.
   */
  lemma SubstringMatchRoutesLinuxComToX(parse: UriParser, repo: AppRepository)
    requires parse("https://linux.com") == Some(Uri("https://linux.com", Some("https")))
    requires repo(TwitterAppPackageName) == Some(false) && repo(XAppPackageName) == Some(true)
    ensures Invoke("https://linux.com", parse, repo).result ==
      Success(Intent(ActionView, Uri("https://linux.com", Some("https")), Some(XAppPackageName)))
  {
    LinuxComDomains();
  }
}
