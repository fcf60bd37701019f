/**
 * What `HandleQrCodeUseCase.invoke` promises its callers, proved for every
 * payload, every `Uri.parse` behaviour and every app repository.
 */
module RouterProperties {
  import opened Wrappers
  import opened Text
  import opened HandleQrCodeUseCase
  import opened RoutingTable

  /** Every answer the repository gave to the router was a plain true/false (no query threw). */
  ghost predicate Answered(queried: seq<string>, repo: AppRepository)
  {
    forall k :: 0 <= k < |queried| ==> repo(queried[k]).Some?
  }

  /**
   * Every `Success` intent is a VIEW of the payload's own parsed URI, whichever
   * branch built it; `Error` carries the payload verbatim, and it happens exactly
   * when parsing failed or an installation query threw.
   */
  lemma {:induction false} SuccessIsViewOfParsedUri(qrCode: string, parse: UriParser, repo: AppRepository)
    ensures var inv := Invoke(qrCode, parse, repo);
      inv.result.Success? ==>
        parse(qrCode) == Some(inv.result.intent.data) && inv.result.intent.action == ActionView
    ensures var inv := Invoke(qrCode, parse, repo);
      inv.result.Error? <==> parse(qrCode).None? || !Answered(inv.queried, repo)
    ensures var inv := Invoke(qrCode, parse, repo);
      inv.result.Error? ==> inv.result == Error(qrCode)
  {
    InvokeFollowsRoutingTable(qrCode, parse, repo);
  }

  /**
   * A package is set only if the repository said it is installed, and it is one
   * of the four known packages; no package means every package asked about was
   * reported absent.
   */
  lemma {:induction false} PackageIsInstalled(qrCode: string, parse: UriParser, repo: AppRepository)
    ensures var inv := Invoke(qrCode, parse, repo);
      inv.result.Success? && inv.result.intent.pkg.Some? ==>
        var p := inv.result.intent.pkg.value;
        repo(p) == Some(true) && p in inv.queried &&
        p in {LineAppPackageName, TwitterAppPackageName, XAppPackageName, InstagramAppPackageName}
    ensures var inv := Invoke(qrCode, parse, repo);
      inv.result.Success? && inv.result.intent.pkg.None? ==>
        forall k :: 0 <= k < |inv.queried| ==> repo(inv.queried[k]) == Some(false)
  {
    InvokeFollowsRoutingTable(qrCode, parse, repo);
    if uri :| parse(qrCode) == Some(uri) {
      var t := Targets(Classify(qrCode, uri));
      var a := PickFirst(uri, t, repo);
      if a.outcome.Returned? && a.outcome.value.pkg.Some? {
        assert a.queried[|a.queried| - 1] == t[|a.queried| - 1];
      }
    }
  }

  /**
   * A recognised scheme decides alone: two payloads that parse to the same URI
   * with scheme `line`, `twitter` or `instagram` query the same packages and get
   * the same intent, whatever domain substrings the raw strings contain.
   */
  lemma SchemeTakesPriority(qrCode1: string, qrCode2: string, parse: UriParser,
                            repo: AppRepository, uri: Uri)
    requires parse(qrCode1) == Some(uri) && parse(qrCode2) == Some(uri)
    requires uri.scheme in {Some("line"), Some("twitter"), Some("instagram")}
    ensures Invoke(qrCode1, parse, repo).queried == Invoke(qrCode2, parse, repo).queried
    ensures Invoke(qrCode1, parse, repo).result.Success? ==>
      Invoke(qrCode2, parse, repo).result == Invoke(qrCode1, parse, repo).result
    ensures Invoke(qrCode1, parse, repo).result.Error? <==> Invoke(qrCode2, parse, repo).result.Error?
  {
  }

  /**
   * Without a recognised scheme the raw string is searched for `line.me`, then
   * `twitter.com` or `x.com`, then `instagram.com`; a payload containing none of
   * them gets a package-less VIEW intent and the repository is never asked.
   */
  lemma DomainFallbackOrder(qrCode: string, parse: UriParser, repo: AppRepository, uri: Uri)
    requires parse(qrCode) == Some(uri)
    requires uri.scheme !in {Some("line"), Some("twitter"), Some("instagram")}
    ensures Contains(qrCode, "line.me") ==>
      Invoke(qrCode, parse, repo).queried == [LineAppPackageName]
    ensures !Contains(qrCode, "line.me") && (Contains(qrCode, "twitter.com") || Contains(qrCode, "x.com")) ==>
      Invoke(qrCode, parse, repo).queried[0] == TwitterAppPackageName
    ensures (!Contains(qrCode, "line.me") && !Contains(qrCode, "twitter.com") && !Contains(qrCode, "x.com") &&
             Contains(qrCode, "instagram.com")) ==>
      Invoke(qrCode, parse, repo).queried == [InstagramAppPackageName]
    ensures (!Contains(qrCode, "line.me") && !Contains(qrCode, "twitter.com") && !Contains(qrCode, "x.com") &&
             !Contains(qrCode, "instagram.com")) ==>
      Invoke(qrCode, parse, repo) == Invocation(Success(Intent(ActionView, uri, None)), [])
  {
  }

  /**
   * The Twitter family (scheme `twitter`, or `twitter.com` / `x.com` in the raw
   * string): `com.twitter.android` if installed, else `com.x.android` if
   * installed, else no package; a query that throws makes the result `Error`;
   * `com.x.android` is asked about only after `com.twitter.android` was reported
   * absent.
   */
  lemma TwitterFamilyRoute(qrCode: string, parse: UriParser, repo: AppRepository, uri: Uri)
    requires parse(qrCode) == Some(uri) && Classify(qrCode, uri) == TwitterFamily
    ensures var inv := Invoke(qrCode, parse, repo);
      repo(TwitterAppPackageName) == Some(true) ==>
        inv == Invocation(Success(Intent(ActionView, uri, Some(TwitterAppPackageName))), [TwitterAppPackageName])
    ensures var inv := Invoke(qrCode, parse, repo);
      repo(TwitterAppPackageName) == Some(false) && repo(XAppPackageName) == Some(true) ==>
        inv == Invocation(Success(Intent(ActionView, uri, Some(XAppPackageName))),
                          [TwitterAppPackageName, XAppPackageName])
    ensures var inv := Invoke(qrCode, parse, repo);
      repo(TwitterAppPackageName) == Some(false) && repo(XAppPackageName) == Some(false) ==>
        inv == Invocation(Success(Intent(ActionView, uri, None)), [TwitterAppPackageName, XAppPackageName])
    ensures var inv := Invoke(qrCode, parse, repo);
      repo(TwitterAppPackageName) == None ==> inv == Invocation(Error(qrCode), [TwitterAppPackageName])
    ensures var inv := Invoke(qrCode, parse, repo);
      repo(TwitterAppPackageName) == Some(false) && repo(XAppPackageName) == None ==>
        inv == Invocation(Error(qrCode), [TwitterAppPackageName, XAppPackageName])
    ensures var inv := Invoke(qrCode, parse, repo);
      XAppPackageName in inv.queried <==> repo(TwitterAppPackageName) == Some(false)
  {
  }

  /**
   * The LINE and Instagram families have a single package and no alternate: that
   * package if installed, otherwise no package, after exactly one query.
   */
  lemma SinglePackageFamilyRoute(qrCode: string, parse: UriParser, repo: AppRepository, uri: Uri)
    requires parse(qrCode) == Some(uri)
    requires Classify(qrCode, uri) in {LineFamily, InstagramFamily}
    ensures var p := if Classify(qrCode, uri) == LineFamily then LineAppPackageName else InstagramAppPackageName;
      var inv := Invoke(qrCode, parse, repo);
      inv.queried == [p] &&
      (repo(p) == Some(true) ==> inv.result == Success(Intent(ActionView, uri, Some(p)))) &&
      (repo(p) == Some(false) ==> inv.result == Success(Intent(ActionView, uri, None))) &&
      (repo(p) == None ==> inv.result == Error(qrCode))
  {
  }

  /** `PickFirst` looks at the repository only at the packages it queried. */
  lemma PickFirstDependsOnlyOnQueried(uri: Uri, candidates: seq<string>,
                                      repo1: AppRepository, repo2: AppRepository)
    requires forall p :: p in PickFirst(uri, candidates, repo1).queried ==> repo1(p) == repo2(p)
    ensures PickFirst(uri, candidates, repo1) == PickFirst(uri, candidates, repo2)
  {
  }

  /**
   * The result is a function of the payload, the parser and the answers to the
   * queries actually made: two repositories that agree on those packages give the
   * same result after the same queries.
   */
  lemma {:induction false} DependsOnlyOnAnswers(qrCode: string, parse: UriParser,
                                                repo1: AppRepository, repo2: AppRepository)
    requires forall p :: p in Invoke(qrCode, parse, repo1).queried ==> repo1(p) == repo2(p)
    ensures Invoke(qrCode, parse, repo1) == Invoke(qrCode, parse, repo2)
  {
    InvokeFollowsRoutingTable(qrCode, parse, repo1);
    InvokeFollowsRoutingTable(qrCode, parse, repo2);
    if uri :| parse(qrCode) == Some(uri) {
      PickFirstDependsOnlyOnQueried(uri, Targets(Classify(qrCode, uri)), repo1, repo2);
    }
  }

  /** With a repository that answers from a set of installed packages, every parsable payload succeeds. */
  lemma InstalledSetNeverErrors(qrCode: string, parse: UriParser, installed: set<string>)
    requires parse(qrCode).Some?
    ensures var inv := Invoke(qrCode, parse, InstalledSet(installed));
      inv.result.Success? &&
      (inv.result.intent.pkg.Some? ==> inv.result.intent.pkg.value in installed)
  {
  }
}
