/**
 * The QR-payload router: `HandleQrCodeUseCase.invoke` and its private helper
 * `createAppIntent`. A scanned string is parsed as a URI; its scheme, or failing
 * that a substring of the raw string, selects an app family; the family's
 * packages are asked in order whether they are installed; the first installed one
 * becomes the VIEW intent's package, and if none is, the intent has no package.
 * Any exception inside the `try` block turns into `Error(qrCode)`.
 *
 * `Uri.parse` and `AppRepository.isAppInstalled` are platform calls and enter
 * every function as parameters. Because the repository is an oracle whose calls
 * are observable (the tests mock it), the router also returns the packages it
 * queried, in order.
 */
module HandleQrCodeUseCase {
  import opened Wrappers
  import opened Text

  const ActionView := "android.intent.action.VIEW"

  const LineAppPackageName := "jp.naver.line.android"
  const TwitterAppPackageName := "com.twitter.android"
  const XAppPackageName := "com.x.android"
  const InstagramAppPackageName := "com.instagram.android"

  /** A parsed URI: the string it came from and its scheme (`uri.scheme`, null when absent). */
  datatype Uri = Uri(text: string, scheme: Option<string>)

  /**
   * `Uri.parse` followed by reading `uri.scheme`: `None` stands for a failed
   * parse, where `Uri.parse` threw or returned null so that the read threw.
   */
  type UriParser = string -> Option<Uri>

  /**
   * `AppRepository.isAppInstalled`: `Some(b)` when it returned `b`, `None` when it
   * threw (the default repository turns only `NameNotFoundException` into `false`;
   * anything else escapes to the caller).
   */
  type AppRepository = string -> Option<bool>

  /** `Intent(ACTION_VIEW, uri)` with the package set by `setPackage`, or none. */
  datatype Intent = Intent(action: string, data: Uri, pkg: Option<string>)

  datatype QrCodeProcessingResult = Success(intent: Intent) | Error(originalQrCode: string)

  /** What a call that may throw produced. */
  datatype Outcome<T> = Returned(value: T) | Threw

  /** The outcome of `createAppIntent` and the packages it passed to `isAppInstalled`, in call order. */
  datatype AppIntent = AppIntent(outcome: Outcome<Intent>, queried: seq<string>)

  /** The result of `invoke` and the packages it passed to `isAppInstalled`, in call order. */
  datatype Invocation = Invocation(result: QrCodeProcessingResult, queried: seq<string>)

  /** Each of `queried` except the last was reported as not installed. */
  ghost predicate AllButLastAbsent(queried: seq<string>, repo: AppRepository)
  {
    forall k :: 0 <= k < |queried| - 1 ==> repo(queried[k]) == Some(false)
  }

  /**
   * Reference definition of the selection rule: try the candidate packages in
   * order, stop at the first one that is installed or whose query throws, and
   * fall back to a package-less VIEW intent once all are absent.
   */
  function PickFirst(uri: Uri, candidates: seq<string>, repo: AppRepository): (a: AppIntent)
    ensures a.queried <= candidates
    ensures candidates != [] ==> a.queried != []
    ensures AllButLastAbsent(a.queried, repo)
    ensures a.outcome.Threw? ==> a.queried != [] && repo(a.queried[|a.queried| - 1]) == None
    ensures a.outcome.Returned? ==>
      a.outcome.value.action == ActionView && a.outcome.value.data == uri
    ensures a.outcome.Returned? && a.outcome.value.pkg.Some? ==>
      a.queried != [] && a.outcome.value.pkg.value == a.queried[|a.queried| - 1] &&
      repo(a.outcome.value.pkg.value) == Some(true)
    ensures a.outcome.Returned? && a.outcome.value.pkg.None? ==>
      a.queried == candidates && forall k :: 0 <= k < |candidates| ==> repo(candidates[k]) == Some(false)
    decreases |candidates|
  {
    if candidates == [] then
      AppIntent(Returned(Intent(ActionView, uri, None)), [])
    else
      match repo(candidates[0])
      case None => AppIntent(Threw, [candidates[0]])
      case Some(true) => AppIntent(Returned(Intent(ActionView, uri, Some(candidates[0]))), [candidates[0]])
      case Some(false) =>
        var rest := PickFirst(uri, candidates[1..], repo);
        AppIntent(rest.outcome, [candidates[0]] + rest.queried)
  }

  /** The packages `createAppIntent` may try, primary first. */
  function Candidates(packageName: string, checkSecondPackage: Option<string>): (c: seq<string>)
    ensures |c| >= 1 && c[0] == packageName
    ensures checkSecondPackage.None? <==> |c| == 1
    ensures checkSecondPackage.Some? ==> c == [packageName, checkSecondPackage.value]
  {
    match checkSecondPackage
    case None => [packageName]
    case Some(second) => [packageName, second]
  }

  /**
   * `createAppIntent(uri, packageName, checkSecondPackage)`: the primary package if
   * installed, else the secondary if there is one and it is installed, else no
   * package. A throwing `isAppInstalled` propagates as `Threw`.
   */
  function CreateAppIntent(uri: Uri, packageName: string, checkSecondPackage: Option<string>,
                           repo: AppRepository): (a: AppIntent)
    ensures a == PickFirst(uri, Candidates(packageName, checkSecondPackage), repo)
  {
    match repo(packageName)
    case None => AppIntent(Threw, [packageName])
    case Some(true) => AppIntent(Returned(Intent(ActionView, uri, Some(packageName))), [packageName])
    case Some(false) =>
      match checkSecondPackage
      case None => AppIntent(Returned(Intent(ActionView, uri, None)), [packageName])
      case Some(second) =>
        match repo(second)
        case None => AppIntent(Threw, [packageName, second])
        case Some(true) => AppIntent(Returned(Intent(ActionView, uri, Some(second))), [packageName, second])
        case Some(false) => AppIntent(Returned(Intent(ActionView, uri, None)), [packageName, second])
  }

  /** The `try` block's value: a built intent becomes `Success`, a throw becomes `Error(qrCode)`. */
  function Complete(qrCode: string, a: AppIntent): Invocation
  {
    match a.outcome
    case Returned(intent) => Invocation(Success(intent), a.queried)
    case Threw => Invocation(Error(qrCode), a.queried)
  }

  /** `HandleQrCodeUseCase.invoke(qrCode)`, with the packages it queried. */
  function Invoke(qrCode: string, parse: UriParser, repo: AppRepository): (inv: Invocation)
    ensures inv.result.Error? ==> inv.result.originalQrCode == qrCode
    ensures parse(qrCode).None? ==> inv == Invocation(Error(qrCode), [])
  {
    match parse(qrCode)
    case None => Invocation(Error(qrCode), [])
    case Some(uri) =>
      if uri.scheme == Some("line") then
        Complete(qrCode, CreateAppIntent(uri, LineAppPackageName, None, repo))
      else if uri.scheme == Some("twitter") then
        Complete(qrCode, CreateAppIntent(uri, TwitterAppPackageName, Some(XAppPackageName), repo))
      else if uri.scheme == Some("instagram") then
        Complete(qrCode, CreateAppIntent(uri, InstagramAppPackageName, None, repo))
      else if Contains(qrCode, "line.me") then
        Complete(qrCode, CreateAppIntent(uri, LineAppPackageName, None, repo))
      else if Contains(qrCode, "twitter.com") || Contains(qrCode, "x.com") then
        Complete(qrCode, CreateAppIntent(uri, TwitterAppPackageName, Some(XAppPackageName), repo))
      else if Contains(qrCode, "instagram.com") then
        Complete(qrCode, CreateAppIntent(uri, InstagramAppPackageName, None, repo))
      else
        Invocation(Success(Intent(ActionView, uri, None)), [])
  }

  /** An app repository that answers from a fixed set of installed packages and never throws. */
  function InstalledSet(installed: set<string>): AppRepository
  {
    p => Some(p in installed)
  }
}
