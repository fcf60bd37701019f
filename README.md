# QuickQrReader core in Dafny

QuickQrReader is an Android app that scans QR codes. Its `HandleQrCodeUseCase`
routes a scanned string to a matching native app (LINE, Twitter/X, Instagram)
when that app is installed, or to a plain VIEW intent otherwise, and its
`MainViewModel` turns scan results into UI events through that use case. The
shipped `MainActivity` calls neither: it opens every scan as a bare VIEW intent.
This project models the use case and the view model and proves what they
promise.

- **The QR-payload router** (`HandleQrCodeUseCase.invoke` and `createAppIntent`)
  is modelled as pure functions in `handle_qr_code_use_case.dfy`.
  - `Uri.parse` is a parameter of type `string -> Option<Uri>`. `None` means a
    failed parse: `Uri.parse` threw, or returned null so that reading
    `uri.scheme` threw.
  - `AppRepository.isAppInstalled` is a parameter of type
    `string -> Option<bool>`. `None` means the query threw.
  - `Invoke` returns the `Success`/`Error` result and the packages it asked
    about, in call order. That makes the order of installation queries
    something the proofs can talk about.
  - `Contains` in `text.dfy` models Kotlin's `String.contains`.
- **A table-driven restatement of the router** is in `routing_table.dfy`: a
  scheme table, an ordered domain table and the packages of each app family.
  `PickFirst` tries a family's packages in order. `InvokeFollowsRoutingTable`
  proves that the use case's nested `when` expressions compute exactly that
  rule, queries included.
- **The router's properties**, proved for every payload, parser and repository,
  are in `router_properties.dfy`. Concrete payloads are in `router_scenarios.dfy`:
  those of the unit tests, and `https://linux.com`, which shows what matching
  domains by substring implies.
- **The scan-result state machine** (`MainViewModel`) is a class in
  `main_view_model.dfy`.
  - `uiState` is a field.
  - The event stream is a sequence `events` that each callback appends to.
  - A ghost log `useCaseCalls` records every payload handed to the use case.
  - The use case is an injected function, and the string resources are a
    `Resources` value.
  - `ScanSuccessThroughUseCase` wires the real router into a fresh view model,
    the way the view model's factory does.

## Model

| member | source | states |
|---|---|---|
| `HandleQrCodeUseCase.PickFirst` | app/src/main/java/com/ks/app/quickqrreader/domain/HandleQrCodeUseCase.kt:54-68 | Queries are a prefix of the candidate list. Every query except the last was answered "not installed". A chosen package is the last one queried and was answered installed. No package means every candidate was queried and reported absent. `Threw` means the last query threw. A built intent is a VIEW of the given URI. |
| `HandleQrCodeUseCase.Candidates` | app/src/main/java/com/ks/app/quickqrreader/domain/HandleQrCodeUseCase.kt:46-50 | The packages `createAppIntent` may try: the primary first, then the optional second package. |
| `HandleQrCodeUseCase.CreateAppIntent` | app/src/main/java/com/ks/app/quickqrreader/domain/HandleQrCodeUseCase.kt:46-69 | `createAppIntent` is first-installed-wins over primary then secondary, as `PickFirst` specifies: primary if installed, else secondary if installed, else no package. The secondary is queried only after the primary was answered absent. |
| `HandleQrCodeUseCase.Invoke` | app/src/main/java/com/ks/app/quickqrreader/domain/HandleQrCodeUseCase.kt:20-44 | An `Error` always carries the scanned text verbatim. A parse failure yields `Error(qrCode)` without any installation query. |
| `RoutingTable.Targets` | app/src/main/java/com/ks/app/quickqrreader/domain/HandleQrCodeUseCase.kt:15-18 | Only the generic family has no packages. The Twitter family's packages are `com.twitter.android`, then `com.x.android`. The LINE family has only `jp.naver.line.android`, and the Instagram family only `com.instagram.android`. |
| `RoutingTable.LookupScheme` | app/src/main/java/com/ks/app/quickqrreader/domain/HandleQrCodeUseCase.kt:23-27 | A scheme resolves to a family only if it equals a table entry exactly. An absent scheme resolves to nothing. |
| `RoutingTable.ClassifyOrder` | app/src/main/java/com/ks/app/quickqrreader/domain/HandleQrCodeUseCase.kt:23-36 | The schemes `line`, `twitter` and `instagram` decide first. Otherwise the first match among `line.me`, `twitter.com`/`x.com` and `instagram.com` decides. Otherwise the family is generic. |
| `RoutingTable.InvokeFollowsRoutingTable` | app/src/main/java/com/ks/app/quickqrreader/domain/HandleQrCodeUseCase.kt:20-69 | `invoke` gives the same result and the same query sequence as the table-driven rule: parse, classify, then pick the first installed package of the family. |
| `RouterProperties.SuccessIsViewOfParsedUri` | app/src/main/java/com/ks/app/quickqrreader/domain/HandleQrCodeUseCase.kt:20-69 | Every `Success` intent has action VIEW and data equal to the input's parsed URI, whatever branch built it. The result is `Error(qrCode)` exactly when parsing failed or some installation query threw. |
| `RouterProperties.PackageIsInstalled` | app/src/main/java/com/ks/app/quickqrreader/domain/HandleQrCodeUseCase.kt:54-68 | A package on the intent was queried and reported installed, and it is one of the four known packages. An intent without a package means every query was answered "not installed". |
| `RouterProperties.SchemeTakesPriority` | app/src/main/java/com/ks/app/quickqrreader/domain/HandleQrCodeUseCase.kt:23-27 | Two payloads that parse to the same URI with scheme `line`, `twitter` or `instagram` make the same queries and get the same intent, whatever substrings the raw strings contain. One of them gives `Error` exactly when the other does. |
| `RouterProperties.DomainFallbackOrder` | app/src/main/java/com/ks/app/quickqrreader/domain/HandleQrCodeUseCase.kt:29-35 | Without a known scheme the raw string is tested for `line.me`, then `twitter.com` or `x.com`, then `instagram.com`. A payload with none of them gets a package-less VIEW intent and makes no query. |
| `RouterProperties.TwitterFamilyRoute` | app/src/main/java/com/ks/app/quickqrreader/domain/HandleQrCodeUseCase.kt:25-33 | The Twitter family picks `com.twitter.android` if installed, else `com.x.android` if installed, else no package. A throwing query gives `Error`. `com.x.android` is queried if and only if `com.twitter.android` was reported absent. |
| `RouterProperties.SinglePackageFamilyRoute` | app/src/main/java/com/ks/app/quickqrreader/domain/HandleQrCodeUseCase.kt:24-34 | The LINE and Instagram families make exactly one query. Installed gives that package, absent gives no package, and a throwing query gives `Error`. |
| `RouterProperties.PickFirstDependsOnlyOnQueried` | app/src/main/java/com/ks/app/quickqrreader/domain/HandleQrCodeUseCase.kt:54-68 | Two repositories that agree on the packages queried give the same package choice. |
| `RouterProperties.DependsOnlyOnAnswers` | app/src/main/java/com/ks/app/quickqrreader/domain/HandleQrCodeUseCase.kt:20-69 | The result depends only on the input string, the parser and the answers to the queries actually made. |
| `RouterProperties.InstalledSetNeverErrors` | app/src/main/java/com/ks/app/quickqrreader/data/AppRepository.kt:10-19 | With a repository that answers from an installed set and never throws, every parsable payload gives `Success`, and a chosen package is in the installed set. |
| `RouterScenarios.LineSchemeWithLineInstalled` | app/src/test/java/com/ks/app/quickqrreader/domain/HandleQrCodeUseCaseTest.kt:38-50 | `line://ti/p/@example` with LINE installed opens in LINE. |
| `RouterScenarios.LineUrlWithoutLine` | app/src/test/java/com/ks/app/quickqrreader/domain/HandleQrCodeUseCaseTest.kt:52-64 | `https://line.me/R/ti/p/@example` without LINE installed gives a package-less VIEW intent after one query. |
| `RouterScenarios.LineUrlWithLineInstalled` | app/src/test/java/com/ks/app/quickqrreader/domain/HandleQrCodeUseCaseTest.kt:124-136 | `https://line.me/R/ti/p/@example` with LINE installed opens in LINE after one query. |
| `RouterScenarios.InstagramSchemeWithoutInstagram` | app/src/test/java/com/ks/app/quickqrreader/domain/HandleQrCodeUseCaseTest.kt:81-93 | `instagram://user?username=someuser` without Instagram installed gives a package-less VIEW intent after querying only Instagram. |
| `RouterScenarios.InvalidUriIsErrorOnlyIfParseFails` | app/src/test/java/com/ks/app/quickqrreader/domain/HandleQrCodeUseCaseTest.kt:113-122 | `invalid_uri_string_without_scheme_or_domain` gives `Error` with no query when the parse step fails. If the parser returns a URI without a known scheme, it gives a package-less VIEW intent and no query, because the string contains no `.` and so none of the domains. The test's expected `Error` therefore depends on the parse step failing; the JVM stub of `Uri.parse` does this by returning null. |
| `RouterScenarios.InstagramUrlWithInstagramInstalled` | app/src/test/java/com/ks/app/quickqrreader/domain/HandleQrCodeUseCaseTest.kt:138-150 | `https://www.instagram.com/someprofile/` with Instagram installed opens in Instagram after one query. The string contains neither `line.me`, `twitter.com` nor `x.com`. |
| `RouterScenarios.TwitterUrlWithOnlyX` | app/src/test/java/com/ks/app/quickqrreader/domain/HandleQrCodeUseCaseTest.kt:66-79 | `https://twitter.com/someuser` with only X installed opens in `com.x.android` after querying Twitter, then X. |
| `RouterScenarios.GenericHttpUrl` | app/src/test/java/com/ks/app/quickqrreader/domain/HandleQrCodeUseCaseTest.kt:95-111 | `http://www.google.com` gives a package-less VIEW intent and makes no query. |
| `RouterScenarios.SubstringMatchRoutesLinuxComToX` | app/src/main/java/com/ks/app/quickqrreader/domain/HandleQrCodeUseCase.kt:31-33 | Domain matching is by substring: `https://linux.com` contains `x.com` and is routed to the Twitter family. |
| `MainViewModelUi.MainViewModel.constructor` | app/src/main/java/com/ks/app/quickqrreader/ui/MainViewModel.kt:21-33 | A new view model has `isScanning == false`, an empty event log and no use-case calls. |
| `MainViewModelUi.MainViewModel.OnScanStarted` | app/src/main/java/com/ks/app/quickqrreader/ui/MainViewModel.kt:41-43 | `isScanning` becomes true whatever it was, so the call is idempotent. No event is emitted and the use case is not called. |
| `MainViewModelUi.MainViewModel.OnScanSuccess` | app/src/main/java/com/ks/app/quickqrreader/ui/MainViewModel.kt:45-54 | `isScanning` becomes false whatever it was. A null value emits exactly one no-data toast and does not call the use case. A value is passed to the use case exactly once. `Success(i)` then emits exactly `StartActivity(i)`, and `Error(o)` emits exactly the cannot-open toast for `o`. |
| `MainViewModelUi.MainViewModel.OnScanCanceled` | app/src/main/java/com/ks/app/quickqrreader/ui/MainViewModel.kt:56-61 | `isScanning` becomes false and exactly one canceled toast is emitted. |
| `MainViewModelUi.MainViewModel.OnScanFailed` | app/src/main/java/com/ks/app/quickqrreader/ui/MainViewModel.kt:63-68 | `isScanning` becomes false and exactly one scan-failed toast is emitted. It is formatted with the exception's message, or with "Unknown error" when there is none. |
| `MainViewModelUi.MainViewModel.ProcessQrCode` | app/src/main/java/com/ks/app/quickqrreader/ui/MainViewModel.kt:70-81 | One use-case call on the payload. A `Success` result emits its intent and an `Error` result emits the cannot-open toast for the original text. |
| `MainViewModelUi.ScanSuccessThroughUseCase` | app/src/main/java/com/ks/app/quickqrreader/ui/MainViewModel.kt:45-81 | With the real router injected, one successful scan emits exactly one event. It is either a VIEW of the parsed URI whose package, if any, is installed, or the cannot-open toast for the scanned text. Scanning is left off. |

## Left out

- Android's `Uri.parse` is a parameter. The model does not say which strings fail to parse or how the scheme is found.
- `DefaultAppRepository` and `PackageManager.getPackageInfo` are an oracle parameter that can answer true, false, or throw.
- The camera, ML Kit decoding, permissions and Compose UI in `MainActivity.kt` are not part of this model. `MainActivity` builds its own bare VIEW intent and does not use the router.
- Event delivery through `viewModelScope.launch` and `MutableSharedFlow` is modelled as a synchronous append to a log. The model does not cover coroutine scheduling, events lost when nobody subscribes, or interleaving.
- String resources and their formatting (`application.getString`) are opaque values and functions in `Resources`.
- The reflection in the view model's `Factory` is not modelled. Its wiring appears only in `ScanSuccessThroughUseCase`.
- `onScanStarted` has no in-flight guard and starts no scanner, so no "one scanner call" property is stated.
- `DefaultAppRepository` catches only `NameNotFoundException`. Any other exception from the installation check makes `invoke` return `Error`, and the model does the same.
- `Error` therefore comes from a parse failure or from a throwing installation query.
