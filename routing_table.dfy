/**
 * The routing rule restated as data: a table from URI schemes to app families,
 * an ordered table from domain substrings to app families, and for each family
 * its ordered list of packages. `TableRoute` reads the tables;
 * `InvokeFollowsRoutingTable` proves that the use case's nested `when`
 * expressions compute exactly the same thing.
 */
module RoutingTable {
  import opened Wrappers
  import opened Text
  import opened HandleQrCodeUseCase

  datatype Family = LineFamily | TwitterFamily | InstagramFamily | GenericFamily

  /** Schemes matched exactly, before any domain check. */
  const SchemeTable: seq<(string, Family)> :=
    [("line", LineFamily), ("twitter", TwitterFamily), ("instagram", InstagramFamily)]

  /** Domain substrings of the raw payload, tried in this order when no scheme matched. */
  const DomainTable: seq<(seq<string>, Family)> :=
    [(["line.me"], LineFamily), (["twitter.com", "x.com"], TwitterFamily), (["instagram.com"], InstagramFamily)]

  /** The packages of a family, primary first; the generic family has none. */
  function Targets(f: Family): (t: seq<string>)
    ensures f == GenericFamily <==> t == []
    ensures f == TwitterFamily <==> |t| == 2
    ensures f == TwitterFamily ==> t == [TwitterAppPackageName, XAppPackageName]
    ensures f == LineFamily ==> t == [LineAppPackageName]
    ensures f == InstagramFamily ==> t == [InstagramAppPackageName]
  {
    match f
    case LineFamily => [LineAppPackageName]
    case TwitterFamily => [TwitterAppPackageName, XAppPackageName]
    case InstagramFamily => [InstagramAppPackageName]
    case GenericFamily => []
  }

  /** The family of the first entry whose scheme equals `scheme`. */
  function LookupScheme(table: seq<(string, Family)>, scheme: Option<string>): (r: Option<Family>)
    ensures r.Some? ==> scheme.Some? && (scheme.value, r.value) in table
    ensures r.None? ==> forall k :: 0 <= k < |table| ==> Some(table[k].0) != scheme
    decreases |table|
  {
    if table == [] then None
    else if Some(table[0].0) == scheme then Some(table[0].1)
    else LookupScheme(table[1..], scheme)
  }

  /** Some string of `domains` is a substring of `s`. */
  predicate ContainsAny(s: string, domains: seq<string>)
    decreases |domains|
  {
    domains != [] && (Contains(s, domains[0]) || ContainsAny(s, domains[1..]))
  }

  /** The family of the first entry one of whose domains occurs in `qrCode`, or the generic family. */
  function LookupDomain(table: seq<(seq<string>, Family)>, qrCode: string): Family
    decreases |table|
  {
    if table == [] then GenericFamily
    else if ContainsAny(qrCode, table[0].0) then table[0].1
    else LookupDomain(table[1..], qrCode)
  }

  /** Scheme first; the raw string's substrings only when no scheme matched. */
  function Classify(qrCode: string, uri: Uri): Family
  {
    match LookupScheme(SchemeTable, uri.scheme)
    case Some(f) => f
    case None => LookupDomain(DomainTable, qrCode)
  }

  /** The router as a table-driven rule: parse, classify, then pick the first installed target. */
  function TableRoute(qrCode: string, parse: UriParser, repo: AppRepository): Invocation
  {
    match parse(qrCode)
    case None => Invocation(Error(qrCode), [])
    case Some(uri) => Complete(qrCode, PickFirst(uri, Targets(Classify(qrCode, uri)), repo))
  }

  /** The classification in the order the use case tests it. */
  lemma ClassifyOrder(qrCode: string, uri: Uri)
    ensures uri.scheme == Some("line") ==> Classify(qrCode, uri) == LineFamily
    ensures uri.scheme == Some("twitter") ==> Classify(qrCode, uri) == TwitterFamily
    ensures uri.scheme == Some("instagram") ==> Classify(qrCode, uri) == InstagramFamily
    ensures uri.scheme !in {Some("line"), Some("twitter"), Some("instagram")} ==>
      Classify(qrCode, uri) ==
        if Contains(qrCode, "line.me") then LineFamily
        else if Contains(qrCode, "twitter.com") || Contains(qrCode, "x.com") then TwitterFamily
        else if Contains(qrCode, "instagram.com") then InstagramFamily
        else GenericFamily
  {
  }

  /** The use case's nested `when` computes the table-driven rule, queries included. */
  lemma InvokeFollowsRoutingTable(qrCode: string, parse: UriParser, repo: AppRepository)
    ensures Invoke(qrCode, parse, repo) == TableRoute(qrCode, parse, repo)
  {
  }
}
