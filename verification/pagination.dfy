/** Paginated listings: a page holds the keys strictly after an optional
    cursor, in ascending key order, at most `min(limit ?? 10, 30)` of them. */
module Pagination {
  import opened Host
  import opened Lexicographic

  const DEFAULT_LIMIT: nat := 10
  const MAX_LIMIT: nat := 30

  /** `limit.unwrap_or(DEFAULT_LIMIT).min(MAX_LIMIT)`. */
  function PageSize(limit: Option<nat>): (n: nat)
    ensures n <= MAX_LIMIT
    ensures n <= limit.GetOr(DEFAULT_LIMIT)
    ensures n == limit.GetOr(DEFAULT_LIMIT) || n == MAX_LIMIT
  {
    var requested := limit.GetOr(DEFAULT_LIMIT);
    if requested < MAX_LIMIT then requested else MAX_LIMIT
  }

  /** The range start of a listing is exclusive: `start_after` itself is
      skipped, only strictly greater keys are returned. */
  predicate After(startAfter: Option<string>, k: string) {
    match startAfter
    case None => true
    case Some(cursor) => Less(cursor, k)
  }

  /** An ascending range scan over `keys`, starting strictly after the
      cursor and taking at most one page. The page is the sorted prefix of
      the eligible keys: any eligible key left out comes after a full page. */
  method Page(keys: set<string>, startAfter: Option<string>, limit: Option<nat>)
    returns (page: seq<string>)
    ensures |page| <= PageSize(limit)
    ensures forall i :: 0 <= i < |page| ==> page[i] in keys && After(startAfter, page[i])
    ensures forall i, j :: 0 <= i < j < |page| ==> Less(page[i], page[j])
    ensures forall k :: k in keys && After(startAfter, k) && k !in page ==>
      |page| == PageSize(limit) && forall i :: 0 <= i < |page| ==> Less(page[i], k)
    ensures startAfter.Some? ==> startAfter.value !in page
  {
    var size := PageSize(limit);
    var rest := set k | k in keys && After(startAfter, k);
    ghost var eligible := rest;
    page := [];
    while |page| < size && rest != {}
      invariant |page| <= size
      invariant rest <= eligible
      invariant forall i :: 0 <= i < |page| ==> page[i] in eligible && page[i] !in rest
      invariant forall k :: k in eligible && k !in rest ==> k in page
      invariant forall i, j :: 0 <= i < j < |page| ==> Less(page[i], page[j])
      invariant forall i, k :: 0 <= i < |page| && k in rest ==> Less(page[i], k)
      decreases |rest|
    {
      LeastExists(rest);
      var m :| IsLeast(m, rest);
      page := page + [m];
      rest := rest - {m};
    }
    if startAfter.Some? {
      LessIrreflexive(startAfter.value);
    }
  }
}
