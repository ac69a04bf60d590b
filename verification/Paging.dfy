/**
 * Pages of a list: page n holds the items from (n - 1) * limit, `limit` at most.
 */
module Paging {
  import opened Wrappers

  /** slice(skip, skip + limit), and skip/limit on a query. */
  function Slice<T>(s: seq<T>, skip: nat, limit: nat): seq<T> {
    s[Min(skip, |s|)..Min(skip + limit, |s|)]
  }

  /** Math.ceil(total / limit) || 1 */
  function PageCount(total: nat, limit: nat): nat
    requires limit > 0
  {
    if total == 0 then 1 else (total + limit - 1) / limit
  }

  function FirstPages<T>(s: seq<T>, limit: nat, n: nat): seq<T> {
    if n == 0 then [] else FirstPages(s, limit, n - 1) + Slice(s, (n - 1) * limit, limit)
  }

  lemma {:induction false} FirstPagesArePrefix<T>(s: seq<T>, limit: nat, n: nat)
    ensures n * limit >= 0
    ensures FirstPages(s, limit, n) == s[..Min(n * limit, |s|)]
  {
    if n > 0 {
      FirstPagesArePrefix(s, limit, n - 1);
      assert n * limit == (n - 1) * limit + limit;
    }
  }

  /** The pages follow each other with nothing repeated and nothing left out. */
  lemma PagesPartition<T>(s: seq<T>, limit: nat)
    requires limit > 0
    ensures FirstPages(s, limit, PageCount(|s|, limit)) == s
  {
    var n := PageCount(|s|, limit);
    FirstPagesArePrefix(s, limit, n);
    Covers(|s|, limit);
  }

  lemma Covers(total: nat, limit: nat)
    requires limit > 0
    ensures PageCount(total, limit) * limit >= total
  {
  }
}
