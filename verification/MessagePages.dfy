/** The pages of `findMessages`: newest first out of the database, oldest first on the screen. */
module MessagePages {

  function Min(a: nat, b: nat): nat {
    if a <= b then a else b
  }

  /** `skip` and `take` of a query. */
  function Window<T>(rows: seq<T>, skip: nat, take: nat): seq<T> {
    rows[Min(skip, |rows|)..Min(skip + take, |rows|)]
  }

  function Reverse<T>(s: seq<T>): seq<T> {
    seq(|s|, i requires 0 <= i < |s| => s[|s| - 1 - i])
  }

  /** `data` of one page of a history in descending order; pages are numbered from 1. */
  function Page<T>(newestFirst: seq<T>, page: nat, limit: nat): seq<T>
    requires page >= 1
  {
    Reverse(Window(newestFirst, (page - 1) * limit, limit))
  }

  /** `Math.ceil(total / limit)` */
  function TotalPages(total: nat, limit: nat): nat
    requires limit >= 1
  {
    (total + limit - 1) / limit
  }

  /** The pages from number `page` down to the first, one after the other. */
  function PagesFrom<T>(newestFirst: seq<T>, page: nat, limit: nat): seq<T> {
    if page == 0 then [] else Page(newestFirst, page, limit) + PagesFrom(newestFirst, page - 1, limit)
  }

  lemma ReverseConcat<T>(a: seq<T>, b: seq<T>)
    ensures Reverse(a + b) == Reverse(b) + Reverse(a)
  {
  }

  lemma NextPage(page: nat, limit: nat)
    requires page >= 1
    ensures (page - 1) * limit + limit == page * limit
  {
  }

  lemma {:induction false} PagesAreSuffix<T>(newestFirst: seq<T>, page: nat, limit: nat)
    ensures PagesFrom(newestFirst, page, limit) == Reverse(newestFirst[..Min(page * limit, |newestFirst|)])
  {
    if page > 0 {
      var n := |newestFirst|;
      var lo, hi := Min((page - 1) * limit, n), Min(page * limit, n);
      NextPage(page, limit);
      PagesAreSuffix(newestFirst, page - 1, limit);
      assert Window(newestFirst, (page - 1) * limit, limit) == newestFirst[lo..hi];
      assert newestFirst[..lo] + newestFirst[lo..hi] == newestFirst[..hi];
      ReverseConcat(newestFirst[..lo], newestFirst[lo..hi]);
    }
  }

  lemma CeilReaches(total: nat, limit: nat)
    requires limit >= 1
    ensures TotalPages(total, limit) * limit >= total
  {
    var q := TotalPages(total, limit);
    assert q * limit + (total + limit - 1) % limit == total + limit - 1;
  }

  /** The first row of a page lies in the history exactly up to the last page. */
  lemma PageStart(total: nat, limit: nat, page: nat)
    requires limit >= 1 && page >= 1
    ensures (page - 1) * limit < total <==> page <= TotalPages(total, limit)
  {
    var q := TotalPages(total, limit);
    assert q * limit + (total + limit - 1) % limit == total + limit - 1;
    if page <= q {
      Times(page - 1, q - 1, limit);
      assert (q - 1) * limit == q * limit - limit;
    } else {
      Times(q, page - 1, limit);
    }
  }

  lemma Times(a: nat, b: nat, limit: nat)
    requires a <= b
    ensures a * limit <= b * limit
  {
  }

  /** Page partition: read from the last page to the first, the pages are the whole history in
      chronological order, each message once. */
  lemma PagesPartitionHistory<T>(newestFirst: seq<T>, limit: nat)
    requires limit >= 1
    ensures PagesFrom(newestFirst, TotalPages(|newestFirst|, limit), limit) == Reverse(newestFirst)
  {
    CeilReaches(|newestFirst|, limit);
    PagesAreSuffix(newestFirst, TotalPages(|newestFirst|, limit), limit);
    assert newestFirst[..|newestFirst|] == newestFirst;
  }

  /** A page is empty exactly when it lies beyond `totalPages`, and only the last one can be short. */
  lemma PageSizes<T>(newestFirst: seq<T>, page: nat, limit: nat)
    requires limit >= 1 && page >= 1
    ensures Page(newestFirst, page, limit) == [] <==> page > TotalPages(|newestFirst|, limit)
    ensures page < TotalPages(|newestFirst|, limit) ==> |Page(newestFirst, page, limit)| == limit
  {
    PageStart(|newestFirst|, limit, page);
    PageStart(|newestFirst|, limit, page + 1);
    NextPage(page, limit);
    WindowSize(newestFirst, (page - 1) * limit, limit);
  }

  lemma WindowSize<T>(rows: seq<T>, skip: nat, take: nat)
    requires take >= 1
    ensures Window(rows, skip, take) == [] <==> skip >= |rows|
    ensures skip + take <= |rows| ==> |Window(rows, skip, take)| == take
  {
  }
}
