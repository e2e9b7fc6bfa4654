/**
 * What the mentor and mentee lists derive from their state: the case-insensitive
 * search over name, email and subcounty, and the fixed-size pages cut with
 * `Array.prototype.slice`.
 */
module Listing {
  import opened Text

  // ---------------------------------------------------------------- search

  /**
   * `x.name.toLowerCase().includes(q.toLowerCase()) || x.email... || x.subcounty...`
   */
  predicate MatchesQuery(name: string, email: string, subcounty: string, query: string) {
    var q := Lower(query);
    Includes(Lower(name), q) || Includes(Lower(email), q) || Includes(Lower(subcounty), q)
  }

  /** A row matches exactly when the lower-cased query occurs in one of its lower-cased fields. */
  lemma MatchesQueryMeaning(name: string, email: string, subcounty: string, query: string)
    ensures MatchesQuery(name, email, subcounty, query) <==>
      || (exists i :: OccursAt(Lower(name), Lower(query), i))
      || (exists i :: OccursAt(Lower(email), Lower(query), i))
      || (exists i :: OccursAt(Lower(subcounty), Lower(query), i))
  {
    IncludesMeansOccurs(Lower(name), Lower(query));
    IncludesMeansOccurs(Lower(email), Lower(query));
    IncludesMeansOccurs(Lower(subcounty), Lower(query));
  }

  /** The empty query matches every row. */
  lemma EmptyQueryMatchesAll(name: string, email: string, subcounty: string)
    ensures MatchesQuery(name, email, subcounty, "")
  {
    assert Lower("") == "";
    IncludesEmpty(Lower(name));
  }

  /** Neither the case of the query nor the case of the fields changes what matches. */
  lemma SearchIgnoresCase(name: string, email: string, subcounty: string, query: string)
    ensures MatchesQuery(name, email, subcounty, Upper(query)) == MatchesQuery(name, email, subcounty, query)
    ensures MatchesQuery(Upper(name), Upper(email), Upper(subcounty), query) == MatchesQuery(name, email, subcounty, query)
  {
    LowerOfUpper(query);
    LowerOfUpper(name);
    LowerOfUpper(email);
    LowerOfUpper(subcounty);
  }

  /** Searching "NYA" finds a mentee of Nyali. */
  lemma SearchExample()
    ensures MatchesQuery("Jane", "j@x.com", "nyali", "NYA")
  {
    assert Lower("NYA") == "nya";
    assert Lower("nyali") == "nyali";
    assert IsPrefix("nya", "nyali");
  }

  // ---------------------------------------------------------------- pagination

  const ItemsPerPage: nat := 10

  function Min(a: int, b: int): int { if a <= b then a else b }

  /** `Math.ceil(n / itemsPerPage)` */
  function TotalPages(n: nat): (r: nat)
    ensures r * ItemsPerPage >= n
    ensures r > 0 ==> (r - 1) * ItemsPerPage < n
  {
    (n + ItemsPerPage - 1) / ItemsPerPage
  }

  /** No list is empty that has pages, and no list with items has none. */
  lemma TotalPagesZeroIffEmpty(n: nat)
    ensures TotalPages(n) == 0 <==> n == 0
  {
  }

  /** How `slice` reads an index: a negative one counts from the end; both are clipped. */
  function RelativeIndex(i: int, len: nat): (r: nat)
    ensures r <= len
    ensures 0 <= i ==> r == Min(i, len)
  {
    if i < 0 then (if len + i < 0 then 0 else len + i) else Min(i, len)
  }

  /** `xs.slice(start, end)` */
  function Slice<T>(xs: seq<T>, start: int, end: int): seq<T> {
    var from, to := RelativeIndex(start, |xs|), RelativeIndex(end, |xs|);
    if from < to then xs[from..to] else []
  }

  /** `filtered.slice((currentPage - 1) * itemsPerPage, currentPage * itemsPerPage)` */
  function Page<T>(xs: seq<T>, page: int): seq<T> {
    Slice(xs, (page - 1) * ItemsPerPage, page * ItemsPerPage)
  }

  /** From page 1 on, a page is the consecutive run of at most ten items starting at (page-1)*10. */
  lemma PageIsRun<T>(xs: seq<T>, page: int)
    requires page >= 1
    ensures Page(xs, page) == xs[Min((page - 1) * ItemsPerPage, |xs|)..Min(page * ItemsPerPage, |xs|)]
    ensures |Page(xs, page)| <= ItemsPerPage
  {
  }

  /** The k-th item of a page is the item (page-1)*10 + k of the list. */
  lemma PageItem<T>(xs: seq<T>, page: int, k: int)
    requires page >= 1 && 0 <= k < |Page(xs, page)|
    ensures (page - 1) * ItemsPerPage + k < |xs|
    ensures Page(xs, page)[k] == xs[(page - 1) * ItemsPerPage + k]
  {
    PageIsRun(xs, page);
  }

  /** Every item is on exactly one page: page i/10 + 1, at slot i%10. */
  lemma ItemPage<T>(xs: seq<T>, i: int, page: int)
    requires 0 <= i < |xs| && page >= 1
    ensures page == i / ItemsPerPage + 1 ==>
      i % ItemsPerPage < |Page(xs, page)| && Page(xs, page)[i % ItemsPerPage] == xs[i]
    ensures page != i / ItemsPerPage + 1 ==> !((page - 1) * ItemsPerPage <= i < page * ItemsPerPage)
  {
    PageIsRun(xs, page);
  }

  /** Pages 1 to TotalPages are non-empty. */
  lemma PageWithinRangeIsNonEmpty<T>(xs: seq<T>, page: int)
    requires 1 <= page <= TotalPages(|xs|)
    ensures |Page(xs, page)| > 0
  {
    PageIsRun(xs, page);
  }

  /** A page past the last one, as left behind when a search shrinks the list, is empty. */
  lemma PageBeyondLastIsEmpty<T>(xs: seq<T>, page: int)
    requires page > TotalPages(|xs|)
    ensures Page(xs, page) == []
  {
    PageIsRun(xs, page);
  }

  /** What a list's page shows, from page 1 on: the run, its items, and whether it is empty. */
  lemma PageShape<T>(xs: seq<T>, page: int)
    requires page >= 1
    ensures Page(xs, page) == xs[Min((page - 1) * ItemsPerPage, |xs|)..Min(page * ItemsPerPage, |xs|)]
    ensures |Page(xs, page)| <= ItemsPerPage
    ensures forall k :: 0 <= k < |Page(xs, page)| ==>
      (page - 1) * ItemsPerPage + k < |xs| && Page(xs, page)[k] == xs[(page - 1) * ItemsPerPage + k]
    ensures page <= TotalPages(|xs|) ==> |Page(xs, page)| > 0
    ensures page > TotalPages(|xs|) ==> Page(xs, page) == []
  {
    PageIsRun(xs, page);
  }

  /** Page 0 is `slice(-10, 0)`, which is empty. */
  lemma PageZeroIsEmpty<T>(xs: seq<T>)
    ensures Page(xs, 0) == []
  {
  }

  /** Pages 1 to k, one after the other. */
  function PagesUpTo<T>(xs: seq<T>, k: nat): seq<T> {
    if k == 0 then [] else PagesUpTo(xs, k - 1) + Page(xs, k)
  }

  lemma {:induction false} PagesUpToIsPrefix<T>(xs: seq<T>, k: nat)
    ensures PagesUpTo(xs, k) == xs[..Min(k * ItemsPerPage, |xs|)]
  {
    if k > 0 {
      PagesUpToIsPrefix(xs, k - 1);
      PageIsRun(xs, k);
      var a, b := Min((k - 1) * ItemsPerPage, |xs|), Min(k * ItemsPerPage, |xs|);
      assert xs[..a] + xs[a..b] == xs[..b];
    }
  }

  /** Reading pages 1 to TotalPages in order gives back the whole list. */
  lemma PagesReproduceList<T>(xs: seq<T>)
    ensures PagesUpTo(xs, TotalPages(|xs|)) == xs
  {
    PagesUpToIsPrefix(xs, TotalPages(|xs|));
  }

  /** Twenty-five items make three pages: items 1-10, 11-20 and 21-25. */
  lemma TwentyFiveItems<T>(xs: seq<T>)
    requires |xs| == 25
    ensures TotalPages(|xs|) == 3
    ensures Page(xs, 1) == xs[..10] && Page(xs, 2) == xs[10..20] && Page(xs, 3) == xs[20..]
  {
  }
}
