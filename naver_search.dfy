// The shopping and blog search clients (classes NaverShopping and
// NaverBlog): one page request, and the loop that pages through results.
module NaverSearch {
  import opened Wrappers
  import opened NaverHttp
  import Dicts

  const PAGE_SIZE: int := 100

  datatype SearchParams = SearchParams(query: string, display: int, start: int, sort: string)

  /** The search endpoint: what a GET with these parameters returns. */
  type SearchGet<T> = SearchParams -> Transport<seq<T>>

  /** search_products: a non-200 status raises with the status and the text. */
  function SearchProducts<T>(get: SearchGet<T>, query: string, display: int, start: int, sort: string): Result<seq<T>, ApiError>
  {
    CheckStatus(get(SearchParams(query, display, start, sort)), true)
  }

  /** search_blogs: a non-200 status raises with the status only. */
  function SearchBlogs<T>(get: SearchGet<T>, query: string, display: int, start: int, sort: string): Result<seq<T>, ApiError>
  {
    CheckStatus(get(SearchParams(query, display, start, sort)), false)
  }

  /** The page fetched at an offset, or the exception the call raised. */
  type PageFetch<T> = int -> Result<seq<T>, ApiError>

  /** The items gathered from offset `start` on, as the loop gathers them:
      stop at the end of the range, on an error, or after a short page. */
  function Collected<T>(page: PageFetch<T>, start: int, maxResults: int): seq<T>
    decreases maxResults - start
  {
    if start >= maxResults then []
    else
      match page(start)
      case Err(_) => []
      case Ok(items) => if |items| < PAGE_SIZE then items else items + Collected(page, start + PAGE_SIZE, maxResults)
  }

  /** The offsets requested from `start` on. */
  function Requested<T>(page: PageFetch<T>, start: int, maxResults: int): seq<int>
    decreases maxResults - start
  {
    if start >= maxResults then []
    else
      match page(start)
      case Err(_) => [start]
      case Ok(items) => if |items| < PAGE_SIZE then [start] else [start] + Requested(page, start + PAGE_SIZE, maxResults)
  }

  /** One request: an error or a short page ends the collection there, a
      full page continues it one page further on. */
  lemma PageStep<T>(page: PageFetch<T>, start: int, maxResults: int)
    requires start < maxResults
    ensures page(start).Err? ==>
      Collected(page, start, maxResults) == [] && Requested(page, start, maxResults) == [start]
    ensures page(start).Ok? && |page(start).value| < PAGE_SIZE ==>
      Collected(page, start, maxResults) == page(start).value && Requested(page, start, maxResults) == [start]
    ensures page(start).Ok? && |page(start).value| >= PAGE_SIZE ==>
      && Collected(page, start, maxResults) == page(start).value + Collected(page, start + PAGE_SIZE, maxResults)
      && Requested(page, start, maxResults) == [start] + Requested(page, start + PAGE_SIZE, maxResults)
  {
  }

  /** `for start in range(1, max_results, 100)` with the two breaks. */
  method CollectPages<T>(page: PageFetch<T>, maxResults: int) returns (items: seq<T>, offsets: seq<int>)
    ensures items == Collected(page, 1, maxResults)
    ensures offsets == Requested(page, 1, maxResults)
  {
    items, offsets := [], [];
    var start := 1;
    while start < maxResults
      invariant items + Collected(page, start, maxResults) == Collected(page, 1, maxResults)
      invariant offsets + Requested(page, start, maxResults) == Requested(page, 1, maxResults)
      decreases maxResults - start
    {
      PageStep(page, start, maxResults);
      offsets := offsets + [start];
      var result := page(start);
      if result.Err? {
        break;
      }
      items := items + result.value;
      if |result.value| < PAGE_SIZE {
        break;
      }
      assert items + Collected(page, start + PAGE_SIZE, maxResults) == Collected(page, 1, maxResults);
      start := start + PAGE_SIZE;
    }
  }

  /** get_all_products (max_results defaults to 500). */
  method GetAllProducts<T>(get: SearchGet<T>, query: string, maxResults: int) returns (items: seq<T>, offsets: seq<int>)
    ensures items == Collected(o => SearchProducts(get, query, 100, o, "sim"), 1, maxResults)
    ensures offsets == Requested(o => SearchProducts(get, query, 100, o, "sim"), 1, maxResults)
  {
    items, offsets := CollectPages(o => SearchProducts(get, query, 100, o, "sim"), maxResults);
  }

  /** get_all_blogs (max_results defaults to 1000). */
  method GetAllBlogs<T>(get: SearchGet<T>, query: string, maxResults: int) returns (items: seq<T>, offsets: seq<int>)
    ensures items == Collected(o => SearchBlogs(get, query, 100, o, "sim"), 1, maxResults)
    ensures offsets == Requested(o => SearchBlogs(get, query, 100, o, "sim"), 1, maxResults)
  {
    items, offsets := CollectPages(o => SearchBlogs(get, query, 100, o, "sim"), maxResults);
  }

  // ---------------------------------------------------------------------
  // What the loop requests and keeps

  /** len(range(1, max_results, 100)) */
  function PageCount(maxResults: int): nat
  {
    if maxResults <= 1 then 0 else (maxResults - 2) / PAGE_SIZE + 1
  }

  /** The requested offsets are 1, 101, 201, ... in increasing order, all
      below max_results, and no more of them than the range holds. */
  lemma {:induction false} RequestedOffsets<T>(page: PageFetch<T>, j: nat, maxResults: int)
    ensures var r := Requested(page, 1 + PAGE_SIZE * j, maxResults);
      && |r| <= (if PageCount(maxResults) >= j then PageCount(maxResults) - j else 0)
      && (forall i :: 0 <= i < |r| ==> r[i] == 1 + PAGE_SIZE * (j + i) && r[i] < maxResults)
    decreases maxResults - (1 + PAGE_SIZE * j)
  {
    var start := 1 + PAGE_SIZE * j;
    if start < maxResults {
      assert PageCount(maxResults) > j;
      match page(start)
      case Err(_) =>
      case Ok(items) =>
        if |items| >= PAGE_SIZE {
          assert start + PAGE_SIZE == 1 + PAGE_SIZE * (j + 1);
          RequestedOffsets(page, j + 1, maxResults);
        }
    }
  }

  function ItemsOf<T>(r: Result<seq<T>, ApiError>): seq<T>
  {
    if r.Ok? then r.value else []
  }

  /** The items of the page answered at each of the given offsets. */
  function PagesAt<T>(page: PageFetch<T>, offsets: seq<int>): (r: seq<seq<T>>)
    ensures |r| == |offsets| && forall i :: 0 <= i < |offsets| ==> r[i] == ItemsOf(page(offsets[i]))
  {
    seq(|offsets|, i requires 0 <= i < |offsets| => ItemsOf(page(offsets[i])))
  }

  /** The result is the in-order concatenation of the requested pages. */
  lemma {:induction false} CollectedIsFlattenedPages<T>(page: PageFetch<T>, start: int, maxResults: int)
    ensures Collected(page, start, maxResults) == Dicts.Flatten(PagesAt(page, Requested(page, start, maxResults)))
    decreases maxResults - start
  {
    var r := Requested(page, start, maxResults);
    var pages := PagesAt(page, r);
    if start < maxResults {
      match page(start)
      case Err(_) =>
        assert pages == [[]];
      case Ok(items) =>
        if |items| < PAGE_SIZE {
          assert pages == [items];
        } else {
          var rest := Requested(page, start + PAGE_SIZE, maxResults);
          CollectedIsFlattenedPages(page, start + PAGE_SIZE, maxResults);
          assert r == [start] + rest;
          assert pages[1..] == PagesAt(page, rest);
          Dicts.FlattenCons(pages);
        }
    } else {
      assert r == [];
    }
  }

  /** Every page before the last was a full page, and a full last page means
      the range was used up. */
  lemma {:induction false} RequestedFullPages<T>(page: PageFetch<T>, start: int, maxResults: int)
    ensures var r := Requested(page, start, maxResults);
      && (forall i :: 0 <= i < |r| - 1 ==> page(r[i]).Ok? && |page(r[i]).value| >= PAGE_SIZE)
      && (|r| > 0 && page(r[|r| - 1]).Ok? && |page(r[|r| - 1]).value| >= PAGE_SIZE ==> r[|r| - 1] + PAGE_SIZE >= maxResults)
    decreases maxResults - start
  {
    if start < maxResults && page(start).Ok? && |page(start).value| >= PAGE_SIZE {
      var r := Requested(page, start, maxResults);
      var rest := Requested(page, start + PAGE_SIZE, maxResults);
      RequestedFullPages(page, start + PAGE_SIZE, maxResults);
      assert r == [start] + rest;
      forall i | 0 <= i < |r| - 1
        ensures page(r[i]).Ok? && |page(r[i]).value| >= PAGE_SIZE
      {
        if i > 0 {
          assert r[i] == rest[i - 1];
        }
      }
      if rest == [] {
        assert start + PAGE_SIZE >= maxResults;
      }
    }
  }

  /** Both facts together: the concatenation of the requested pages, all full
      but possibly the last. */
  lemma CollectedIsRequestedPages<T>(page: PageFetch<T>, start: int, maxResults: int)
    ensures var r := Requested(page, start, maxResults);
      && Collected(page, start, maxResults) == Dicts.Flatten(PagesAt(page, r))
      && (forall i :: 0 <= i < |r| - 1 ==> page(r[i]).Ok? && |page(r[i]).value| >= PAGE_SIZE)
      && (|r| > 0 && page(r[|r| - 1]).Ok? && |page(r[|r| - 1]).value| >= PAGE_SIZE ==> r[|r| - 1] + PAGE_SIZE >= maxResults)
  {
    CollectedIsFlattenedPages(page, start, maxResults);
    RequestedFullPages(page, start, maxResults);
  }

  // ---------------------------------------------------------------------
  // Paging through a fixed catalog

  function Min(a: int, b: int): int { if a < b then a else b }

  /** A server that holds `all` and answers offset o with the next 100 of them. */
  function CatalogPage<T>(all: seq<T>, start: int): Result<seq<T>, ApiError>
  {
    if 1 <= start && start - 1 <= |all| then Ok(all[start - 1 .. Min(start - 1 + PAGE_SIZE, |all|)]) else Ok([])
  }

  lemma {:induction false} CatalogFrom<T>(all: seq<T>, j: nat, maxResults: int)
    requires PAGE_SIZE * j <= |all| && j <= PageCount(maxResults)
    ensures var page := (o: int) => CatalogPage(all, o);
      && Collected(page, 1 + PAGE_SIZE * j, maxResults) == all[PAGE_SIZE * j .. Min(|all|, PAGE_SIZE * PageCount(maxResults))]
      && |Requested(page, 1 + PAGE_SIZE * j, maxResults)| == Min(PageCount(maxResults) - j, |all| / PAGE_SIZE - j + 1)
    decreases PageCount(maxResults) - j
  {
    var page := (o: int) => CatalogPage(all, o);
    var start := 1 + PAGE_SIZE * j;
    var k := PageCount(maxResults);
    if j == k {
      assert start >= maxResults;
    } else {
      assert start < maxResults;
      var items := all[PAGE_SIZE * j .. Min(PAGE_SIZE * j + PAGE_SIZE, |all|)];
      assert page(start) == Ok(items);
      if PAGE_SIZE * j + PAGE_SIZE > |all| {
        assert |items| < PAGE_SIZE;
      } else {
        assert |items| == PAGE_SIZE;
        assert start + PAGE_SIZE == 1 + PAGE_SIZE * (j + 1);
        CatalogFrom(all, j + 1, maxResults);
        assert all[PAGE_SIZE * j .. Min(|all|, PAGE_SIZE * k)]
          == items + all[PAGE_SIZE * (j + 1) .. Min(|all|, PAGE_SIZE * k)];
      }
    }
  }

  /** Paging through a catalog of n items keeps the first
      min(n, 100 * pages) of them, in order. */
  lemma PagingACatalog<T>(all: seq<T>, maxResults: int)
    ensures var page := (o: int) => CatalogPage(all, o);
      && Collected(page, 1, maxResults) == all[.. Min(|all|, PAGE_SIZE * PageCount(maxResults))]
      && |Requested(page, 1, maxResults)| == Min(PageCount(maxResults), |all| / PAGE_SIZE + 1)
  {
    CatalogFrom(all, 0, maxResults);
  }

  /** 237 items with max_results = 500: three requests, all 237 items. */
  lemma PagingExample<T>(all: seq<T>)
    requires |all| == 237
    ensures Collected((o: int) => CatalogPage(all, o), 1, 500) == all
    ensures Requested((o: int) => CatalogPage(all, o), 1, 500) == [1, 101, 201]
  {
    PagingACatalog(all, 500);
    RequestedOffsets((o: int) => CatalogPage(all, o), 0, 500);
  }
}
