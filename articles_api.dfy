/**
 * The article service: the URLs it requests and the loop that drains every
 * page of published articles. The HTTP transport is an oracle `fetch` from
 * a URL to the reply the server gives for it.
 */
module ArticlesApi {
  import opened Wrappers

  datatype Author = Author(role: string, isEmailVerified: bool, name: string, email: string)

  /** The `Article` interface as the service declares it. */
  datatype Article = Article(
    id: string,
    title: string,
    subtitle: Option<string>,
    description: string,
    author: Author,
    createdAt: string,
    updatedAt: string,
    status: string,
    filePath: Option<string>,
    slug: Option<string>)

  /** The part of an `ArticlesResponse` the loop reads; either field may be missing. */
  datatype PageData = PageData(results: Option<seq<Article>>, totalPages: Option<int>)

  /** An HTTP reply: a status outside 200-299, or an ok response with its parsed body. */
  datatype Reply<T> = NotOk(status: int) | Body(value: T)

  // ---------------------------------------------------------------------
  // URLs
  // ---------------------------------------------------------------------

  predicate IsDecimalDigit(c: char) {
    '0' <= c <= '9'
  }

  /** A page number as a template literal renders it: decimal, no leading zero. */
  function NatToDecimal(n: nat): (s: string)
    ensures |s| >= 1
    ensures forall k :: 0 <= k < |s| ==> IsDecimalDigit(s[k])
  {
    var last := ['0' + (n % 10) as char];
    if n < 10 then last else NatToDecimal(n / 10) + last
  }

  function DigitValue(c: char): nat
    requires IsDecimalDigit(c)
  {
    c as int - '0' as int
  }

  /** The number a string of decimal digits denotes. */
  function DecimalValue(s: string): nat
    requires forall k :: 0 <= k < |s| ==> IsDecimalDigit(s[k])
  {
    if s == [] then 0 else 10 * DecimalValue(s[..|s| - 1]) + DigitValue(s[|s| - 1])
  }

  lemma {:induction false} DecimalRoundTrip(n: nat)
    ensures DecimalValue(NatToDecimal(n)) == n
  {
    var s := NatToDecimal(n);
    if n >= 10 {
      DecimalRoundTrip(n / 10);
      assert s[..|s| - 1] == NatToDecimal(n / 10);
    }
  }

  const PublishedPagePath := "/articles/published?sortBy=createdAt:desc&page="
  const PageLimitSuffix := "&limit=100"

  /** The URL of page `page` of the published articles, newest first, 100 per page. */
  function PublishedPageUrl(base: string, page: nat): string {
    base + PublishedPagePath + NatToDecimal(page) + PageLimitSuffix
  }

  /** The URL of one article by id. */
  function ArticleUrl(base: string, id: string): string {
    base + "/articles/" + id
  }

  /** The URL of one published article by slug. */
  function PublishedArticleUrl(base: string, slug: string): string {
    base + "/articles/published/" + slug
  }

  /** The page number a published-page URL asks for, read back from the URL. */
  function PageOfUrl(base: string, url: string): Option<nat>
  {
    var prefix := base + PublishedPagePath;
    if |url| < |prefix| + |PageLimitSuffix| + 1 then None
    else if url[..|prefix|] != prefix || url[|url| - |PageLimitSuffix|..] != PageLimitSuffix then None
    else
      var digits := url[|prefix|..|url| - |PageLimitSuffix|];
      if forall k :: 0 <= k < |digits| ==> IsDecimalDigit(digits[k]) then Some(DecimalValue(digits)) else None
  }

  /** Reading the page number back from a page URL gives the page requested. */
  lemma PageUrlRoundTrip(base: string, page: nat)
    ensures PageOfUrl(base, PublishedPageUrl(base, page)) == Some(page)
  {
    var prefix := base + PublishedPagePath;
    var digits := NatToDecimal(page);
    var url := PublishedPageUrl(base, page);
    assert url == prefix + digits + PageLimitSuffix;
    assert url[..|prefix|] == prefix;
    assert url[|url| - |PageLimitSuffix|..] == PageLimitSuffix;
    assert url[|prefix|..|url| - |PageLimitSuffix|] == digits;
    DecimalRoundTrip(page);
  }

  /** Distinct pages are requested at distinct URLs. */
  lemma PageUrlInjective(base: string, m: nat, n: nat)
    requires PublishedPageUrl(base, m) == PublishedPageUrl(base, n)
    ensures m == n
  {
    PageUrlRoundTrip(base, m);
    PageUrlRoundTrip(base, n);
  }

  /** The id an article URL names, read back from the URL. */
  function IdOfArticleUrl(base: string, url: string): Option<string> {
    var prefix := base + "/articles/";
    if |url| >= |prefix| && url[..|prefix|] == prefix then Some(url[|prefix|..]) else None
  }

  /** Reading the id back from an article URL gives the id requested; the same holds for slugs. */
  lemma ArticleUrlRoundTrip(base: string, id: string, slug: string)
    ensures IdOfArticleUrl(base, ArticleUrl(base, id)) == Some(id)
    ensures IdOfArticleUrl(base, PublishedArticleUrl(base, slug)) == Some("published/" + slug)
  {
    var prefix := base + "/articles/";
    assert ArticleUrl(base, id) == prefix + id;
    assert PublishedArticleUrl(base, slug) == prefix + ("published/" + slug);
    assert (prefix + id)[..|prefix|] == prefix && (prefix + id)[|prefix|..] == id;
    assert (prefix + ("published/" + slug))[..|prefix|] == prefix;
    assert (prefix + ("published/" + slug))[|prefix|..] == "published/" + slug;
  }

  // ---------------------------------------------------------------------
  // Single-article requests
  // ---------------------------------------------------------------------

  /** getArticle: one request; a non-ok status is an error carrying that status. */
  function GetArticle(base: string, id: string, fetch: string -> Reply<Article>): (r: Result<Article, int>)
    ensures r.Ok? <==> fetch(ArticleUrl(base, id)).Body?
    ensures r.Ok? ==> r.value == fetch(ArticleUrl(base, id)).value
    ensures r.Err? ==> r.error == fetch(ArticleUrl(base, id)).status
  {
    match fetch(ArticleUrl(base, id))
    case NotOk(status) => Err(status)
    case Body(article) => Ok(article)
  }

  /** getPublishedArticleBySlug: as GetArticle, at the published-by-slug URL. */
  function GetPublishedArticleBySlug(base: string, slug: string, fetch: string -> Reply<Article>): (r: Result<Article, int>)
    ensures r.Ok? <==> fetch(PublishedArticleUrl(base, slug)).Body?
    ensures r.Ok? ==> r.value == fetch(PublishedArticleUrl(base, slug)).value
    ensures r.Err? ==> r.error == fetch(PublishedArticleUrl(base, slug)).status
  {
    match fetch(PublishedArticleUrl(base, slug))
    case NotOk(status) => Err(status)
    case Body(article) => Ok(article)
  }

  // ---------------------------------------------------------------------
  // Draining the published pages
  // ---------------------------------------------------------------------

  /** `data.totalPages || 1`: a missing or zero page count reads as one page. */
  function ReportedTotal(data: PageData): (total: int)
    ensures data.totalPages.None? || data.totalPages == Some(0) ==> total == 1
    ensures data.totalPages.Some? && data.totalPages.value != 0 ==> total == data.totalPages.value
  {
    match data.totalPages
    case Some(t) => if t != 0 then t else 1
    case None => 1
  }

  /** What one page adds to the list: its results, or nothing when they are missing. */
  function PageArticles(reply: Reply<PageData>): seq<Article> {
    match reply
    case Body(PageData(Some(results), _)) => results
    case _ => []
  }

  /** After the request for page `n`, the loop asks for page `n + 1`: the reply was ok and reported more pages. */
  predicate Continues(base: string, fetch: string -> Reply<PageData>, n: nat) {
    var reply := fetch(PublishedPageUrl(base, n));
    reply.Body? && n + 1 <= ReportedTotal(reply.value)
  }

  /** The results of pages 1 to `n`, concatenated in page order. */
  function Collected(base: string, fetch: string -> Reply<PageData>, n: nat): seq<Article> {
    if n == 0 then [] else Collected(base, fetch, n - 1) + PageArticles(fetch(PublishedPageUrl(base, n)))
  }

  /**
   * getPublishedArticles. `lastPage` is a page after which the server
   * reports no further page; the loop has stopped by then. The requests
   * are for pages 1, 2, ... in order; the loop stops at the first page whose
   * reply is not ok or reports no more pages; a non-ok reply makes the whole
   * call fail with its status, otherwise the result is every page's results
   * in request order.
   */
  method GetPublishedArticles(base: string, fetch: string -> Reply<PageData>, lastPage: nat)
    returns (result: Result<seq<Article>, int>, requested: seq<string>)
    requires 1 <= lastPage && !Continues(base, fetch, lastPage)
    ensures 1 <= |requested| <= lastPage
    ensures forall k :: 0 <= k < |requested| ==> requested[k] == PublishedPageUrl(base, k + 1)
    ensures forall n :: 1 <= n < |requested| ==> Continues(base, fetch, n)
    ensures !Continues(base, fetch, |requested|)
    ensures fetch(requested[|requested| - 1]).NotOk? ==> result == Err(fetch(requested[|requested| - 1]).status)
    ensures fetch(requested[|requested| - 1]).Body? ==> result == Ok(Collected(base, fetch, |requested|))
  {
    var allArticles: seq<Article> := [];
    var currentPage: nat := 1;
    var totalPages := 1;
    requested := [];
    while true
      invariant 1 <= currentPage <= lastPage
      invariant |requested| == currentPage - 1
      invariant forall k :: 0 <= k < |requested| ==> requested[k] == PublishedPageUrl(base, k + 1)
      invariant forall n :: 1 <= n < currentPage ==> Continues(base, fetch, n)
      invariant allArticles == Collected(base, fetch, currentPage - 1)
      decreases lastPage - currentPage
    {
      var url := PublishedPageUrl(base, currentPage);
      requested := requested + [url];
      var response := fetch(url);
      if response.NotOk? {
        result := Err(response.status);
        return;
      }
      var data := response.value;
      if data.results.Some? && |data.results.value| > 0 {
        allArticles := allArticles + data.results.value;
      } else {
        assert PageArticles(response) == [];
      }
      assert allArticles == Collected(base, fetch, currentPage);
      totalPages := ReportedTotal(data);
      currentPage := currentPage + 1;
      if !(currentPage <= totalPages) {
        break;
      }
    }
    result := Ok(allArticles);
  }

  /** The page the loop stops at is determined by the replies: the first page that does not continue. */
  lemma StopPageUnique(base: string, fetch: string -> Reply<PageData>, a: nat, b: nat)
    requires 1 <= a && 1 <= b
    requires forall n :: 1 <= n < a ==> Continues(base, fetch, n)
    requires forall n :: 1 <= n < b ==> Continues(base, fetch, n)
    requires !Continues(base, fetch, a) && !Continues(base, fetch, b)
    ensures a == b
  {
  }

  /** A first reply that reports at most one page (or none, or zero) makes the loop stop after one request. */
  lemma SingleRequestWhenOnePage(base: string, fetch: string -> Reply<PageData>)
    requires fetch(PublishedPageUrl(base, 1)).Body?
    requires var t := fetch(PublishedPageUrl(base, 1)).value.totalPages; t.None? || t.value <= 1
    ensures !Continues(base, fetch, 1)
  {
  }

  /** Every article collected from pages 1 to `n` comes from one of those pages, and every article of those pages is collected. */
  lemma {:induction false} CollectedMembers(base: string, fetch: string -> Reply<PageData>, n: nat, a: Article)
    ensures a in Collected(base, fetch, n) <==>
            exists k :: 1 <= k <= n && a in PageArticles(fetch(PublishedPageUrl(base, k)))
  {
    if n > 0 {
      CollectedMembers(base, fetch, n - 1, a);
      var page := PageArticles(fetch(PublishedPageUrl(base, n)));
      assert a in Collected(base, fetch, n) <==> a in Collected(base, fetch, n - 1) || a in page;
    }
  }

  /** The list only grows from page to page: what pages 1 to `m` gave is a prefix of what pages 1 to `n` give. */
  lemma {:induction false} CollectedPrefix(base: string, fetch: string -> Reply<PageData>, m: nat, n: nat)
    requires m <= n
    ensures Collected(base, fetch, m) <= Collected(base, fetch, n)
  {
    if m < n {
      CollectedPrefix(base, fetch, m, n - 1);
    }
  }
}
