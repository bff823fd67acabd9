/**
 * The server-rendered article listing's client part: which route a card
 * opens, the alt text of its image, and which of the error, empty and grid
 * views is shown.
 */
module ArticlesClient {
  import opened Wrappers
  import opened ArticlesApi

  const ArticlesPrefix := "/articles/"

  /** `article.slug || article.id`: the slug when it is present and non-empty, otherwise the id. */
  function RouteKey(article: Article): (key: string)
    ensures Truthy(article.slug) ==> key == article.slug.value
    ensures !Truthy(article.slug) ==> key == article.id
  {
    if article.slug.Some? && article.slug.value != "" then article.slug.value else article.id
  }

  /** The page a route key opens. */
  function ArticleRoute(key: string): string {
    ArticlesPrefix + key
  }

  /** The route a card click pushes. */
  function CardRoute(article: Article): (route: string)
    ensures |route| == |ArticlesPrefix| + |RouteKey(article)|
    ensures route[..|ArticlesPrefix|] == ArticlesPrefix
    ensures route[|ArticlesPrefix|..] == RouteKey(article)
  {
    ArticleRoute(RouteKey(article))
  }

  /** The key a listing route names, read back from the route. */
  function KeyOfRoute(route: string): Option<string> {
    if |route| >= |ArticlesPrefix| && route[..|ArticlesPrefix|] == ArticlesPrefix
    then Some(route[|ArticlesPrefix|..]) else None
  }

  /** Reading the key back from a route gives the key, and only article routes have a key. */
  lemma RouteRoundTrip(key: string, route: string)
    ensures KeyOfRoute(ArticleRoute(key)) == Some(key)
    ensures KeyOfRoute(route).Some? <==> exists k :: ArticleRoute(k) == route
  {
    var r := ArticleRoute(key);
    assert r[..|ArticlesPrefix|] == ArticlesPrefix && r[|ArticlesPrefix|..] == key;
    if KeyOfRoute(route).Some? {
      assert ArticleRoute(route[|ArticlesPrefix|..]) == route;
    }
    if exists k :: ArticleRoute(k) == route {
      var k :| ArticleRoute(k) == route;
      assert route[..|ArticlesPrefix|] == ArticlesPrefix;
    }
  }

  /** Two articles with the same non-empty slug open the same page whatever their ids. */
  lemma SlugDecidesRoute(a: Article, b: Article)
    requires Truthy(a.slug) && a.slug == b.slug
    ensures CardRoute(a) == CardRoute(b)
  {
  }

  /** The image's alt text: the title, followed by " - " and the subtitle when the subtitle is non-empty. */
  function AltText(title: string, subtitle: Option<string>): string {
    title + (if subtitle.Some? && subtitle.value != "" then " - " + subtitle.value else "")
  }

  /** The alt text starts with the title, is exactly the title iff there is no non-empty subtitle, and otherwise ends in " - " and the subtitle. */
  lemma AltTextParts(title: string, subtitle: Option<string>)
    ensures AltText(title, subtitle)[..|title|] == title
    ensures AltText(title, subtitle) == title <==> !Truthy(subtitle)
    ensures Truthy(subtitle) ==> AltText(title, subtitle)[|title|..] == " - " + subtitle.value
  {
    var alt := AltText(title, subtitle);
    if Truthy(subtitle) {
      assert |alt| > |title|;
    }
  }

  /** What a listing shows. */
  datatype ListingView = Spinner | ErrorAlert(message: string) | NoArticles | Cards(articles: seq<Article>)

  /** A non-empty error shows only the error; otherwise an empty list shows "No articles found" and a non-empty one the cards in order. */
  function ListingOf(articles: seq<Article>, error: Option<string>): (view: ListingView)
    ensures Truthy(error) <==> view.ErrorAlert?
    ensures view.ErrorAlert? ==> view.message == error.value
    ensures view == NoArticles <==> !Truthy(error) && articles == []
    ensures view.Cards? ==> view.articles == articles
    ensures view != Spinner
  {
    if error.Some? && error.value != "" then ErrorAlert(error.value)
    else if |articles| == 0 then NoArticles
    else Cards(articles)
  }

  /** While there is an error the articles passed in do not affect what is shown. */
  lemma ErrorHidesArticles(articles: seq<Article>, others: seq<Article>, error: Option<string>)
    requires Truthy(error)
    ensures ListingOf(articles, error) == ListingOf(others, error)
  {
  }
}
