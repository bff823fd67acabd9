/**
 * The sitemap configuration: how a path is classified into a change
 * frequency and a priority, and the two paths added by hand. Priorities are
 * kept in tenths (1.0 is 10, 0.8 is 8, 0.7 is 7).
 */
module Sitemap {
  datatype ChangeFreq = Daily | Weekly

  /** A sitemap entry without its `lastmod` timestamp. */
  datatype Entry = Entry(loc: string, changefreq: ChangeFreq, priorityTenths: nat)

  /** The configuration's defaults for pages not passed through `Transform`. */
  const DefaultChangeFreq := Weekly
  const DefaultPriorityTenths := 7

  const ArticlesSection := "/articles"

  predicate HasPrefix(s: string, p: string) {
    |p| <= |s| && s[..|p|] == p
  }

  /** The `transform` hook: the home page daily at 1.0, anything under "/articles" weekly at 0.8, the rest weekly at 0.7. */
  function Transform(path: string): (entry: Entry)
    ensures entry.loc == path
    ensures 7 <= entry.priorityTenths <= 10
  {
    if path == "/" then Entry(path, Daily, 10)
    else if HasPrefix(path, ArticlesSection) then Entry(path, Weekly, 8)
    else Entry(path, Weekly, DefaultPriorityTenths)
  }

  /** Only the home page is daily, and only it has priority 1.0. */
  lemma DailyExactlyHome(path: string)
    ensures Transform(path).changefreq == Daily <==> path == "/"
    ensures Transform(path).priorityTenths == 10 <==> path == "/"
  {
  }

  /** Priority 0.8 exactly for the paths other than "/" that start with "/articles"; "/articles" and "/articlesX" among them. */
  lemma ArticlesSectionPriority(path: string)
    ensures Transform(path).priorityTenths == 8 <==> HasPrefix(path, ArticlesSection)
    ensures Transform("/articles").priorityTenths == 8 && Transform("/articlesX").priorityTenths == 8
  {
    if path == "/" {
      assert !HasPrefix(path, ArticlesSection);
    }
    assert HasPrefix("/articlesX", ArticlesSection) by {
      assert "/articlesX"[..9] == ArticlesSection;
    }
  }

  /** Every other path gets the configuration's defaults. */
  lemma OtherPathsGetDefaults(path: string)
    requires path != "/" && !HasPrefix(path, ArticlesSection)
    ensures Transform(path) == Entry(path, DefaultChangeFreq, DefaultPriorityTenths)
  {
  }

  /** A page's priority never falls as the classification gets more specific: home above articles above the rest. */
  lemma PriorityOrder(home: string, article: string, other: string)
    requires home == "/" && HasPrefix(article, ArticlesSection)
    requires other != "/" && !HasPrefix(other, ArticlesSection)
    ensures Transform(home).priorityTenths > Transform(article).priorityTenths > Transform(other).priorityTenths
  {
    ArticlesSectionPriority(article);
  }

  /** The `additionalPaths` hook: the home page, then the article index, each through `Transform`. */
  function AdditionalPaths(): (entries: seq<Entry>)
    ensures |entries| == 2
    ensures entries[0].loc == "/" && entries[1].loc == "/articles"
  {
    [Transform("/"), Transform(ArticlesSection)]
  }

  /** The two added entries are the home page daily at 1.0 and the article index weekly at 0.8. */
  lemma AdditionalPathsEntries()
    ensures AdditionalPaths() == [Entry("/", Daily, 10), Entry("/articles", Weekly, 8)]
  {
    ArticlesSectionPriority(ArticlesSection);
  }
}
