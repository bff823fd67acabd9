/**
 * The client-side article listing: the partial HTML-entity unescape applied
 * to each description, the route a card opens, and the loading and error
 * flags the fetch effect sets.
 */
module ArticlesPage {
  import opened Wrappers
  import opened ArticlesApi
  import opened ArticlesClient

  // ---------------------------------------------------------------------
  // Text search and global replacement
  // ---------------------------------------------------------------------

  predicate StartsWith(s: string, w: string) {
    |w| <= |s| && s[..|w|] == w
  }

  /** `w` occurs somewhere in `s`. */
  predicate Contains(s: string, w: string)
    decreases |s|
  {
    StartsWith(s, w) || (|s| > 0 && Contains(s[1..], w))
  }

  /**
   * `s.replace(/pat/g, rep)` for a pattern of literal characters: scanning
   * left to right, each occurrence of `pat` that starts where the scan
   * stands is replaced and the scan resumes after it.
   */
  function ReplaceAll(s: string, pat: string, rep: string): string
    requires |pat| > 0
    decreases |s|
  {
    if |s| < |pat| then s
    else if s[..|pat|] == pat then rep + ReplaceAll(s[|pat|..], pat, rep)
    else [s[0]] + ReplaceAll(s[1..], pat, rep)
  }

  /** No character of `rep` occurs in `w`. */
  predicate Disjoint(rep: string, w: string) {
    forall k :: 0 <= k < |rep| ==> rep[k] !in w
  }

  lemma {:induction false} ShortContainsNothing(s: string, w: string)
    requires |s| < |w|
    ensures !Contains(s, w)
  {
    if |s| > 0 {
      ShortContainsNothing(s[1..], w);
    }
  }

  lemma {:induction false} ContainsInSuffix(s: string, k: nat, w: string)
    requires k <= |s| && Contains(s[k..], w)
    ensures Contains(s, w)
  {
    if k > 0 {
      assert s[1..][k - 1..] == s[k..];
      ContainsInSuffix(s[1..], k - 1, w);
    }
  }

  /** An occurrence in `x + y` whose first character is not in `x` lies inside `y`. */
  lemma {:induction false} ContainsPastPrefix(x: string, y: string, w: string)
    requires |w| > 0 && w[0] !in x
    requires Contains(x + y, w)
    ensures Contains(y, w)
  {
    if |x| > 0 {
      assert (x + y)[0] == x[0] != w[0];
      assert (x + y)[1..] == x[1..] + y;
      ContainsPastPrefix(x[1..], y, w);
    } else {
      assert x + y == y;
    }
  }

  /** Text free of `pat`'s first character passes through a replacement unchanged, and the rest is replaced as before. */
  lemma {:induction false} ReplaceSkipsPlainPrefix(x: string, y: string, pat: string, rep: string)
    requires |pat| > 0 && pat[0] !in x
    ensures ReplaceAll(x + y, pat, rep) == x + ReplaceAll(y, pat, rep)
  {
    if |x| > 0 {
      var s := x + y;
      assert s[1..] == x[1..] + y;
      ReplaceSkipsPlainPrefix(x[1..], y, pat, rep);
      if |s| >= |pat| {
        assert s[0] != pat[0];
      } else {
        ShortReplaceUnchanged(y, pat, rep);
      }
    } else {
      assert x + y == y;
    }
  }

  lemma ShortReplaceUnchanged(s: string, pat: string, rep: string)
    requires 0 < |pat| && |s| < |pat|
    ensures ReplaceAll(s, pat, rep) == s
  {
  }

  lemma ReplaceStartsWithRep(t: string, pat: string, rep: string)
    requires 0 < |pat| <= |t| && t[..|pat|] == pat && |rep| > 0
    ensures ReplaceAll(t, pat, rep)[0] == rep[0]
  {
  }

  lemma StartsWithHead(s: string, q: string)
    requires StartsWith(s, q) && q != []
    ensures s[0] == q[0]
  {
    assert s[..|q|][0] == s[0];
  }

  /** A replacement whose text shares no character with `q` cannot make the output start with `q` unless the input did. */
  lemma {:induction false} ReplaceKeepsPrefix(t: string, pat: string, rep: string, q: string)
    requires |pat| > 0 && |rep| > 0 && Disjoint(rep, q)
    requires StartsWith(ReplaceAll(t, pat, rep), q)
    ensures StartsWith(t, q)
  {
    if |t| >= |pat| && q != [] {
      var out := ReplaceAll(t, pat, rep);
      if t[..|pat|] == pat {
        ReplaceStartsWithRep(t, pat, rep);
        StartsWithHead(out, q);
        assert false;
      } else {
        var rest := ReplaceAll(t[1..], pat, rep);
        assert out == [t[0]] + rest;
        assert out[1..] == rest;
        assert StartsWith(rest, q[1..]) by {
          assert rest[..|q| - 1] == out[..|q|][1..];
        }
        ReplaceKeepsPrefix(t[1..], pat, rep, q[1..]);
        assert t[..|q|] == [t[0]] + t[1..][..|q| - 1];
      }
    }
  }

  /** After a global replacement whose text shares no character with the pattern, the pattern no longer occurs. */
  lemma {:induction false} ReplaceRemovesAll(s: string, pat: string, rep: string)
    requires |pat| > 0 && |rep| > 0 && Disjoint(rep, pat)
    ensures !Contains(ReplaceAll(s, pat, rep), pat)
  {
    var out := ReplaceAll(s, pat, rep);
    if |s| < |pat| {
      ShortContainsNothing(s, pat);
    } else if s[..|pat|] == pat {
      var rest := ReplaceAll(s[|pat|..], pat, rep);
      ReplaceRemovesAll(s[|pat|..], pat, rep);
      if Contains(out, pat) {
        assert pat[0] !in rep;
        ContainsPastPrefix(rep, rest, pat);
      }
    } else {
      var rest := ReplaceAll(s[1..], pat, rep);
      ReplaceRemovesAll(s[1..], pat, rep);
      assert out[1..] == rest;
      if StartsWith(out, pat) {
        ReplaceKeepsPrefix(s, pat, rep, pat);
      }
    }
  }

  /** A global replacement whose text shares no character with `w` does not create an occurrence of `w`. */
  lemma {:induction false} ReplaceCreatesNothing(s: string, pat: string, rep: string, w: string)
    requires |pat| > 0 && |rep| > 0 && |w| > 0 && Disjoint(rep, w)
    requires Contains(ReplaceAll(s, pat, rep), w)
    ensures Contains(s, w)
  {
    var out := ReplaceAll(s, pat, rep);
    if StartsWith(out, w) {
      ReplaceKeepsPrefix(s, pat, rep, w);
    } else if |s| < |pat| {
    } else if s[..|pat|] == pat {
      var rest := ReplaceAll(s[|pat|..], pat, rep);
      assert w[0] !in rep;
      ContainsPastPrefix(rep, rest, w);
      ReplaceCreatesNothing(s[|pat|..], pat, rep, w);
      ContainsInSuffix(s, |pat|, w);
    } else {
      assert out[1..] == ReplaceAll(s[1..], pat, rep);
      ReplaceCreatesNothing(s[1..], pat, rep, w);
    }
  }

  /** Replacing a pattern by text no longer than it never lengthens the input. */
  lemma {:induction false} ReplaceNoLonger(s: string, pat: string, rep: string)
    requires 0 < |pat| && |rep| <= |pat|
    ensures |ReplaceAll(s, pat, rep)| <= |s|
  {
    if |s| >= |pat| {
      if s[..|pat|] == pat {
        ReplaceNoLonger(s[|pat|..], pat, rep);
      } else {
        ReplaceNoLonger(s[1..], pat, rep);
      }
    }
  }

  // ---------------------------------------------------------------------
  // The description unescape
  // ---------------------------------------------------------------------

  /** `description.replace(/&lt;/g, "<").replace(/&gt;/g, ">")`. */
  function Unescape(description: string): string {
    ReplaceAll(ReplaceAll(description, "&lt;", "<"), "&gt;", ">")
  }

  /** The unescaped text contains neither "&lt;" nor "&gt;". */
  lemma UnescapeLeavesNoEntities(description: string)
    ensures !Contains(Unescape(description), "&lt;")
    ensures !Contains(Unescape(description), "&gt;")
  {
    var first := ReplaceAll(description, "&lt;", "<");
    ReplaceRemovesAll(description, "&lt;", "<");
    ReplaceRemovesAll(first, "&gt;", ">");
    if Contains(Unescape(description), "&lt;") {
      ReplaceCreatesNothing(first, "&gt;", ">", "&lt;");
    }
  }

  /** Unescaping never lengthens the description. */
  lemma UnescapeNoLonger(description: string)
    ensures |Unescape(description)| <= |description|
  {
    ReplaceNoLonger(description, "&lt;", "<");
    ReplaceNoLonger(ReplaceAll(description, "&lt;", "<"), "&gt;", ">");
  }

  /** A description without '&' is shown as it is. */
  lemma UnescapeKeepsPlainText(description: string)
    requires '&' !in description
    ensures Unescape(description) == description
  {
    ReplaceSkipsPlainPrefix(description, [], "&lt;", "<");
    ReplaceSkipsPlainPrefix(description, [], "&gt;", ">");
    assert description + [] == description;
  }

  /** One pass of a four-character entity other than "&amp;" leaves a leading "&amp;" in place and replaces in the rest. */
  lemma {:induction false} PassSkipsAmp(rest: string, pat: string, rep: string)
    requires |pat| == 4 && pat[0] == '&' && pat[1] != 'a'
    ensures ReplaceAll("&amp;" + rest, pat, rep) == "&amp;" + ReplaceAll(rest, pat, rep)
  {
    var amp, tail := "&", "amp;";
    var s := "&amp;" + rest;
    assert s == amp + (tail + rest);
    assert s[1] == 'a';
    assert s[1..] == tail + rest;
    assert '&' !in tail;
    ReplaceSkipsPlainPrefix(tail, rest, pat, rep);
    assert "&amp;" + ReplaceAll(rest, pat, rep) == amp + (tail + ReplaceAll(rest, pat, rep));
  }

  /** Other entities are left alone: "&amp;" stays as it is and the text after it is unescaped as usual. */
  lemma UnescapeLeavesAmp(rest: string)
    ensures Unescape("&amp;" + rest) == "&amp;" + Unescape(rest)
  {
    PassSkipsAmp(rest, "&lt;", "<");
    PassSkipsAmp(ReplaceAll(rest, "&lt;", "<"), "&gt;", ">");
  }

  /** A text in which the pattern does not occur passes through a global replacement unchanged. */
  lemma {:induction false} ReplaceAbsentUnchanged(s: string, pat: string, rep: string)
    requires |pat| > 0 && !Contains(s, pat)
    ensures ReplaceAll(s, pat, rep) == s
  {
    if |s| >= |pat| {
      assert s[..|pat|] != pat;
      ReplaceAbsentUnchanged(s[1..], pat, rep);
      assert s == [s[0]] + s[1..];
    }
  }

  /**
   * Every other entity is left alone wherever it stands: a description in
   * which neither "&lt;" nor "&gt;" occurs is shown exactly as stored,
   * "&amp;", "&quot;", "&#39;" and "&nbsp;" included.
   */
  lemma UnescapeKeepsOtherEntities(description: string)
    requires !Contains(description, "&lt;") && !Contains(description, "&gt;")
    ensures Unescape(description) == description
  {
    ReplaceAbsentUnchanged(description, "&lt;", "<");
    ReplaceAbsentUnchanged(description, "&gt;", ">");
  }

  /** Unescaping twice is unescaping once. */
  lemma UnescapeIdempotent(description: string)
    ensures Unescape(Unescape(description)) == Unescape(description)
  {
    UnescapeLeavesNoEntities(description);
    UnescapeKeepsOtherEntities(Unescape(description));
  }

  /** The escaping these two entities undo: '<' becomes "&lt;" and '>' becomes "&gt;". */
  function Escape(t: string): string {
    if t == [] then []
    else (if t[0] == '<' then "&lt;" else if t[0] == '>' then "&gt;" else [t[0]]) + Escape(t[1..])
  }

  /** Only '>' escaped. */
  function EscapeGt(t: string): string {
    if t == [] then []
    else (if t[0] == '>' then "&gt;" else [t[0]]) + EscapeGt(t[1..])
  }

  lemma {:induction false} FirstPassUndoesLt(t: string)
    requires '&' !in t
    ensures ReplaceAll(Escape(t), "&lt;", "<") == EscapeGt(t)
  {
    if t != [] {
      FirstPassUndoesLt(t[1..]);
      var rest := Escape(t[1..]);
      if t[0] == '<' {
        assert ("&lt;" + rest)[..4] == "&lt;" && ("&lt;" + rest)[4..] == rest;
      } else if t[0] == '>' {
        var s := "&gt;" + rest;
        assert s[..4] != "&lt;" by { assert s[1] == 'g'; }
        assert s[1..] == "gt;" + rest;
        ReplaceSkipsPlainPrefix("gt;", rest, "&lt;", "<");
      } else {
        ReplaceSkipsPlainPrefix([t[0]], rest, "&lt;", "<");
      }
    }
  }

  lemma {:induction false} SecondPassUndoesGt(t: string)
    requires '&' !in t
    ensures ReplaceAll(EscapeGt(t), "&gt;", ">") == t
  {
    if t != [] {
      SecondPassUndoesGt(t[1..]);
      var rest := EscapeGt(t[1..]);
      if t[0] == '>' {
        assert ("&gt;" + rest)[..4] == "&gt;" && ("&gt;" + rest)[4..] == rest;
        assert t == [t[0]] + t[1..];
      } else {
        ReplaceSkipsPlainPrefix([t[0]], rest, "&gt;", ">");
        assert t == [t[0]] + t[1..];
      }
    }
  }

  /** Unescape inverts the escaping of '<' and '>' on any text without '&'. */
  lemma UnescapeInvertsEscape(t: string)
    requires '&' !in t
    ensures Unescape(Escape(t)) == t
  {
    FirstPassUndoesLt(t);
    SecondPassUndoesGt(t);
  }

  /** `article.description && …`: an empty description renders nothing, any other renders unescaped. */
  function RenderedDescription(description: string): (shown: Option<string>)
    ensures shown.None? <==> description == ""
    ensures shown.Some? ==> shown.value == Unescape(description)
  {
    if description == "" then None else Some(Unescape(description))
  }

  // ---------------------------------------------------------------------
  // Navigation and the fetch effect
  // ---------------------------------------------------------------------

  /** handleArticleClick: the listing opens the article by its id. */
  function IdRoute(articleId: string): (route: string)
    ensures KeyOfRoute(route) == Some(articleId)
  {
    RouteRoundTrip(articleId, ArticleRoute(articleId));
    ArticleRoute(articleId)
  }

  const FetchFailedText := "Failed to fetch articles. Please try again later."

  /** The listing's state: the articles, and the `loading`, `error` and `mounted` flags. */
  class ArticlesListing {
    var articles: seq<Article>
    var loading: bool
    var error: Option<string>
    var mounted: bool

    constructor ()
      ensures articles == [] && loading && error.None? && !mounted
    {
      articles := [];
      loading := true;
      error := None;
      mounted := false;
    }

    /** What the page renders: a spinner until mounted and loaded, then the error or the list. */
    function View(): (view: ListingView)
      reads this
      ensures !mounted || loading <==> view == Spinner
      ensures mounted && !loading ==> view == ListingOf(articles, error)
    {
      if !mounted || loading then Spinner else ListingOf(articles, error)
    }

    /** The mount effect up to the awaited call: mounted, and loading. */
    method BeginFetch()
      modifies this
      ensures mounted && loading
      ensures articles == old(articles) && error == old(error)
    {
      mounted := true;
      loading := true;
    }

    /**
     * The rest of fetchArticles once the call settles: on success the
     * articles are stored and the error cleared; on failure the fixed
     * message is set and the articles kept. Loading ends either way.
     */
    method FinishFetch(outcome: Option<seq<Article>>)
      requires mounted
      modifies this
      ensures mounted && !loading
      ensures outcome.Some? ==> articles == outcome.value && error.None?
      ensures outcome.None? ==> articles == old(articles) && error == Some(FetchFailedText)
      ensures View() != Spinner
    {
      if outcome.Some? {
        articles := outcome.value;
        error := None;
      } else {
        error := Some(FetchFailedText);
      }
      loading := false;
    }
  }

  /** A fetch that fails shows the fixed message; one that succeeds shows the articles it got. */
  method LoadListing(outcome: Option<seq<Article>>) returns (view: ListingView)
    ensures outcome.None? ==> view == ErrorAlert(FetchFailedText)
    ensures outcome.Some? && outcome.value == [] ==> view == NoArticles
    ensures outcome.Some? && outcome.value != [] ==> view == Cards(outcome.value)
  {
    var page := new ArticlesListing();
    assert page.View() == Spinner;
    page.BeginFetch();
    page.FinishFetch(outcome);
    view := page.View();
  }
}
