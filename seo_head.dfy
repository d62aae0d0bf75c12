/**
 * The values src/components/SEOHead.tsx computes from its props: the page
 * title with the brand name, the canonical address, and which of the
 * article-only meta tags are emitted.
 *
 * An optional prop is an `Option`; an absent one takes the component's
 * default.
 */
module SeoHead {
  import opened Wrappers
  import opened Strings

  const BRAND := "Humanbo"
  const TITLE_SUFFIX := " | Humanbo"
  const SITE := "https://humanbo.com"
  const HTTP := "http"
  const ARTICLE := "article"

  const DEFAULT_TITLE := "Humanbo - AI That Feels Human"
  const DEFAULT_URL := "https://humanbo.com"
  const DEFAULT_TYPE := "website"
  const DEFAULT_AUTHOR := "Humanbo Team"

  /** `fullTitle`: a title naming the brand as it is, any other with " | Humanbo" after it. */
  function FullTitle(title: string): (full: string)
    ensures Contains(full, BRAND)
    ensures Contains(title, BRAND) ==> full == title
    ensures !Contains(title, BRAND) ==> full == title + TITLE_SUFFIX
  {
    if Contains(title, BRAND) then title
    else
      ContainsSuffix(title + " | ", BRAND);
      assert title + " | " + BRAND == title + TITLE_SUFFIX;
      title + TITLE_SUFFIX
  }

  /** Normalising a title twice changes nothing more. */
  lemma FullTitleIdempotent(title: string)
    ensures FullTitle(FullTitle(title)) == FullTitle(title)
  {
  }

  /** The title ends up inside the full title, with at most the suffix added after it. */
  lemma FullTitleExtends(title: string)
    ensures StartsWith(FullTitle(title), title)
    ensures |FullTitle(title)| <= |title| + |TITLE_SUFFIX|
  {
    assert (title + TITLE_SUFFIX)[..|title|] == title;
  }

  /** `fullUrl`: an address starting with "http" as it is, anything else appended to the site address. */
  function FullUrl(url: string): (full: string)
    ensures StartsWith(full, HTTP)
    ensures StartsWith(url, HTTP) ==> full == url
    ensures !StartsWith(url, HTTP) ==> full == SITE + url
  {
    if StartsWith(url, HTTP) then url
    else
      assert (SITE + url)[..|HTTP|] == SITE[..|HTTP|];
      SITE + url
  }

  /** Normalising an address twice changes nothing more. */
  lemma FullUrlIdempotent(url: string)
    ensures FullUrl(FullUrl(url)) == FullUrl(url)
  {
  }

  /** A site-relative path becomes an address under the site, ending in that path. */
  lemma RelativePathUnderSite(path: string)
    requires StartsWith(path, "/")
    ensures StartsWith(FullUrl(path), SITE)
    ensures FullUrl(path)[|SITE|..] == path
  {
    assert !StartsWith(path, HTTP) by { assert path[0] == '/'; }
    assert (SITE + path)[..|SITE|] == SITE;
  }

  /** The article meta tags emitted, each with its content, or `None` when it is left out. */
  datatype ArticleTags = ArticleTags(publishedTime: Option<string>, modifiedTime: Option<string>, author: Option<string>)

  /** The three conditional tags: the times need an article and a non-empty value, the author only an article. */
  function ArticleTagsOf(pageType: string, author: string, publishedTime: Option<string>, modifiedTime: Option<string>): (tags: ArticleTags)
    ensures tags.publishedTime.Some? <==> pageType == ARTICLE && IsTruthy(publishedTime)
    ensures tags.modifiedTime.Some? <==> pageType == ARTICLE && IsTruthy(modifiedTime)
    ensures tags.author.Some? <==> pageType == ARTICLE
    ensures tags.publishedTime.Some? ==> tags.publishedTime == publishedTime
    ensures tags.modifiedTime.Some? ==> tags.modifiedTime == modifiedTime
    ensures tags.author.Some? ==> tags.author.value == author
  {
    var isArticle := pageType == ARTICLE;
    ArticleTags(
      if isArticle && IsTruthy(publishedTime) then publishedTime else None,
      if isArticle && IsTruthy(modifiedTime) then modifiedTime else None,
      if isArticle then Some(author) else None)
  }

  /** What the component renders that this model covers. */
  datatype Head = Head(title: string, canonicalUrl: string, pageType: string, article: ArticleTags)

  /** The component with its defaults filled in. */
  function SeoHeadOf(title: Option<string>, url: Option<string>, pageType: Option<string>, author: Option<string>,
                     publishedTime: Option<string>, modifiedTime: Option<string>): (head: Head)
    ensures Contains(head.title, BRAND) && StartsWith(head.canonicalUrl, HTTP)
    ensures title.None? ==> head.title == DEFAULT_TITLE
    ensures url.None? ==> head.canonicalUrl == DEFAULT_URL
    ensures title.Some? ==> head.title == FullTitle(title.value)
    ensures url.Some? ==> head.canonicalUrl == FullUrl(url.value)
    ensures head.pageType == pageType.GetOr(DEFAULT_TYPE)
    ensures head.article == ArticleTagsOf(head.pageType, author.GetOr(DEFAULT_AUTHOR), publishedTime, modifiedTime)
    ensures pageType.None? ==> head.article == ArticleTags(None, None, None)
  {
    var t, u, ty := title.GetOr(DEFAULT_TITLE), url.GetOr(DEFAULT_URL), pageType.GetOr(DEFAULT_TYPE);
    assert Contains(DEFAULT_TITLE, BRAND) by { assert OccursAt(DEFAULT_TITLE, BRAND, 0); }
    assert StartsWith(DEFAULT_URL, HTTP);
    Head(FullTitle(t), FullUrl(u), ty, ArticleTagsOf(ty, author.GetOr(DEFAULT_AUTHOR), publishedTime, modifiedTime))
  }

  /** A page that is not an article emits none of the article tags, whatever times it is given. */
  lemma NonArticleHasNoArticleTags(pageType: string, author: string, publishedTime: Option<string>, modifiedTime: Option<string>)
    requires pageType != ARTICLE
    ensures ArticleTagsOf(pageType, author, publishedTime, modifiedTime) == ArticleTags(None, None, None)
  {
  }
}
