/** One article's page: the not-found branch and the paragraphs of its content. */
module ArticleDetail {
  import opened Api
  import opened Text

  /** The article fields the page renders (the author and date are display only). */
  datatype Article = Article(title: string, content: string, imageUrl: string)

  /** `content.split('\n')`: one paragraph per line, empty lines included. */
  function Paragraphs(content: string): (ps: seq<string>)
    ensures |ps| == CountChar(content, '\n') + 1
    ensures forall k :: 0 <= k < |ps| ==> '\n' !in ps[k]
    ensures Join(ps, '\n') == content
  {
    SplitCount(content, '\n');
    SplitPartsFree(content, '\n');
    JoinSplit(content, '\n');
    Split(content, '\n')
  }

  /** Empty content renders as one empty paragraph. */
  lemma EmptyContentOneParagraph()
    ensures Paragraphs("") == [""]
  {
    assert CountChar("", '\n') == 0;
    assert Join(Paragraphs(""), '\n') == "";
  }

  /** Content without line breaks is a single paragraph holding all of it. */
  lemma SingleLine(content: string)
    requires '\n' !in content
    ensures Paragraphs(content) == [content]
  {
    SplitWithoutSep(content, '\n');
  }

  /** A first line followed by a break and more text: that line is the first paragraph, the rest follow. */
  lemma FirstLineIsFirstParagraph(line: string, rest: string)
    requires '\n' !in line
    ensures Paragraphs(line + "\n" + rest) == [line] + Paragraphs(rest)
  {
    assert line + "\n" + rest == line + (['\n'] + rest);
    SplitAfterPrefix(line, rest, '\n');
  }

  datatype View = LoadingView | NotFoundView | ArticleView(title: string, paragraphs: seq<string>)

  /** Loading first, then the not-found message when there is no article, else the article. */
  function Render(loading: bool, article: Option<Article>): (v: View)
    ensures v.LoadingView? <==> loading
    ensures v.NotFoundView? <==> !loading && article.None?
    ensures v.ArticleView? ==> v.title == article.value.title && v.paragraphs == Paragraphs(article.value.content)
  {
    if loading then LoadingView
    else if article.None? then NotFoundView
    else ArticleView(article.value.title, Paragraphs(article.value.content))
  }

  class ArticleDetailPage {
    var article: Option<Article>
    var loading: bool

    constructor ()
      ensures article == None && loading
    {
      article, loading := None, true;
    }

    /** The fetch effect: a failure is only logged, so the article stays missing; loading ends either way. */
    method FetchArticle(response: Outcome<Article>)
      modifies this
      ensures !loading
      ensures response.Resolved? ==> article == Some(response.data)
      ensures response.Rejected? ==> article == old(article)
      ensures response.Rejected? && old(article).None? ==> Render(loading, article) == NotFoundView
    {
      if response.Resolved? {
        article := Some(response.data);
      }
      loading := false;
    }
  }
}
