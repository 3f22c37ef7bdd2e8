/** The news page: a category filter and a case-insensitive search over the
    article list, the breaking-news banner and the single expanded article. */
module FireNews {
  import opened Wrappers
  import opened Text
  import opened Seqs

  datatype Category = Breaking | Updates | Safety | Prevention | Research

  /** An article. The optional image and location are only rendered and are
      not modelled; `isBreaking` may be absent. */
  datatype Article = Article(
    id: string,
    title: string,
    summary: string,
    content: string,
    category: Category,
    source: string,
    timestamp: string,
    isBreaking: Option<bool>,
    tags: seq<string>)

  /** The category selector: "all" or one category. */
  datatype CategoryFilter = All | Only(category: Category)

  predicate MatchesCategory(selected: CategoryFilter, a: Article) {
    selected == All || selected == Only(a.category)
  }

  predicate SomeTagMatches(tags: seq<string>, query: string) {
    exists i :: 0 <= i < |tags| && IncludesIgnoringCase(tags[i], query)
  }

  /** The empty query, or a case-insensitive substring of the title, the
      summary or one of the tags. */
  predicate MatchesSearch(query: string, a: Article) {
    query == ""
    || IncludesIgnoringCase(a.title, query)
    || IncludesIgnoringCase(a.summary, query)
    || SomeTagMatches(a.tags, query)
  }

  predicate Kept(selected: CategoryFilter, query: string, a: Article) {
    MatchesCategory(selected, a) && MatchesSearch(query, a)
  }

  /** `filteredArticles`: the articles passing both predicates, in list
      order. */
  function FilteredArticles(articles: seq<Article>, selected: CategoryFilter, query: string): (r: seq<Article>)
    ensures forall a :: a in r <==> a in articles && MatchesCategory(selected, a) && MatchesSearch(query, a)
    ensures forall a :: multiset(r)[a] == if Kept(selected, query, a) then multiset(articles)[a] else 0
    ensures Subsequence(r, articles)
  {
    FilterIsSubsequence((a: Article) => Kept(selected, query, a), articles);
    Filter((a: Article) => Kept(selected, query, a), articles)
  }

  /** Filtering by category and then searching gives the same list: the two
      predicates are independent and their conjunction is what is kept. */
  lemma CategoryThenSearch(articles: seq<Article>, selected: CategoryFilter, query: string)
    ensures FilteredArticles(articles, selected, query) ==
            Filter((a: Article) => MatchesSearch(query, a),
                   Filter((a: Article) => MatchesCategory(selected, a), articles))
  {
    FilterFilter((a: Article) => MatchesCategory(selected, a), (a: Article) => MatchesSearch(query, a),
                 (a: Article) => Kept(selected, query, a), articles);
  }

  /** "All" with an empty query shows the whole list. */
  lemma ShowAll(articles: seq<Article>)
    ensures FilteredArticles(articles, All, "") == articles
  {
    FilterAll((a: Article) => Kept(All, "", a), articles);
  }

  /** Every name contains the empty string, so without the `=== ""` short
      cut the empty query would match every article all the same. */
  lemma EmptyQueryMatchesEveryField(a: Article)
    ensures IncludesIgnoringCase(a.title, "")
  {
    EmptyIncluded(ToLower(a.title));
  }

  /** Neither the body, the source, the timestamp nor the id is searched. */
  lemma SearchIgnoresContent(selected: CategoryFilter, query: string, a: Article,
                             id: string, content: string, source: string, timestamp: string)
    ensures Kept(selected, query, a.(id := id, content := content, source := source, timestamp := timestamp))
            == Kept(selected, query, a)
  {
  }

  /** Lists that differ only in unsearched fields filter alike, position by
      position. */
  lemma {:induction false} FilterIgnoresContent(xs: seq<Article>, ys: seq<Article>, selected: CategoryFilter, query: string)
    requires |xs| == |ys|
    requires forall i :: 0 <= i < |xs| ==>
               xs[i].title == ys[i].title && xs[i].summary == ys[i].summary
               && xs[i].tags == ys[i].tags && xs[i].category == ys[i].category
    ensures |FilteredArticles(xs, selected, query)| == |FilteredArticles(ys, selected, query)|
    decreases |xs|
  {
    if |xs| > 0 {
      FilterIgnoresContent(xs[1..], ys[1..], selected, query);
      assert Kept(selected, query, xs[0]) == Kept(selected, query, ys[0]);
    }
  }

  predicate IsBreaking(a: Article) {
    a.isBreaking == Some(true)
  }

  /** `breakingNews`: the articles whose flag is set, in list order. */
  function BreakingNews(articles: seq<Article>): (r: seq<Article>)
    ensures forall a :: a in r <==> a in articles && a.isBreaking == Some(true)
    ensures forall a :: multiset(r)[a] == if a.isBreaking == Some(true) then multiset(articles)[a] else 0
    ensures Subsequence(r, articles)
  {
    FilterIsSubsequence(IsBreaking, articles);
    Filter(IsBreaking, articles)
  }

  /** The banner text: the title of the first breaking article of the list,
      and no banner when there is none. */
  function Banner(articles: seq<Article>): (r: Option<string>)
    ensures r.None? <==> forall i :: 0 <= i < |articles| ==> !IsBreaking(articles[i])
    ensures r.Some? ==>
              exists i :: 0 <= i < |articles| && IsBreaking(articles[i]) && r.value == articles[i].title
                          && forall j :: 0 <= j < i ==> !IsBreaking(articles[j])
  {
    var breaking := BreakingNews(articles);
    if |breaking| > 0 then
      FilterHead(IsBreaking, articles);
      Some(breaking[0].title)
    else
      assert forall i :: 0 <= i < |articles| ==> articles[i] !in breaking;
      None
  }

  /** The Read More / Show Less button of article `id`: collapses it when it
      is the expanded one, otherwise expands it in place of any other. At
      most one article is expanded, since the state is a single optional id. */
  function ToggleExpanded(expanded: Option<string>, id: string): (r: Option<string>)
    ensures expanded == Some(id) ==> r.None?
    ensures expanded != Some(id) ==> r == Some(id)
    ensures r.Some? ==> r.value == id
  {
    ToggleChoice(expanded, id)
  }

  /** Pressing the same button twice: an article it opened is closed again,
      so nothing is expanded; one it closed is open again. */
  lemma ToggleExpandedTwice(expanded: Option<string>, id: string)
    ensures expanded != Some(id) ==> ToggleExpanded(ToggleExpanded(expanded, id), id).None?
    ensures expanded == Some(id) ==> ToggleExpanded(ToggleExpanded(expanded, id), id) == expanded
  {
  }
}
