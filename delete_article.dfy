/**
 * The article-deletion use case: look the article up by id, check that the
 * acting user may delete it, and remove it from the article store with a single
 * `delete` call.
 *
 * The authorization rule is owner-based. Whether an admin who is not the author
 * may delete is left as the parameter `adminsMayDelete`: the behaviour that is
 * pinned down concerns non-admin users only.
 */
module Articles {
  import opened Wrappers
  import opened Logs

  /** The acting user: an id and whether the user holds the admin role. */
  datatype User = User(id: int, isAdmin: bool)

  /** An article, reduced to its id and the id of its author. */
  datatype Article = Article(id: int, authorId: int)

  /** `ResourceNotFoundException` and `ForbiddenActionException`. */
  datatype Error = ResourceNotFound | ForbiddenAction

  /** What `articleProvider` holds, and the articles passed to its `delete`, oldest first. */
  datatype ArticleStore = ArticleStore(articles: map<int, Article>, deleted: seq<Article>)

  datatype DeleteOutcome = DeleteOutcome(store: ArticleStore, error: Option<Error>)

  /** The article provider keys every article by the article's own id. */
  ghost predicate ValidArticles(articles: map<int, Article>)
  {
    forall k :: k in articles ==> articles[k].id == k
  }

  /** The permission check: the author may delete; an admin may when `adminsMayDelete` holds. */
  predicate MayDelete(adminsMayDelete: bool, user: User, article: Article)
  {
    article.authorId == user.id || (adminsMayDelete && user.isAdmin)
  }

  /** `DeleteArticle.execute(currentUser, articleId)` as a function of the store. */
  function Delete(adminsMayDelete: bool, s: ArticleStore, currentUser: User, articleId: int): (r: DeleteOutcome)
    requires ValidArticles(s.articles)
    ensures ValidArticles(r.store.articles)
    // an absent id is an error, not a deletion
    ensures articleId !in s.articles ==> r == DeleteOutcome(s, Some(ResourceNotFound))
    // a non-admin may delete exactly the articles the user wrote
    ensures articleId in s.articles && !currentUser.isAdmin ==>
              (r.error.None? <==> s.articles[articleId].authorId == currentUser.id)
    // a refused deletion raises ForbiddenAction and leaves the store as it was
    ensures articleId in s.articles && !MayDelete(adminsMayDelete, currentUser, s.articles[articleId]) ==>
              r == DeleteOutcome(s, Some(ForbiddenAction))
    // a permitted deletion passes the looked-up article to `delete` once and removes it
    ensures r.error.None? <==> articleId in s.articles && MayDelete(adminsMayDelete, currentUser, s.articles[articleId])
    ensures r.error.None? ==>
              && r.store.deleted == s.deleted + [s.articles[articleId]]
              && r.store.articles == s.articles - {articleId}
  {
    if articleId !in s.articles then DeleteOutcome(s, Some(ResourceNotFound))
    else
      var article := s.articles[articleId];
      if !MayDelete(adminsMayDelete, currentUser, article) then DeleteOutcome(s, Some(ForbiddenAction))
      else DeleteOutcome(ArticleStore(s.articles - {article.id}, s.deleted + [article]), None)
  }

  /**
   * A permitted deletion calls `delete` exactly once with the looked-up article,
   * and with no other article; a refused or failed one calls it not at all.
   */
  lemma DeleteCallsOnce(adminsMayDelete: bool, s: ArticleStore, currentUser: User, articleId: int, a: Article)
    requires ValidArticles(s.articles)
    ensures var r := Delete(adminsMayDelete, s, currentUser, articleId);
            Occurrences(r.store.deleted, a) ==
              Occurrences(s.deleted, a) + (if r.error.None? && a == s.articles[articleId] then 1 else 0)
  {
  }

  class DeleteArticle {
    const adminsMayDelete: bool
    /** What `articleProvider` holds: articles by id. */
    var articles: map<int, Article>
    /** The articles passed to `articleProvider.delete`, oldest first. */
    var deleted: seq<Article>

    ghost predicate Valid()
      reads this
    {
      ValidArticles(articles)
    }

    constructor (adminsMayDelete: bool, articles: map<int, Article>)
      requires ValidArticles(articles)
      ensures Valid()
      ensures this.adminsMayDelete == adminsMayDelete && this.articles == articles && deleted == []
    {
      this.adminsMayDelete := adminsMayDelete;
      this.articles := articles;
      deleted := [];
    }

    /** Deletes article `articleId` on behalf of `currentUser`; `err` is the exception thrown, if any. */
    method Execute(currentUser: User, articleId: int) returns (err: Option<Error>)
      requires Valid()
      modifies this
      ensures Valid()
      ensures var r := Delete(adminsMayDelete, ArticleStore(old(articles), old(deleted)), currentUser, articleId);
              articles == r.store.articles && deleted == r.store.deleted && err == r.error
    {
      if articleId !in articles {
        return Some(ResourceNotFound);
      }
      var article := articles[articleId];
      if !MayDelete(adminsMayDelete, currentUser, article) {
        return Some(ForbiddenAction);
      }
      articles := articles - {article.id};
      deleted := deleted + [article];
      err := None;
    }
  }

  /**
   * The scenarios of the use case's unit tests, run through `Execute`: the author
   * (a non-admin with id 10) deletes the article, and `delete` receives it once; a
   * non-admin who is not the author is refused and nothing is deleted.
   */
  method DeleteArticleScenarios(adminsMayDelete: bool)
    returns (authorResult: Option<Error>, authorDeleted: seq<Article>,
             strangerResult: Option<Error>, strangerDeleted: seq<Article>)
    ensures authorResult == None && authorDeleted == [Article(1, 10)]
    ensures strangerResult == Some(ForbiddenAction) && strangerDeleted == []
  {
    var author := User(10, false);
    var article := Article(1, 10);
    var otherArticle := Article(2, 11);

    var useCase := new DeleteArticle(adminsMayDelete, map[1 := article]);
    authorResult := useCase.Execute(author, article.id);
    authorDeleted := useCase.deleted;

    useCase := new DeleteArticle(adminsMayDelete, map[2 := otherArticle]);
    strangerResult := useCase.Execute(author, otherArticle.id);
    strangerDeleted := useCase.deleted;
  }
}
