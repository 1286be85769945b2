/**
 * Clients of the article store: short command sequences on a freshly
 * created store, each proving from the store's contracts alone what a view
 * observes afterwards.
 */
module Scenarios {
  import opened ArticleModel
  import opened ArticleUpdates
  import opened CallState
  import opened Store

  /** A new store after `getArticle` returned `a` and `getComments` returned `cs`. */
  method LoadedStore(a: Article, cs: seq<Comment>) returns (store: ArticleStore)
    ensures fresh(store) && store.Valid()
    ensures store.Snapshot() == State(a, cs, Loaded, Loaded)
    ensures store.formErrorsLog == [] && store.navigationLog == []
  {
    store := new ArticleStore();
    var ta := store.DispatchGetArticle(a.slug);
    store.SettleGetArticle(ta, Ok(a));
    var tc := store.DispatchGetComments(a.slug);
    store.SettleGetComments(tc, Ok(cs));
  }

  /**
   * Two `getArticle` calls overlap; the first call's response arrives
   * before or after the second's. Only the second call's article is ever
   * held, and the first response changes nothing whenever it arrives.
   */
  method LatestWins(slugA: string, slugB: string, responseA: Response<Article>, b: Article, staleFirst: bool)
    returns (beforeB: State, final: State)
    ensures beforeB.data == InitialArticle && beforeB.getArticleCallState == Loading
    ensures final.data == b && final.getArticleCallState == Loaded
  {
    var store := new ArticleStore();
    var ta := store.DispatchGetArticle(slugA);
    var tb := store.DispatchGetArticle(slugB);
    if staleFirst {
      store.SettleGetArticle(ta, responseA);
    }
    beforeB := store.Snapshot();
    store.SettleGetArticle(tb, Ok(b));
    if !staleFirst {
      store.SettleGetArticle(ta, responseA);
    }
    final := store.Snapshot();
  }

  /**
   * A superseded `getArticle` response that arrives after the newer one has
   * settled, and after a request of another command was issued, still
   * changes nothing.
   */
  method StaleAfterOtherDispatch(slugA: string, slugB: string, a: Article, b: Article, username: string)
    returns (final: State)
    ensures final.data == b && final.getArticleCallState == Loaded
  {
    var store := new ArticleStore();
    var ta := store.DispatchGetArticle(slugA);
    var tb := store.DispatchGetArticle(slugB);
    store.SettleGetArticle(tb, Ok(b));
    var tf := store.DispatchFollowUser(username);
    store.SettleGetArticle(ta, Ok(a));
    final := store.Snapshot();
  }

  /**
   * A loaded article is reset as soon as another `getArticle` is issued, and
   * stays reset when that fetch fails; the lane ends `Loaded`.
   */
  method FetchFailureRollsBack(a: Article, slug: string, errors: FieldErrors)
    returns (loading: State, failed: State)
    ensures loading.data == InitialArticle && loading.getArticleCallState == Loading
    ensures failed.data == InitialArticle && failed.getArticleCallState == Loaded
  {
    var store := new ArticleStore();
    var t1 := store.DispatchGetArticle(a.slug);
    store.SettleGetArticle(t1, Ok(a));
    var t2 := store.DispatchGetArticle(slug);
    loading := store.Snapshot();
    store.SettleGetArticle(t2, Err(errors));
    failed := store.Snapshot();
  }

  /** The two lanes run independently: settling comments leaves the article lane loading. */
  method LanesIndependent(slug: string, cs: seq<Comment>) returns (st: State)
    ensures st.getArticleCallState == Loading && st.data == InitialArticle
    ensures st.getCommentsCallState == Loaded && st.comments == cs
  {
    var store := new ArticleStore();
    var ta := store.DispatchGetArticle(slug);
    var tc := store.DispatchGetComments(slug);
    store.SettleGetComments(tc, Ok(cs));
    st := store.Snapshot();
  }

  /**
   * With `[c2, c1]` loaded, adding a comment that comes back as `c3` gives
   * `[c3, c2, c1]`; the request carries the loaded article's slug.
   */
  method CommentPrepend(a: Article, c1: Comment, c2: Comment, c3: Comment, body: string)
    returns (sent: Request, cs: seq<Comment>)
    ensures sent == AddCommentReq(a.slug, body)
    ensures cs == [c3, c2, c1]
  {
    var store := LoadedStore(a, [c2, c1]);
    var t := store.DispatchAddComment(body);
    sent := t.req;
    store.SettleAddComment(t, Ok(c3));
    cs := store.comments;
  }

  /** With `[c3, c2, c1]` loaded and distinct ids, deleting `c2` gives `[c3, c1]`. */
  method CommentRemoval(slug: string, c1: Comment, c2: Comment, c3: Comment) returns (cs: seq<Comment>)
    requires c1.id != c2.id && c3.id != c2.id
    ensures cs == [c3, c1]
  {
    var store := new ArticleStore();
    var tc := store.DispatchGetComments(slug);
    store.SettleGetComments(tc, Ok([c3, c2, c1]));
    var t := store.DispatchDeleteComment(c2.id, slug);
    store.SettleDeleteComment(t, Ok(()));
    cs := store.comments;
    assert [c3, c2, c1][1..] == [c2, c1];
    assert [c2, c1][1..] == [c1];
  }

  /**
   * Two overlapping `deleteComment` calls: the server deletes both comments,
   * but `switchMap` drops the first call's response, so only the second
   * comment leaves the list.
   */
  method OverlappingDeletes(a: Article, c1: Comment, c2: Comment) returns (cs: seq<Comment>)
    requires c1.id != c2.id
    ensures cs == [c1]
  {
    var store := LoadedStore(a, [c1, c2]);
    var t1 := store.DispatchDeleteComment(c1.id, a.slug);
    var t2 := store.DispatchDeleteComment(c2.id, a.slug);
    assert !store.Current(t1) && store.Current(t2) && store.comments == [c1, c2];
    store.SettleDeleteComment(t1, Ok(()));
    assert store.Current(t2) && store.comments == [c1, c2];
    store.SettleDeleteComment(t2, Ok(()));
    cs := store.comments;
    assert [c1, c2][1..] == [c2];
    assert RemoveComment([c2], c2.id) == [];
  }

  /**
   * Failed `publishArticle`, `editArticle` and `addComment` reach the
   * form-errors store in that order, the first wrapped as `{ errors }` and
   * the other two as they are, while the article and comments stay as loaded.
   */
  method ValidationRouting(a: Article, cs: seq<Comment>, draft: NewArticle, edited: EditedArticle,
                           body: string, e1: FieldErrors, e2: FieldErrors, e3: FieldErrors)
    returns (log: seq<FormErrors>, st: State)
    ensures log == [ErrorsObject(e1), FieldMap(e2), FieldMap(e3)]
    ensures st == State(a, cs, Loaded, Loaded)
  {
    var store := LoadedStore(a, cs);
    ghost var loaded := store.Snapshot();
    var tp := store.DispatchPublishArticle(draft);
    store.SettlePublishArticle(tp, Err(e1));
    assert store.Snapshot() == loaded && store.formErrorsLog == [ErrorsObject(e1)];
    var te := store.DispatchEditArticle(edited);
    store.SettleEditArticle(te, Err(e2));
    assert store.Snapshot() == loaded && store.formErrorsLog == [ErrorsObject(e1), FieldMap(e2)];
    var tn := store.DispatchAddComment(body);
    assert store.Snapshot() == loaded && store.formErrorsLog == [ErrorsObject(e1), FieldMap(e2)];
    assert store.Current(tn) && tn.req.AddCommentReq?;
    store.SettleAddComment(tn, Err(e3));
    log := store.formErrorsLog;
    st := store.Snapshot();
  }

  /** A successful follow replaces only the article's author; the comments are untouched. */
  method FollowMerge(a: Article, cs: seq<Comment>, p: Profile) returns (st: State)
    ensures st.data.author == p && SameExceptAuthor(st.data, a)
    ensures st.comments == cs
  {
    var store := LoadedStore(a, cs);
    var tf := store.DispatchFollowUser(a.author.username);
    store.SettleFollowUser(tf, Ok(p));
    st := store.Snapshot();
  }

  /**
   * A follow and an unfollow in flight together are separate commands, so
   * both apply: the author is the profile of the one that settles last.
   */
  method FollowThenUnfollow(a: Article, cs: seq<Comment>, p: Profile, q: Profile) returns (st: State)
    ensures st.data == WithAuthor(a, q) && st.comments == cs
  {
    var store := LoadedStore(a, cs);
    var tf := store.DispatchFollowUser(a.author.username);
    var tu := store.DispatchUnfollowUser(a.author.username);
    store.SettleFollowUser(tf, Ok(p));
    store.SettleUnfollowUser(tu, Ok(q));
    AuthorLastWriteWins(a, p, q);
    st := store.Snapshot();
  }

  /**
   * Publishing and editing navigate to the returned article and deleting
   * navigates home; none of them changes the loaded article or comments.
   */
  method NavigationOnSuccess(a: Article, cs: seq<Comment>, draft: NewArticle, published: Article,
                             edited: EditedArticle, saved: Article)
    returns (routes: seq<Route>, st: State)
    ensures routes == [["article", published.slug], ["article", saved.slug], ["/"]]
    ensures st == State(a, cs, Loaded, Loaded)
  {
    var store := LoadedStore(a, cs);
    ghost var loaded := store.Snapshot();
    var tp := store.DispatchPublishArticle(draft);
    store.SettlePublishArticle(tp, Ok(published));
    assert store.Snapshot() == loaded && store.navigationLog == [["article", published.slug]];
    var te := store.DispatchEditArticle(edited);
    store.SettleEditArticle(te, Ok(saved));
    assert store.Snapshot() == loaded;
    assert store.navigationLog == [["article", published.slug], ["article", saved.slug]];
    var td := store.DispatchDeleteArticle(a.slug);
    store.SettleDeleteArticle(td, Ok(()));
    routes := store.navigationLog;
    st := store.Snapshot();
  }

  /** A failed `deleteArticle` resets article and comments but keeps both lanes `Loaded`. */
  method DeleteArticleFailure(a: Article, cs: seq<Comment>, errors: FieldErrors) returns (st: State)
    ensures st == State(InitialArticle, InitialComments, Loaded, Loaded)
  {
    var store := LoadedStore(a, cs);
    var td := store.DispatchDeleteArticle(a.slug);
    store.SettleDeleteArticle(td, Err(errors));
    st := store.Snapshot();
  }

  /** `initializeArticle` twice in a row gives the same state as once: the empty article and comments. */
  method InitializeTwice(a: Article, cs: seq<Comment>) returns (once: State, twice: State)
    ensures once == twice
    ensures once == State(InitialArticle, InitialComments, Loaded, Loaded)
  {
    var store := LoadedStore(a, cs);
    store.InitializeArticle();
    once := store.Snapshot();
    store.InitializeArticle();
    twice := store.Snapshot();
  }
}
