/**
 * The article store: one long-lived object holding the current article,
 * its comments and the two call-state lanes, with one command per public
 * method. Each command is split into its two moments: `DispatchX` runs
 * when the method is called (the pre-effect and the request it issues),
 * `SettleX` runs when that request's response arrives. `switchMap`'s
 * latest-wins rule is a ticket per in-flight request: dispatching on a
 * command replaces that command's ticket, and a settlement whose ticket
 * is no longer the current one changes nothing.
 */
module Store {
  import opened Wrappers
  import opened ArticleModel
  import opened ArticleUpdates
  import opened CallState

  /** One `rxMethod` of the store; each has its own `switchMap`. */
  datatype Command =
    | GetArticle | GetComments | FollowUser | UnfollowUser | DeleteComment
    | DeleteArticle | AddComment | PublishArticle | EditArticle

  /** The server call a command issues, with the arguments it is issued with. */
  datatype Request =
    | GetArticleReq(slug: string)
    | GetCommentsReq(slug: string)
    | FollowUserReq(username: string)
    | UnfollowUserReq(username: string)
    | DeleteCommentReq(commentId: int, slug: string)
    | DeleteArticleReq(slug: string)
    | AddCommentReq(slug: string, body: string)
    | PublishArticleReq(article: NewArticle)
    | EditArticleReq(edited: EditedArticle)

  function CommandOf(req: Request): Command {
    match req
    case GetArticleReq(_) => GetArticle
    case GetCommentsReq(_) => GetComments
    case FollowUserReq(_) => FollowUser
    case UnfollowUserReq(_) => UnfollowUser
    case DeleteCommentReq(_, _) => DeleteComment
    case DeleteArticleReq(_) => DeleteArticle
    case AddCommentReq(_, _) => AddComment
    case PublishArticleReq(_) => PublishArticle
    case EditArticleReq(_) => EditArticle
  }

  /** An issued request: the generation it was issued in and the request itself (what the closure captured). */
  datatype Ticket = Ticket(gen: nat, req: Request)

  class ArticleStore {
    var data: Article
    var comments: seq<Comment>
    var getArticleCallState: CallStatus
    var getCommentsCallState: CallStatus

    /** Per command, the generation of the last request issued. */
    var generation: map<Command, nat>
    /** Per command, the request `switchMap` is still subscribed to. */
    var inFlight: map<Command, Ticket>

    /** Every argument passed to `FormErrorsStore.setErrors`, oldest first. */
    var formErrorsLog: seq<FormErrors>
    /** Every target passed to `router.navigate`, oldest first. */
    var navigationLog: seq<Route>

    /** The in-flight request of each command is the last one issued on it. */
    predicate Valid()
      reads this
    {
      forall c :: c in inFlight ==>
        && c in generation
        && inFlight[c].gen == generation[c]
        && CommandOf(inFlight[c].req) == c
    }

    function Snapshot(): State
      reads this
    {
      State(data, comments, getArticleCallState, getCommentsCallState)
    }

    /** `t` is the request its command's `switchMap` is still subscribed to. */
    predicate Current(t: Ticket)
      reads this
    {
      CommandOf(t.req) in inFlight && inFlight[CommandOf(t.req)] == t
    }

    twostate predicate DomainKept()
      reads this
    {
      data == old(data) && comments == old(comments)
    }

    twostate predicate CallStatesKept()
      reads this
    {
      getArticleCallState == old(getArticleCallState) && getCommentsCallState == old(getCommentsCallState)
    }

    twostate predicate EffectsKept()
      reads this
    {
      formErrorsLog == old(formErrorsLog) && navigationLog == old(navigationLog)
    }

    /**
     * `t` was just issued: only its command's slot and generation change, it
     * is that command's only current request, the one it replaced is
     * disarmed, and every other command's request is as it was.
     */
    twostate predicate Issued(t: Ticket)
      reads this
    {
      && inFlight == old(inFlight)[CommandOf(t.req) := t]
      && generation == old(generation)[CommandOf(t.req) := t.gen]
      && Current(t)
      && (forall u :: Current(u) && CommandOf(u.req) == CommandOf(t.req) ==> u == t)
      && (forall u :: old(Current(u)) ==> (Current(u) <==> CommandOf(u.req) != CommandOf(t.req)))
      && (CommandOf(t.req) in old(generation) ==> old(generation)[CommandOf(t.req)] < t.gen)
    }

    /** `t` has settled: its command's slot is emptied, no other request or generation is affected. */
    twostate predicate Retired(t: Ticket)
      reads this
    {
      && inFlight == old(inFlight) - {CommandOf(t.req)}
      && generation == old(generation)
      && !Current(t)
      && (forall u :: u != t ==> (Current(u) <==> old(Current(u))))
    }

    /** The store as `signalStore` creates it: `articleInitialState`, both lanes `Init`. */
    constructor ()
      ensures Valid() && Snapshot() == InitialState
      ensures inFlight == map[] && formErrorsLog == [] && navigationLog == []
    {
      data, comments := InitialArticle, InitialComments;
      getArticleCallState, getCommentsCallState := Init, Init;
      generation, inFlight := map[], map[];
      formErrorsLog, navigationLog := [], [];
    }

    /** `patchState(store, p)`. */
    method Patch(p: Patch)
      modifies this`data, this`comments, this`getArticleCallState, this`getCommentsCallState
      ensures Snapshot() == PatchState(old(Snapshot()), p)
    {
      if p.data.Some? { data := p.data.value; }
      if p.comments.Some? { comments := p.comments.value; }
      if p.getArticleCallState.Some? { getArticleCallState := p.getArticleCallState.value; }
      if p.getCommentsCallState.Some? { getCommentsCallState := p.getCommentsCallState.value; }
    }

    /** `switchMap` subscribing to a new request and dropping the previous one of the same command. */
    method Issue(req: Request) returns (t: Ticket)
      requires Valid()
      modifies this`generation, this`inFlight
      ensures Valid() && t.req == req && Issued(t)
    {
      var cmd := CommandOf(req);
      var g := if cmd in generation then generation[cmd] + 1 else 1;
      generation := generation[cmd := g];
      t := Ticket(g, req);
      inFlight := inFlight[cmd := t];
    }

    /** The request of `t` has settled. */
    method Retire(t: Ticket)
      requires Valid() && Current(t)
      modifies this`inFlight
      ensures Valid() && Retired(t)
    {
      inFlight := inFlight - {CommandOf(t.req)};
    }

    // ---------------------------------------------------------------- getArticle

    /** `getArticle(slug)`: reset the article and mark the lane loading, then fetch. */
    method DispatchGetArticle(slug: string) returns (t: Ticket)
      requires Valid()
      modifies this
      ensures Valid() && t.req == GetArticleReq(slug) && Issued(t)
      ensures data == InitialArticle && getArticleCallState == Loading
      ensures comments == old(comments) && getCommentsCallState == old(getCommentsCallState)
      ensures EffectsKept()
    {
      Patch(Spread(DataPatch(InitialArticle), SetLoading(GetArticleLane)));
      t := Issue(GetArticleReq(slug));
    }

    /** The response to a `getArticle` request: replace or reset the article, lane loaded. */
    method SettleGetArticle(t: Ticket, r: Response<Article>)
      requires Valid()
      modifies this
      ensures Valid()
      ensures !old(Current(t) && t.req.GetArticleReq?) ==> unchanged(this)
      ensures old(Current(t) && t.req.GetArticleReq?) ==>
        && data == (if r.Ok? then r.value else InitialArticle)
        && getArticleCallState == Loaded
        && comments == old(comments) && getCommentsCallState == old(getCommentsCallState)
        && EffectsKept() && Retired(t)
    {
      if !(Current(t) && t.req.GetArticleReq?) {
        return;
      }
      match r {
        case Ok(article) => Patch(Spread(DataPatch(article), SetLoaded(GetArticleLane)));
        case Err(_) => Patch(Spread(DataPatch(InitialArticle), SetLoaded(GetArticleLane)));
      }
      Retire(t);
    }

    // ---------------------------------------------------------------- getComments

    /** `getComments(slug)`: reset the comments and mark the lane loading, then fetch. */
    method DispatchGetComments(slug: string) returns (t: Ticket)
      requires Valid()
      modifies this
      ensures Valid() && t.req == GetCommentsReq(slug) && Issued(t)
      ensures comments == InitialComments && getCommentsCallState == Loading
      ensures data == old(data) && getArticleCallState == old(getArticleCallState)
      ensures EffectsKept()
    {
      Patch(Spread(CommentsPatch(InitialComments), SetLoading(GetCommentsLane)));
      t := Issue(GetCommentsReq(slug));
    }

    /** The response to a `getComments` request: replace or reset the comments, lane loaded. */
    method SettleGetComments(t: Ticket, r: Response<seq<Comment>>)
      requires Valid()
      modifies this
      ensures Valid()
      ensures !old(Current(t) && t.req.GetCommentsReq?) ==> unchanged(this)
      ensures old(Current(t) && t.req.GetCommentsReq?) ==>
        && comments == (if r.Ok? then r.value else InitialComments)
        && getCommentsCallState == Loaded
        && data == old(data) && getArticleCallState == old(getArticleCallState)
        && EffectsKept() && Retired(t)
    {
      if !(Current(t) && t.req.GetCommentsReq?) {
        return;
      }
      match r {
        case Ok(cs) => Patch(Spread(CommentsPatch(cs), SetLoaded(GetCommentsLane)));
        case Err(_) => Patch(Spread(CommentsPatch(InitialComments), SetLoaded(GetCommentsLane)));
      }
      Retire(t);
    }

    // ---------------------------------------------------------------- followUser / unfollowUser

    /** `followUser(username)`: no pre-effect. */
    method DispatchFollowUser(username: string) returns (t: Ticket)
      requires Valid()
      modifies this
      ensures Valid() && t.req == FollowUserReq(username) && Issued(t)
      ensures DomainKept() && CallStatesKept() && EffectsKept()
    {
      t := Issue(FollowUserReq(username));
    }

    /** The response to `followUser`: on success only the article's author is replaced. */
    method SettleFollowUser(t: Ticket, r: Response<Profile>)
      requires Valid()
      modifies this
      ensures Valid()
      ensures !old(Current(t) && t.req.FollowUserReq?) ==> unchanged(this)
      ensures old(Current(t) && t.req.FollowUserReq?) ==>
        && data == (if r.Ok? then WithAuthor(old(data), r.value) else old(data))
        && comments == old(comments) && CallStatesKept() && EffectsKept() && Retired(t)
    {
      if !(Current(t) && t.req.FollowUserReq?) {
        return;
      }
      if r.Ok? {
        Patch(DataPatch(WithAuthor(data, r.value)));
      }
      Retire(t);
    }

    /** `unfollowUser(username)`: no pre-effect. */
    method DispatchUnfollowUser(username: string) returns (t: Ticket)
      requires Valid()
      modifies this
      ensures Valid() && t.req == UnfollowUserReq(username) && Issued(t)
      ensures DomainKept() && CallStatesKept() && EffectsKept()
    {
      t := Issue(UnfollowUserReq(username));
    }

    /** The response to `unfollowUser`: on success only the article's author is replaced. */
    method SettleUnfollowUser(t: Ticket, r: Response<Profile>)
      requires Valid()
      modifies this
      ensures Valid()
      ensures !old(Current(t) && t.req.UnfollowUserReq?) ==> unchanged(this)
      ensures old(Current(t) && t.req.UnfollowUserReq?) ==>
        && data == (if r.Ok? then WithAuthor(old(data), r.value) else old(data))
        && comments == old(comments) && CallStatesKept() && EffectsKept() && Retired(t)
    {
      if !(Current(t) && t.req.UnfollowUserReq?) {
        return;
      }
      if r.Ok? {
        Patch(DataPatch(WithAuthor(data, r.value)));
      }
      Retire(t);
    }

    // ---------------------------------------------------------------- deleteComment

    /** `deleteComment({ commentId, slug })`: no pre-effect. */
    method DispatchDeleteComment(commentId: int, slug: string) returns (t: Ticket)
      requires Valid()
      modifies this
      ensures Valid() && t.req == DeleteCommentReq(commentId, slug) && Issued(t)
      ensures DomainKept() && CallStatesKept() && EffectsKept()
    {
      t := Issue(DeleteCommentReq(commentId, slug));
    }

    /**
     * The response to `deleteComment`: on success the comments carrying the
     * dispatched id are filtered out of the list as it is at settlement; a
     * failure has no handler and changes nothing.
     */
    method SettleDeleteComment(t: Ticket, r: Response<()>)
      requires Valid()
      modifies this
      ensures Valid()
      ensures !old(Current(t) && t.req.DeleteCommentReq?) ==> unchanged(this)
      ensures old(Current(t) && t.req.DeleteCommentReq?) ==>
        && comments == (if r.Ok? then RemoveComment(old(comments), t.req.commentId) else old(comments))
        && data == old(data) && CallStatesKept() && EffectsKept() && Retired(t)
    {
      if !(Current(t) && t.req.DeleteCommentReq?) {
        return;
      }
      if r.Ok? {
        Patch(CommentsPatch(RemoveComment(comments, t.req.commentId)));
      }
      Retire(t);
    }

    // ---------------------------------------------------------------- deleteArticle

    /** `deleteArticle(slug)`: no pre-effect. */
    method DispatchDeleteArticle(slug: string) returns (t: Ticket)
      requires Valid()
      modifies this
      ensures Valid() && t.req == DeleteArticleReq(slug) && Issued(t)
      ensures DomainKept() && CallStatesKept() && EffectsKept()
    {
      t := Issue(DeleteArticleReq(slug));
    }

    /**
     * The response to `deleteArticle`: success navigates home and leaves the
     * state; failure patches `articleInitialState`, resetting article and
     * comments but not the call states.
     */
    method SettleDeleteArticle(t: Ticket, r: Response<()>)
      requires Valid()
      modifies this
      ensures Valid()
      ensures !old(Current(t) && t.req.DeleteArticleReq?) ==> unchanged(this)
      ensures old(Current(t) && t.req.DeleteArticleReq?) && r.Ok? ==>
        && navigationLog == old(navigationLog) + [HomeRoute]
        && DomainKept() && formErrorsLog == old(formErrorsLog)
      ensures old(Current(t) && t.req.DeleteArticleReq?) && r.Err? ==>
        && data == InitialArticle && comments == InitialComments && EffectsKept()
      ensures old(Current(t) && t.req.DeleteArticleReq?) ==> CallStatesKept() && Retired(t)
    {
      if !(Current(t) && t.req.DeleteArticleReq?) {
        return;
      }
      match r {
        case Ok(_) => navigationLog := navigationLog + [HomeRoute];
        case Err(_) => Patch(InitialStatePatch);
      }
      Retire(t);
    }

    // ---------------------------------------------------------------- addComment

    /** `addComment(body)`: the request carries the slug of the article held at this moment. */
    method DispatchAddComment(body: string) returns (t: Ticket)
      requires Valid()
      modifies this
      ensures Valid() && t.req == AddCommentReq(old(data.slug), body) && Issued(t)
      ensures DomainKept() && CallStatesKept() && EffectsKept()
    {
      t := Issue(AddCommentReq(data.slug, body));
    }

    /**
     * The response to `addComment`: success prepends the returned comment to
     * the list as it is at settlement; failure passes the field errors as they
     * are to the form-errors store.
     */
    method SettleAddComment(t: Ticket, r: Response<Comment>)
      requires Valid()
      modifies this
      ensures Valid()
      ensures !old(Current(t) && t.req.AddCommentReq?) ==> unchanged(this)
      ensures old(Current(t) && t.req.AddCommentReq?) && r.Ok? ==>
        && comments == Prepend(r.value, old(comments))
        && data == old(data) && EffectsKept()
      ensures old(Current(t) && t.req.AddCommentReq?) && r.Err? ==>
        && formErrorsLog == old(formErrorsLog) + [FieldMap(r.errors)]
        && navigationLog == old(navigationLog) && DomainKept()
      ensures old(Current(t) && t.req.AddCommentReq?) ==> CallStatesKept() && Retired(t)
    {
      if !(Current(t) && t.req.AddCommentReq?) {
        return;
      }
      match r {
        case Ok(c) => Patch(CommentsPatch(Prepend(c, comments)));
        case Err(errors) => formErrorsLog := formErrorsLog + [FieldMap(errors)];
      }
      Retire(t);
    }

    // ---------------------------------------------------------------- publishArticle

    /** `publishArticle(article)`: no pre-effect. */
    method DispatchPublishArticle(article: NewArticle) returns (t: Ticket)
      requires Valid()
      modifies this
      ensures Valid() && t.req == PublishArticleReq(article) && Issued(t)
      ensures DomainKept() && CallStatesKept() && EffectsKept()
    {
      t := Issue(PublishArticleReq(article));
    }

    /**
     * The response to `publishArticle`: success navigates to the returned
     * article; failure passes `{ errors }` (the field errors wrapped in an
     * object) to the form-errors store. The state is never changed.
     */
    method SettlePublishArticle(t: Ticket, r: Response<Article>)
      requires Valid()
      modifies this
      ensures Valid()
      ensures !old(Current(t) && t.req.PublishArticleReq?) ==> unchanged(this)
      ensures old(Current(t) && t.req.PublishArticleReq?) && r.Ok? ==>
        navigationLog == old(navigationLog) + [ArticleRoute(r.value.slug)] && formErrorsLog == old(formErrorsLog)
      ensures old(Current(t) && t.req.PublishArticleReq?) && r.Err? ==>
        formErrorsLog == old(formErrorsLog) + [ErrorsObject(r.errors)] && navigationLog == old(navigationLog)
      ensures old(Current(t) && t.req.PublishArticleReq?) ==> DomainKept() && CallStatesKept() && Retired(t)
    {
      if !(Current(t) && t.req.PublishArticleReq?) {
        return;
      }
      match r {
        case Ok(article) => navigationLog := navigationLog + [ArticleRoute(article.slug)];
        case Err(errors) => formErrorsLog := formErrorsLog + [ErrorsObject(errors)];
      }
      Retire(t);
    }

    // ---------------------------------------------------------------- editArticle

    /** `editArticle(edited)`: no pre-effect. */
    method DispatchEditArticle(edited: EditedArticle) returns (t: Ticket)
      requires Valid()
      modifies this
      ensures Valid() && t.req == EditArticleReq(edited) && Issued(t)
      ensures DomainKept() && CallStatesKept() && EffectsKept()
    {
      t := Issue(EditArticleReq(edited));
    }

    /**
     * The response to `editArticle`: success navigates to the returned
     * article; failure passes the field errors as they are to the form-errors
     * store. The state is never changed.
     */
    method SettleEditArticle(t: Ticket, r: Response<Article>)
      requires Valid()
      modifies this
      ensures Valid()
      ensures !old(Current(t) && t.req.EditArticleReq?) ==> unchanged(this)
      ensures old(Current(t) && t.req.EditArticleReq?) && r.Ok? ==>
        navigationLog == old(navigationLog) + [ArticleRoute(r.value.slug)] && formErrorsLog == old(formErrorsLog)
      ensures old(Current(t) && t.req.EditArticleReq?) && r.Err? ==>
        formErrorsLog == old(formErrorsLog) + [FieldMap(r.errors)] && navigationLog == old(navigationLog)
      ensures old(Current(t) && t.req.EditArticleReq?) ==> DomainKept() && CallStatesKept() && Retired(t)
    {
      if !(Current(t) && t.req.EditArticleReq?) {
        return;
      }
      match r {
        case Ok(article) => navigationLog := navigationLog + [ArticleRoute(article.slug)];
        case Err(errors) => formErrorsLog := formErrorsLog + [FieldMap(errors)];
      }
      Retire(t);
    }

    // ---------------------------------------------------------------- initializeArticle

    /**
     * `initializeArticle()`: synchronously patch `articleInitialState`. The
     * call states and the requests in flight are not touched.
     */
    method InitializeArticle()
      requires Valid()
      modifies this
      ensures Valid()
      ensures data == InitialArticle && comments == InitialComments
      ensures CallStatesKept() && EffectsKept()
      ensures generation == old(generation) && inFlight == old(inFlight)
    {
      Patch(InitialStatePatch);
    }
  }
}
