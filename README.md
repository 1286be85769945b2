# Article store model

A Dafny model of the `ArticleStore` of an Angular RealWorld client
(`libs/articles/data-access/src/article.store.ts`): the signal store that
holds the article being viewed (`data`), its `comments`, and the call
state of two tracked lanes, `getArticle` and `getComments`. Each public
method of the store is a command that may patch the state before its
request is issued, and patches the state, calls the form-errors store or
navigates when the request settles. Every command goes through
`switchMap`, so a newer call of the same command disarms the settlement of
the older one.

Files:

- `wrappers.dfy` — `Option`.
- `article_model.dfy` (module `ArticleModel`) — profiles, articles,
  comments, the `articleInitialState` values, request payloads, server
  responses (`Ok(value)` or `Err(errors)`, the failure body's field-error
  map), the two shapes given to `FormErrorsStore.setErrors`, and routes.
- `article_updates.dfy` (module `ArticleUpdates`) — the pure updates:
  replacing only the author, prepending a comment, filtering comments by
  id, with their lemmas.
- `call_state.dfy` (module `CallState`) — the state snapshot, partial
  states and `patchState`, object spread, `setLoading` / `setLoaded`.
- `article_store.dfy` (module `Store`) — `class ArticleStore`. Each command
  `x` is a pair `DispatchX` (what happens when the method is called) and
  `SettleX` (what happens when its response arrives). `switchMap` is a
  generation counter per command and a map from command to the one
  request it is still subscribed to (`inFlight`); `DispatchX` returns a
  `Ticket` (generation plus the request issued, i.e. what the closure
  captured) and `SettleX(t, r)` does anything only while `t` is current.
  Calls to `FormErrorsStore.setErrors` and `router.navigate` are appended
  to `formErrorsLog` and `navigationLog`.
- `scenarios.dfy` (module `Scenarios`) — clients that drive a new store
  through a short command sequence and prove what the view then observes.

Three behaviours of the code are easy to misread; the model follows the
code:

- A failed `getArticle` / `getComments` calls `setLoaded(lane)` with no
  error argument (lines 35 and 52), so the lane becomes `Loaded` and no
  error is recorded; the model has no error-carrying call status.
- A successful `deleteArticle` only navigates to `/` (line 87); it does not
  reset the article. Only a failed one patches `articleInitialState`
  (line 88).
- `patchState(store, articleInitialState)` (lines 88 and 131) resets `data`
  and `comments` only: the call-state fields are added by `withCallState`
  after `withState(articleInitialState)`, so they are not part of that
  object. `initializeArticle` also leaves requests in flight armed.

## Model

| member | source | states |
|---|---|---|
| `ArticleUpdates.WithAuthor` | libs/articles/data-access/src/article.store.ts:62-68 | `{ ...data, author: profile }`: the result has the returned profile as author and agrees with the old article on every other field |
| `ArticleUpdates.AuthorLastWriteWins` | libs/articles/data-access/src/article.store.ts:59-70 | two author replacements (follow then unfollow, or either twice) leave the later profile |
| `ArticleUpdates.Prepend` | libs/articles/data-access/src/article.store.ts:99 | `[comment, ...comments]`: one longer, the new comment first, the old list a subsequence of the result, and the multiset of comments grows by exactly the new one |
| `ArticleUpdates.RemoveComment` | libs/articles/data-access/src/article.store.ts:77 | filtering by id keeps a subsequence of the old list (order kept), holds no comment with the deleted id, keeps every comment whose id differs, and is shorter by exactly the number of comments with that id |
| `ArticleUpdates.RemoveCommentCharacterized` | libs/articles/data-access/src/article.store.ts:77 | those properties determine the result: any list that satisfies them equals the filtered list |
| `ArticleUpdates.RemoveAbsent` | libs/articles/data-access/src/article.store.ts:77 | deleting an id no comment carries leaves the list unchanged |
| `ArticleUpdates.RemoveIdempotent` | libs/articles/data-access/src/article.store.ts:77 | deleting the same comment id twice gives the same list as once |
| `ArticleUpdates.RemoveCommutes` | libs/articles/data-access/src/article.store.ts:71-81 | two deletions applied one after the other give the same list in either order; this holds for sequential calls only, since of two overlapping calls `switchMap` applies only the later one (see `Scenarios.OverlappingDeletes`) |
| `ArticleUpdates.RemoveUndoesPrepend` | libs/articles/data-access/src/article.store.ts:99 | prepending a comment whose id is new (`[comment, ...comments]`) and then filtering that id out (line 77) restores the list |
| `CallState.PatchState` | libs/articles/data-access/src/article.store.ts:28-131 | `patchState`: fields present in the partial state replace the current ones, absent fields and lanes are kept, an empty patch changes nothing |
| `CallState.Spread` | libs/articles/data-access/src/article.store.ts:28-52 | `{ data, ...setLoading(lane) }`: patching with the spread equals patching with each part in turn, later fields winning |
| `CallState.SetLoading` | libs/articles/data-access/src/article.store.ts:28-45 | `setLoading(lane)` makes that lane `Loading` and leaves the other lane, the article and the comments unchanged |
| `CallState.SetLoaded` | libs/articles/data-access/src/article.store.ts:32-52 | `setLoaded(lane)` makes that lane `Loaded` (no error recorded) and leaves the other lane, the article and the comments unchanged |
| `Store.ArticleStore.constructor` | libs/articles/data-access/src/article.store.ts:14-16 | a new store holds `articleInitialState` with both lanes `Init`, nothing in flight, nothing logged |
| `Store.ArticleStore.Patch` | libs/articles/data-access/src/article.store.ts:28-131 | the store's state after a `patchState` call is `PatchState` of its state before; no other field changes |
| `Store.ArticleStore.Issue` | libs/articles/data-access/src/article.store.ts:27 | `switchMap`: only the command's in-flight slot and generation change; the new request becomes that command's only current one, the request it replaces is disarmed, and every other command's slot and generation are exactly as before |
| `Store.ArticleStore.Retire` | libs/articles/data-access/src/article.store.ts:29-38 | a settled request leaves `switchMap`: its command's slot is emptied, no generation changes, and no other request becomes or stops being current |
| `Store.ArticleStore.DispatchGetArticle` | libs/articles/data-access/src/article.store.ts:27-29 | before the request: `data` is the initial article and the `getArticle` lane is `Loading`; comments, the other lane and both logs unchanged; the request is `getArticle(slug)` |
| `Store.ArticleStore.SettleGetArticle` | libs/articles/data-access/src/article.store.ts:30-37 | a current request: success replaces `data` wholesale, failure resets it to the initial article, the lane becomes `Loaded` either way; nothing else changes; a superseded request changes nothing at all |
| `Store.ArticleStore.DispatchGetComments` | libs/articles/data-access/src/article.store.ts:44-46 | before the request: `comments` is empty and the `getComments` lane is `Loading`; `data`, the other lane and both logs unchanged |
| `Store.ArticleStore.SettleGetComments` | libs/articles/data-access/src/article.store.ts:47-54 | a current request: success replaces `comments`, failure empties them, the lane becomes `Loaded`; a superseded request changes nothing |
| `Store.ArticleStore.DispatchFollowUser` | libs/articles/data-access/src/article.store.ts:61 | issues `followUser(username)`; article, comments, lanes and logs unchanged |
| `Store.ArticleStore.SettleFollowUser` | libs/articles/data-access/src/article.store.ts:62 | a current success replaces only `data.author`; comments, lanes and logs unchanged; failure or a superseded request changes no state |
| `Store.ArticleStore.DispatchUnfollowUser` | libs/articles/data-access/src/article.store.ts:67 | issues `unfollowUser(username)` and changes no state |
| `Store.ArticleStore.SettleUnfollowUser` | libs/articles/data-access/src/article.store.ts:68 | as for follow: a current success replaces only `data.author` |
| `Store.ArticleStore.DispatchDeleteComment` | libs/articles/data-access/src/article.store.ts:73-75 | issues `deleteComment(commentId, slug)` and changes no state |
| `Store.ArticleStore.SettleDeleteComment` | libs/articles/data-access/src/article.store.ts:76-78 | a current success filters the comments held at settlement by the dispatched id; failure (no handler) and superseded requests change nothing |
| `Store.ArticleStore.DispatchDeleteArticle` | libs/articles/data-access/src/article.store.ts:84-85 | issues `deleteArticle(slug)` and changes no state |
| `Store.ArticleStore.SettleDeleteArticle` | libs/articles/data-access/src/article.store.ts:86-89 | a current success appends `['/']` to the navigations and keeps the state; failure resets article and comments and logs nothing; lanes are kept |
| `Store.ArticleStore.DispatchAddComment` | libs/articles/data-access/src/article.store.ts:96-97 | the request carries the slug of the article held at dispatch, not one from the argument; no state change |
| `Store.ArticleStore.SettleAddComment` | libs/articles/data-access/src/article.store.ts:98-101 | a current success prepends the returned comment to the comments held at settlement; failure appends the field-error map as is to the form-errors log and keeps the state |
| `Store.ArticleStore.DispatchPublishArticle` | libs/articles/data-access/src/article.store.ts:108-109 | issues `publishArticle(article)` and changes no state |
| `Store.ArticleStore.SettlePublishArticle` | libs/articles/data-access/src/article.store.ts:110-113 | a current success navigates to `['article', slug]` of the returned article; failure logs `{ errors }` (the map wrapped); the state never changes |
| `Store.ArticleStore.DispatchEditArticle` | libs/articles/data-access/src/article.store.ts:120-121 | issues `editArticle(edited)` and changes no state |
| `Store.ArticleStore.SettleEditArticle` | libs/articles/data-access/src/article.store.ts:122-125 | a current success navigates to the returned article; failure logs the field-error map as is; the state never changes |
| `Store.ArticleStore.InitializeArticle` | libs/articles/data-access/src/article.store.ts:130-132 | article and comments become the initial values; lanes, logs and requests in flight are kept |
| `Scenarios.LatestWins` | libs/articles/data-access/src/article.store.ts:25-41 | of two overlapping `getArticle` calls only the second's article is ever held, whether the first response arrives before or after the second's |
| `Scenarios.StaleAfterOtherDispatch` | libs/articles/data-access/src/article.store.ts:25-41 | a superseded `getArticle` response that arrives after the newer one has settled and after another command was dispatched still changes nothing |
| `Scenarios.FetchFailureRollsBack` | libs/articles/data-access/src/article.store.ts:28-36 | a loaded article is reset as soon as another fetch starts and stays reset when that fetch fails; the lane ends `Loaded` |
| `Scenarios.LanesIndependent` | libs/articles/data-access/src/article.store.ts:135-136 | settling `getComments` leaves a pending `getArticle` lane `Loading` |
| `Scenarios.CommentPrepend` | libs/articles/data-access/src/article.store.ts:94-105 | with `[c2, c1]` loaded, adding `c3` gives `[c3, c2, c1]`, and the request carries the loaded article's slug |
| `Scenarios.CommentRemoval` | libs/articles/data-access/src/article.store.ts:71-81 | with `[c3, c2, c1]` loaded and distinct ids, deleting `c2` gives `[c3, c1]` |
| `Scenarios.OverlappingDeletes` | libs/articles/data-access/src/article.store.ts:71-81 | of two overlapping `deleteComment` calls only the later one's removal is applied locally, although both were sent |
| `Scenarios.ValidationRouting` | libs/articles/data-access/src/article.store.ts:100-124 | failed publish, edit and add-comment reach the form-errors store as `{ errors }`, the map, the map, and the state is unchanged |
| `Scenarios.FollowMerge` | libs/articles/data-access/src/article.store.ts:59-64 | a successful follow changes only the author of the loaded article; comments untouched |
| `Scenarios.FollowThenUnfollow` | libs/articles/data-access/src/article.store.ts:59-70 | a follow and an unfollow in flight together both apply, and the profile settled last is the author |
| `Scenarios.NavigationOnSuccess` | libs/articles/data-access/src/article.store.ts:86-123 | successful publish, edit and delete navigate to `['article', slug]`, `['article', slug]`, `['/']` and leave the state as loaded |
| `Scenarios.DeleteArticleFailure` | libs/articles/data-access/src/article.store.ts:82-93 | a failed delete resets article and comments and keeps both lanes `Loaded` |
| `Scenarios.InitializeTwice` | libs/articles/data-access/src/article.store.ts:130-132 | initializing twice in a row gives the same state as once: initial article, no comments |

## Left out

- The HTTP services (`ArticlesService`, `ActionsService`, `ApiService`): a request is the `Request` value a dispatch returns, and its outcome is the `Response` passed to the matching settle.
- `libs/auth/data-access/src/services/auth.service.ts`: it only maps methods to REST paths, with no logic of its own.
- `libs/articles/feature-article-edit/src/article-edit.component.ts`: view code (form building, the effect that fills the form, choosing edit or publish by the slug, joining and splitting tags); it is a caller of the store, not part of it.
- `./models/article.model` is not part of this model; `articleInitialState` is taken to be an empty article (empty strings, no tags, not favorited, count 0, empty author) and no comments.
- Store.ArticleStore.SettleAddComment, Store.ArticleStore.SettlePublishArticle, Store.ArticleStore.SettleEditArticle: a failure is assumed to carry the validation body `{ errors }`; a failure without it (a network error or a 5xx response) is not represented, although the source would then pass `undefined` or `{ errors: undefined }` to the form-errors store, or throw on a null body and end the command's stream.
- The router and `FormErrorsStore` themselves: the model records only the arguments the store passes to them.
- Cancelling the underlying HTTP request on unsubscribe: the model only discards the superseded response, which is all the store's state can observe.
- What RxJS does to an `rxMethod` stream after an unhandled error (`followUser`, `unfollowUser`, `deleteComment` have no error handler): the model treats such a failure as changing nothing and keeps the command usable.
- `rxMethod` fed by a signal or observable instead of a plain value, dependency injection, and signal-driven re-rendering.
- Timestamps are opaque strings; `favoritesCount` is an unbounded `nat`.
