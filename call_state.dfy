/**
 * The store's observable state and the one primitive that changes it,
 * `patchState`: a partial state object whose present fields replace the
 * current ones. The two call-state lanes added by `withCallState` live in
 * the same state, and `setLoading` / `setLoaded` are partial states that
 * touch only their own lane.
 */
module CallState {
  import opened Wrappers
  import opened ArticleModel

  /** The status `withCallState` keeps for one lane. */
  datatype CallStatus = Init | Loading | Loaded

  /** The two tracked lanes: `withCallState({ collection: 'getArticle' })` and `'getComments'`. */
  datatype Lane = GetArticleLane | GetCommentsLane

  /** The store's state: `ArticleState` plus the two call-state fields. */
  datatype State = State(
    data: Article,
    comments: seq<Comment>,
    getArticleCallState: CallStatus,
    getCommentsCallState: CallStatus)

  /** The state the store is created in: `articleInitialState`, both lanes `Init`. */
  const InitialState: State := State(InitialArticle, InitialComments, Init, Init)

  /** A partial state object as passed to `patchState`; `None` marks an absent field. */
  datatype Patch = Patch(
    data: Option<Article>,
    comments: Option<seq<Comment>>,
    getArticleCallState: Option<CallStatus>,
    getCommentsCallState: Option<CallStatus>)

  const EmptyPatch: Patch := Patch(None, None, None, None)

  /**
   * `patchState(store, p)`: present fields of `p` replace those of `s`,
   * absent ones are kept, so an empty patch changes nothing.
   */
  function PatchState(s: State, p: Patch): (r: State)
    ensures p.data.Some? ==> r.data == p.data.value
    ensures p.data.None? ==> r.data == s.data
    ensures p.comments.Some? ==> r.comments == p.comments.value
    ensures p.comments.None? ==> r.comments == s.comments
    ensures forall lane :: Status(r, lane) == (if Part(p, lane).Some? then Part(p, lane).value else Status(s, lane))
    ensures p == EmptyPatch ==> r == s
  {
    State(
      if p.data.Some? then p.data.value else s.data,
      if p.comments.Some? then p.comments.value else s.comments,
      if p.getArticleCallState.Some? then p.getArticleCallState.value else s.getArticleCallState,
      if p.getCommentsCallState.Some? then p.getCommentsCallState.value else s.getCommentsCallState)
  }

  /**
   * Object spread `{ ...p, ...q }`: fields present in `q` win, so patching
   * with the spread is patching with `p` and then with `q`.
   */
  function Spread(p: Patch, q: Patch): (r: Patch)
    ensures forall s :: PatchState(s, r) == PatchState(PatchState(s, p), q)
  {
    Patch(
      if q.data.Some? then q.data else p.data,
      if q.comments.Some? then q.comments else p.comments,
      if q.getArticleCallState.Some? then q.getArticleCallState else p.getArticleCallState,
      if q.getCommentsCallState.Some? then q.getCommentsCallState else p.getCommentsCallState)
  }

  function StatusPatch(lane: Lane, status: CallStatus): Patch {
    match lane
    case GetArticleLane => EmptyPatch.(getArticleCallState := Some(status))
    case GetCommentsLane => EmptyPatch.(getCommentsCallState := Some(status))
  }

  /** The status a patch sets for `lane`, if any. */
  function Part(p: Patch, lane: Lane): Option<CallStatus> {
    match lane
    case GetArticleLane => p.getArticleCallState
    case GetCommentsLane => p.getCommentsCallState
  }

  /**
   * `setLoading(lane)`: patching with it makes `lane` `Loading` and leaves the
   * other lane, the article and the comments as they were.
   */
  function SetLoading(lane: Lane): (p: Patch)
    ensures forall s :: Status(PatchState(s, p), lane) == Loading
    ensures forall s, other :: other != lane ==> Status(PatchState(s, p), other) == Status(s, other)
    ensures forall s :: PatchState(s, p).data == s.data && PatchState(s, p).comments == s.comments
  {
    StatusPatch(lane, Loading)
  }

  /**
   * `setLoaded(lane)`, called without an error argument everywhere in the
   * store: patching with it makes `lane` `Loaded` and leaves the other lane,
   * the article and the comments as they were.
   */
  function SetLoaded(lane: Lane): (p: Patch)
    ensures forall s :: Status(PatchState(s, p), lane) == Loaded
    ensures forall s, other :: other != lane ==> Status(PatchState(s, p), other) == Status(s, other)
    ensures forall s :: PatchState(s, p).data == s.data && PatchState(s, p).comments == s.comments
  {
    StatusPatch(lane, Loaded)
  }

  function DataPatch(a: Article): Patch {
    EmptyPatch.(data := Some(a))
  }

  function CommentsPatch(cs: seq<Comment>): Patch {
    EmptyPatch.(comments := Some(cs))
  }

  /** `articleInitialState` used as a patch: it resets `data` and `comments` only. */
  const InitialStatePatch: Patch := Patch(Some(InitialArticle), Some(InitialComments), None, None)

  /** The status of `lane` in `s`. */
  function Status(s: State, lane: Lane): CallStatus {
    match lane
    case GetArticleLane => s.getArticleCallState
    case GetCommentsLane => s.getCommentsCallState
  }
}
