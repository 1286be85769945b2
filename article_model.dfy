/**
 * The entities the article store holds and exchanges with the server:
 * articles, comments, author profiles, the payloads of the write
 * commands, server responses and the arguments passed to the form-errors
 * store and to the router.
 */
module ArticleModel {

  /** An author's public profile, as the server returns it. */
  datatype Profile = Profile(username: string, bio: string, image: string, following: bool)

  /** The article aggregate. Timestamps are opaque strings the store never inspects. */
  datatype Article = Article(
    slug: string,
    title: string,
    description: string,
    body: string,
    tagList: seq<string>,
    createdAt: string,
    updatedAt: string,
    favorited: bool,
    favoritesCount: nat,
    author: Profile)

  /** A comment; `id` is assigned by the server and identifies the comment. */
  datatype Comment = Comment(id: int, body: string, createdAt: string, author: Profile)

  const EmptyProfile: Profile := Profile("", "", "", false)

  /** The "no article loaded" sentinel: `articleInitialState.data`. */
  const InitialArticle: Article := Article("", "", "", "", [], "", "", false, 0, EmptyProfile)

  /** `articleInitialState.comments`. */
  const InitialComments: seq<Comment> := []

  /** The payload of `publishArticle`: `{ article: { title, description, body, tagList } }`. */
  datatype NewArticle = NewArticle(title: string, description: string, body: string, tagList: seq<string>)

  /** The payload the edit form passes to `editArticle`: the edited fields and the article's slug. */
  datatype EditedArticle = EditedArticle(editArticle: NewArticle, slug: string)

  /** The server's validation failure body, `error.errors`: field name to messages. */
  type FieldErrors = map<string, seq<string>>

  /**
   * The argument given to `FormErrorsStore.setErrors`. `addComment` and
   * `editArticle` pass the field map itself; `publishArticle` wraps it in an
   * object `{ errors: ... }`.
   */
  datatype FormErrors = FieldMap(fields: FieldErrors) | ErrorsObject(errors: FieldErrors)

  /** A settled request: the success payload, or the failure body's field errors. */
  datatype Response<T> = Ok(value: T) | Err(errors: FieldErrors)

  /** A navigation target, as the segment array given to `router.navigate`. */
  type Route = seq<string>

  const HomeRoute: Route := ["/"]

  function ArticleRoute(slug: string): Route {
    ["article", slug]
  }
}
