/**
 * The pure updates the store applies on settlement: replacing only the
 * author of the article (`{ ...data, author: profile }`), prepending a
 * comment (`[comment, ...comments]`) and removing comments by id
 * (`comments.filter(item => item.id !== commentId)`).
 */
module ArticleUpdates {
  import opened ArticleModel

  /** `a` and `b` agree on every field except possibly `author`. */
  predicate SameExceptAuthor(a: Article, b: Article) {
    && a.slug == b.slug
    && a.title == b.title
    && a.description == b.description
    && a.body == b.body
    && a.tagList == b.tagList
    && a.createdAt == b.createdAt
    && a.updatedAt == b.updatedAt
    && a.favorited == b.favorited
    && a.favoritesCount == b.favoritesCount
  }

  /** The article after a follow or unfollow returned `p`. */
  function WithAuthor(a: Article, p: Profile): (r: Article)
    ensures r.author == p && SameExceptAuthor(r, a)
  {
    a.(author := p)
  }

  /**
   * Two author replacements in a row leave the later profile: of a follow
   * and an unfollow that both settle, the one settling last decides the author.
   */
  lemma AuthorLastWriteWins(a: Article, p: Profile, q: Profile)
    ensures WithAuthor(WithAuthor(a, p), q) == WithAuthor(a, q)
  {
  }

  /**
   * The comment list after `addComment` returned `c`: `c` first, then the old
   * list in its order, with nothing else added or lost.
   */
  function Prepend(c: Comment, cs: seq<Comment>): (r: seq<Comment>)
    ensures |r| == |cs| + 1 && r[0] == c
    ensures IsSubsequence(cs, r)
    ensures multiset(r) == multiset(cs) + multiset{c}
  {
    SubsequenceReflexive(cs);
    assert ([c] + cs)[1..] == cs;
    [c] + cs
  }

  /** How many comments of `cs` carry id `id`. */
  function CountWithId(cs: seq<Comment>, id: int): (n: nat)
    ensures n <= |cs|
  {
    if cs == [] then 0
    else (if cs[0].id == id then 1 else 0) + CountWithId(cs[1..], id)
  }

  /** `r` is obtained from `s` by deleting elements, keeping the order of the rest. */
  predicate IsSubsequence(r: seq<Comment>, s: seq<Comment>) {
    if r == [] then true
    else if s == [] then false
    else (r[0] == s[0] && IsSubsequence(r[1..], s[1..])) || IsSubsequence(r, s[1..])
  }

  /** Every list is a subsequence of itself. */
  lemma {:induction false} SubsequenceReflexive(s: seq<Comment>)
    ensures IsSubsequence(s, s)
  {
    if s != [] {
      SubsequenceReflexive(s[1..]);
    }
  }

  /** No comment of `cs` has id `id`. */
  predicate NoneWithId(cs: seq<Comment>, id: int) {
    forall i :: 0 <= i < |cs| ==> cs[i].id != id
  }

  /**
   * The comment list after `deleteComment(id, _)` succeeded: exactly the
   * comments whose id differs from `id`, in their original order.
   */
  function RemoveComment(cs: seq<Comment>, id: int): (r: seq<Comment>)
    ensures IsSubsequence(r, cs)
    ensures NoneWithId(r, id)
    ensures forall c :: c in cs && c.id != id ==> c in r
    ensures |r| == |cs| - CountWithId(cs, id)
  {
    if cs == [] then []
    else if cs[0].id == id then RemoveComment(cs[1..], id)
    else [cs[0]] + RemoveComment(cs[1..], id)
  }

  /** A subsequence of `s` avoiding `id` is no longer than the comments of `s` that avoid `id`. */
  lemma {:induction false} SubsequenceAvoidingBound(r: seq<Comment>, s: seq<Comment>, id: int)
    requires IsSubsequence(r, s) && NoneWithId(r, id)
    ensures |r| <= |s| - CountWithId(s, id)
  {
    if r == [] {
    } else if r[0] == s[0] && IsSubsequence(r[1..], s[1..]) {
      SubsequenceAvoidingBound(r[1..], s[1..], id);
    } else {
      SubsequenceAvoidingBound(r, s[1..], id);
    }
  }

  /**
   * The postcondition of RemoveComment determines its result: any list that
   * is a subsequence of `cs`, holds no comment with id `id`, and is as long
   * as the comments of `cs` that avoid `id`, is RemoveComment(cs, id).
   */
  lemma {:induction false} RemoveCommentCharacterized(cs: seq<Comment>, id: int, r: seq<Comment>)
    requires IsSubsequence(r, cs) && NoneWithId(r, id)
    requires |r| == |cs| - CountWithId(cs, id)
    ensures r == RemoveComment(cs, id)
  {
    if cs == [] {
    } else if cs[0].id == id {
      assert r != [] ==> r[0] != cs[0];
      RemoveCommentCharacterized(cs[1..], id, r);
    } else if r != [] && r[0] == cs[0] && IsSubsequence(r[1..], cs[1..]) {
      RemoveCommentCharacterized(cs[1..], id, r[1..]);
      assert r == [cs[0]] + r[1..];
    } else {
      if r != [] {
        SubsequenceAvoidingBound(r, cs[1..], id);
      }
      assert false;
    }
  }

  /** Removing an id no comment carries changes nothing. */
  lemma {:induction false} RemoveAbsent(cs: seq<Comment>, id: int)
    requires NoneWithId(cs, id)
    ensures RemoveComment(cs, id) == cs
  {
    if cs != [] {
      RemoveAbsent(cs[1..], id);
      assert cs == [cs[0]] + cs[1..];
    }
  }

  /** Deleting the same comment twice leaves the list as deleting it once. */
  lemma {:induction false} RemoveIdempotent(cs: seq<Comment>, id: int)
    ensures RemoveComment(RemoveComment(cs, id), id) == RemoveComment(cs, id)
  {
    RemoveAbsent(RemoveComment(cs, id), id);
  }

  /** Deleting a freshly added comment restores the list it was added to. */
  lemma {:induction false} RemoveUndoesPrepend(c: Comment, cs: seq<Comment>)
    requires NoneWithId(cs, c.id)
    ensures RemoveComment(Prepend(c, cs), c.id) == cs
  {
    assert Prepend(c, cs)[1..] == cs;
    RemoveAbsent(cs, c.id);
  }

  /** Two deletions settle to the same list in either order. */
  lemma {:induction false} RemoveCommutes(cs: seq<Comment>, a: int, b: int)
    ensures RemoveComment(RemoveComment(cs, a), b) == RemoveComment(RemoveComment(cs, b), a)
  {
    if cs != [] {
      RemoveCommutes(cs[1..], a, b);
      var c := cs[0];
      if c.id != a && c.id != b {
        assert ([c] + RemoveComment(cs[1..], a))[1..] == RemoveComment(cs[1..], a);
        assert ([c] + RemoveComment(cs[1..], b))[1..] == RemoveComment(cs[1..], b);
      } else if c.id != a {
        assert ([c] + RemoveComment(cs[1..], a))[1..] == RemoveComment(cs[1..], a);
      } else if c.id != b {
        assert ([c] + RemoveComment(cs[1..], b))[1..] == RemoveComment(cs[1..], b);
      }
    }
  }
}
