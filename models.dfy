/**
 * The record shapes the scrapers produce (src/apollo/models.py) and the raw
 * values the platform hands to them.
 */
module Models {

  /** A submission's or comment's author as the platform gives it: a user, or
      None when the account was deleted. */
  datatype Author = User(name: string) | Deleted

  /** One entry of a flattened comment tree: a real comment, or a
      "more comments" placeholder standing for an unfetched continuation. */
  datatype Node = CommentNode(score: int, author: Author, body: string) | MoreNode(count: nat)

  /** A shaped comment. The author type is a parameter: the current scraper
      stores the author's string form, the older one the raw author. */
  datatype Comment<A> = Comment(author: A, score: int, body: string)

  /** A shaped post. */
  datatype Post<A> = Post(
    postId: string,
    author: A,
    score: int,
    title: string,
    body: string,
    url: string,
    numComments: int,
    topComments: seq<Comment<A>>)

  /** Python's str() (or an f-string) applied to an author: the user name,
      or the text "None" for a missing author. */
  function AuthorStr(a: Author): string
  {
    match a
    case User(name) => name
    case Deleted => "None"
  }

  /** The only way to obtain the text "None" is a missing author or a user
      literally called "None": no other sentinel is substituted. */
  lemma AuthorStrNone(a: Author)
    ensures AuthorStr(a) == "None" <==> a == Deleted || a == User("None")
    ensures a.User? ==> AuthorStr(a) == a.name
  {
  }
}
