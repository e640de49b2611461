/**
 * The platform behind the client library, replaced by an oracle: which
 * subreddits answer the validation probe, what a search and a "top of the
 * year" listing return or raise, and a log of the calls a scraper made.
 */
module Platform {
  import opened Wrappers
  import opened Models

  /** A submission object as the client library yields it. Its data is
      fixed; the scrapers assign the two comment-fetching hints in place. */
  class Submission {
    const id: string
    const author: Author
    const score: int
    const title: string
    const selftext: string
    const permalink: string
    const numComments: int
    /** Creation time, in whole seconds since the Unix epoch. */
    const createdUtc: int
    /** The flattened comment tree that `comments.list()` yields. */
    const nodes: seq<Node>
    var commentSort: string
    var commentLimit: Option<int>

    constructor (id: string, author: Author, score: int, title: string, selftext: string,
                 permalink: string, numComments: int, createdUtc: int, nodes: seq<Node>)
      ensures this.id == id && this.author == author && this.score == score
      ensures this.title == title && this.selftext == selftext && this.permalink == permalink
      ensures this.numComments == numComments && this.createdUtc == createdUtc && this.nodes == nodes
      ensures commentSort == "confidence" && commentLimit == None
    {
      this.id, this.author, this.score, this.title := id, author, score, title;
      this.selftext, this.permalink, this.numComments := selftext, permalink, numComments;
      this.createdUtc, this.nodes := createdUtc, nodes;
      commentSort, commentLimit := "confidence", None;
    }
  }

  /** What the platform answers. A name outside `readable` makes reading
      `subreddit_type` raise (not found, private, banned, transport failure);
      an error text makes the corresponding query raise a request exception. */
  datatype Client = Client(
    readable: set<string>,
    searchListing: seq<Submission>,
    searchError: Option<string>,
    topListing: seq<Submission>,
    topError: Option<string>)

  /** A request a scraper sent to the platform. */
  datatype Call =
    | ReadType(subreddit: string)
    | Search(subreddit: string, query: string, sort: string, timeFilter: string)
    | Top(subreddit: string, timeFilter: string)

  /** The errors the scrapers raise or let through. */
  datatype Error =
    | ValueError(message: string)
    | RequestException(message: string)
    | AttributeError(message: string)
}
