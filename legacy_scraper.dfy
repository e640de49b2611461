/**
 * The older scraper, `Scraper` in reddit-subreddit-scraper/reddit.py: bound
 * to one subreddit at construction, no validation probe, no error mapping,
 * authors passed through as the platform gives them, 6 comments asked for.
 */
module LegacyScraper {
  import opened Wrappers
  import opened Models
  import opened Platform
  import opened Names
  import opened Shaping

  /** The comment-limit hint this scraper writes on every kept submission. */
  const CommentLimit: int := 6

  /** The author exactly as the platform gives it, not converted to text. */
  function AsGiven(a: Author): Author
  {
    a
  }

  class Scraper {
    /** The platform the client talks to (configuration loading is not modelled). */
    const client: Client
    /** The subreddit every query goes to. */
    const subreddit: string
    /** Every request sent to the platform so far, oldest first. */
    var calls: seq<Call>

    /** Resolving a subreddit is lazy: construction sends no request. */
    constructor (client: Client, subredditName: string)
      ensures this.client == client && subreddit == RemoveRSlash(subredditName) && calls == []
    {
      this.client := client;
      subreddit := RemoveRSlash(subredditName);
      calls := [];
    }

    /** Keyword search with the sort and time filter passed through
        unchanged; one post per result, in result order. A request failure
        propagates as it is. */
    method SearchForKeyword(query: string, sorting: string := "hot", interval: string := "day")
      returns (r: Result<seq<Post<Author>>, Error>)
      modifies this, client.searchListing
      ensures calls == old(calls) + [Search(subreddit, query, sorting, interval)]
      ensures client.searchError.Some? ==> r == Failure(RequestException(client.searchError.value))
      ensures client.searchError.None? ==> r == Success(ShapePosts(client.searchListing, AsGiven))
      ensures forall s :: s in client.searchListing ==>
                if r.Success? then Configured(s, AllResults, CommentLimit) else unchanged(s)
    {
      calls := calls + [Search(subreddit, query, sorting, interval)];
      if client.searchError.Some? {
        return Failure(RequestException(client.searchError.value));
      }
      var posts := CollectPosts(client.searchListing, AllResults, CommentLimit, AsGiven);
      SurvivorsAllResults(client.searchListing);
      r := Success(posts);
    }

    /** Top posts of the year narrowed to the half-year window before `now`. */
    method PostsFromHalfYear(now: int) returns (r: Result<seq<Post<Author>>, Error>)
      modifies this, client.topListing
      ensures calls == old(calls) + [Top(subreddit, "year")]
      ensures client.topError.Some? ==> r == Failure(RequestException(client.topError.value))
      ensures client.topError.None? ==>
                r == Success(ShapePosts(Survivors(client.topListing, HalfYearBefore(now)), AsGiven))
      ensures forall s :: s in client.topListing ==>
                if r.Success? then Configured(s, HalfYearBefore(now), CommentLimit) else unchanged(s)
    {
      calls := calls + [Top(subreddit, "year")];
      if client.topError.Some? {
        return Failure(RequestException(client.topError.value));
      }
      var posts := CollectPosts(client.topListing, HalfYearBefore(now), CommentLimit, AsGiven);
      r := Success(posts);
    }

    /** The comment lists of the half-year posts: as many as there are
        posts, in post order. */
    method CommentsFromHalfYear(now: int) returns (r: Result<seq<seq<Comment<Author>>>, Error>)
      modifies this, client.topListing
      ensures calls == old(calls) + [Top(subreddit, "year")]
      ensures client.topError.Some? ==> r == Failure(RequestException(client.topError.value))
      ensures client.topError.None? ==>
                var kept := Survivors(client.topListing, HalfYearBefore(now));
                r.Success? && |r.value| == |kept| &&
                forall i :: 0 <= i < |kept| ==> r.value[i] == ShapeComments(kept[i].nodes, AsGiven)
      ensures forall s :: s in client.topListing ==>
                if client.topError.None? then Configured(s, HalfYearBefore(now), CommentLimit) else unchanged(s)
    {
      var posts := PostsFromHalfYear(now);
      if posts.Failure? {
        return Failure(posts.error);
      }
      r := Success(TopComments(posts.value));
    }
  }

  /** The current scraper's comment records are this scraper's, with each
      author converted to text: the variants differ in nothing else. */
  lemma {:induction false} StringifiedComments(nodes: seq<Node>)
    ensures ShapeComments(nodes, AuthorStr) ==
            seq(|ShapeComments(nodes, AsGiven)|, i requires 0 <= i < |ShapeComments(nodes, AsGiven)| =>
              var c := ShapeComments(nodes, AsGiven)[i]; Comment(AuthorStr(c.author), c.score, c.body))
  {
    ShapeCommentsRerender(nodes, AsGiven, AuthorStr, AuthorStr);
  }
}
