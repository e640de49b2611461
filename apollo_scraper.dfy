/**
 * The current scraper, `RedditScraper` in src/apollo/reddit.py: it probes
 * the subreddit before querying, maps request failures of a search to
 * ValueError, stores authors as strings and asks for 10 comments.
 */
module ApolloScraper {
  import opened Wrappers
  import opened Models
  import opened Platform
  import opened Names
  import opened Shaping

  /** The comment-limit hint this scraper writes on every kept submission. */
  const CommentLimit: int := 10

  /** The message of the AttributeError raised by `post.top_comments` on a dict. */
  const NoTopComments: string := "'dict' object has no attribute 'top_comments'"

  /** A collected post as the scraper appends it: the attribute dictionary of
      the Post object (`post.__dict__`), or the Post object itself. */
  datatype Entry = AsDict(post: Post<string>) | AsObject(post: Post<string>)

  /** The form a post is appended in: a dict exactly when `output` is the
      text "json", compared case-sensitively. */
  function Entries(posts: seq<Post<string>>, output: string): (r: seq<Entry>)
    ensures |r| == |posts|
    ensures forall i :: 0 <= i < |posts| ==> r[i].post == posts[i] && (r[i].AsDict? <==> output == "json")
  {
    seq(|posts|, i requires 0 <= i < |posts| => if output == "json" then AsDict(posts[i]) else AsObject(posts[i]))
  }

  /** The posts held by a list of entries, whatever their form. */
  function EntryPosts(entries: seq<Entry>): (r: seq<Post<string>>)
    ensures |r| == |entries|
    ensures forall i :: 0 <= i < |entries| ==> r[i] == entries[i].post
  {
    seq(|entries|, i requires 0 <= i < |entries| => entries[i].post)
  }

  /** `[post.top_comments for post in entries]` as written: attribute access,
      which succeeds on Post objects and raises on the first dict. */
  function TopCommentsOf(entries: seq<Entry>): (r: Result<seq<seq<Comment<string>>>, Error>)
    ensures r.Success? <==> forall i :: 0 <= i < |entries| ==> entries[i].AsObject?
    ensures r.Success? ==> r.value == TopComments(EntryPosts(entries))
    ensures r.Failure? ==> r.error == AttributeError(NoTopComments)
  {
    if entries == [] then Success([])
    else if entries[0].AsDict? then Failure(AttributeError(NoTopComments))
    else
      var rest := TopCommentsOf(entries[1..]);
      assert forall i :: 1 <= i < |entries| ==> entries[i] == entries[1..][i - 1];
      if rest.Failure? then rest
      else
        assert EntryPosts(entries) == [entries[0].post] + EntryPosts(entries[1..]);
        Success([entries[0].post.topComments] + rest.value)
  }

  /** With the default "json" output every entry is a dict, so reading the
      comments fails as soon as there is one post. */
  lemma JsonEntriesHaveNoTopComments(posts: seq<Post<string>>)
    ensures TopCommentsOf(Entries(posts, "json")) ==
            if posts == [] then Success([]) else Failure(AttributeError(NoTopComments))
  {
  }

  class RedditScraper {
    /** The platform the injected client talks to. */
    const client: Client
    /** Every request sent to the platform so far, oldest first. */
    var calls: seq<Call>

    constructor (client: Client)
      ensures this.client == client && calls == []
    {
      this.client := client;
      calls := [];
    }

    /** Reads the subreddit's type; any exception becomes false and is never
        passed on. */
    method ValidateSubreddit(name: string) returns (ok: bool)
      modifies this`calls
      ensures ok <==> name in client.readable
      ensures calls == old(calls) + [ReadType(name)]
    {
      calls := calls + [ReadType(name)];
      ok := name in client.readable;
    }

    /** Keyword search: validate, search with the given sort and time filter,
        then one post per result, in result order. */
    method SearchForKeyword(name: string, query: string, sorting: string := "hot",
                            interval: string := "day", output: string := "json")
      returns (r: Result<seq<Entry>, Error>)
      modifies this, client.searchListing
      ensures name !in client.readable ==>
                r == Failure(ValueError("Invalid subreddit: " + name)) && calls == old(calls) + [ReadType(name)]
      ensures name in client.readable ==>
                calls == old(calls) + [ReadType(name), Search(name, query, sorting, interval)]
      ensures name in client.readable && client.searchError.Some? ==>
                r == Failure(ValueError("An error occurred: " + client.searchError.value))
      ensures name in client.readable && client.searchError.None? ==>
                r == Success(Entries(ShapePosts(client.searchListing, AuthorStr), output))
      ensures forall s :: s in client.searchListing ==>
                if r.Success? then Configured(s, AllResults, CommentLimit) else unchanged(s)
    {
      var ok := ValidateSubreddit(name);
      if !ok {
        return Failure(ValueError("Invalid subreddit: " + name));
      }
      calls := calls + [Search(name, query, sorting, interval)];
      if client.searchError.Some? {
        return Failure(ValueError("An error occurred: " + client.searchError.value));
      }
      var posts := CollectPosts(client.searchListing, AllResults, CommentLimit, AuthorStr);
      SurvivorsAllResults(client.searchListing);
      r := Success(Entries(posts, output));
    }

    /** Top posts of the year narrowed to the half-year window before `now`:
        the raw name is validated, the query uses it with "r/" removed. */
    method PostsFromHalfYear(name: string, now: int, output: string := "json")
      returns (r: Result<seq<Entry>, Error>)
      modifies this, client.topListing
      ensures name !in client.readable ==>
                r == Failure(ValueError("Invalid subreddit: " + name)) && calls == old(calls) + [ReadType(name)]
      ensures name in client.readable ==>
                calls == old(calls) + [ReadType(name), Top(RemoveRSlash(name), "year")]
      ensures name in client.readable && client.topError.Some? ==>
                r == Failure(RequestException(client.topError.value))
      ensures name in client.readable && client.topError.None? ==>
                r == Success(Entries(ShapePosts(Survivors(client.topListing, HalfYearBefore(now)), AuthorStr), output))
      ensures forall s :: s in client.topListing ==>
                if r.Success? then Configured(s, HalfYearBefore(now), CommentLimit) else unchanged(s)
    {
      var ok := ValidateSubreddit(name);
      if !ok {
        return Failure(ValueError("Invalid subreddit: " + name));
      }
      calls := calls + [Top(RemoveRSlash(name), "year")];
      if client.topError.Some? {
        return Failure(RequestException(client.topError.value));
      }
      var posts := CollectPosts(client.topListing, HalfYearBefore(now), CommentLimit, AuthorStr);
      r := Success(Entries(posts, output));
    }

    /** Top comments of the half-year posts, as written: `output` is ignored,
        the posts come back as dicts, and reading their comments raises as
        soon as one post is in the window. */
    method CommentsFromHalfYear(name: string, output: string, now: int)
      returns (r: Result<seq<seq<Comment<string>>>, Error>)
      modifies this, client.topListing
      ensures name !in client.readable ==>
                r == Failure(ValueError("Invalid subreddit: " + name)) && calls == old(calls) + [ReadType(name)]
      ensures name in client.readable ==>
                calls == old(calls) + [ReadType(name), Top(RemoveRSlash(name), "year")]
      ensures name in client.readable && client.topError.Some? ==>
                r == Failure(RequestException(client.topError.value))
      ensures name in client.readable && client.topError.None? ==>
                r == if Survivors(client.topListing, HalfYearBefore(now)) == [] then Success([])
                     else Failure(AttributeError(NoTopComments))
      ensures forall s :: s in client.topListing ==>
                if name in client.readable && client.topError.None?
                then Configured(s, HalfYearBefore(now), CommentLimit) else unchanged(s)
    {
      var posts := PostsFromHalfYear(name, now);
      if posts.Failure? {
        return Failure(posts.error);
      }
      if name in client.readable && client.topError.None? {
        JsonEntriesHaveNoTopComments(ShapePosts(Survivors(client.topListing, HalfYearBefore(now)), AuthorStr));
      }
      r := TopCommentsOf(posts.value);
    }

    /** Top comments of the half-year posts as evidently intended: each kept
        post's comment list, in post order. */
    method CommentsFromHalfYearFixed(name: string, now: int)
      returns (r: Result<seq<seq<Comment<string>>>, Error>)
      modifies this, client.topListing
      ensures name !in client.readable ==>
                r == Failure(ValueError("Invalid subreddit: " + name)) && calls == old(calls) + [ReadType(name)]
      ensures name in client.readable ==>
                calls == old(calls) + [ReadType(name), Top(RemoveRSlash(name), "year")]
      ensures name in client.readable && client.topError.Some? ==>
                r == Failure(RequestException(client.topError.value))
      ensures name in client.readable && client.topError.None? ==>
                var kept := Survivors(client.topListing, HalfYearBefore(now));
                r.Success? && |r.value| == |kept| &&
                forall i :: 0 <= i < |kept| ==> r.value[i] == ShapeComments(kept[i].nodes, AuthorStr)
      ensures forall s :: s in client.topListing ==>
                if name in client.readable && client.topError.None?
                then Configured(s, HalfYearBefore(now), CommentLimit) else unchanged(s)
    {
      var posts := PostsFromHalfYear(name, now);
      if posts.Failure? {
        return Failure(posts.error);
      }
      r := Success(TopComments(EntryPosts(posts.value)));
    }
  }
}
