# Reddit subreddit scraper — a Dafny model

This project models the logic of a small Reddit scraper. The scraper exists in two variants:

- `RedditScraper`, the current one, in `src/apollo/reddit.py`;
- `Scraper`, the older one, in `reddit-subreddit-scraper/reddit.py`.

It also models the output writer, `OutputManager.store_output`, in `src/apollo/output.py`. The same code appears again as `_OutputManager.store_output` in `src/apollo/reddit.py`.

The platform client library is replaced by an oracle, `Platform.Client`. It fixes four things:

- which subreddit names answer the `subreddit_type` probe;
- what a keyword search returns, or the text of the request exception it raises;
- what the "top of the year" listing returns, or the text of the exception it raises;
- for each submission, its flattened comment tree as a sequence of `Node`s. A node is a real comment or a "more comments" placeholder.

The current time is an integer parameter `now`. Submissions are objects (`Platform.Submission`) with fixed data and two mutable hints, `commentSort` and `commentLimit`, which the scrapers assign in place. Each scraper object keeps a log of the requests it sends.

Modules:

- `Models`: the record shapes (`Comment<A>`, `Post<A>`, after `src/apollo/models.py`), authors and comment-tree nodes. The author type `A` is `string` for the current scraper, which applies `str()`. It is the raw `Author` for the older one, which passes the author through.
- `Names`: `name.replace("r/", "")`.
- `Shaping`: the parts both scrapers share:
  - the comment comprehension;
  - one post per submission;
  - the half-year window `created_utc > now - 15720000` (strict);
  - the loop that sets `comment_sort = "confidence"` and the comment-limit hint on each kept submission and collects its post. The limit is a parameter: 10 in the current scraper, 6 in the older one.
- `ApolloScraper`, `LegacyScraper`: the two scraper classes.
- `Output`: format lowercasing, extension and serialiser choice, the path, and the write. The file system is a `FileSystem` object with a map of files and a console log.

Behaviour of the code worth knowing:

- The comment limit is only a hint passed to the platform. The code never truncates a comment list, so no bound on `top_comments` is claimed.
- A missing author becomes the text "None" in the current scraper. In the older one it stays a missing value.
- The plain-text output format is the word "dataclass".
- The docstrings speak of the "last 26 weeks" (src/apollo/reddit.py:200, reddit-subreddit-scraper/reddit.py:134). 26 weeks is 15724800 s, but the literal in the code is 15720000 s, so the code's window is 4800 s shorter. The model uses the literal.
- In the current scraper, only the keyword search maps a request failure to ValueError. A failure of the top listing propagates unchanged.

## Model

| member | source | states |
|---|---|---|
| `Shaping.ShapeComments` | src/apollo/reddit.py:113-117 | at most one record per node; exactly one per node iff every node is a real comment |
| `Shaping.ShapeCommentsAppend` | src/apollo/reddit.py:113-117 | shaping distributes over concatenation, so each node is handled on its own and order is kept |
| `Shaping.ShapeCommentsMembership` | reddit-subreddit-scraper/reddit.py:74-78 | a record is in the output iff some real comment node shapes to it; placeholders contribute nothing |
| `Shaping.ShapeCommentsRerender` | src/apollo/reddit.py:114 | shaping with a composed author renderer equals shaping and then re-rendering each author |
| `LegacyScraper.StringifiedComments` | reddit-subreddit-scraper/reddit.py:75 | the current scraper's comment records are the older one's with each author converted by `str()`, and nothing else differs |
| `Models.AuthorStrNone` | src/apollo/reddit.py:114 | `str(author)` is "None" only for a missing author or a user named "None"; otherwise it is the user name |
| `Shaping.ShapePosts` | src/apollo/reddit.py:178-196 | exactly one post per submission, in listing order, each built from that submission |
| `Shaping.ShapePostFields` | reddit-subreddit-scraper/reddit.py:118-126 | the url is "https://reddit.com" followed by the permalink; id, title, body and comment count come from the submission |
| `Shaping.Survivors` | src/apollo/reddit.py:225-226 | the kept submissions are listing members that pass the window, and there are no more of them than of listing entries |
| `Shaping.SurvivorsMembership` | reddit-subreddit-scraper/reddit.py:154-156 | a submission is kept iff it is listed and `created_utc > now - 15720000` (or the query is a search) |
| `Shaping.SurvivorsAppend` | reddit-subreddit-scraper/reddit.py:153-173 | the filter handles each submission on its own and keeps listing order |
| `Shaping.SurvivorsAllResults` | src/apollo/reddit.py:179 | a keyword search filters nothing |
| `Shaping.SurvivorsBoundary` | src/apollo/reddit.py:226 | a submission created exactly 15720000 s before `now` is dropped, one created a second later is kept |
| `Shaping.CollectPosts` | src/apollo/reddit.py:224-241 | the posts are those of the kept submissions in order; each kept submission gets sort "confidence" and the given limit, every other one is left as it was |
| `Shaping.TopComments` | reddit-subreddit-scraper/reddit.py:192 | one comment list per post, the i-th being post i's `top_comments` |
| `Names.RemoveRSlash` | reddit-subreddit-scraper/reddit.py:65 | removing "r/" never lengthens the name, and shortens it only if "r/" occurs |
| `Names.RemoveRSlashIdentity` | src/apollo/reddit.py:219 | the name is unchanged iff it contains no "r/" |
| `Names.RemoveRSlashSplit` | src/apollo/reddit.py:219 | the leftmost "r/" is deleted, the text before it is kept and the rest is processed again |
| `Names.RemoveRSlashNotIdempotent` | reddit-subreddit-scraper/reddit.py:65 | one pass can leave an "r/": "rr//" becomes "r/" |
| `ApolloScraper.Entries` | src/apollo/reddit.py:194 | each post is appended as a dict iff `output` is exactly "json" (case-sensitive), otherwise as the object, in order |
| `ApolloScraper.TopCommentsOf` | src/apollo/reddit.py:264 | reading `top_comments` succeeds iff no entry is a dict, giving each post's comments in order; otherwise it raises AttributeError |
| `ApolloScraper.JsonEntriesHaveNoTopComments` | src/apollo/reddit.py:263-264 | with the default "json" output, reading the comments gives [] when there are no posts and raises AttributeError when there is one or more |
| `ApolloScraper.RedditScraper.ValidateSubreddit` | src/apollo/reddit.py:130-134 | true iff reading `subreddit_type` raises nothing; exactly one probe is logged, and no error escapes |
| `ApolloScraper.RedditScraper.SearchForKeyword` | src/apollo/reddit.py:167-196 | an invalid name raises ValueError before any search is sent; a request error is re-raised as ValueError; otherwise one entry per result in order, each result configured with "confidence"/10 |
| `ApolloScraper.RedditScraper.PostsFromHalfYear` | src/apollo/reddit.py:216-243 | validates the raw name, queries "top of year" with "r/" removed, keeps exactly the submissions in the window in listing order; a listing error propagates unmapped |
| `ApolloScraper.RedditScraper.CommentsFromHalfYear` | src/apollo/reddit.py:263-265 | ignores `output`; returns [] when no post is in the window and raises AttributeError otherwise; every kept submission is still configured with "confidence"/10 before the error, and nothing is configured on a validation or listing error |
| `ApolloScraper.RedditScraper.CommentsFromHalfYearFixed` | src/apollo/reddit.py:245-265 | corrected: one comment list per post in the window, in order, each the post's shaped comments; every kept submission configured with "confidence"/10 |
| `LegacyScraper.Scraper.constructor` | reddit-subreddit-scraper/reddit.py:54-65 | the subreddit is the given name with every "r/" removed, and no request is sent |
| `LegacyScraper.Scraper.SearchForKeyword` | reddit-subreddit-scraper/reddit.py:80-130 | no validation; the search is sent with sort and time filter unchanged (defaults "hot"/"day"); one post per result in order, each configured with "confidence"/6; a request error propagates |
| `LegacyScraper.Scraper.PostsFromHalfYear` | reddit-subreddit-scraper/reddit.py:132-175 | queries "top of year"; keeps exactly the submissions with `created_utc > now - 15720000`, in listing order, configured with "confidence"/6 |
| `LegacyScraper.Scraper.CommentsFromHalfYear` | reddit-subreddit-scraper/reddit.py:177-192 | as many comment lists as half-year posts, in the same order, the i-th being post i's shaped comments; every kept submission configured with "confidence"/6, none on a listing error |
| `Output.LowerIdempotent` | src/apollo/output.py:29 | the lowercased format has no upper-case letter, and lowering it again changes nothing |
| `Output.LowerEqualsIff` | src/apollo/output.py:29 | the lowercased format equals a lower-case word iff the two agree letter by letter, ignoring case |
| `Output.DispatchIgnoresCase` | src/apollo/output.py:29-39 | path and serialiser depend only on the lowercased format |
| `Output.ExtensionIff` | src/apollo/output.py:30-32 | the extension is "json" iff the format is "json" in any case, which is also when JSON serialisation is chosen; otherwise it is "txt"; the path lies under "output/" |
| `Output.SerializerIff` | src/apollo/output.py:35-39 | the string form is written iff the format is "dataclass" in any case; no serialiser means a "txt" format that is not "dataclass" |
| `Output.StoreOutput` | src/apollo/output.py:29-42 | the file "output/<id8>.<ext>" holds the JSON or string form; for an unknown format a ValueError is raised and the file stays empty; the success line is printed only after a write |

## Left out

- Client construction, the `.env` configuration and the CLI (`src/apollo/config.py`, `src/apollo/cli.py`, `src/apollo/reddit.py:16-44` and `307-392`) are not part of this model. The client is the `Platform.Client` oracle.
- How the platform builds and flattens a comment tree, and what the limit and sort hints do to it, are not modelled. Each submission's node sequence is given as input and does not depend on the hints.
- Listings are lazy in the client library, so a request error can surface while iterating. The model raises it at the point where the query is issued. For `ApolloScraper.RedditScraper.SearchForKeyword`, an error that surfaces during iteration lies outside the `try` (src/apollo/reddit.py:170-176), so it propagates as a request exception rather than a ValueError, and the submissions before it have already been configured. The model does not capture that case.
- `datetime.now` and float timestamps are not modelled: `now` and `created_utc` are whole seconds.
- `uuid.uuid4` is not modelled: the generated identifier is a parameter.
- `json.dump` and `f"{result}"` are not modelled: their output is the given `Payload`. Their failures are not modelled either, including `json.dump` rejecting Post objects when "JSON" is given in upper case.
- A failure of `open` (for example a missing `output/` directory) is not modelled.
- `Output.Lower`: `str.lower` is modelled on ASCII letters only; other characters are left as they are.
- `Output.StoreOutput` raises the error as an `Option` return value rather than as an exception.
- `ApolloScraper.RedditScraper.SearchForKeyword`: posts are wrapped as dict or object after the loop rather than inside it. The result is the same.
- `ApolloScraper.RedditScraper.PostsFromHalfYear`: posts are wrapped as dict or object after the loop rather than inside it. The result is the same.

## Findings

| source | as written | input that shows it | evidently intended | confidence | as-written member | corrected member |
|---|---|---|---|---|---|---|
| src/apollo/reddit.py:263-265 | `comments_from_half_year` calls `posts_from_half_year(subreddit_name)` with its default output "json", so every post comes back as a dict; it then reads `post.top_comments`, an attribute a dict does not have | any readable subreddit with at least one top-of-year submission created after `now - 15720000` | one comment list per half-year post, in post order (the docstring's list of lists) | high, not executed | `ApolloScraper.RedditScraper.CommentsFromHalfYear`, with lemma `ApolloScraper.JsonEntriesHaveNoTopComments` | `ApolloScraper.RedditScraper.CommentsFromHalfYearFixed` |
