/**
 * Turning what the platform returns into records, shared by both scrapers:
 * comment filtering (`fetch_comments` / `__fetch_comments`), one post per
 * submission, the half-year window, and the loop that configures each kept
 * submission and collects its post.
 */
module Shaping {
  import opened Wrappers
  import opened Models
  import opened Platform

  /** The half-year window, in seconds, exactly as the scrapers write it. */
  const HalfYearSeconds: int := 15720000

  /** Every post's link is this prefix followed by the submission's permalink. */
  const RedditUrl: string := "https://reddit.com"

  /** The comment-ordering hint every scraper assigns before reading comments. */
  const ConfidenceSort: string := "confidence"

  /** The record one real comment node becomes. */
  function ShapeComment<A>(n: Node, render: Author -> A): Comment<A>
    requires n.CommentNode?
  {
    Comment(render(n.author), n.score, n.body)
  }

  /** The list comprehension over a flattened comment tree: real comments
      are kept in order and shaped, placeholders are dropped. No limit is
      applied here; the comment limit is only a hint to the platform. */
  function ShapeComments<A>(nodes: seq<Node>, render: Author -> A): (r: seq<Comment<A>>)
    ensures |r| <= |nodes|
    ensures |r| == |nodes| <==> forall i :: 0 <= i < |nodes| ==> nodes[i].CommentNode?
  {
    if nodes == [] then []
    else
      var rest := ShapeComments(nodes[1..], render);
      assert forall i :: 1 <= i < |nodes| ==> nodes[i] == nodes[1..][i - 1];
      if nodes[0].CommentNode? then [ShapeComment(nodes[0], render)] + rest else rest
  }

  /** Shaping distributes over concatenation: each node is handled on its
      own and the output keeps the input's order. */
  lemma {:induction false} ShapeCommentsAppend<A>(xs: seq<Node>, ys: seq<Node>, render: Author -> A)
    ensures ShapeComments(xs + ys, render) == ShapeComments(xs, render) + ShapeComments(ys, render)
  {
    if xs != [] {
      assert (xs + ys)[1..] == xs[1..] + ys;
      ShapeCommentsAppend(xs[1..], ys, render);
    } else {
      assert xs + ys == ys;
    }
  }

  /** A comment appears in the output iff some real comment node shapes to it. */
  lemma {:induction false} ShapeCommentsMembership<A>(nodes: seq<Node>, render: Author -> A, c: Comment<A>)
    ensures c in ShapeComments(nodes, render) <==>
            exists i :: 0 <= i < |nodes| && nodes[i].CommentNode? && ShapeComment(nodes[i], render) == c
  {
    if nodes != [] {
      ShapeCommentsMembership(nodes[1..], render, c);
      if exists i :: 0 <= i < |nodes| && nodes[i].CommentNode? && ShapeComment(nodes[i], render) == c {
        var i :| 0 <= i < |nodes| && nodes[i].CommentNode? && ShapeComment(nodes[i], render) == c;
        if i > 0 {
          assert nodes[1..][i - 1] == nodes[i];
        }
      }
      if exists i :: 0 <= i < |nodes[1..]| && nodes[1..][i].CommentNode? && ShapeComment(nodes[1..][i], render) == c {
        var i :| 0 <= i < |nodes[1..]| && nodes[1..][i].CommentNode? && ShapeComment(nodes[1..][i], render) == c;
        assert nodes[i + 1] == nodes[1..][i];
      }
    }
  }

  /** The two scrapers' comment lists differ only in how the author is
      rendered: shaping with a composed renderer is shaping, then
      re-rendering each author. */
  lemma {:induction false} ShapeCommentsRerender<A, B>(nodes: seq<Node>, f: Author -> A, g: A -> B, h: Author -> B)
    requires forall a :: h(a) == g(f(a))
    ensures ShapeComments(nodes, h) ==
            seq(|ShapeComments(nodes, f)|, i requires 0 <= i < |ShapeComments(nodes, f)| =>
              var c := ShapeComments(nodes, f)[i]; Comment(g(c.author), c.score, c.body))
  {
    if nodes != [] {
      ShapeCommentsRerender(nodes[1..], f, g, h);
    }
  }

  /** The record one submission becomes. */
  function ShapePost<A>(s: Submission, render: Author -> A): Post<A>
  {
    Post(s.id, render(s.author), s.score, s.title, s.selftext, RedditUrl + s.permalink,
         s.numComments, ShapeComments(s.nodes, render))
  }

  /** One post per submission, in listing order. */
  function ShapePosts<A>(subs: seq<Submission>, render: Author -> A): (r: seq<Post<A>>)
    ensures |r| == |subs|
    ensures forall i :: 0 <= i < |subs| ==> r[i] == ShapePost(subs[i], render)
  {
    seq(|subs|, i requires 0 <= i < |subs| => ShapePost(subs[i], render))
  }

  /** Every shaped post links to the submission's permalink under the
      platform's address and carries that submission's data. */
  lemma ShapePostFields<A>(s: Submission, render: Author -> A)
    ensures ShapePost(s, render).url[..|RedditUrl|] == RedditUrl
    ensures ShapePost(s, render).url[|RedditUrl|..] == s.permalink
    ensures ShapePost(s, render).postId == s.id && ShapePost(s, render).title == s.title
    ensures ShapePost(s, render).body == s.selftext && ShapePost(s, render).numComments == s.numComments
  {
  }

  /** Which submissions a query keeps: a keyword search keeps them all, the
      half-year listing only those created after `now - HalfYearSeconds`. */
  datatype Window = AllResults | HalfYearBefore(now: int)

  predicate Keeps(w: Window, s: Submission)
  {
    match w
    case AllResults => true
    case HalfYearBefore(now) => s.createdUtc > now - HalfYearSeconds
  }

  /** The submissions of a listing that the window keeps, in listing order. */
  function Survivors(listing: seq<Submission>, w: Window): (r: seq<Submission>)
    ensures |r| <= |listing|
    ensures forall s :: s in r ==> s in listing && Keeps(w, s)
  {
    if listing == [] then []
    else
      var rest := Survivors(listing[1..], w);
      if Keeps(w, listing[0]) then [listing[0]] + rest else rest
  }

  /** The filter drops nothing it should keep: membership in the result is
      exactly membership in the listing plus the window's test. */
  lemma {:induction false} SurvivorsMembership(listing: seq<Submission>, w: Window, s: Submission)
    ensures s in Survivors(listing, w) <==> s in listing && Keeps(w, s)
  {
    if listing != [] {
      SurvivorsMembership(listing[1..], w, s);
      assert listing == [listing[0]] + listing[1..];
    }
  }

  /** The filter handles each submission on its own, keeping listing order. */
  lemma {:induction false} SurvivorsAppend(xs: seq<Submission>, ys: seq<Submission>, w: Window)
    ensures Survivors(xs + ys, w) == Survivors(xs, w) + Survivors(ys, w)
  {
    if xs != [] {
      assert (xs + ys)[1..] == xs[1..] + ys;
      SurvivorsAppend(xs[1..], ys, w);
    } else {
      assert xs + ys == ys;
    }
  }

  /** A keyword search filters nothing. */
  lemma {:induction false} SurvivorsAllResults(listing: seq<Submission>)
    ensures Survivors(listing, AllResults) == listing
  {
    if listing != [] {
      SurvivorsAllResults(listing[1..]);
      assert listing == [listing[0]] + listing[1..];
    }
  }

  /** The window's boundary is strict: a single submission created exactly
      `HalfYearSeconds` before `now` is dropped, one a second later is kept. */
  lemma SurvivorsBoundary(s: Submission, now: int)
    ensures s.createdUtc == now - HalfYearSeconds ==> Survivors([s], HalfYearBefore(now)) == []
    ensures s.createdUtc == now - HalfYearSeconds + 1 ==> Survivors([s], HalfYearBefore(now)) == [s]
  {
  }

  /** `[post.top_comments for post in posts]`: each post's comment list, in
      post order. */
  function TopComments<A>(posts: seq<Post<A>>): (r: seq<seq<Comment<A>>>)
    ensures |r| == |posts|
    ensures forall i :: 0 <= i < |posts| ==> r[i] == posts[i].topComments
  {
    seq(|posts|, i requires 0 <= i < |posts| => posts[i].topComments)
  }

  /** The state of a listed submission after a collection pass: a kept one
      carries the "confidence" ordering and the given limit, any other is
      as it was. */
  twostate predicate Configured(s: Submission, w: Window, limit: int)
    reads s
  {
    if Keeps(w, s) then s.commentSort == ConfidenceSort && s.commentLimit == Some(limit)
    else s.commentSort == old(s.commentSort) && s.commentLimit == old(s.commentLimit)
  }

  /** One more submission adds at most its own post at the end. */
  lemma CollectStep<A>(prefix: seq<Submission>, s: Submission, w: Window, render: Author -> A)
    ensures ShapePosts(Survivors(prefix + [s], w), render) ==
            ShapePosts(Survivors(prefix, w), render) + (if Keeps(w, s) then [ShapePost(s, render)] else [])
  {
    SurvivorsAppend(prefix, [s], w);
    assert [s][1..] == [];
  }

  /** The loop both scrapers run over a listing: for each submission the
      window keeps, set the comment-ordering and comment-limit hints on the
      submission and append its post. */
  method CollectPosts<A>(listing: seq<Submission>, w: Window, limit: int, render: Author -> A)
    returns (posts: seq<Post<A>>)
    modifies listing
    ensures posts == ShapePosts(Survivors(listing, w), render)
    ensures forall s :: s in listing ==> Configured(s, w, limit)
  {
    posts := [];
    for i := 0 to |listing|
      invariant posts == ShapePosts(Survivors(listing[..i], w), render)
      invariant forall j :: 0 <= j < i && Keeps(w, listing[j]) ==>
                  listing[j].commentSort == ConfidenceSort && listing[j].commentLimit == Some(limit)
      invariant forall s :: s in listing && !Keeps(w, s) ==>
                  s.commentSort == old(s.commentSort) && s.commentLimit == old(s.commentLimit)
    {
      var s := listing[i];
      if Keeps(w, s) {
        s.commentSort := ConfidenceSort;
        s.commentLimit := Some(limit);
        posts := posts + [ShapePost(s, render)];
      }
      assert listing[..i + 1] == listing[..i] + [s];
      CollectStep(listing[..i], s, w, render);
    }
    assert listing[..|listing|] == listing;
  }
}
