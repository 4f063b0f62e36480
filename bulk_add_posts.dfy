/**
 * The `addposts` command (src/blog/management/commands/addposts.py): build `num_posts` posts
 * and `num_comments` comments for each, then insert them in bulk in one transaction.
 */
module BulkAddPosts {
  import opened Wrappers
  import opened Blog

  const MaxPosts: int := 100000
  const MaxComments: int := 100

  /** The SQLite connection settings the command issues, in order, before inserting. */
  const PragmaStatements: seq<string> :=
    ["PRAGMA journal_mode=WAL;", "PRAGMA synchronous=OFF;", "PRAGMA cache_size=10000;"]

  /**
   * The database backend, as far as the command sees it: the statements it rejects, each
   * with the message of the exception `cursor.execute` raises. SQLite rejects none of the
   * pragmas; PostgreSQL has no `PRAGMA` statement and rejects all of them.
   */
  type Rejections = map<string, string>

  predicate Accepts(stmts: seq<string>, rejected: Rejections) {
    forall k :: 0 <= k < |stmts| ==> stmts[k] !in rejected
  }

  /**
   * `cursor.execute` on each statement in turn: the first rejected statement raises, and
   * the exception ends the command with nothing after it executed.
   */
  function ExecuteAll(stmts: seq<string>, rejected: Rejections): (r: seq<Event>)
    ensures Accepts(stmts, rejected) ==>
      |r| == |stmts| && forall k :: 0 <= k < |stmts| ==> r[k] == Executed(stmts[k])
    ensures !Accepts(stmts, rejected) ==>
      && 2 <= |r| <= |stmts| + 1
      && (forall k :: 0 <= k < |r| - 1 ==> r[k] == Executed(stmts[k]))
      && stmts[|r| - 2] in rejected
      && (forall k :: 0 <= k < |r| - 2 ==> stmts[k] !in rejected)
      && r[|r| - 1] == Failed(rejected[stmts[|r| - 2]])
  {
    if stmts == [] then []
    else if stmts[0] in rejected then [Executed(stmts[0]), Failed(rejected[stmts[0]])]
    else
      assert Accepts(stmts, rejected) <==> Accepts(stmts[1..], rejected) by {
        if Accepts(stmts[1..], rejected) {
          forall k | 0 <= k < |stmts| ensures stmts[k] !in rejected {
            if k > 0 { assert stmts[k] == stmts[1..][k - 1]; }
          }
        }
      }
      [Executed(stmts[0])] + ExecuteAll(stmts[1..], rejected)
  }

  /** `min(options["num_posts"], MAX_POSTS)`. */
  function NumPosts(arg: int): (r: int)
    ensures r <= MaxPosts && (r == arg <==> arg <= MaxPosts)
    ensures arg > MaxPosts ==> r == MaxPosts
  {
    Min(arg, MaxPosts)
  }

  /** `min(options["comments"], MAX_COMMENTS)`. */
  function NumComments(arg: int): (r: int)
    ensures r <= MaxComments && (r == arg <==> arg <= MaxComments)
    ensures arg > MaxComments ==> r == MaxComments
  {
    Min(arg, MaxComments)
  }

  /** The first check that rejects the clamped arguments or the user table, in the order the command runs them. */
  function Rejection(numPosts: int, numComments: int, userCount: nat): (r: Option<Message>)
    ensures r.None? <==> numPosts >= 1 && numComments >= 0 && userCount > 0
    ensures r.Some? ==> r.value.IsError()
    ensures numPosts < 1 ==> r == Some(TooFewPosts)
    ensures numPosts >= 1 && numComments < 0 ==> r == Some(NegativeComments)
    ensures numPosts >= 1 && numComments >= 0 && userCount == 0 ==> r == Some(NoUsers)
  {
    if numPosts < 1 then Some(TooFewPosts)
    else if numComments < 0 then Some(NegativeComments)
    else if userCount == 0 then Some(NoUsers)
    else None
  }

  /** `n` copies of `p`. */
  function Repeat(p: Post, n: nat): (r: seq<Post>) {
    if n == 0 then [] else Repeat(p, n - 1) + [p]
  }

  /** Each post of `ps` repeated `n` times, in post order: the posts the comments belong to. */
  function RepeatEach(ps: seq<Post>, n: nat): (r: seq<Post>) {
    if ps == [] then [] else RepeatEach(ps[..|ps| - 1], n) + Repeat(ps[|ps| - 1], n)
  }

  lemma {:induction false} RepeatLength(p: Post, n: nat)
    ensures |Repeat(p, n)| == n && forall k :: 0 <= k < n ==> Repeat(p, n)[k] == p
  {
    if n > 0 {
      RepeatLength(p, n - 1);
    }
  }

  lemma {:induction false} RepeatEachLength(ps: seq<Post>, n: nat)
    ensures |RepeatEach(ps, n)| == |ps| * n
  {
    if ps != [] {
      RepeatEachLength(ps[..|ps| - 1], n);
      RepeatLength(ps[|ps| - 1], n);
      MulSucc(|ps| - 1, n);
    }
  }

  lemma MulSucc(a: nat, n: nat)
    ensures (a + 1) * n == a * n + n
  {
  }

  lemma MulMonotone(a: nat, b: nat, n: nat)
    requires a <= b
    ensures a * n <= b * n
  {
  }

  /** The comments are grouped by post: comment `i * n + j` belongs to post `i`. */
  lemma {:induction false} RepeatEachAt(ps: seq<Post>, n: nat, i: nat, j: nat)
    requires i < |ps| && j < n
    ensures i * n + j < |RepeatEach(ps, n)| && RepeatEach(ps, n)[i * n + j] == ps[i]
  {
    var init := ps[..|ps| - 1];
    var last := ps[|ps| - 1];
    RepeatEachLength(init, n);
    RepeatLength(last, n);
    MulSucc(i, n);
    assert RepeatEach(ps, n) == RepeatEach(init, n) + Repeat(last, n);
    if i < |init| {
      RepeatEachAt(init, n, i, j);
      MulMonotone(i + 1, |init|, n);
      assert i * n + j < |init| * n;
    } else {
      assert i == |init|;
      assert RepeatEach(ps, n)[i * n + j] == Repeat(last, n)[j];
    }
  }

  /** The post each comment belongs to. */
  function PostsOf(cs: seq<Comment>): (r: seq<Post>)
    ensures |r| == |cs| && forall k :: 0 <= k < |cs| ==> r[k] == cs[k].post
  {
    if cs == [] then [] else PostsOf(cs[..|cs| - 1]) + [cs[|cs| - 1].post]
  }

  /** The "Generated post {slug}" lines written when verbosity exceeds 1. */
  function GeneratedLines(ps: seq<Post>): (r: seq<Event>)
    ensures |r| == |ps| && forall k :: 0 <= k < |ps| ==> r[k] == Wrote(GeneratedPost(ps[k].slug))
  {
    if ps == [] then [] else GeneratedLines(ps[..|ps| - 1]) + [Wrote(GeneratedPost(ps[|ps| - 1].slug))]
  }

  /** The first loop: `num_posts` posts, each with an author from `users` and a status from `Post.Status`. */
  method BuildPosts(numPosts: nat, users: seq<User>) returns (posts: seq<Post>)
    requires |users| > 0
    ensures |posts| == numPosts
    ensures forall k :: 0 <= k < |posts| ==> posts[k].author in users && posts[k].status in AllStatuses
  {
    posts := [];
    assert users[0] in users;
    for k := 0 to numPosts
      invariant |posts| == k
      invariant forall i :: 0 <= i < k ==> posts[i].author in users && posts[i].status in AllStatuses
    {
      var author :| author in users;
      var status :| status in AllStatuses;
      var title: string, slug: string, body: string, publish: int := *, *, *, *;
      posts := posts + [Post(title, slug, author, body, publish, status)];
    }
  }

  /** The nested loops: `perPost` comments for each post, grouped in post order. */
  method BuildComments(posts: seq<Post>, perPost: nat) returns (comments: seq<Comment>)
    ensures PostsOf(comments) == RepeatEach(posts, perPost)
    ensures |comments| == |posts| * perPost
  {
    comments := [];
    for i := 0 to |posts|
      invariant PostsOf(comments) == RepeatEach(posts[..i], perPost)
    {
      for j := 0 to perPost
        invariant PostsOf(comments) == RepeatEach(posts[..i], perPost) + Repeat(posts[i], j)
      {
        var name: string, email: string, body: string, active: bool := *, *, *, *;
        comments := comments + [Comment(posts[i], name, email, body, active)];
      }
      assert posts[..i + 1][..i] == posts[..i];
    }
    assert posts[..|posts|] == posts;
    RepeatEachLength(posts, perPost);
  }

  /** The verbose listing: one "Generated post {slug}" line per post, in post order. */
  method ReportPosts(posts: seq<Post>) returns (lines: seq<Event>)
    ensures lines == GeneratedLines(posts)
  {
    lines := [];
    for i := 0 to |posts|
      invariant lines == GeneratedLines(posts[..i])
    {
      assert posts[..i + 1][..i] == posts[..i];
      lines := lines + [Wrote(GeneratedPost(posts[i].slug))];
    }
    assert posts[..|posts|] == posts;
  }

  /**
   * `Command.handle`. `numPostsArg` and `commentsArg` are the parsed arguments, `verbosity`
   * the optional option, `users` the user table and `rejected` what the backend makes of the
   * pragmas. Faker's values are arbitrary choices, except that an author is drawn from
   * `users` and a status from `Post.Status`.
   */
  method Handle(numPostsArg: int, commentsArg: int, verbosity: Option<int>, users: seq<User>, rejected: Rejections)
    returns (events: seq<Event>, posts: seq<Post>, comments: seq<Comment>)
    ensures Rejection(NumPosts(numPostsArg), NumComments(commentsArg), |users|).Some? ==>
      && events == [Wrote(Rejection(NumPosts(numPostsArg), NumComments(commentsArg), |users|).value)]
      && posts == [] && comments == []
    ensures Rejection(NumPosts(numPostsArg), NumComments(commentsArg), |users|).None? ==>
      && |posts| == NumPosts(numPostsArg)
      && forall k :: 0 <= k < |posts| ==> posts[k].author in users && posts[k].status in AllStatuses
    ensures Rejection(NumPosts(numPostsArg), NumComments(commentsArg), |users|).None? &&
            !Accepts(PragmaStatements, rejected) ==>
      events == ExecuteAll(PragmaStatements, rejected) && comments == []
    ensures Rejection(NumPosts(numPostsArg), NumComments(commentsArg), |users|).None? &&
            Accepts(PragmaStatements, rejected) ==>
      && |comments| == NumPosts(numPostsArg) * NumComments(commentsArg)
      && PostsOf(comments) == RepeatEach(posts, NumComments(commentsArg))
      && events == ExecuteAll(PragmaStatements, rejected) + [Committed(posts, comments)]
                   + (if verbosity.GetOr(1) > 1 then GeneratedLines(posts) else [])
                   + [Wrote(GeneratedPostsWithComments(NumPosts(numPostsArg), NumComments(commentsArg)))]
  {
    var numPosts := NumPosts(numPostsArg);
    var numComments := NumComments(commentsArg);
    var level := verbosity.GetOr(1);
    posts, comments := [], [];
    if numPosts < 1 {
      return [Wrote(TooFewPosts)], posts, comments;
    }
    if numComments < 0 {
      return [Wrote(NegativeComments)], posts, comments;
    }
    if |users| == 0 {
      return [Wrote(NoUsers)], posts, comments;
    }
    posts := BuildPosts(numPosts, users);
    events := ExecuteAll(PragmaStatements, rejected);
    if !Accepts(PragmaStatements, rejected) {
      return;
    }
    comments := BuildComments(posts, numComments);
    events := events + [Committed(posts, comments)];
    if level > 1 {
      var lines := ReportPosts(posts);
      events := events + lines;
    }
    events := events + [Wrote(GeneratedPostsWithComments(numPosts, numComments))];
  }

  /** On a backend that rejects `PRAGMA`, as PostgreSQL does, the first statement raises and nothing is committed. */
  lemma RejectedPragmaEndsRun(rejected: Rejections)
    requires PragmaStatements[0] in rejected
    ensures ExecuteAll(PragmaStatements, rejected) ==
      [Executed(PragmaStatements[0]), Failed(rejected[PragmaStatements[0]])]
  {
  }
}
