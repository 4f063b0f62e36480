/**
 * The `add_posts` command (src/blog/management/commands/add_posts.py): create up to 20 posts
 * one at a time, reporting each.
 */
module AddPosts {
  import opened Blog

  const MaxPosts: int := 20

  /** `min(options["num_posts"], MAX_POSTS)`. */
  function NumPosts(arg: int): (r: int)
    ensures r <= MaxPosts && (r == arg <==> arg <= MaxPosts)
    ensures arg > MaxPosts ==> r == MaxPosts
  {
    Min(arg, MaxPosts)
  }

  /** A create followed by its "Generated post {slug}" line, for each post in order. */
  function CreationLog(ps: seq<Post>): (r: seq<Event>) {
    if ps == [] then []
    else CreationLog(ps[..|ps| - 1]) + [Created(ps[|ps| - 1]), Wrote(GeneratedPost(ps[|ps| - 1].slug))]
  }

  /** Event `2k` creates post `k` and event `2k + 1` reports it; nothing else is logged. */
  lemma {:induction false} CreationLogAt(ps: seq<Post>, k: nat)
    requires k < |ps|
    ensures |CreationLog(ps)| == 2 * |ps|
    ensures CreationLog(ps)[2 * k] == Created(ps[k])
    ensures CreationLog(ps)[2 * k + 1] == Wrote(GeneratedPost(ps[k].slug))
  {
    var init := ps[..|ps| - 1];
    if k < |ps| - 1 {
      CreationLogAt(init, k);
    } else if init != [] {
      CreationLogAt(init, 0);
    }
  }

  /**
   * `Command.handle`. `numPostsArg` is the parsed argument and `users` the user table; each
   * post's author is some user (`order_by("?").first()`), its status some `Post.Status`, and
   * its other fields arbitrary.
   */
  method Handle(numPostsArg: int, users: seq<User>) returns (events: seq<Event>, posts: seq<Post>)
    ensures NumPosts(numPostsArg) < 1 ==> events == [Wrote(TooFewPosts)] && posts == []
    ensures NumPosts(numPostsArg) >= 1 && |users| == 0 ==> events == [Wrote(NoUsers)] && posts == []
    ensures NumPosts(numPostsArg) >= 1 && |users| > 0 ==>
      && |posts| == NumPosts(numPostsArg)
      && forall k :: 0 <= k < |posts| ==> posts[k].author in users && posts[k].status in AllStatuses
    ensures NumPosts(numPostsArg) >= 1 && |users| > 0 ==>
      events == CreationLog(posts) + [Wrote(GeneratedPosts(NumPosts(numPostsArg)))]
  {
    var numPosts := NumPosts(numPostsArg);
    posts := [];
    if numPosts < 1 {
      return [Wrote(TooFewPosts)], posts;
    }
    if |users| == 0 {
      return [Wrote(NoUsers)], posts;
    }
    events := [];
    assert users[0] in users;
    for k := 0 to numPosts
      invariant |posts| == k
      invariant forall i :: 0 <= i < k ==> posts[i].author in users && posts[i].status in AllStatuses
      invariant events == CreationLog(posts)
    {
      var author :| author in users;
      var status :| status in AllStatuses;
      var title: string, slug: string, body: string, publish: int := *, *, *, *;
      var post := Post(title, slug, author, body, publish, status);
      assert (posts + [post])[..|posts|] == posts;
      posts := posts + [post];
      events := events + [Created(post), Wrote(GeneratedPost(post.slug))];
    }
    events := events + [Wrote(GeneratedPosts(numPosts))];
  }
}
