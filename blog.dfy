/**
 * The blog entities the management commands create (src/blog/models.py), and the observable
 * effects of a command run: messages written to stdout, SQL statements, rows created.
 */
module Blog {

  /** `Post.Status`: the stored value and the choice it stands for. */
  datatype Status = Draft | Published {
    function Value(): string {
      match this
      case Draft => "DF"
      case Published => "PB"
    }
  }

  /** `list(Post.Status)`, in declaration order. */
  const AllStatuses: seq<Status> := [Draft, Published]

  datatype User = User(username: string)

  /** A post; the fields other than `author` and `status` are free text drawn by Faker. */
  datatype Post = Post(title: string, slug: string, author: User, body: string, publish: int, status: Status)

  datatype Comment = Comment(post: Post, name: string, email: string, body: string, active: bool)

  /** What a command writes to stdout, by kind. */
  datatype Message =
    | TooFewPosts                                                // "Number of posts must be greater or equal to 1"
    | NegativeComments                                           // "Number of comments must be greater or equal to 0"
    | NoUsers                                                    // "At least 1 existing user is required to generate posts"
    | GeneratedPost(slug: string)                                // "Generated post {slug}"
    | GeneratedPostsWithComments(numPosts: int, numComments: int)   // "Successfully generated {n} posts with {c} comments."
    | GeneratedPosts(numPosts: int)                              // "Successfully generated {n} posts."
    | SuperuserCreated
    | SuperuserMissingArguments
    | SuperuserExists
  {
    /** Written with the ERROR style rather than SUCCESS. */
    predicate IsError() {
      TooFewPosts? || NegativeComments? || NoUsers? || SuperuserMissingArguments?
    }
  }

  /** One observable effect of a command, in the order it happens. */
  datatype Event =
    | Wrote(message: Message)
    | Executed(statement: string)                         // a raw SQL statement on the connection
    | Created(post: Post)                                 // `Post.objects.create`
    | Committed(posts: seq<Post>, comments: seq<Comment>) // two `bulk_create`s inside one `transaction.atomic`
    | CalledCreateSuperuser(username: string, email: string, password: string, interactive: bool)
    | Failed(error: string)                               // an exception propagated out of `handle`

  /** Python's `min` on two integers. */
  function Min(a: int, b: int): (r: int)
    ensures r <= a && r <= b
    ensures r == a || r == b
  {
    if a <= b then a else b
  }
}
