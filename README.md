# django-blog: the hand-written logic, modelled in Dafny

This project models the hand-written parts of a tutorial blog site built on Django. The rest of
the repository is framework configuration. The parts modelled are:

- **The repository browser's records** (`src/repository/models.py`). `Repository` and `Recipe` are
  unmanaged models. `build_from` projects a decoded JSON object onto a fixed, ordered whitelist of
  field names. A missing key becomes `None`, an unknown key is dropped, and values are copied
  through unchanged (`repository_models.dfy`, module `RepositoryModels`).
- **The read-only GitHub admin adapter** (`src/repository/admin.py`, module `Admin`). It covers:
  - the page request that `get_list` sends, with its defaults;
  - the degraded empty page on HTTP 403;
  - the rows built from a list body;
  - the org-wide total, memoised in a single slot on the admin object;
  - the unescaped detail URL of `get_object` and the record it builds;
  - the four permission predicates and the read-only field list;
  - the in-place `extra_context` update of `change_view`.

  HTTP is not performed. Each operation records the request it sends in the admin's `sent` log
  and takes the server's response as an input. That input is a status code plus the body decoded
  as JSON, or `None` when the body is not JSON.
- **The seeding commands** `addposts` (`bulk_add_posts.dfy`) and `add_posts` (`add_posts.dfy`).
  Each clamps and validates its arguments, then builds posts (and, for `addposts`, comments for
  each post). What a run does is returned as an ordered event log: messages written, SQL
  `PRAGMA`s executed, posts created, bulk inserts committed. Which statements the database
  backend rejects is an input: the configured PostgreSQL backend (src/mysite/settings.py:94)
  has no `PRAGMA` statement, so on it `addposts` raises at its first pragma and commits nothing. Faker's values are arbitrary
  choices. An author is drawn from the existing users and a status from `Post.Status`.
- **The superuser bootstrap** `first_user` (`first_user.dfy`): how each credential is chosen
  (option, else environment variable), and when `createsuperuser` is called.
- **The import hooks of `PostResource`** (`src/blog/resources.py`, `post_resource.dfy`): an empty
  status becomes `"DF"`, and a failing row import is recorded in `errors` and returns `False`.

Python behaviour that matters to the results is written out explicitly:
- truthiness (`x or d`, `if not row.get("status")`, `data or []`);
- `dict.get` returning `None` for an absent key;
- the exceptions the code can raise: `JSONDecodeError`, `AttributeError` when `.get` meets a
  non-dict, and `TypeError` when a non-iterable is iterated. These are returned as `Err` values.

Three behaviours of the code differ from what a read-only adapter might be expected to do. The model follows the code:
- `get_object` has no "not found" outcome. It builds a record from whatever dict the server
  returns. GitHub's `{"message": "Not Found"}` body therefore yields a record whose every field
  is `None` (`Admin.NotFoundBodyGivesEmptyRecord`).
- A non-403 error on the list endpoint is not reported as such. Its body is decoded and iterated:
  - a falsy body gives an empty page with a total;
  - a non-empty error dict raises `AttributeError`, because iterating a dict yields its keys,
    which are strings.
- The memo caches `None` too. An org body without `public_repos` caches `None` for good. A body
  that is not a dict raises, caches nothing, and is asked for again on the next page.

## Model

| member | source | states |
|---|---|---|
| `RepositoryModels.FieldNames` | src/repository/models.py:9-46 | Each whitelist has seven distinct names, in declaration order; `source` is not a Recipe field; as a function of the model alone every call gives the same list |
| `RepositoryModels.Project` | src/repository/models.py:24 | The projected dict has exactly the listed names as keys, and each holds `data.get(name)` |
| `RepositoryModels.BuildFrom` | src/repository/models.py:22-50 | `build_from` gives an instance of the requested model whose attribute set is exactly its whitelist, each attribute being `data.get(field)` (None when absent) |
| `RepositoryModels.BuildFromReadsOnlyWhitelist` | src/repository/models.py:24 | Two inputs that agree on the whitelisted keys build the same record: keys outside the whitelist are never read |
| `RepositoryModels.BuildFromDropsUnknownKeys` | src/repository/models.py:24 | A key outside the whitelist never appears in the record |
| `RepositoryModels.BuildFromIdempotent` | src/repository/models.py:24 | Building from a record's own attributes gives the same record back |
| `RepositoryModels.BuildFromOfRestriction` | src/repository/models.py:24 | Building from the input restricted to the whitelist equals building from the input |
| `RepositoryModels.BuildFromPassesValuesThrough` | src/repository/models.py:50 | A whitelisted key present in the input keeps its exact value, with no coercion |
| `RepositoryModels.BuildFromMissingFieldIsNone` | src/repository/models.py:24 | A whitelisted field absent from the input is an attribute whose value is `None` |
| `RepositoryModels.UnknownKeyAndMissingField` | src/repository/models.py:22-24 | `{"id": 1, "unknown_field": "x"}` builds `id = 1`, `name = None`, and no `unknown_field` |
| `Admin.PageRequest` | src/repository/admin.py:43-49 | `get_list` requests the org repos URL with `page = page_num or 1` and `per_page = list_per_page or 10`, in that order; neither parameter is ever 0 |
| `Admin.PageRequestStable` | src/repository/admin.py:46-47 | The defaults are truthy, so resending a request's own parameters reproduces the same request |
| `Admin.RowsFrom` | src/repository/admin.py:59 | The comprehension succeeds iff every element is a dict; then it has one record per element, in order, each `build_from` of that element; otherwise it raises `AttributeError` |
| `Admin.ItemsFrom` | src/repository/admin.py:57-59 | An undecodable body raises `JSONDecodeError`; a falsy body (null, `[]`, `{}` and the like) gives no items; an array gives its elements' records, same length and order; a truthy string or dict raises `AttributeError` and a truthy number or boolean `TypeError` |
| `Admin.AsMapping` | src/repository/admin.py:35-36 | `.get` succeeds only on a body that decodes to a JSON object, and reads that object |
| `Admin.TotalFrom` | src/repository/admin.py:29-36 | The total is the org body's `public_repos`, `None` when absent; it fails unless the body is a dict |
| `Admin.RepoUrl` | src/repository/admin.py:68 | The detail URL is `https://api.github.com/repos/` followed by the key exactly as given |
| `Admin.RepoUrlInjective` | src/repository/admin.py:68 | Distinct keys request distinct URLs |
| `Admin.ObjectFrom` | src/repository/admin.py:66-70 | `get_object` returns `build_from` of the body when it decodes to a dict, and fails otherwise |
| `Admin.NotFoundBodyGivesEmptyRecord` | src/repository/admin.py:70 | A `{"message": "Not Found"}` body yields a record whose every field is `None`, not a "not found" outcome |
| `Admin.HideSaveButtons` | src/repository/admin.py:86-91 | After the update both `show_save_and_continue` and `show_save` are `False`, and every other entry is unchanged |
| `Admin.HideSaveButtonsIdempotent` | src/repository/admin.py:86-91 | Applying the update twice equals applying it once |
| `Admin.RepositoryAdmin.HasModulePermission` | src/repository/admin.py:72-73 | Module access holds iff the user is authenticated |
| `Admin.RepositoryAdmin.HasChangePermission` | src/repository/admin.py:75-76 | Change access holds iff the user is authenticated |
| `Admin.RepositoryAdmin.HasAddPermission` | src/repository/admin.py:78-79 | Adding is never permitted |
| `Admin.RepositoryAdmin.HasDeletePermission` | src/repository/admin.py:81-82 | Deleting is never permitted |
| `Admin.RepositoryAdmin.ReadonlyFields` | src/repository/admin.py:38-39 | Every displayed column and every attribute of a built record is read-only |
| `Admin.RepositoryAdmin.ReposTotal` | src/repository/admin.py:29-36 | Once the slot holds a value, that value is returned, no request is sent and the slot is kept; otherwise one org request is sent, and a successful answer (even `None`) fills the slot |
| `Admin.RepositoryAdmin.GetList` | src/repository/admin.py:41-64 | One page request; on 403 exactly `{"items": []}` with no total, nothing else sent and the memo untouched; otherwise the built items with the memoised total (the same on every page once cached, the org asked only while not cached), or the error raised |
| `Admin.RepositoryAdmin.GetObject` | src/repository/admin.py:66-70 | Sends exactly one request, to `RepoUrl(object_id)`, and returns `ObjectFrom` of the answer |
| `Admin.RepositoryAdmin.ChangeViewContext` | src/repository/admin.py:84-92 | The context handed on has the save buttons hidden; a non-empty caller dict is that same object, updated in place; `None` or an empty dict is replaced by a fresh dict and the caller's is left empty |
| `Blog.Min` | src/blog/management/commands/addposts.py:21-22 | `min` is at most both arguments and equals one of them |
| `BulkAddPosts.NumPosts` | src/blog/management/commands/addposts.py:19-21 | The post count is `min(arg, 100000)`: the argument when it is at most 100000, and 100000 otherwise |
| `BulkAddPosts.NumComments` | src/blog/management/commands/addposts.py:20-22 | The comment count is `min(arg, 100)`: the argument when it is at most 100, and 100 otherwise |
| `BulkAddPosts.Rejection` | src/blog/management/commands/addposts.py:24-36 | A run goes ahead iff the clamped post count is at least 1, the clamped comment count at least 0 and a user exists; otherwise the first failing check, in source order, gives its own message: too few posts, then negative comments, then no users |
| `BulkAddPosts.RepeatLength` | src/blog/management/commands/addposts.py:66 | A post repeated `n` times is `n` entries, all that post |
| `BulkAddPosts.RepeatEachLength` | src/blog/management/commands/addposts.py:65-66 | Repeating each of `p` posts `n` times gives `p * n` entries |
| `BulkAddPosts.RepeatEachAt` | src/blog/management/commands/addposts.py:65-74 | Entry `i * n + j` of the grouped sequence belongs to post `i`, for every `j < n` |
| `BulkAddPosts.PostsOf` | src/blog/management/commands/addposts.py:68 | Lists, in order, the post each comment belongs to |
| `BulkAddPosts.GeneratedLines` | src/blog/management/commands/addposts.py:79-80 | One "Generated post {slug}" line per post, in post order |
| `BulkAddPosts.BuildPosts` | src/blog/management/commands/addposts.py:41-53 | Exactly `num_posts` posts, each with an author among the existing users and a status of `Post.Status` |
| `BulkAddPosts.BuildComments` | src/blog/management/commands/addposts.py:65-74 | `num_posts * num_comments` comments, grouped in post order with exactly `num_comments` consecutive comments per post |
| `BulkAddPosts.ReportPosts` | src/blog/management/commands/addposts.py:78-80 | The verbose listing is exactly one line per post, in order |
| `BulkAddPosts.ExecuteAll` | src/blog/management/commands/addposts.py:55-59 | When the backend accepts every statement, each is executed in order; otherwise the statements up to and including the first rejected one are executed, and the run then fails with that statement's error |
| `BulkAddPosts.RejectedPragmaEndsRun` | src/blog/management/commands/addposts.py:56 | A backend that rejects `PRAGMA journal_mode=WAL;`, as PostgreSQL does, fails on that first statement and runs no other |
| `BulkAddPosts.Handle` | src/blog/management/commands/addposts.py:18-82 | Counts are clamped to 100000 and 100 before validation; a rejected run writes exactly its one error and creates nothing; a pragma the backend rejects ends the run with its error, with no comments built and nothing committed; otherwise the run sets the three pragmas, commits the posts and comments in one transaction, lists the posts when verbosity exceeds 1, and reports the clamped counts |
| `AddPosts.NumPosts` | src/blog/management/commands/add_posts.py:17-18 | The post count is `min(arg, 20)`: the argument when it is at most 20, and 20 otherwise |
| `AddPosts.CreationLogAt` | src/blog/management/commands/add_posts.py:30-41 | The creation log has two events per post: event `2k` creates post `k` and event `2k + 1` is its "Generated post" line |
| `AddPosts.Handle` | src/blog/management/commands/add_posts.py:16-43 | The count is clamped to 20; below 1 or with no users the run writes its one error and creates nothing; otherwise exactly that many posts are created, each followed by its line, with authors among the users, then the clamped count is reported |
| `FirstUser.Credential` | src/blog/management/commands/first_user.py:19-21 | A truthy option wins; otherwise the environment variable's value, which may be empty or absent |
| `FirstUser.Handle` | src/blog/management/commands/first_user.py:16-28 | `createsuperuser` is called iff no superuser exists and all three chosen credentials are truthy, first and at most once, with exactly those credentials and `interactive=False`; the run has two events when it calls and one otherwise; the last is the already-exists, missing-arguments or created message, or the exception the call raised |
| `FirstUser.OptionsOverrideEnvironment` | src/blog/management/commands/first_user.py:19-21 | With all three options given, the environment does not affect the outcome |
| `Resources.WithDefaultStatus` | src/blog/resources.py:28-30 | A missing or falsy status becomes `"DF"`, a truthy one is kept, and no other key changes |
| `Resources.WithDefaultStatusIdempotent` | src/blog/resources.py:28-30 | Defaulting twice is defaulting once; a row with a truthy status is unchanged |
| `Resources.PostResource.BeforeImportRow` | src/blog/resources.py:28-30 | The row dict is updated in place to `WithDefaultStatus` of its old contents |
| `Resources.PostResource.ImportRow` | src/blog/resources.py:32-38 | A successful inner import's result is returned and `errors` is unchanged; a failing one appends exactly one `(row, message)` entry and returns `False` |

## Left out

- HTTP, the network, timeouts and rate limits beyond the 403 branch. Responses are inputs and requests are entries of the admin's `sent` log.
- `repository/admin_util.py` is not part of this model. It holds `DfesAdminModelMixin`: the SQL building, the quote/semicolon stripping, sort-token decoding and the SQL-over-HTTP path. Nothing about them is modelled.
- JSON floating-point numbers: JSON numbers are integers in the model.
- Django's model constructor `Repository(**kwargs)` is represented by the map of attributes it receives. The attribute order lives in `FieldNames`, not in the map.
- `_fields_names`' `@cache` memo is not modelled as state. `FieldNames` is a function of the model, so repeated calls agree, which is all the memo makes observable.
- Django's system checks on model declarations, and the framework's own `change_view`, which receives the modelled context.
- Concurrency: two first accesses to the total memo racing each other.
- `print("Getting list...")`, `logger.error`, and the text and styling of stdout messages. Only the kind of message and the numbers it reports are kept.
- Faker: field values are arbitrary. Draws are not uniform, and different posts may get equal values.
- The database. `Post.objects.create`, `bulk_create` inside `transaction.atomic`, and the `PRAGMA` statements are events in the returned log. Row ids, the author lookup `order_by("?").first()`, and a user deleted between the existence check and the lookup are not modelled.
- `call_command("createsuperuser", ...)` is an event carrying its arguments.
- FirstUser.Handle: whether `call_command("createsuperuser", ..., password=...)` returns or raises is an input (`CallOutcome`). Django's `createsuperuser` and `call_command` are not part of this model. Whether Django accepts a `password` option for that command is therefore not decided here; if it does not, every creating run ends in the raised branch.
- Resources.PostResource: assumes the import-export library gives the resource an `errors` list that starts empty. No code in src/blog/resources.py creates it; without it, the failure branch would raise `AttributeError` instead of returning `False`.
- The import-export library behind `super().import_row`: an abstract outcome, either a result or a raised message. `errors` keeps a snapshot of the row's contents as they were when `ImportRow` was entered; changes the library makes to the row, during or after the inner call (its own `before_import_row` call included), are not modelled.
- `BulkAddPosts.BuildPosts`: states nothing about title, slug, body or publish date, because Faker chooses them freely.
