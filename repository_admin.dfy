/**
 * The read-only GitHub admin adapter of src/repository/admin.py. HTTP is not modelled:
 * each operation names the request it would send and takes the server's answer as an input.
 */
module Admin {
  import opened Wrappers
  import opened JsonValues
  import opened RepositoryModels

  const GithubApiOrgUrl: string := "https://api.github.com/orgs/django"
  const GithubApiReposUrl: string := "https://api.github.com/orgs/django/repos"
  /** `GITHUB_API_REPO_URL` is this prefix followed by the `{}` placeholder. */
  const GithubApiRepoUrlPrefix: string := "https://api.github.com/repos/"
  const RateLimitStatus: int := 403
  const DefaultListPerPage: int := 10
  const ListDisplay: seq<string> :=
    ["id", "full_name", "stargazers_count", "forks_count", "watchers_count", "open_issues_count"]

  /** A GET request: its URL and its query-string parameters in order. */
  datatype Request = Request(url: string, params: seq<(string, int)>)

  /** An HTTP response: its status code and its body decoded as JSON (`None` when it is not JSON). */
  datatype Response = Response(status: int, body: Option<Json>)

  /** The dict `get_list` returns: `total` is `None` when the key is absent. */
  datatype ListPage = ListPage(total: Option<Json>, items: seq<Instance>)

  datatype User = User(isAuthenticated: bool)

  const OrgRequest: Request := Request(GithubApiOrgUrl, [])

  /** Python's `x or d` for an optional integer: `None` and `0` fall back to `d`. */
  function OrDefault(x: Option<int>, d: int): (r: int) {
    if x.Some? && x.value != 0 then x.value else d
  }

  /** The request `get_list` sends: `page = page_num or 1`, `per_page = list_per_page or 10`. */
  function PageRequest(pageNum: Option<int>, listPerPage: Option<int>): (r: Request)
    ensures r.url == GithubApiReposUrl && |r.params| == 2
    ensures r.params[0].0 == "page" && r.params[1].0 == "per_page"
    ensures r.params[0].1 == (if pageNum.Some? && pageNum.value != 0 then pageNum.value else 1)
    ensures r.params[1].1 == (if listPerPage.Some? && listPerPage.value != 0 then listPerPage.value else DefaultListPerPage)
    ensures r.params[0].1 != 0 && r.params[1].1 != 0
  {
    Request(GithubApiReposUrl, [("page", OrDefault(pageNum, 1)), ("per_page", OrDefault(listPerPage, DefaultListPerPage))])
  }

  /** The defaults are themselves truthy, so resending the parameters of a request reproduces it. */
  lemma PageRequestStable(pageNum: Option<int>, listPerPage: Option<int>)
    ensures var r := PageRequest(pageNum, listPerPage);
      PageRequest(Some(r.params[0].1), Some(r.params[1].1)) == r
  {
    var r := PageRequest(pageNum, listPerPage);
    assert r.params == [("page", r.params[0].1), ("per_page", r.params[1].1)];
  }

  /** `[Repository.build_from(item) for item in xs]`: every element must be a dict. */
  function RowsFrom(xs: seq<Json>): (r: Result<seq<Instance>>)
    ensures r.Ok? <==> forall i :: 0 <= i < |xs| ==> xs[i].Obj?
    ensures r.Err? ==> r.error == AttributeError
    ensures r.Ok? ==> |r.value| == |xs|
    ensures r.Ok? ==> forall i :: 0 <= i < |xs| ==> r.value[i] == BuildFrom(Repository, xs[i].members)
  {
    if xs == [] then Ok([])
    else if !xs[0].Obj? then Err(AttributeError)
    else
      match RowsFrom(xs[1..])
      case Err(e) => Err(e)
      case Ok(rest) => Ok([BuildFrom(Repository, xs[0].members)] + rest)
  }

  /** The items of a non-rate-limited list response: `[build_from(item) for item in data or []]`. */
  function ItemsFrom(body: Option<Json>): (r: Result<seq<Instance>>)
    ensures body.None? ==> r == Err(JsonDecodeError)
    ensures body.Some? && !Truthy(body.value) ==> r == Ok([])
    ensures body.Some? && body.value.Arr? ==>
      (r.Ok? <==> forall i :: 0 <= i < |body.value.elems| ==> body.value.elems[i].Obj?)
    ensures body.Some? && body.value.Arr? && r.Ok? ==> |r.value| == |body.value.elems|
    ensures body.Some? && body.value.Arr? && r.Ok? ==>
      forall i :: 0 <= i < |body.value.elems| ==> r.value[i] == BuildFrom(Repository, body.value.elems[i].members)
    ensures body.Some? && Truthy(body.value) && (body.value.Int? || body.value.Bool?) ==> r == Err(TypeError)
    ensures body.Some? && Truthy(body.value) && (body.value.Str? || body.value.Obj?) ==> r == Err(AttributeError)
  {
    match body
    case None => Err(JsonDecodeError)
    case Some(data) =>
      if !Truthy(data) then Ok([])
      else
        match data
        case Arr(xs) => RowsFrom(xs)
        // iterating a dict or a string yields strings, which have no `.get`
        case Obj(_) => Err(AttributeError)
        case Str(_) => Err(AttributeError)
        case _ => Err(TypeError)
  }

  /** `response.json()` used as a dict: fails unless the body decodes to a JSON object. */
  function AsMapping(body: Option<Json>): (r: Result<map<string, Json>>)
    ensures r.Ok? <==> body.Some? && body.value.Obj?
    ensures r.Ok? ==> r.value == body.value.members
    ensures r.Err? ==> r.error == (if body.None? then JsonDecodeError else AttributeError)
  {
    match body
    case None => Err(JsonDecodeError)
    case Some(Obj(m)) => Ok(m)
    case Some(_) => Err(AttributeError)
  }

  /** `_get_repos_total` without its memo: the org's `public_repos`, `None` when absent. */
  function TotalFrom(body: Option<Json>): (r: Result<Json>)
    ensures r.Ok? <==> body.Some? && body.value.Obj?
    ensures r.Ok? ==> r.value == Get(body.value.members, "public_repos")
  {
    match AsMapping(body)
    case Ok(m) => Ok(Get(m, "public_repos"))
    case Err(e) => Err(e)
  }

  /** `GITHUB_API_REPO_URL.format(object_id)`: the key is inserted as it is, without escaping. */
  function RepoUrl(objectId: string): (u: string)
    ensures |u| == |GithubApiRepoUrlPrefix| + |objectId|
    ensures u[..|GithubApiRepoUrlPrefix|] == GithubApiRepoUrlPrefix
    ensures u[|GithubApiRepoUrlPrefix|..] == objectId
  {
    GithubApiRepoUrlPrefix + objectId
  }

  /** Distinct keys request distinct URLs, and the key can be read back from the URL. */
  lemma RepoUrlInjective(a: string, b: string)
    requires RepoUrl(a) == RepoUrl(b)
    ensures a == b
  {
    assert a == RepoUrl(a)[|GithubApiRepoUrlPrefix|..];
    assert b == RepoUrl(b)[|GithubApiRepoUrlPrefix|..];
  }

  /** The record `get_object` returns: `build_from` of whatever dict the server answered with. */
  function ObjectFrom(body: Option<Json>): (r: Result<Instance>)
    ensures r.Ok? <==> body.Some? && body.value.Obj?
    ensures r.Ok? ==> r.value == BuildFrom(Repository, body.value.members)
  {
    match AsMapping(body)
    case Ok(m) => Ok(BuildFrom(Repository, m))
    case Err(e) => Err(e)
  }

  /** GitHub's error body for an unknown repository. */
  const NotFoundBody: Option<Json> := Some(Obj(map["message" := Str("Not Found")]))

  /** A "Not Found" error body is a dict, so `get_object` gives a record whose every field is `None`. */
  lemma NotFoundBodyGivesEmptyRecord()
    ensures ObjectFrom(NotFoundBody).Ok?
    ensures forall f :: f in FieldNames(Repository) ==> ObjectFrom(NotFoundBody).value.attrs[f] == Null
  {
    assert "message" !in RepositoryFields;
  }

  /** `extra_context.update(...)` with both save buttons switched off. */
  function HideSaveButtons(entries: map<string, Json>): (r: map<string, Json>)
    ensures r.Keys == entries.Keys + {"show_save_and_continue", "show_save"}
    ensures r["show_save_and_continue"] == Bool(false) && r["show_save"] == Bool(false)
    ensures forall k :: k in entries && k != "show_save_and_continue" && k != "show_save" ==> r[k] == entries[k]
  {
    entries["show_save_and_continue" := Bool(false)]["show_save" := Bool(false)]
  }

  /** Hiding the buttons twice is hiding them once. */
  lemma HideSaveButtonsIdempotent(entries: map<string, Json>)
    ensures HideSaveButtons(HideSaveButtons(entries)) == HideSaveButtons(entries)
  {
  }

  /** A Python dict object, passed by reference. */
  class Context {
    var entries: map<string, Json>

    constructor (entries: map<string, Json>)
      ensures this.entries == entries
    {
      this.entries := entries;
    }
  }

  class RepositoryAdmin {
    /** The `@cache` slot of `_get_repos_total`: `Some(v)` once a value has been computed. */
    var totalMemo: Option<Json>
    /** Every request this admin has sent to the API, oldest first. */
    var sent: seq<Request>

    constructor ()
      ensures totalMemo == None && sent == []
    {
      totalMemo := None;
      sent := [];
    }

    /** Module access requires an authenticated user. */
    function HasModulePermission(user: User): (r: bool)
      ensures r <==> user.isAuthenticated
    {
      user.isAuthenticated
    }

    /** Viewing a record's change page requires an authenticated user. */
    function HasChangePermission(user: User): (r: bool)
      ensures r <==> user.isAuthenticated
    {
      user.isAuthenticated
    }

    /** Records cannot be added. */
    function HasAddPermission(user: User): (r: bool)
      ensures !r
    {
      false
    }

    /** Records cannot be deleted. */
    function HasDeletePermission(user: User): (r: bool)
      ensures !r
    {
      false
    }

    /** The whole Repository whitelist is read-only; it covers every displayed column and every attribute of a built record. */
    function ReadonlyFields(obj: Option<Instance>): (r: seq<string>)
      ensures forall f :: f in ListDisplay ==> f in r
      ensures forall data :: BuildFrom(Repository, data).attrs.Keys == set f | f in r
    {
      FieldNames(Repository)
    }

    /** `_get_repos_total`: asks the org endpoint at most until one call succeeds, then answers from the memo. */
    method ReposTotal(org: Response) returns (r: Result<Json>)
      modifies this
      ensures old(totalMemo).Some? ==>
        r == Ok(old(totalMemo).value) && totalMemo == old(totalMemo) && sent == old(sent)
      ensures old(totalMemo).None? ==>
        && sent == old(sent) + [OrgRequest]
        && r == TotalFrom(org.body)
        && totalMemo == (if r.Ok? then Some(r.value) else None)
    {
      if totalMemo.Some? {
        return Ok(totalMemo.value);
      }
      sent := sent + [OrgRequest];
      r := TotalFrom(org.body);
      if r.Ok? {
        totalMemo := Some(r.value);
      }
    }

    /**
     * `get_list`: one page request; on 403 an empty page with no total, otherwise the built
     * rows and the memoised org-wide total. `org` is what the org endpoint would answer.
     */
    method GetList(pageNum: Option<int>, listPerPage: Option<int>, page: Response, org: Response)
      returns (r: Result<ListPage>)
      modifies this
      ensures old(totalMemo).Some? ==> totalMemo == old(totalMemo)
      ensures page.status == RateLimitStatus ==>
        r == Ok(ListPage(None, [])) && sent == old(sent) + [PageRequest(pageNum, listPerPage)] && totalMemo == old(totalMemo)
      ensures page.status != RateLimitStatus && ItemsFrom(page.body).Err? ==>
        r == Err(ItemsFrom(page.body).error) && sent == old(sent) + [PageRequest(pageNum, listPerPage)] && totalMemo == old(totalMemo)
      ensures page.status != RateLimitStatus && ItemsFrom(page.body).Ok? && old(totalMemo).Some? ==>
        r == Ok(ListPage(Some(old(totalMemo).value), ItemsFrom(page.body).value))
        && sent == old(sent) + [PageRequest(pageNum, listPerPage)]
      ensures page.status != RateLimitStatus && ItemsFrom(page.body).Ok? && old(totalMemo).None? ==>
        && sent == old(sent) + [PageRequest(pageNum, listPerPage), OrgRequest]
        && r == (match TotalFrom(org.body)
                 case Ok(t) => Ok(ListPage(Some(t), ItemsFrom(page.body).value))
                 case Err(e) => Err(e))
        && totalMemo == (match TotalFrom(org.body) case Ok(t) => Some(t) case Err(_) => None)
    {
      sent := sent + [PageRequest(pageNum, listPerPage)];
      if page.status == RateLimitStatus {
        return Ok(ListPage(None, []));
      }
      var items := ItemsFrom(page.body);
      if items.Err? {
        return Err(items.error);
      }
      var total := ReposTotal(org);
      if total.Err? {
        return Err(total.error);
      }
      r := Ok(ListPage(Some(total.value), items.value));
    }

    /** `get_object`: requests the repo URL built from the raw key and builds a record from the body. */
    method GetObject(objectId: string, response: Response) returns (r: Result<Instance>)
      modifies this`sent
      ensures sent == old(sent) + [Request(RepoUrl(objectId), [])]
      ensures r == ObjectFrom(response.body)
    {
      sent := sent + [Request(RepoUrl(objectId), [])];
      r := ObjectFrom(response.body);
    }

    /**
     * The `extra_context` that `change_view` hands to the framework. A non-empty dict is
     * updated in place; `None` or an empty dict is replaced by a new dict, leaving the caller's as it was.
     */
    method ChangeViewContext(objectId: string, extraContext: Context?) returns (ctx: Context)
      modifies extraContext
      ensures ctx.entries == HideSaveButtons(if extraContext == null then map[] else old(extraContext.entries))
      ensures extraContext != null && old(extraContext.entries) != map[] ==> ctx == extraContext
      ensures extraContext == null || old(extraContext.entries) == map[] ==> fresh(ctx)
      ensures extraContext != null && old(extraContext.entries) == map[] ==> extraContext.entries == map[]
    {
      if extraContext != null && extraContext.entries != map[] {
        ctx := extraContext;
      } else {
        ctx := new Context(map[]);
      }
      ctx.entries := HideSaveButtons(ctx.entries);
    }
  }
}
