/**
 * The two unmanaged record types of the repository browser (src/repository/models.py)
 * and `build_from`, which projects a decoded JSON object onto a record's declared fields.
 */
module RepositoryModels {
  import opened JsonValues

  datatype Model = Repository | Recipe

  /** The declared fields of `Repository`, in declaration order. */
  const RepositoryFields: seq<string> :=
    ["id", "name", "full_name", "forks_count", "stargazers_count", "watchers_count", "open_issues_count"]

  /** The declared fields of `Recipe`, in declaration order; the commented-out `source` is not one. */
  const RecipeFields: seq<string> :=
    ["link", "title", "ner_length", "directions_length", "ner", "ingredients", "directions"]

  predicate NoDuplicates(s: seq<string>) {
    forall i, j :: 0 <= i < j < |s| ==> s[i] != s[j]
  }

  /**
   * `_fields_names()`: the model's field whitelist. Being a function of the model alone,
   * every call gives the same list, which is all the `@cache` memo guarantees.
   */
  function FieldNames(m: Model): (r: seq<string>)
    ensures |r| == 7 && NoDuplicates(r)
    ensures m == Recipe ==> "source" !in r
  {
    match m
    case Repository => RepositoryFields
    case Recipe => RecipeFields
  }

  /** A model instance: which record type it is and the value of each attribute. */
  datatype Instance = Instance(model: Model, attrs: map<string, Json>)

  /**
   * `dict((field, data.get(field)) for field in fields)`: one entry per listed field, in
   * list order, each holding the value `data` has under that name or `None`.
   */
  function Project(fields: seq<string>, data: map<string, Json>): (r: map<string, Json>)
    ensures r.Keys == set f | f in fields
    ensures forall f :: f in fields ==> r[f] == Get(data, f)
  {
    if fields == [] then map[]
    else
      var last := fields[|fields| - 1];
      Project(fields[..|fields| - 1], data)[last := Get(data, last)]
  }

  /** `Repository.build_from(data)` and `Recipe.build_from(data)`. */
  function BuildFrom(m: Model, data: map<string, Json>): (r: Instance)
    ensures r.model == m
    ensures r.attrs.Keys == set f | f in FieldNames(m)
    ensures forall f :: f in FieldNames(m) ==> r.attrs[f] == Get(data, f)
  {
    Instance(m, Project(FieldNames(m), data))
  }

  /** A key of `data` outside the whitelist is never read: data that agree on the whitelist build the same record. */
  lemma BuildFromReadsOnlyWhitelist(m: Model, d1: map<string, Json>, d2: map<string, Json>)
    requires forall f :: f in FieldNames(m) ==> Get(d1, f) == Get(d2, f)
    ensures BuildFrom(m, d1) == BuildFrom(m, d2)
  {
    var r1, r2 := BuildFrom(m, d1), BuildFrom(m, d2);
    assert r1.attrs == r2.attrs;
  }

  /** A key outside the whitelist never appears in the record, whatever `data` holds. */
  lemma BuildFromDropsUnknownKeys(m: Model, data: map<string, Json>, k: string)
    requires k !in FieldNames(m)
    ensures k !in BuildFrom(m, data).attrs
  {
  }

  /** Projection is idempotent: rebuilding from a record's own attributes gives the record back. */
  lemma BuildFromIdempotent(m: Model, data: map<string, Json>)
    ensures BuildFrom(m, BuildFrom(m, data).attrs) == BuildFrom(m, data)
  {
    BuildFromReadsOnlyWhitelist(m, BuildFrom(m, data).attrs, data);
  }

  /** Restricting `data` to the whitelist first does not change the record. */
  lemma BuildFromOfRestriction(m: Model, data: map<string, Json>)
    ensures BuildFrom(m, map k | k in data && k in FieldNames(m) :: data[k]) == BuildFrom(m, data)
  {
    BuildFromReadsOnlyWhitelist(m, map k | k in data && k in FieldNames(m) :: data[k], data);
  }

  /** Values are passed through uncoerced: a whitelisted key present in `data` keeps its exact value. */
  lemma BuildFromPassesValuesThrough(m: Model, data: map<string, Json>, f: string)
    requires f in FieldNames(m) && f in data
    ensures f in BuildFrom(m, data).attrs && BuildFrom(m, data).attrs[f] == data[f]
  {
  }

  /** A whitelisted field missing from the input comes out as `None`. */
  lemma BuildFromMissingFieldIsNone(m: Model, data: map<string, Json>, f: string)
    requires f in FieldNames(m) && f !in data
    ensures f in BuildFrom(m, data).attrs && BuildFrom(m, data).attrs[f] == Null
  {
  }

  /** `{"id": 1, "unknown_field": "x"}` builds `id = 1`, `name = None` and no `unknown_field`. */
  lemma UnknownKeyAndMissingField(data: map<string, Json>)
    requires data == map["id" := Int(1), "unknown_field" := Str("x")]
    ensures var r := BuildFrom(Repository, data);
      r.attrs["id"] == Int(1) && r.attrs["name"] == Null && "unknown_field" !in r.attrs
  {
    var fields := FieldNames(Repository);
    assert fields[0] == "id" && fields[1] == "name";
    assert "unknown_field" !in fields;
  }
}
