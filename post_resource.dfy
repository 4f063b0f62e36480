/**
 * The import hooks of `PostResource` (src/blog/resources.py): default an empty status to
 * draft, and turn a failing row import into a logged error and a `False` result.
 */
module Resources {
  import opened JsonValues
  import opened Blog

  /** The stored value of `Post.Status.DRAFT`. */
  const DraftValue: string := Draft.Value()

  /** A row after `before_import_row`: a missing or falsy status becomes "DF"; nothing else changes. */
  function WithDefaultStatus(cells: map<string, Json>): (r: map<string, Json>)
    ensures r.Keys == cells.Keys + {"status"}
    ensures Truthy(Get(cells, "status")) ==> r["status"] == cells["status"]
    ensures !Truthy(Get(cells, "status")) ==> r["status"] == Str("DF")
    ensures forall k :: k in cells && k != "status" ==> r[k] == cells[k]
  {
    if !Truthy(Get(cells, "status")) then cells["status" := Str(DraftValue)] else cells
  }

  /** Defaulting the status twice is defaulting it once, and a non-empty status is kept. */
  lemma WithDefaultStatusIdempotent(cells: map<string, Json>)
    ensures WithDefaultStatus(WithDefaultStatus(cells)) == WithDefaultStatus(cells)
    ensures Truthy(Get(cells, "status")) ==> WithDefaultStatus(cells) == cells
  {
    var once := WithDefaultStatus(cells);
    assert Truthy(Get(once, "status"));
  }

  /** An import row: a dict shared by reference with the import-export library. */
  class Row {
    var cells: map<string, Json>

    constructor (cells: map<string, Json>)
      ensures this.cells == cells
    {
      this.cells := cells;
    }
  }

  /** What the library's own `import_row` did: returned a result, or raised with a message. */
  datatype InnerOutcome<R> = Returned(result: R) | Raised(message: string)

  /** What `PostResource.import_row` returns: the library's result, or `False`. */
  datatype ImportReturn<R> = Value(result: R) | ReturnedFalse

  class PostResource {
    /** `self.errors`: each failed row (as it was when it failed) with its error message. */
    var errors: seq<(map<string, Json>, string)>

    constructor ()
      ensures errors == []
    {
      errors := [];
    }

    /** `before_import_row`: updates the row in place. */
    method BeforeImportRow(row: Row)
      modifies row
      ensures row.cells == WithDefaultStatus(old(row.cells))
    {
      if !Truthy(Get(row.cells, "status")) {
        row.cells := row.cells["status" := Str(DraftValue)];
      }
    }

    /** `import_row`: passes a result through, or records the failure and returns `False` instead of raising. */
    method ImportRow<R>(row: Row, inner: InnerOutcome<R>) returns (r: ImportReturn<R>)
      modifies this`errors
      ensures inner.Returned? ==> r == Value(inner.result) && errors == old(errors)
      ensures inner.Raised? ==> r == ReturnedFalse && errors == old(errors) + [(row.cells, inner.message)]
    {
      match inner
      case Returned(result) =>
        r := Value(result);
      case Raised(message) =>
        errors := errors + [(row.cells, message)];
        r := ReturnedFalse;
    }
  }
}
