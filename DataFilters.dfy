/**
 * internal/data/filters.go: validation of the pagination and sort parameters of a
 * list request, and the SQL column and direction that the sort parameter selects.
 */
module DataFilters {
  import Validator
  import opened Strings

  datatype Filters = Filters(page: int, pageSize: int, sort: string, sortSafelist: seq<string>)

  const MaxPage := 10_000
  const MaxPageSize := 100

  /** The error map after ValidateFilters: five checks, in the source's order. */
  function FilterErrors(errs: Validator.Errors, f: Filters): Validator.Errors {
    var e1 := Validator.Checked(errs, f.page > 0, "page", "must be greater than zero");
    var e2 := Validator.Checked(e1, f.page <= MaxPage, "page", "must be a maximum of 10,000");
    var e3 := Validator.Checked(e2, f.pageSize > 0, "page_size", "must be greater than zero");
    var e4 := Validator.Checked(e3, f.pageSize <= MaxPageSize, "page_size", "must be a maximum of 100");
    Validator.Checked(e4, f.sort in f.sortSafelist, "sort", "invalid sort value")
  }

  predicate FiltersOk(f: Filters) {
    1 <= f.page <= MaxPage && 1 <= f.pageSize <= MaxPageSize && f.sort in f.sortSafelist
  }

  method ValidateFilters(v: Validator.Validator, f: Filters)
    modifies v
    ensures v.errors == FilterErrors(old(v.errors), f)
  {
    v.Check(f.page > 0, "page", "must be greater than zero");
    v.Check(f.page <= MaxPage, "page", "must be a maximum of 10,000");
    v.Check(f.pageSize > 0, "page_size", "must be greater than zero");
    v.Check(f.pageSize <= MaxPageSize, "page_size", "must be a maximum of 100");
    var permitted := Validator.PermiteedValue(f.sort, f.sortSafelist);
    v.Check(permitted, "sort", "invalid sort value");
  }

  /**
   * On a fresh validator, ValidateFilters leaves it valid exactly when the filters
   * are in range, records one message per failing field, and the message kept for a
   * field is that of its first failing check.
   */
  lemma FilterErrorsFresh(f: Filters)
    ensures FilterErrors(map[], f) == map[] <==> FiltersOk(f)
    ensures "page" in FilterErrors(map[], f) <==> !(1 <= f.page <= MaxPage)
    ensures "page_size" in FilterErrors(map[], f) <==> !(1 <= f.pageSize <= MaxPageSize)
    ensures "sort" in FilterErrors(map[], f) <==> f.sort !in f.sortSafelist
    ensures FilterErrors(map[], f).Keys <= {"page", "page_size", "sort"}
    ensures f.page <= 0 ==> FilterErrors(map[], f)["page"] == "must be greater than zero"
    ensures f.page > MaxPage ==> FilterErrors(map[], f)["page"] == "must be a maximum of 10,000"
    ensures f.pageSize <= 0 ==> FilterErrors(map[], f)["page_size"] == "must be greater than zero"
    ensures f.pageSize > MaxPageSize ==> FilterErrors(map[], f)["page_size"] == "must be a maximum of 100"
    ensures f.sort !in f.sortSafelist ==> FilterErrors(map[], f)["sort"] == "invalid sort value"
  {
  }

  /**
   * sortColumn: the sort parameter without its leading "-". The source panics when
   * the parameter is not in the safelist; the list handler validates it first.
   */
  method SortColumn(f: Filters) returns (column: string)
    requires f.sort in f.sortSafelist
    ensures HasPrefix(f.sort, "-") ==> "-" + column == f.sort
    ensures !HasPrefix(f.sort, "-") ==> column == f.sort
  {
    for i := 0 to |f.sortSafelist|
      invariant f.sort !in f.sortSafelist[..i]
    {
      if f.sort == f.sortSafelist[i] {
        return TrimPrefix(f.sort, "-");
      }
    }
    assert false;
  }

  /** sortDirection: "DESC" for a sort parameter with a leading "-", "ASC" otherwise. */
  function SortDirection(f: Filters): (direction: string)
    ensures direction == "DESC" <==> HasPrefix(f.sort, "-")
    ensures direction == "ASC" <==> !HasPrefix(f.sort, "-")
  {
    if HasPrefix(f.sort, "-") then "DESC" else "ASC"
  }

  /** Column and direction together determine the sort parameter. */
  lemma SortParts(f: Filters)
    ensures (if SortDirection(f) == "DESC" then "-" else "") + TrimPrefix(f.sort, "-") == f.sort
  {
  }
}
