/** The filtering and defaults of `PostRepository`
    (app/Repositories/PostRepository.php): a direct-field filter that either leaves the
    query alone, adds a `whereIn`, or adds an equality, and the paging and ordering
    defaults that `getPosts` and `buildQuery` fall back on. These are expressions
    returning a chained builder, so they are functions on the list of where-clauses. */
module PostRepository {
  import opened PhpValues
  import opened Query
  import FilterService

  /** `getPosts`' page size when the request gives none. */
  const DefaultPerPage := 15

  /** `filterWithdirectfields`: skip an `empty()` value, otherwise constrain the field
      to the array's elements or to the scalar. */
  function FilterWithDirectFields(query: seq<Clause>, field: Value, value: Value): (r: seq<Clause>)
    ensures IsEmpty(value) ==> r == query
    ensures !IsEmpty(value) ==> |r| == |query| + 1 && r[..|query|] == query && r[|query|].conn == And
    ensures !IsEmpty(value) && value.Arr? ==>
      r[|query|].In? && r[|query|].column == field
      && |r[|query|].values| == |value.entries|
      && forall i :: 0 <= i < |value.entries| ==> r[|query|].values[i] == value.entries[i].val
    ensures !IsEmpty(value) && !value.Arr? ==> r[|query|] == Basic(And, field, Str("="), value)
  {
    if IsEmpty(value) then query
    else if value.Arr? then query + [In(And, field, Values(value.entries))]
    else query + [Basic(And, field, Str("="), value)]
  }

  /** The direct-field filter narrows a query joined by AND: a row passes exactly when
      it passes the query and, for a non-empty value, the added clause. */
  lemma DirectFilterNarrows<R>(e: Engine<R>, query: seq<Clause>, field: Value, value: Value, row: R)
    requires AllAnd(query)
    ensures var r := FilterWithDirectFields(query, field, value);
      Matches(e, r, row) <==> Matches(e, query, row) && (IsEmpty(value) || Holds(e, r[|query|], row))
  {
    var r := FilterWithDirectFields(query, field, value);
    if !IsEmpty(value) {
      MatchesAllAnd(e, r, row);
      MatchesAllAnd(e, query, row);
      assert forall j :: 0 <= j < |query| ==> r[j] == query[j];
    }
  }

  /** Filtering any query twice on the same field and value selects the same rows as
      once. */
  lemma DirectFilterIdempotent<R>(e: Engine<R>, query: seq<Clause>, field: Value, value: Value, row: R)
    ensures var once := FilterWithDirectFields(query, field, value);
      Matches(e, FilterWithDirectFields(once, field, value), row) == Matches(e, once, row)
  {
    var once := FilterWithDirectFields(query, field, value);
    if !IsEmpty(value) {
      var added := [once[|query|]];
      assert once == query + added;
      assert FilterWithDirectFields(once, field, value) == once + added;
      RepeatedAndSuffixSelectsSameRows(e, query, added, row);
    }
  }

  /** The repository's direct filter adds what the filter trait adds for the same
      column: an `in` mapping for an array, a plain column mapping for a scalar. */
  lemma DirectFilterAgreesWithTrait(query: seq<Clause>, column: string, value: Value)
    requires !IsEmpty(value)
    ensures FilterWithDirectFields(query, Str(column), value) == query + [
      if value.Arr?
      then FilterService.FilterClause(FilterService.Config([Entry(StrKey("field"), Str(column)), Entry(StrKey("operator"), Str("in"))]), value)
      else FilterService.FilterClause(FilterService.Column(column), value)]
  {
    if value.Arr? {
      var m := [Entry(StrKey("field"), Str(column)), Entry(StrKey("operator"), Str("in"))];
      assert Find(m, StrKey("relation")) == None;
      assert Find(m, StrKey("field")) == Some(Str(column));
      assert Find(m, StrKey("operator")) == Some(Str("in"));
    }
  }

  /** `$filters['per_page'] ?? 15`: the page size `getPosts` passes to `paginate`. */
  function PageSize(filters: seq<Entry>): (r: Value)
    ensures r != Null
    ensures IsSet(filters, StrKey("per_page")) ==> r == Index(filters, StrKey("per_page"))
    ensures !IsSet(filters, StrKey("per_page")) ==> r == Int(DefaultPerPage)
  {
    Coalesce(filters, StrKey("per_page"), Int(DefaultPerPage))
  }

  /** `$filters['order_by'] ?? 'id'` and `$filters['order_direction'] ?? 'desc'`: the
      column and direction `buildQuery` would order by. */
  function OrderBy(filters: seq<Entry>): (r: (Value, Value))
    ensures r.0 != Null && r.1 != Null
    ensures IsSet(filters, StrKey("order_by")) ==> r.0 == Index(filters, StrKey("order_by"))
    ensures !IsSet(filters, StrKey("order_by")) ==> r.0 == Str("id")
    ensures IsSet(filters, StrKey("order_direction")) ==> r.1 == Index(filters, StrKey("order_direction"))
    ensures !IsSet(filters, StrKey("order_direction")) ==> r.1 == Str("desc")
  {
    (Coalesce(filters, StrKey("order_by"), Str("id")), Coalesce(filters, StrKey("order_direction"), Str("desc")))
  }
}
