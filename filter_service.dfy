/** The `FilterService` trait (app/Services/FilterService.php): it turns a request's
    parameters into where-clauses on a query builder, as a per-entity filter map
    directs. Each trait method is a method on `Builder` proved against a function that
    gives the clauses it adds; the lemmas state what those clauses mean. */
module FilterService {
  import opened PhpValues
  import opened PhpDate
  import opened Query

  /** A mapping, typed as `applyFilter` types it (`array|string`): a bare column name,
      or an options array read through the keys `field`/0, `operator`/1, `relation`
      and `fields`. */
  datatype Mapping = Column(name: string) | Config(options: seq<Entry>)

  /** One `$filterKey => $mapping` entry of a filter map, in the map's order. */
  datatype MapEntry = MapEntry(key: Key, mapping: Mapping)

  /** The column `applyDateRange` compares when the caller names none. */
  const DefaultDateField := "created_at"

  /** `$mapping['field'] ?? $mapping[0] ?? null`. */
  function ResolveField(m: seq<Entry>): (r: Value)
    ensures IsSet(m, StrKey("field")) ==> r == Index(m, StrKey("field"))
    ensures !IsSet(m, StrKey("field")) && IsSet(m, IntKey(0)) ==> r == Index(m, IntKey(0))
    ensures !IsSet(m, StrKey("field")) && !IsSet(m, IntKey(0)) ==> r == Null
  {
    Coalesce(m, StrKey("field"), Coalesce(m, IntKey(0), Null))
  }

  /** `$mapping['operator'] ?? $mapping[1] ?? '='`. */
  function ResolveOperator(m: seq<Entry>): (r: Value)
    ensures r != Null
    ensures IsSet(m, StrKey("operator")) ==> r == Index(m, StrKey("operator"))
    ensures !IsSet(m, StrKey("operator")) && IsSet(m, IntKey(1)) ==> r == Index(m, IntKey(1))
    ensures !IsSet(m, StrKey("operator")) && !IsSet(m, IntKey(1)) ==> r == Str("=")
  {
    Coalesce(m, StrKey("operator"), Coalesce(m, IntKey(1), Str("=")))
  }

  /** The pattern `"%{$value}%"`. */
  function LikePattern(v: Value): (r: string)
    ensures |r| >= 2 && r[0] == '%' && r[|r| - 1] == '%'
    ensures r[1..|r| - 1] == ToPhpString(v)
  {
    "%" + ToPhpString(v) + "%"
  }

  /** What `foreach ($mapping['fields'] as $field)` visits: the values of the array,
      in order; a missing or non-array entry only raises a warning and visits nothing. */
  function SearchFields(m: seq<Entry>): (r: seq<Value>)
    ensures Index(m, StrKey("fields")).Arr? ==>
      var es := Index(m, StrKey("fields")).entries;
      |r| == |es| && forall i :: 0 <= i < |es| ==> r[i] == es[i].val
    ensures !Index(m, StrKey("fields")).Arr? ==> r == []
  {
    match Index(m, StrKey("fields"))
    case Arr(es) => Values(es)
    case _ => []
  }

  /** The clauses the search closure adds: one `orWhere(field, 'like', "%v%")` per field. */
  function SearchGroup(fields: seq<Value>, v: Value): (r: seq<Clause>)
    ensures |r| == |fields|
    ensures forall i :: 0 <= i < |fields| ==> r[i] == Basic(Or, fields[i], Str("like"), Str(LikePattern(v)))
  {
    seq(|fields|, i requires 0 <= i < |fields| => Basic(Or, fields[i], Str("like"), Str(LikePattern(v))))
  }

  /** The one clause `applyWhereCondition` adds: dispatch on the operator with PHP's
      strict `match`. */
  function ConditionClause(m: seq<Entry>, v: Value): (r: Clause)
    ensures r.conn == And
    ensures ResolveOperator(m) == Str("like") ==>
      r == Basic(And, ResolveField(m), Str("like"), Str("%" + ToPhpString(v) + "%"))
    ensures ResolveOperator(m) == Str("in") ==>
      r.In? && r.column == ResolveField(m)
      && (v.Arr? ==> r.values == Values(v.entries))
      && (!v.Arr? && !v.Null? ==> r.values == [v])
    ensures ResolveOperator(m) == Str("search") ==>
      r.Nested? && |r.body| == |SearchFields(m)|
      && forall i :: 0 <= i < |r.body| ==> r.body[i] == Basic(Or, SearchFields(m)[i], Str("like"), Str(LikePattern(v)))
    ensures ResolveOperator(m) !in {Str("like"), Str("in"), Str("search")} ==>
      r == Basic(And, ResolveField(m), ResolveOperator(m), v)
  {
    var field := ResolveField(m);
    var op := ResolveOperator(m);
    if op == Str("like") then Basic(And, field, Str("like"), Str(LikePattern(v)))
    else if op == Str("in") then In(And, field, Values(CastToArray(v)))
    else if op == Str("search") then Nested(And, SearchGroup(SearchFields(m), v))
    else Basic(And, field, op, v)
  }

  /** The one clause `applyFilter` adds for a mapping and a (non-empty) value. */
  function FilterClause(mapping: Mapping, v: Value): (r: Clause)
    ensures r.conn == And
    ensures mapping.Column? ==> r == Basic(And, Str(mapping.name), Str("="), v)
    ensures mapping.Config? && IsSet(mapping.options, StrKey("relation")) ==>
      r == Has(And, Index(mapping.options, StrKey("relation")), [ConditionClause(mapping.options, v)])
    ensures mapping.Config? && !IsSet(mapping.options, StrKey("relation")) ==>
      r == ConditionClause(mapping.options, v)
  {
    match mapping
    case Column(name) => Basic(And, Str(name), Str("="), v)
    case Config(m) =>
      if IsSet(m, StrKey("relation")) then Has(And, Index(m, StrKey("relation")), [ConditionClause(m, v)])
      else ConditionClause(m, v)
  }

  /** What one iteration of the `applyFilters` loop adds. */
  function FilterStep(filters: seq<Entry>, entry: MapEntry): (r: seq<Clause>)
    ensures IsEmpty(Index(filters, entry.key)) ==> r == []
    ensures !IsEmpty(Index(filters, entry.key)) ==> r == [FilterClause(entry.mapping, Index(filters, entry.key))]
  {
    var v := Index(filters, entry.key);
    if IsEmpty(v) then [] else [FilterClause(entry.mapping, v)]
  }

  /** The clauses `applyFilters` adds, map entry by map entry. */
  function FilterClauses(filters: seq<Entry>, filterMap: seq<MapEntry>): (r: seq<Clause>)
    ensures |r| <= |filterMap|
    ensures AllAnd(r)
    decreases |filterMap|
  {
    if filterMap == [] then []
    else FilterClauses(filters, filterMap[..|filterMap| - 1]) + FilterStep(filters, filterMap[|filterMap| - 1])
  }

  /** The positions of the map whose parameter is present and not `empty()`. */
  ghost function ProvidedPositions(filters: seq<Entry>, filterMap: seq<MapEntry>): set<nat>
  {
    set i: nat | i < |filterMap| && !IsEmpty(Index(filters, filterMap[i].key))
  }

  /** The last map entry joins the provided positions exactly when its parameter is
      present and not `empty()`. */
  lemma ProvidedPositionsStep(filters: seq<Entry>, filterMap: seq<MapEntry>)
    requires filterMap != []
    ensures var n := |filterMap| - 1;
      ProvidedPositions(filters, filterMap)
      == ProvidedPositions(filters, filterMap[..n]) + (if IsEmpty(Index(filters, filterMap[n].key)) then {} else {n})
  {
    var n := |filterMap| - 1;
    assert forall i :: 0 <= i < n ==> filterMap[..n][i] == filterMap[i];
  }

  /** PHP's truthiness of a `?string`: null, "" and "0" are false. */
  predicate Given(d: Option<string>)
  {
    d.Some? && !IsEmpty(Str(d.value))
  }

  /** `isValidDate`: not `empty()`, and `createFromFormat('Y-m-d')` followed by
      `format('Y-m-d')` gives back the identical string. */
  function IsValidDate(date: Option<string>): (ok: bool)
    ensures ok <==> date.Some? && IsCalendarDate(date.value)
  {
    if !Given(date) then false
    else RoundTripIff(date.value); RoundTrips(date.value)
  }

  /** The guard `$date && $this->isValidDate($date)` holds exactly for strict
      calendar dates: PHP's truthiness test adds nothing to the validator. */
  lemma DateGuardIsCalendarDate(date: Option<string>)
    ensures (Given(date) && IsValidDate(date)) == (date.Some? && IsCalendarDate(date.value))
  {
    if IsValidDate(date) { assert |date.value| == 10; }
  }

  /** The clause `applyDateRange` adds for one end of the range, if any. */
  function DateBound(date: Option<string>, field: string, op: string): (r: seq<Clause>)
    ensures |r| <= 1
    ensures r != [] <==> date.Some? && IsCalendarDate(date.value)
    ensures r != [] ==> r[0] == DateCmp(And, field, op, date.value)
  {
    if date.Some? && IsCalendarDate(date.value) then [DateCmp(And, field, op, date.value)] else []
  }

  /** The clauses `applyDateRange` adds. */
  function DateRangeClauses(dateFrom: Option<string>, dateTo: Option<string>, field: string := DefaultDateField): (r: seq<Clause>)
    ensures |r| == (if dateFrom.Some? && IsCalendarDate(dateFrom.value) then 1 else 0)
                 + (if dateTo.Some? && IsCalendarDate(dateTo.value) then 1 else 0)
    ensures forall i :: 0 <= i < |r| ==>
      r[i].DateCmp? && r[i].conn == And && r[i].dateColumn == field && IsCalendarDate(r[i].date)
    ensures dateFrom.Some? && IsCalendarDate(dateFrom.value) ==> r[0] == DateCmp(And, field, ">=", dateFrom.value)
    ensures dateTo.Some? && IsCalendarDate(dateTo.value) ==> r[|r| - 1] == DateCmp(And, field, "<=", dateTo.value)
  {
    var lower := DateBound(dateFrom, field, ">=");
    var upper := DateBound(dateTo, field, "<=");
    assert forall i :: 0 <= i < |upper| ==> (lower + upper)[|lower| + i] == upper[i];
    lower + upper
  }

  // ---------------------------------------------------------------------------
  // The trait's methods, on a mutable builder

  /** `applyFilters`: visit the filter map in order and apply each entry whose
      request parameter is not `empty()`; return the same builder. */
  method ApplyFilters(query: Builder, filters: seq<Entry>, filterMap: seq<MapEntry>) returns (r: Builder)
    modifies query
    ensures r == query
    ensures query.wheres == old(query.wheres) + FilterClauses(filters, filterMap)
  {
    var i := 0;
    while i < |filterMap|
      invariant 0 <= i <= |filterMap|
      invariant query.wheres == old(query.wheres) + FilterClauses(filters, filterMap[..i])
    {
      var entry := filterMap[i];
      if !IsEmpty(Index(filters, entry.key)) {
        ApplyFilter(query, entry.mapping, Index(filters, entry.key));
      }
      assert filterMap[..i + 1][..i] == filterMap[..i];
      i := i + 1;
    }
    assert filterMap[..i] == filterMap;
    r := query;
  }

  /** `applyFilter`: a string mapping is an equality on that column; a mapping with a
      `relation` puts the condition inside `whereHas`; any other goes on the query. */
  method ApplyFilter(query: Builder, mapping: Mapping, value: Value)
    modifies query
    ensures query.wheres == old(query.wheres) + [FilterClause(mapping, value)]
  {
    match mapping
    case Column(name) =>
      query.Where(Str(name), Str("="), value);
    case Config(m) =>
      if IsSet(m, StrKey("relation")) {
        var related := new Builder();
        ApplyWhereCondition(related, m, value);
        assert related.wheres == [ConditionClause(m, value)];
        assert query.wheres == old(query.wheres);
        query.WhereHas(Index(m, StrKey("relation")), related.wheres);
      } else {
        ApplyWhereCondition(query, m, value);
      }
  }

  /** `applyWhereCondition`: resolve field and operator, then dispatch. */
  method ApplyWhereCondition(query: Builder, m: seq<Entry>, value: Value)
    modifies query
    ensures query.wheres == old(query.wheres) + [ConditionClause(m, value)]
  {
    var field := ResolveField(m);
    var op := ResolveOperator(m);
    if op == Str("like") {
      query.Where(field, Str("like"), Str(LikePattern(value)));
    } else if op == Str("in") {
      query.WhereIn(field, Values(CastToArray(value)));
    } else if op == Str("search") {
      ApplySearchFilter(query, m, value);
    } else {
      query.Where(field, op, value);
    }
  }

  /** `applySearchFilter`: one nested group, built by a closure that adds an
      `orWhere(field, 'like', "%v%")` for each of `$mapping['fields']`. */
  method ApplySearchFilter(query: Builder, m: seq<Entry>, value: Value)
    modifies query
    ensures query.wheres == old(query.wheres) + [Nested(And, SearchGroup(SearchFields(m), value))]
  {
    var group := new Builder();
    var fields := SearchFields(m);
    var i := 0;
    while i < |fields|
      invariant 0 <= i <= |fields|
      invariant group.wheres == SearchGroup(fields[..i], value)
      invariant query.wheres == old(query.wheres)
    {
      group.OrWhere(fields[i], Str("like"), Str(LikePattern(value)));
      i := i + 1;
    }
    assert fields[..i] == fields;
    query.WhereNested(group.wheres);
  }

  /** `applyDateRange`: a `whereDate >=` for a valid start, a `whereDate <=` for a
      valid end, on `created_at` unless another column is named. */
  method ApplyDateRange(query: Builder, dateFrom: Option<string>, dateTo: Option<string>, field: string := DefaultDateField)
    modifies query
    ensures query.wheres == old(query.wheres) + DateRangeClauses(dateFrom, dateTo, field)
  {
    ApplyDateBound(query, dateFrom, field, ">=");
    ApplyDateBound(query, dateTo, field, "<=");
  }

  /** One of the two guarded blocks of `applyDateRange`:
      `if ($date && $this->isValidDate($date)) $query->whereDate($field, $op, $date)`. */
  method ApplyDateBound(query: Builder, date: Option<string>, field: string, op: string)
    modifies query
    ensures query.wheres == old(query.wheres) + DateBound(date, field, op)
  {
    DateGuardIsCalendarDate(date);
    if Given(date) && IsValidDate(date) {
      query.WhereDate(field, op, date.value);
    }
  }

  // ---------------------------------------------------------------------------
  // What the clauses mean

  /** The filter map is visited in order: the clauses for a map split in two are the
      clauses of the first part followed by those of the second. */
  lemma {:induction false} FilterClausesAppend(filters: seq<Entry>, a: seq<MapEntry>, b: seq<MapEntry>)
    ensures FilterClauses(filters, a + b) == FilterClauses(filters, a) + FilterClauses(filters, b)
    decreases |b|
  {
    if b == [] {
      assert a + b == a;
    } else {
      var b', last := b[..|b| - 1], b[|b| - 1];
      FilterClausesAppend(filters, a, b');
      SplitLast(a, b);
      FilterClausesSnoc(filters, a + b', last);
      FilterClausesSnoc(filters, b', last);
      var ca, cb', step := FilterClauses(filters, a), FilterClauses(filters, b'), FilterStep(filters, last);
      assert FilterClauses(filters, a + b) == ca + cb' + step;
      assert FilterClauses(filters, b) == cb' + step;
      ConcatAssoc(ca, cb', step);
    }
  }

  lemma SplitLast<T>(a: seq<T>, b: seq<T>)
    requires b != []
    ensures b == b[..|b| - 1] + [b[|b| - 1]]
    ensures a + b == (a + b[..|b| - 1]) + [b[|b| - 1]]
  {
    assert b == b[..|b| - 1] + [b[|b| - 1]];
  }

  lemma ConcatAssoc<T>(x: seq<T>, y: seq<T>, z: seq<T>)
    ensures x + y + z == x + (y + z)
  {
  }

  /** One more map entry adds its own clauses after the others. */
  lemma FilterClausesSnoc(filters: seq<Entry>, m: seq<MapEntry>, entry: MapEntry)
    ensures FilterClauses(filters, m + [entry]) == FilterClauses(filters, m) + FilterStep(filters, entry)
  {
    assert (m + [entry])[..|m|] == m;
  }

  /** Exactly one clause per map entry whose parameter is present and not `empty()`
      (null, false, 0, "", "0", []), and none for the others. */
  lemma {:induction false} FilterClausesCount(filters: seq<Entry>, filterMap: seq<MapEntry>)
    ensures |FilterClauses(filters, filterMap)| == |ProvidedPositions(filters, filterMap)|
    decreases |filterMap|
  {
    if filterMap != [] {
      var n := |filterMap| - 1;
      var prefix := filterMap[..n];
      FilterClausesCount(filters, prefix);
      ProvidedPositionsStep(filters, filterMap);
      var before := ProvidedPositions(filters, prefix);
      assert n !in before;
      assert |FilterStep(filters, filterMap[n])| == if IsEmpty(Index(filters, filterMap[n].key)) then 0 else 1;
    }
  }

  /** Only the parameters the map names are read: two requests that agree on those
      yield the same clauses, whatever else they carry. */
  lemma {:induction false} FilterClausesReadOnlyMappedKeys(f1: seq<Entry>, f2: seq<Entry>, filterMap: seq<MapEntry>)
    requires forall i :: 0 <= i < |filterMap| ==> Index(f1, filterMap[i].key) == Index(f2, filterMap[i].key)
    ensures FilterClauses(f1, filterMap) == FilterClauses(f2, filterMap)
    decreases |filterMap|
  {
    if filterMap != [] {
      FilterClausesReadOnlyMappedKeys(f1, f2, filterMap[..|filterMap| - 1]);
    }
  }

  /** A request parameter that the map does not name never changes the query. */
  lemma {:induction false} UnmappedParameterIgnored(filters: seq<Entry>, filterMap: seq<MapEntry>, k: Key, v: Value)
    requires forall i :: 0 <= i < |filterMap| ==> filterMap[i].key != k
    ensures FilterClauses(filters + [Entry(k, v)], filterMap) == FilterClauses(filters, filterMap)
    decreases |filterMap|
  {
    if filterMap != [] {
      var n := |filterMap| - 1;
      UnmappedParameterIgnored(filters, filterMap[..n], k, v);
      FindPastEnd(filters, Entry(k, v), filterMap[n].key);
    }
  }

  /** Applying the same filters a second time, to any base query, selects the same
      rows as applying them once: the added clauses are joined by AND, so the second
      copy only repeats conditions the last AND-run already carries. */
  lemma FiltersIdempotent<R>(e: Engine<R>, base: seq<Clause>, filters: seq<Entry>, filterMap: seq<MapEntry>, row: R)
    ensures var once := base + FilterClauses(filters, filterMap);
      Matches(e, once + FilterClauses(filters, filterMap), row) == Matches(e, once, row)
  {
    RepeatedAndSuffixSelectsSameRows(e, base, FilterClauses(filters, filterMap), row);
  }

  /** The filters narrow the base query: a row passes exactly when it passes the base
      query and every added clause. */
  lemma FiltersConjoin<R>(e: Engine<R>, base: seq<Clause>, filters: seq<Entry>, filterMap: seq<MapEntry>, row: R)
    requires AllAnd(base)
    ensures var added := FilterClauses(filters, filterMap);
      Matches(e, base + added, row) <==>
      Matches(e, base, row) && forall j :: 0 <= j < |added| ==> Holds(e, added[j], row)
  {
    var added := FilterClauses(filters, filterMap);
    var all := base + added;
    MatchesAllAnd(e, all, row);
    MatchesAllAnd(e, base, row);
    assert forall j :: 0 <= j < |added| ==> all[|base| + j] == added[j];
    assert forall j :: 0 <= j < |base| ==> all[j] == base[j];
  }

  /** The search operator selects a row when any one of the listed fields is like
      `%value%`; with no fields the group constrains nothing. */
  lemma SearchGroupHolds<R>(e: Engine<R>, m: seq<Entry>, v: Value, row: R)
    requires ResolveOperator(m) == Str("search")
    ensures var fields := SearchFields(m);
      Holds(e, ConditionClause(m, v), row) <==>
      fields == [] || exists i :: 0 <= i < |fields| && e.test(row, Basic(Or, fields[i], Str("like"), Str(LikePattern(v))))
  {
    var fields := SearchFields(m);
    var body := ConditionClause(m, v).body;
    var items := seq(|body|, i requires 0 <= i < |body| => (body[i].conn, Holds(e, body[i], row)));
    CombineAllOr(items);
    assert forall i :: 0 <= i < |fields| ==> items[i].1 == e.test(row, Basic(Or, fields[i], Str("like"), Str(LikePattern(v))));
  }

  /** A mapping with a relation selects a row exactly when some row the relation
      reaches satisfies the condition (`whereHas`). */
  lemma RelationFilterHolds<R>(e: Engine<R>, m: seq<Entry>, v: Value, row: R)
    requires IsSet(m, StrKey("relation"))
    ensures var rs := e.related(row, Index(m, StrKey("relation")));
      Holds(e, FilterClause(Config(m), v), row) <==>
      exists k :: 0 <= k < |rs| && Holds(e, ConditionClause(m, v), rs[k])
  {
    var rs := e.related(row, Index(m, StrKey("relation")));
    var body := [ConditionClause(m, v)];
    forall k | 0 <= k < |rs|
      ensures Combine(seq(|body|, i requires 0 <= i < |body| => (body[i].conn, Holds(e, body[i], rs[k]))))
              == Holds(e, ConditionClause(m, v), rs[k])
    {
      var items := seq(|body|, i requires 0 <= i < |body| => (body[i].conn, Holds(e, body[i], rs[k])));
      assert items[1..] == [];
    }
  }

  /** A positional mapping `[column, operator]` means the same as
      `['field' => column, 'operator' => operator]`. */
  lemma PositionalMappingMatchesNamed(column: Value, op: Value, v: Value)
    ensures ConditionClause([Entry(IntKey(0), column), Entry(IntKey(1), op)], v)
         == ConditionClause([Entry(StrKey("field"), column), Entry(StrKey("operator"), op)], v)
  {
    var positional := [Entry(IntKey(0), column), Entry(IntKey(1), op)];
    var named := [Entry(StrKey("field"), column), Entry(StrKey("operator"), op)];
    assert ResolveField(positional) == ResolveField(named) by {
      assert Find(positional, StrKey("field")) == None && Find(positional, IntKey(0)) == Some(column);
      assert Find(named, StrKey("field")) == Some(column) && Find(named, IntKey(0)) == None;
    }
    assert ResolveOperator(positional) == ResolveOperator(named) by {
      assert Find(positional, StrKey("operator")) == None && Find(positional, IntKey(1)) == Some(op);
      assert Find(named, StrKey("operator")) == Some(op) && Find(named, IntKey(1)) == None;
    }
    assert SearchFields(positional) == SearchFields(named) by {
      assert Find(positional, StrKey("fields")) == None && Find(named, StrKey("fields")) == None;
    }
  }

  /** The date validator accepts February 29th of a leap year. */
  lemma IsValidDateAcceptsLeapDay()
    ensures IsValidDate(Some("2024-02-29"))
  {
    LeapDayAccepted();
  }

  /** The date validator rejects February 29th outside a leap year, and a day and a
      month past their ends. */
  lemma IsValidDateRejectsOverflow()
    ensures !IsValidDate(Some("2023-02-29"))
    ensures !IsValidDate(Some("2024-02-30")) && !IsValidDate(Some("2024-13-01"))
  {
    assert !IsValidDate(Some("2023-02-29")) by { NonLeapDayRejected(); }
    assert !IsValidDate(Some("2024-02-30")) by { DayOverflowRejected(); }
    assert !IsValidDate(Some("2024-13-01")) by { MonthOverflowRejected(); }
  }

  /** The date validator on unpadded, short, padded-out and empty input. */
  lemma IsValidDateRejectsMalformed()
    ensures !IsValidDate(Some("2024-2-5")) && !IsValidDate(Some("24-02-05")) && !IsValidDate(Some("2024-02-05 "))
    ensures !IsValidDate(None) && !IsValidDate(Some("")) && !IsValidDate(Some("0"))
  {
    assert |"2024-2-5"| == 8 && |"24-02-05"| == 8 && |"2024-02-05 "| == 11;
  }
}
