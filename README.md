# Post filtering: a Dafny model of the filter trait and the post repository's filters

This blog application turns HTTP request parameters into database query constraints
in two places:

- The `FilterService` trait (`app/Services/FilterService.php`) walks a per-entity
  filter map. It translates each request parameter that is present and not `empty()`
  into one where-clause on an Eloquent builder. The clause is one of:
  - an equality on a column;
  - a `like '%value%'`;
  - a `whereIn`;
  - an OR group across several search fields;
  - a direct comparison.

  A mapping that names a relation wraps its condition in a `whereHas`. The trait also
  adds an optional date range, guarded by a strict `Y-m-d` validator.
- `PostRepository` (`app/Repositories/PostRepository.php`) has:
  - a direct-field filter that either skips, adds a `whereIn` or adds an equality;
  - the page-size and ordering defaults of `getPosts` and `buildQuery`.

The Dafny project models these pieces as follows:

- `php_values.dfy` (module `PhpValues`): the PHP values the code handles. It covers:
  - arrays as ordered key/value lists;
  - `empty()`, `isset` and `??`;
  - the `(array)` cast;
  - string interpolation.
- `php_date.dfy` (module `PhpDate`): `DateTime::createFromFormat('Y-m-d')` followed
  by `format('Y-m-d')`. Its main theorem: the round trip gives back the input exactly
  for 10-character `YYYY-MM-DD` strings that name a real Gregorian day.
- `query.dfy` (module `Query`): the part of Laravel's query builder the filters drive.
  - A `Builder` class holds the sequence of where-clauses; each builder method
    appends one clause.
  - A symbolic evaluation (`Holds`, `Matches`) reads a where-list as SQL does: AND
    binds tighter than OR, and the first connective is ignored.
  - The evaluation is parameterised by an `Engine`, which decides single
    comparisons and relation lookups.
- `filter_service.dfy` (module `FilterService`): the trait.
  - Its methods change a `Builder` in place. Each is proved against a specification
    function over clause lists.
  - Lemmas state order, count, which keys are read, idempotence, narrowing, search
    and relation semantics, and the date validator.
- `post_repository.dfy` (module `PostRepository`): the repository's direct-field
  filter and its defaults, as functions on clause lists.
- `post_service_filters.dfy` (module `PostServiceFilters`): the filter map that
  `PostService` declares, read the way the trait reads it.

The code has no request-parameter type coercion, no reserved parameter names and no
sort-direction normalisation, and none is modelled.

The filters append clauses joined by AND. Over a base query joined only by AND they
narrow it (`FilterService.FiltersConjoin`). A base query with a top-level `orWhere` is
narrowed only in its last AND-run (`Query.AndSuffixConstrainsLastRun`). Applying the
same filters twice selects the same rows as once, whatever the base query
(`FilterService.FiltersIdempotent`).

`PostService`'s filter map uses keys (`type`, `condition`, `key`, `whereHas`) that the
trait never reads. Fed through the trait, every entry becomes
`where(null, '=', value)` (`PostServiceFilters.PostFilterMapGivesNullEqualities`).

## Model

| member | source | states |
|---|---|---|
| FilterService.ApplyFilters | app/Services/FilterService.php:13-21 | the query gets exactly the clauses `FilterClauses` lists, in filter-map order, and the same builder is returned |
| FilterService.ApplyFilter | app/Services/FilterService.php:26-42 | exactly one clause is added: an equality for a column name, a `whereHas` around the condition when `relation` is set, otherwise the condition itself |
| FilterService.ApplyWhereCondition | app/Services/FilterService.php:47-58 | exactly one clause, the operator dispatch `ConditionClause`, is added |
| FilterService.ApplySearchFilter | app/Services/FilterService.php:63-70 | one nested group is added, holding one `orWhere like %value%` per entry of `fields`, in list order |
| FilterService.ApplyDateRange | app/Services/FilterService.php:75-84 | the query gets exactly the clauses `DateRangeClauses` lists, lower bound first |
| FilterService.ApplyDateBound | app/Services/FilterService.php:77-83 | one guarded `whereDate` is added only for a non-empty string that passes the validator |
| FilterService.ResolveField | app/Services/FilterService.php:49 | the field is `field` if set, else position 0 if set, else null |
| FilterService.ResolveOperator | app/Services/FilterService.php:50 | the operator is `operator` if set, else position 1 if set, else "="; it is never null |
| FilterService.LikePattern | app/Services/FilterService.php:53 | the pattern is the value's string form between two `%` |
| FilterService.SearchGroup | app/Services/FilterService.php:65-69 | one OR-joined `like` clause per search field, in order |
| FilterService.SearchFields | app/Services/FilterService.php:66 | the foreach visits the values of an array-valued `fields`, in order, and nothing when `fields` is missing or not an array, where the application raises an error instead |
| FilterService.FilterClause | app/Services/FilterService.php:28-41 | a string mapping gives an equality on that column; an options array with `relation` set gives a `whereHas` on that relation around the condition; any other options array gives the condition itself; all are joined by AND |
| FilterService.FilterStep | app/Services/FilterService.php:16-17 | an `empty()` parameter adds nothing; any other adds exactly the entry's one clause for that value |
| FilterService.ConditionClause | app/Services/FilterService.php:52-57 | the strict `match` cases: `like` gives `%v%`; `in` gives the array's values, or a scalar as a one-element list; `search` gives the OR group; any other operator gives a direct comparison; all are joined by AND |
| FilterService.FilterClauses | app/Services/FilterService.php:15-20 | never more clauses than map entries, all joined by AND |
| FilterService.FilterClausesAppend | app/Services/FilterService.php:15-20 | the clauses follow the map's order: filtering with map `a + b` is filtering with `a`, then with `b` |
| FilterService.FilterClausesSnoc | app/Services/FilterService.php:15-20 | one more map entry adds its own clauses after those of the entries before it |
| FilterService.FilterClausesCount | app/Services/FilterService.php:16-17 | the number of clauses equals the number of map keys whose parameter is present and not `empty()` |
| FilterService.FilterClausesReadOnlyMappedKeys | app/Services/FilterService.php:15-16 | two requests that agree on the mapped keys give the same clauses |
| FilterService.UnmappedParameterIgnored | app/Services/FilterService.php:15-16 | adding a request parameter the map does not name changes nothing |
| PhpValues.FindPastEnd | app/Services/FilterService.php:16 | looking up a key is unaffected by a later entry with another key |
| FilterService.FiltersConjoin | app/Services/FilterService.php:13-21 | for a base query joined only by AND, a row passes the filtered query exactly when it passes the base query and every added clause |
| FilterService.FiltersIdempotent | app/Services/FilterService.php:13-21 | for any base query, applying the same filters twice selects the same rows as applying them once |
| FilterService.SearchGroupHolds | app/Services/FilterService.php:52-69 | the search condition holds exactly when some field is like `%value%`; with no fields it constrains nothing |
| FilterService.RelationFilterHolds | app/Services/FilterService.php:34-38 | a relation mapping holds for a row exactly when some related row satisfies the condition |
| FilterService.PositionalMappingMatchesNamed | app/Services/FilterService.php:49-50 | `[column, op]` means the same as `['field' => column, 'operator' => op]` |
| FilterService.IsValidDate | app/Services/FilterService.php:89-97 | true exactly for a given string in strict `YYYY-MM-DD` form that names a real calendar day |
| FilterService.DateGuardIsCalendarDate | app/Services/FilterService.php:77-82 | the truthiness test before the validator adds nothing: the guard holds exactly for strict calendar dates |
| FilterService.DateBound | app/Services/FilterService.php:77-83 | at most one clause, present exactly when the date is a strict calendar date, and then a `whereDate` with that operator and date |
| FilterService.DateRangeClauses | app/Services/FilterService.php:75-84 | 0, 1 or 2 clauses, one per valid end; every clause is a `whereDate` on the field (default `created_at`) with a calendar date; `>=` from `dateFrom` comes first, `<=` from `dateTo` comes last |
| FilterService.IsValidDateAcceptsLeapDay | app/Services/FilterService.php:89-97 | `2024-02-29` is accepted |
| FilterService.IsValidDateRejectsOverflow | app/Services/FilterService.php:89-97 | `2023-02-29`, `2024-02-30` and `2024-13-01` are rejected |
| FilterService.IsValidDateRejectsMalformed | app/Services/FilterService.php:89-97 | `2024-2-5`, `24-02-05`, a trailing space, null, "" and "0" are rejected |
| PhpDate.RoundTripIff | app/Services/FilterService.php:95-96 | parsing with `Y-m-d` and re-formatting gives back the string exactly when it is a strict calendar date |
| PhpDate.CalendarDateRoundTrips | app/Services/FilterService.php:95-96 | every strict calendar date survives the round trip |
| PhpDate.RoundTripIsCalendarDate | app/Services/FilterService.php:95-96 | only strict calendar dates survive the round trip |
| PhpDate.ParseYmd | app/Services/FilterService.php:95 | a `DDDD-DD-DD` string is read as the year, month and day its digit groups spell; any successful parse reads a 5 to 10 character string that starts with a digit, with non-negative month and day |
| PhpDate.RoundTrips | app/Services/FilterService.php:95-96 | only a string of ten characters with dashes at positions 4 and 7 can survive the parse and re-format |
| PhpDate.Format | app/Services/FilterService.php:96 | a date in the years 0..9999 is written as its padded year, month and day separated by dashes, ten characters; any other year gives more than ten |
| PhpDate.Normalize | app/Services/FilterService.php:95 | overflowing months and days roll over into a real date; a real date is left unchanged |
| PhpDate.RollDays | app/Services/FilterService.php:95 | the result is always a real date; an in-range day is unchanged; day 0 becomes the last day of the month before; a day past the month's end lands in a later month, on a smaller day number |
| PhpDate.DaysInMonth | app/Services/FilterService.php:95 | months have 28 to 31 days, and 29 exactly for February of a Gregorian leap year |
| PhpDate.YearText | app/Services/FilterService.php:96 | a year 0..9999 is written as four padded digits; later years use at least five characters; negative years start with `-` and use at least five characters |
| PhpDate.LeapDayAccepted | app/Services/FilterService.php:95-96 | `2024-02-29` is a calendar date |
| PhpDate.DayOverflowRejected | app/Services/FilterService.php:95-96 | `2024-02-30` is not |
| PhpDate.NonLeapDayRejected | app/Services/FilterService.php:95-96 | `2023-02-29` is not |
| PhpDate.MonthOverflowRejected | app/Services/FilterService.php:95-96 | `2024-13-01` is not |
| PhpValues.CastToArray | app/Services/FilterService.php:54 | `(array)` keeps an array, turns null into `[]` and a scalar into a one-element list |
| PhpValues.Find | app/Services/FilterService.php:49-50 | a key lookup fails exactly when no entry has the key; otherwise it returns the value of an entry with that key |
| Query.Builder.Where | app/Services/FilterService.php:53-56 | appends one AND comparison and nothing else |
| Query.Builder.OrWhere | app/Services/FilterService.php:67 | appends one OR `like` comparison |
| Query.Builder.WhereIn | app/Services/FilterService.php:54 | appends one AND membership test |
| Query.Builder.WhereDate | app/Services/FilterService.php:78-82 | appends one AND date comparison |
| Query.Builder.WhereNested | app/Services/FilterService.php:65 | appends one AND group holding the closure's clauses |
| Query.Builder.WhereHas | app/Services/FilterService.php:35-37 | appends one AND relation-existence clause holding the closure's clauses |
| Query.MatchesAllAnd | app/Services/FilterService.php:15-19 | a where-list joined only by AND selects a row exactly when every clause holds |
| Query.CombineAllOr | app/Services/FilterService.php:66-68 | a non-empty list joined only by OR holds exactly when one of its items holds |
| Query.EmptyGroupSelectsSameRows | app/Services/FilterService.php:65-69 | an empty nested group, placed after any where-list and before any clauses joined by AND, selects the same rows as leaving it out |
| Query.RepeatedClausesSelectSameRows | app/Services/FilterService.php:13-21 | appending AND clauses that are already present to a where-list joined only by AND selects the same rows |
| Query.FoldState | app/Services/FilterService.php:15-19 | the evaluation of a where-list is the OR of its finished AND-runs and its open run |
| Query.Summary | app/Services/FilterService.php:15-19 | a whole where-list holds exactly when a finished AND-run or the open run holds |
| Query.SummaryAppendAnd | app/Services/FilterService.php:15-19 | appending clauses joined by AND keeps the finished runs and conjoins every appended clause to the open run |
| Query.OutcomesAppend | app/Services/FilterService.php:15-19 | the outcomes of two concatenated where-lists are the outcomes of each, in order |
| Query.AndSuffixConstrainsLastRun | app/Services/FilterService.php:13-21 | for any base query, a row passes the filtered query exactly when an earlier AND-run of the base holds, or its last run and every added clause hold |
| Query.RepeatedAndSuffixSelectsSameRows | app/Services/FilterService.php:13-21 | for any base query, appending the same AND clauses a second time selects the same rows as appending them once |
| PostRepository.FilterWithDirectFields | app/Repositories/PostRepository.php:116-122 | an `empty()` value leaves the query unchanged; an array adds one `whereIn` on the field with the array's elements in order; any other value adds one equality on the field; the earlier clauses are kept |
| PostRepository.DirectFilterNarrows | app/Repositories/PostRepository.php:116-122 | for a query joined only by AND, a row passes the filtered query exactly when it passes the original and, for a non-empty value, the new clause |
| PostRepository.DirectFilterIdempotent | app/Repositories/PostRepository.php:116-122 | for any query, filtering twice on the same field and value selects the same rows as once |
| PostRepository.DirectFilterAgreesWithTrait | app/Repositories/PostRepository.php:121 | for a non-empty value, the direct filter adds the clause the trait adds for an `in` mapping (array) or a column mapping (scalar) |
| PostRepository.PageSize | app/Repositories/PostRepository.php:107-108 | the page size is `per_page` when set, else 15 |
| PostRepository.OrderBy | app/Repositories/PostRepository.php:89-92 | ordering is by `order_by` or `id`, and by `order_direction` or `desc` |
| PostServiceFilters.UnrecognisedOptionsGiveNullEquality | app/Services/FilterService.php:34-56 | an options array naming none of `field`, 0, `operator`, 1, `relation` becomes `where(null, '=', value)` |
| PostServiceFilters.DegenerateMapGivesNullEqualities | app/Services/FilterService.php:15-20 | a map made only of such entries yields, for any request, only `where(null, '=', ...)` clauses |
| PostServiceFilters.PostFilterMapGivesNullEqualities | app/Services/PostService.php:17-25 | `PostService`'s filter map, fed to the trait, yields only `where(null, '=', ...)` clauses for any request |

## Left out

- WhereNested: appends the group even when the closure added no clause, where
  Laravel's `where(Closure)` adds nothing. So for a `search` mapping without
  `relation` whose `fields` is `[]`, `FilterClausesCount` counts one clause where the
  real builder has none. With `relation` set, both have the one `whereHas`; the model's
  body is an empty group where Laravel's is empty, and both hold for every related row.
  `Query.EmptyGroupSelectsSameRows` proves that the empty group, in front of clauses
  joined by AND and after any where-list, selects the same rows as no group.

- `buildQuery` (app/Repositories/PostRepository.php:73) calls `dd("sdfs")` before it
  builds anything, so neither `buildQuery` nor `getPosts` ever returns a query. Only
  their defaults are modelled, as the resolvers `PageSize` and `OrderBy`.
- The filter trait that `PostRepository` imports (`App\Traits\FilterService`) is not
  part of this model. Neither is the repository's own `$filterMap`, which only that
  trait reads.
- `filterWithRelationDirectFields` (app/Repositories/PostRepository.php:124-130) is
  left out. It calls the relation name as a function and ignores the closure's builder.
- `getAllFiltered`, called from `PostService`, is defined in no file of the
  repository, so it is not part of this model.
- SQL semantics are left out: LIKE case sensitivity, `whereDate`'s time truncation and
  the meaning of a null column. Single comparisons and relation lookups are parameters
  (`Query.Engine`).
- Laravel's operator validation and its null handling in `where` are not modelled.
  Clauses keep the operator and value exactly as the trait passes them.
- PHP floats and objects are not values of the model. PHP's canonicalisation of
  numeric string keys (`"1"` becomes `1`) is not modelled either: keys are compared
  exactly.
- PHP warnings are not modelled. Laravel's error handler turns each of them into an
  `ErrorException` that ends the request, but the model carries on. There are two:
  - a `search` mapping whose `fields` is missing or not an array
    (app/Services/FilterService.php:66): the application throws inside the closure,
    before the group is added; the model adds an empty group (`SearchFields` gives
    `[]`);
  - a `like` or `search` mapping given an array value, such as `title[]=x`
    (app/Services/FilterService.php:53 and :67): the application throws on "Array to
    string conversion"; the model compares against `%Array%` (`LikePattern`).
- `PhpDate.ParseYmd`: the parser covers only what `Y-m-d` accepts in timelib (a year
  of up to 4 digits, month and day of up to 2 digits, literal dashes, no trailing
  text). Parse warnings that do not stop the parse are not modelled. Neither change
  alters which strings survive the round trip.
- Controllers, routes, views, requests and resources, the JavaScript front end, CRUD
  and storage services, export and the seeders are framework or UI glue outside the
  filtering core.
