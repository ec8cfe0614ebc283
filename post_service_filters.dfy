/** The filter map `PostService` declares (app/Services/PostService.php), read the way
    the filter trait reads it. Its entries use the keys `type`, `condition`, `key` and
    `whereHas`; the trait looks only at `field`/0, `operator`/1, `relation` and
    `fields`. So every entry resolves to field null and operator "=", and no entry
    becomes a relation constraint. */
module PostServiceFilters {
  import opened PhpValues
  import opened Query
  import opened FilterService

  function Options(pairs: seq<(string, string)>): (r: seq<Entry>)
  {
    seq(|pairs|, i requires 0 <= i < |pairs| => Entry(StrKey(pairs[i].0), Str(pairs[i].1)))
  }

  const PostFilterMap: seq<MapEntry> := [
    MapEntry(StrKey("title"), Config(Options([("type", "string"), ("condition", "like")]))),
    MapEntry(StrKey("content"), Config(Options([("type", "string"), ("condition", "like")]))),
    MapEntry(StrKey("status"), Config(Options([("type", "string"), ("condition", "=")]))),
    MapEntry(StrKey("author_ids"), Config(Options([("type", "int"), ("condition", "in"), ("key", "author_id")]))),
    MapEntry(StrKey("tag_ids"), Config(Options([("type", "int"), ("condition", "in"), ("key", "tags.id"), ("whereHas", "tags")]))),
    MapEntry(StrKey("date_from"), Config(Options([("type", "date"), ("condition", ">="), ("key", "published_at")]))),
    MapEntry(StrKey("date_to"), Config(Options([("type", "date"), ("condition", "<="), ("key", "published_at")])))
  ]

  /** None of the keys the trait reads. */
  predicate Unrecognised(m: seq<Entry>)
  {
    forall i :: 0 <= i < |m| ==>
      m[i].key != StrKey("field") && m[i].key != IntKey(0) && m[i].key != StrKey("operator")
      && m[i].key != IntKey(1) && m[i].key != StrKey("relation")
  }

  predicate Degenerate(mapping: Mapping)
  {
    mapping.Config? && Unrecognised(mapping.options)
  }

  /** Every clause is `where(null, '=', ...)`. */
  predicate NullEqualities(cs: seq<Clause>)
  {
    forall j :: 0 <= j < |cs| ==> cs[j].Basic? && cs[j].column == Null && cs[j].op == Str("=")
  }

  /** An options array that names none of the trait's keys becomes
      `where(null, '=', $value)`. */
  lemma UnrecognisedOptionsGiveNullEquality(m: seq<Entry>, v: Value)
    requires Unrecognised(m)
    ensures FilterClause(Config(m), v) == Basic(And, Null, Str("="), v)
  {
    assert Find(m, StrKey("field")) == None && Find(m, IntKey(0)) == None;
    assert Find(m, StrKey("operator")) == None && Find(m, IntKey(1)) == None;
    assert Find(m, StrKey("relation")) == None;
  }

  /** Whatever the request, every clause a map of such entries adds is
      `where(null, '=', ...)`. */
  lemma {:induction false} DegenerateMapGivesNullEqualities(filters: seq<Entry>, filterMap: seq<MapEntry>)
    requires forall i :: 0 <= i < |filterMap| ==> Degenerate(filterMap[i].mapping)
    ensures NullEqualities(FilterClauses(filters, filterMap))
    decreases |filterMap|
  {
    if filterMap != [] {
      var n := |filterMap| - 1;
      DegenerateMapGivesNullEqualities(filters, filterMap[..n]);
      var prefix := FilterClauses(filters, filterMap[..n]);
      var step := FilterStep(filters, filterMap[n]);
      assert FilterClauses(filters, filterMap) == prefix + step;
      var v := Index(filters, filterMap[n].key);
      if !IsEmpty(v) {
        assert Degenerate(filterMap[n].mapping);
        UnrecognisedOptionsGiveNullEquality(filterMap[n].mapping.options, v);
        assert step == [Basic(And, Null, Str("="), v)];
      }
      var r: seq<Clause> := prefix + step;
      forall j | 0 <= j < |r| ensures r[j].Basic? && r[j].column == Null && r[j].op == Str("=") {
        if j < |prefix| {
          assert r[j] == prefix[j];
        }
      }
    }
  }

  /** PostService's own map, fed to the trait: the `like`, `in`, date and `whereHas`
      settings it spells out are never seen, and every provided parameter becomes an
      equality on a null column. */
  lemma PostFilterMapGivesNullEqualities(filters: seq<Entry>)
    ensures NullEqualities(FilterClauses(filters, PostFilterMap))
  {
    forall i | 0 <= i < |PostFilterMap| ensures Degenerate(PostFilterMap[i].mapping) {
    }
    DegenerateMapGivesNullEqualities(filters, PostFilterMap);
  }
}
