/** The slice of Laravel's query builder that the filter layer drives: a builder
    accumulates where-clauses in order, and a query is read as SQL reads a WHERE list
    (AND binds tighter than OR; the connective of the first clause is ignored).
    What a single comparison means for a row, and which rows a relation reaches, are
    left to the database: they are parameters (an `Engine`) of the evaluation. */
module Query {
  import opened PhpValues

  /** The boolean a clause joins the clauses before it with: `where` or `orWhere`. */
  datatype Conn = And | Or

  datatype Clause =
      /** `where(column, op, operand)` / `orWhere(...)`; the two-argument form is op "=". */
    | Basic(conn: Conn, column: Value, op: Value, operand: Value)
      /** `whereIn(column, values)`. */
    | In(conn: Conn, column: Value, values: seq<Value>)
      /** `whereDate(column, op, date)`: compares the date part only. */
    | DateCmp(conn: Conn, dateColumn: string, dateOp: string, date: string)
      /** `where(Closure)`: a parenthesised group of the clauses the closure added. */
    | Nested(conn: Conn, body: seq<Clause>)
      /** `whereHas(relation, Closure)`: some related row satisfies the group. */
    | Has(conn: Conn, relation: Value, body: seq<Clause>)

  predicate AllAnd(cs: seq<Clause>)
  {
    forall i :: 0 <= i < |cs| ==> cs[i].conn == And
  }

  /** A query builder, reduced to its list of where-clauses. */
  class Builder {
    var wheres: seq<Clause>

    constructor ()
      ensures wheres == []
    {
      wheres := [];
    }

    method Where(column: Value, op: Value, operand: Value)
      modifies this
      ensures wheres == old(wheres) + [Basic(And, column, op, operand)]
    {
      wheres := wheres + [Basic(And, column, op, operand)];
    }

    method OrWhere(column: Value, op: Value, operand: Value)
      modifies this
      ensures wheres == old(wheres) + [Basic(Or, column, op, operand)]
    {
      wheres := wheres + [Basic(Or, column, op, operand)];
    }

    method WhereIn(column: Value, values: seq<Value>)
      modifies this
      ensures wheres == old(wheres) + [In(And, column, values)]
    {
      wheres := wheres + [In(And, column, values)];
    }

    method WhereDate(column: string, op: string, date: string)
      modifies this
      ensures wheres == old(wheres) + [DateCmp(And, column, op, date)]
    {
      wheres := wheres + [DateCmp(And, column, op, date)];
    }

    /** `where(Closure)`, given the clauses the closure added to its fresh builder. */
    method WhereNested(body: seq<Clause>)
      modifies this
      ensures wheres == old(wheres) + [Nested(And, body)]
    {
      wheres := wheres + [Nested(And, body)];
    }

    /** `whereHas(relation, Closure)`, given the clauses the closure added. */
    method WhereHas(relation: Value, body: seq<Clause>)
      modifies this
      ensures wheres == old(wheres) + [Has(And, relation, body)]
    {
      wheres := wheres + [Has(And, relation, body)];
    }
  }

  /** What the database decides: whether a row passes a single comparison
      (Basic, In, DateCmp), and which rows a relation of a row reaches. */
  datatype Engine<!R> = Engine(test: (R, Clause) -> bool, related: (R, Value) -> seq<R>)

  /** A WHERE list: the first clause's connective is ignored, AND binds tighter than
      OR, and an empty list (Laravel drops an empty group) is no constraint at all. */
  function Combine(items: seq<(Conn, bool)>): (b: bool)
  {
    if items == [] then true else Fold(items[1..], false, items[0].1)
  }

  /** Left to right: `done` is the OR of the finished AND-runs, `cur` the open one. */
  function Fold(items: seq<(Conn, bool)>, done: bool, cur: bool): (b: bool)
  {
    if items == [] then done || cur
    else if items[0].0 == And then Fold(items[1..], done, cur && items[0].1)
    else Fold(items[1..], done || cur, items[0].1)
  }

  /** Whether a row satisfies a clause. */
  function Holds<R>(e: Engine<R>, c: Clause, row: R): (b: bool)
    decreases c
  {
    match c
    case Nested(_, body) =>
      Combine(seq(|body|, i requires 0 <= i < |body| => (body[i].conn, Holds(e, body[i], row))))
    case Has(_, relation, body) =>
      var rs := e.related(row, relation);
      exists k :: 0 <= k < |rs| &&
        Combine(seq(|body|, i requires 0 <= i < |body| => (body[i].conn, Holds(e, body[i], rs[k]))))
    case _ => e.test(row, c)
  }

  /** The connective and the outcome of each clause, for one row. */
  function Outcomes<R>(e: Engine<R>, cs: seq<Clause>, row: R): (r: seq<(Conn, bool)>)
    ensures |r| == |cs|
    ensures forall i :: 0 <= i < |cs| ==> r[i] == (cs[i].conn, Holds(e, cs[i], row))
  {
    seq(|cs|, i requires 0 <= i < |cs| => (cs[i].conn, Holds(e, cs[i], row)))
  }

  /** Whether a row is selected by a query whose where-list is `wheres`. */
  predicate Matches<R>(e: Engine<R>, wheres: seq<Clause>, row: R)
  {
    Combine(Outcomes(e, wheres, row))
  }

  lemma {:induction false} FoldAllAnd(items: seq<(Conn, bool)>, done: bool, cur: bool)
    requires forall i :: 0 <= i < |items| ==> items[i].0 == And
    ensures Fold(items, done, cur) == (done || (cur && forall i :: 0 <= i < |items| ==> items[i].1))
  {
    if items != [] {
      FoldAllAnd(items[1..], done, cur && items[0].1);
      assert forall i :: 0 <= i < |items[1..]| ==> items[1..][i] == items[i + 1];
    }
  }

  /** A list joined only by AND holds exactly when each of its clauses holds. */
  lemma CombineAllAnd(items: seq<(Conn, bool)>)
    requires forall i :: 1 <= i < |items| ==> items[i].0 == And
    ensures Combine(items) == forall i :: 0 <= i < |items| ==> items[i].1
  {
    if items != [] {
      FoldAllAnd(items[1..], false, items[0].1);
      assert forall i :: 0 <= i < |items[1..]| ==> items[1..][i] == items[i + 1];
    }
  }

  lemma {:induction false} FoldAllOr(items: seq<(Conn, bool)>, done: bool, cur: bool)
    requires forall i :: 0 <= i < |items| ==> items[i].0 == Or
    ensures Fold(items, done, cur) == (done || cur || exists i :: 0 <= i < |items| && items[i].1)
  {
    if items != [] {
      FoldAllOr(items[1..], done || cur, items[0].1);
      assert forall i :: 0 <= i < |items[1..]| ==> items[1..][i] == items[i + 1];
    }
  }

  /** A non-empty list joined only by OR holds exactly when one of its clauses holds. */
  lemma CombineAllOr(items: seq<(Conn, bool)>)
    requires forall i :: 1 <= i < |items| ==> items[i].0 == Or
    ensures Combine(items) == (items == [] || exists i :: 0 <= i < |items| && items[i].1)
  {
    if items != [] {
      FoldAllOr(items[1..], false, items[0].1);
      assert forall i :: 0 <= i < |items[1..]| ==> items[1..][i] == items[i + 1];
    }
  }

  /** Under a top level joined by AND, a row matches exactly when every clause holds. */
  lemma MatchesAllAnd<R>(e: Engine<R>, wheres: seq<Clause>, row: R)
    requires AllAnd(wheres)
    ensures Matches(e, wheres, row) == forall i :: 0 <= i < |wheres| ==> Holds(e, wheres[i], row)
  {
    CombineAllAnd(Outcomes(e, wheres, row));
  }

  /** Where `Fold` stands at the end of `items`: the OR of the finished AND-runs, and
      the open one. */
  function FoldState(items: seq<(Conn, bool)>, done: bool, cur: bool): (r: (bool, bool))
    ensures Fold(items, done, cur) == (r.0 || r.1)
  {
    if items == [] then (done, cur)
    else if items[0].0 == And then FoldState(items[1..], done, cur && items[0].1)
    else FoldState(items[1..], done || cur, items[0].1)
  }

  /** Where `Combine` stands at the end of a WHERE list; the empty list has finished
      nothing and leaves an open run that holds. */
  function Summary(items: seq<(Conn, bool)>): (r: (bool, bool))
    ensures Combine(items) == (r.0 || r.1)
  {
    if items == [] then (false, true) else FoldState(items[1..], false, items[0].1)
  }

  lemma {:induction false} FoldStateAllAnd(items: seq<(Conn, bool)>, done: bool, cur: bool)
    requires forall i :: 0 <= i < |items| ==> items[i].0 == And
    ensures FoldState(items, done, cur) == (done, cur && forall i :: 0 <= i < |items| ==> items[i].1)
  {
    if items != [] {
      FoldStateAllAnd(items[1..], done, cur && items[0].1);
      assert forall i :: 0 <= i < |items[1..]| ==> items[1..][i] == items[i + 1];
    }
  }

  lemma {:induction false} FoldStateAppendAnd(items: seq<(Conn, bool)>, extra: seq<(Conn, bool)>, done: bool, cur: bool)
    requires forall i :: 0 <= i < |extra| ==> extra[i].0 == And
    ensures var s := FoldState(items, done, cur);
      FoldState(items + extra, done, cur) == (s.0, s.1 && forall i :: 0 <= i < |extra| ==> extra[i].1)
    decreases |items|
  {
    if items == [] {
      assert items + extra == extra;
      FoldStateAllAnd(extra, done, cur);
    } else {
      assert (items + extra)[1..] == items[1..] + extra;
      if items[0].0 == And {
        FoldStateAppendAnd(items[1..], extra, done, cur && items[0].1);
      } else {
        FoldStateAppendAnd(items[1..], extra, done || cur, items[0].1);
      }
    }
  }

  /** Items joined by AND only extend the open run: the finished runs stay as they
      were, and the open run must now also satisfy every appended item. */
  lemma SummaryAppendAnd(items: seq<(Conn, bool)>, extra: seq<(Conn, bool)>)
    requires forall i :: 0 <= i < |extra| ==> extra[i].0 == And
    ensures var s := Summary(items);
      Summary(items + extra) == (s.0, s.1 && forall i :: 0 <= i < |extra| ==> extra[i].1)
  {
    if items == [] {
      assert items + extra == extra;
      if extra != [] {
        FoldStateAllAnd(extra[1..], false, extra[0].1);
        assert forall i :: 0 <= i < |extra[1..]| ==> extra[1..][i] == extra[i + 1];
      }
    } else {
      assert (items + extra)[1..] == items[1..] + extra;
      FoldStateAppendAnd(items[1..], extra, false, items[0].1);
    }
  }

  lemma OutcomesAppend<R>(e: Engine<R>, a: seq<Clause>, b: seq<Clause>, row: R)
    ensures Outcomes(e, a + b, row) == Outcomes(e, a, row) + Outcomes(e, b, row)
  {
    var l := Outcomes(e, a + b, row);
    var r := Outcomes(e, a, row) + Outcomes(e, b, row);
    forall i | 0 <= i < |l| ensures l[i] == r[i] {
      if i >= |a| {
        assert (a + b)[i] == b[i - |a|];
      }
    }
  }

  /** Clauses joined by AND, appended to any where-list, constrain only its last
      AND-run: a row passes when one of the earlier runs holds, or when the last run
      and every appended clause hold. Over a list with a top-level `orWhere` this is
      weaker than "the list and the appended clauses". */
  lemma AndSuffixConstrainsLastRun<R>(e: Engine<R>, base: seq<Clause>, extra: seq<Clause>, row: R)
    requires AllAnd(extra)
    ensures var s := Summary(Outcomes(e, base, row));
      && Matches(e, base, row) == (s.0 || s.1)
      && Matches(e, base + extra, row) == (s.0 || (s.1 && forall j :: 0 <= j < |extra| ==> Holds(e, extra[j], row)))
  {
    OutcomesAppend(e, base, extra, row);
    SummaryAppendAnd(Outcomes(e, base, row), Outcomes(e, extra, row));
  }

  /** Appending the same clauses joined by AND a second time, to any where-list,
      selects the same rows as appending them once. */
  lemma RepeatedAndSuffixSelectsSameRows<R>(e: Engine<R>, base: seq<Clause>, extra: seq<Clause>, row: R)
    requires AllAnd(extra)
    ensures Matches(e, base + extra + extra, row) == Matches(e, base + extra, row)
  {
    var o := Outcomes(e, base, row);
    var x := Outcomes(e, extra, row);
    OutcomesAppend(e, base, extra, row);
    OutcomesAppend(e, base + extra, extra, row);
    SummaryAppendAnd(o, x);
    SummaryAppendAnd(o + x, x);
  }

  /** Appending clauses that are already present to an AND list selects the same rows. */
  lemma RepeatedClausesSelectSameRows<R>(e: Engine<R>, base: seq<Clause>, extra: seq<Clause>, row: R)
    requires AllAnd(base) && AllAnd(extra)
    requires forall j :: 0 <= j < |extra| ==> extra[j] in base
    ensures Matches(e, base + extra, row) == Matches(e, base, row)
  {
    var all := base + extra;
    MatchesAllAnd(e, all, row);
    MatchesAllAnd(e, base, row);
    if Matches(e, base, row) {
      forall i | 0 <= i < |all| ensures Holds(e, all[i], row) {
        if i >= |base| {
          var j :| 0 <= j < |base| && base[j] == extra[i - |base|];
          assert Holds(e, base[j], row);
        }
      }
    } else {
      var i :| 0 <= i < |base| && !Holds(e, base[i], row);
      assert all[i] == base[i];
    }
  }

  /** Laravel's `where(Closure)` adds nothing when the closure added no clause; the
      model keeps the empty group instead. In front of clauses joined by AND, after
      any where-list, that group holds for every row, so both select the same rows. */
  lemma EmptyGroupSelectsSameRows<R>(e: Engine<R>, before: seq<Clause>, after: seq<Clause>, row: R)
    requires AllAnd(after)
    ensures Matches(e, before + [Nested(And, [])] + after, row) == Matches(e, before + after, row)
  {
    var g := [Nested(And, [])];
    var o := Outcomes(e, before, row);
    var og := Outcomes(e, g, row);
    var oa := Outcomes(e, after, row);
    OutcomesAppend(e, before + g, after, row);
    OutcomesAppend(e, before, g, row);
    OutcomesAppend(e, before, after, row);
    assert Holds(e, Nested(And, []), row);
    assert og == [(And, true)];
    SummaryAppendAnd(o, og);
    SummaryAppendAnd(o + og, oa);
    SummaryAppendAnd(o, oa);
  }
}
