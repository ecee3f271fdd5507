/** The WHERE keywords of the query text itself: the text of
    `getAllProperties` holds exactly as many occurrences of `WHERE` as there
    are filter clauses opening with it, so the owner filter next to a city or
    price filter gives a text with two of them. */
module QueryTextFacts {
  import opened JsValues
  import opened SqlText
  import opened PropertySearch
  import opened PropertySearchFacts

  lemma PlaceholderHasNoW(n: nat)
    ensures 'W' !in Placeholder(n)
  {
  }

  // None of the fixed texts contains a capital W; each is checked piece by piece.

  lemma SelectHasNoW()
    ensures 'W' !in SelectText
  {
    SelectLineHasNoW();
    JoinLineHasNoW();
  }

  lemma SelectLineHasNoW()
    ensures 'W' !in "\n  SELECT properties.*, " + "avg(property_reviews.rating) " + "as average_rating\n"
  {
    assert 'W' !in "\n  SELECT properties.*, ";
    assert 'W' !in "avg(property_reviews.rating) ";
    assert 'W' !in "as average_rating\n";
  }

  lemma JoinLineHasNoW()
    ensures 'W' !in "  FROM properties\n" + "  JOIN property_reviews " + "ON properties.id = property_id\n  "
  {
    assert 'W' !in "  FROM properties\n";
    assert 'W' !in "  JOIN property_reviews ";
    assert 'W' !in "ON properties.id = property_id\n  ";
  }

  lemma GroupByHasNoW()
    ensures 'W' !in GroupByText
  {
    assert 'W' !in "\n    GROUP BY properties.id, ";
    assert 'W' !in "property_reviews.property_id\n    ";
  }

  lemma HavingHasNoW()
    ensures 'W' !in HavingText
  {
    assert 'W' !in "HAVING avg(";
    assert 'W' !in "property_reviews.rating) ";
  }

  lemma OrderByHasNoW()
    ensures 'W' !in OrderByText
  {
    assert 'W' !in "\n  ORDER BY cost_per_night\n";
  }

  lemma SelectWhere()
    ensures Occurrences(SelectText, "WHERE") == 0
  {
    SelectHasNoW();
    OccurrencesAbsent(SelectText, "WHERE");
  }

  lemma ConditionHasNoW(cond: Condition)
    ensures 'W' !in ConditionText(cond)
  {
    match cond
    case CityLike => assert 'W' !in "city LIKE";
    case OwnerIs => assert 'W' !in "properties.owner_id =";
    case CostAtLeast => assert 'W' !in "cost_per_night >=";
    case CostAtMost => assert 'W' !in "cost_per_night <=";
  }

  lemma FilterTailHasNoW(cond: Condition, n: nat)
    ensures 'W' !in FilterTail(cond, n)
  {
    PlaceholderHasNoW(n);
    ConditionHasNoW(cond);
  }

  lemma FilterWhere(k: Keyword, cond: Condition, n: nat)
    ensures Occurrences(ClauseText(Filter(k, cond, n)), "WHERE") == (if k == Where then 1 else 0)
  {
    var tail := FilterTail(cond, n);
    FilterTailHasNoW(cond, n);
    if k == Where {
      assert "WHERE"[1..] == "HERE";
      OccurrencesLeading("WHERE", tail);
    } else {
      assert 'W' !in "AND";
      OccurrencesAbsent("AND" + tail, "WHERE");
    }
  }

  lemma GroupByWhere()
    ensures Occurrences(GroupByText, "WHERE") == 0
  {
    GroupByHasNoW();
    OccurrencesAbsent(GroupByText, "WHERE");
  }

  lemma HavingWhere(n: nat)
    ensures Occurrences(ClauseText(GroupByHaving(n)), "WHERE") == 0
  {
    PlaceholderHasNoW(n);
    GroupByHasNoW();
    HavingHasNoW();
    OccurrencesAbsent(ClauseText(GroupByHaving(n)), "WHERE");
  }

  lemma OrderByWhere(n: nat)
    ensures Occurrences(ClauseText(OrderByLimit(n)), "WHERE") == 0
  {
    PlaceholderHasNoW(n);
    OrderByHasNoW();
    OccurrencesAbsent(ClauseText(OrderByLimit(n)), "WHERE");
  }

  /** Every fragment ends in a space; a filter opening with WHERE holds one
      occurrence of `WHERE` and every other fragment holds none. */
  lemma ClauseWhereOccurrences(c: Clause)
    ensures |ClauseText(c)| > 0 && ClauseText(c)[|ClauseText(c)| - 1] == ' '
    ensures Occurrences(ClauseText(c), "WHERE") == (if c.Filter? && c.keyword == Where then 1 else 0)
  {
    match c
    case Select => SelectWhere();
    case Filter(k, cond, n) => FilterWhere(k, cond, n);
    case GroupBy => GroupByWhere();
    case GroupByHaving(n) => HavingWhere(n);
    case OrderByLimit(n) => OrderByWhere(n);
  }

  /** `WHERE` occurs in the query text once per filter clause opening with it. */
  lemma {:induction false} QueryWhereOccurrences(cs: seq<Clause>)
    ensures Occurrences(QueryText(cs), "WHERE") == CountWhere(cs)
    ensures |cs| > 0 ==> |QueryText(cs)| > 0 && QueryText(cs)[|QueryText(cs)| - 1] == ' '
  {
    if |cs| > 0 {
      var init := cs[..|cs| - 1];
      var last := cs[|cs| - 1];
      var front := QueryText(init);
      var text := ClauseText(last);
      assert QueryText(cs) == front + text;
      QueryWhereOccurrences(init);
      ClauseWhereOccurrences(last);
      OccurrencesConcat(front, text, "WHERE");
      assert CountWhere(cs) == CountWhere(init) + (if last.Filter? && last.keyword == Where then 1 else 0);
    }
  }

  /** The text of `getAllProperties` holds `WHERE` once for the owner filter
      and once for the first city or price filter: twice exactly when an
      owner id comes with a city or a price bound, at most once otherwise. */
  lemma DoubleWhere(o: SearchOptions, limit: int)
    ensures var n := Occurrences(GetAllProperties(o, limit).text, "WHERE");
            && n == (if TruthyNumber(o.ownerId) then 1 else 0) + (if AnyCounted(o) then 1 else 0)
            && n <= 2
            && (n == 2 <==> TruthyNumber(o.ownerId) && AnyCounted(o))
  {
    QueryWhereOccurrences(Build(o, limit).clauses);
    WhereClauseCount(o, limit);
  }

  /** The options `{city: "'Vancouver'", owner_id: 1}` give
      `WHERE city LIKE $1 WHERE properties.owner_id = $2`, which no SQL
      parser accepts. */
  lemma DoubleWhereExample()
    ensures var o := SearchOptions(Some("'Vancouver'"), Some(1), None, None, None);
            && Build(o, 10).clauses
               == [Select, Filter(Where, CityLike, 1), Filter(Where, OwnerIs, 2), GroupBy, OrderByLimit(3)]
            && Occurrences(GetAllProperties(o).text, "WHERE") == 2
  {
    var o := SearchOptions(Some("'Vancouver'"), Some(1), None, None, None);
    ExampleClauses(o);
    DoubleWhere(o, 10);
  }

  lemma ExampleClauses(o: SearchOptions)
    requires o == SearchOptions(Some("'Vancouver'"), Some(1), None, None, None)
    ensures Build(o, 10).clauses
            == [Select, Filter(Where, CityLike, 1), Filter(Where, OwnerIs, 2), GroupBy, OrderByLimit(3)]
  {
    assert TruthyString(o.city) && TruthyNumber(o.ownerId);
    var b1 := AddCity(Start(), o.city);
    assert b1.clauses == [Select, Filter(Where, CityLike, 1)] && |b1.params| == 1;
    var b2 := AddOwner(b1, o.ownerId);
    assert b2.clauses == [Select, Filter(Where, CityLike, 1), Filter(Where, OwnerIs, 2)] && |b2.params| == 2;
    assert AddFilters(o) == b2;
  }
}
