/** What `getAllProperties` guarantees about the query it builds:
    placeholder numbering, parameter count and order, the city pattern, the
    price bounds, the WHERE/AND choice, the clause layout, and the number of
    WHERE keywords in the text (two of them when an owner filter meets
    another filter). */
module PropertySearchFacts {
  import opened JsValues
  import opened PropertySearch

  // ---------------------------------------------------------------------
  // Placeholder numbering

  /** The placeholder numbers the clauses mention, in text order. */
  function Refs(cs: seq<Clause>): seq<nat> {
    if |cs| == 0 then []
    else Refs(cs[..|cs| - 1]) + (if HasRef(cs[|cs| - 1]) then [cs[|cs| - 1].ref] else [])
  }

  function Ascending(n: nat): seq<nat> {
    seq(n, i requires 0 <= i < n => i + 1)
  }

  /** The clauses mention `$1`, `$2`, ..., `$n` in order, where n is the
      number of parameters pushed so far. */
  predicate NumberedConsecutively(b: Builder) {
    Refs(b.clauses) == Ascending(|b.params|)
  }

  /** One step of the builder appends a clause; it keeps the numbering when
      the clause mentions exactly the parameter just pushed, or mentions none
      and pushes none. */
  lemma AppendKeepsNumbering(b: Builder, c: Clause, b': Builder)
    requires NumberedConsecutively(b)
    requires b'.clauses == b.clauses + [c]
    requires HasRef(c) ==> |b'.params| == |b.params| + 1 && c.ref == |b'.params|
    requires !HasRef(c) ==> |b'.params| == |b.params|
    ensures NumberedConsecutively(b')
  {
    assert b'.clauses[..|b'.clauses| - 1] == b.clauses;
    if HasRef(c) {
      assert Ascending(|b'.params|) == Ascending(|b.params|) + [|b'.params|];
    }
  }

  lemma FilterStepsKeepNumbering(o: SearchOptions)
    ensures NumberedConsecutively(AddFilters(o))
  {
    var b0 := Start();
    assert Refs(b0.clauses) == Refs([]) + [];
    var b1 := AddCity(b0, o.city);
    if TruthyString(o.city) {
      AppendKeepsNumbering(b0, b1.clauses[|b1.clauses| - 1], b1);
    }
    var b2 := AddOwner(b1, o.ownerId);
    if TruthyNumber(o.ownerId) {
      AppendKeepsNumbering(b1, b2.clauses[|b2.clauses| - 1], b2);
    }
    var b3 := AddMinimumPrice(b2, o.minimumPricePerNight);
    if TruthyNumber(o.minimumPricePerNight) {
      AppendKeepsNumbering(b2, b3.clauses[|b3.clauses| - 1], b3);
    }
    var b4 := AddMaximumPrice(b3, o.maximumPricePerNight);
    if TruthyNumber(o.maximumPricePerNight) {
      AppendKeepsNumbering(b3, b4.clauses[|b4.clauses| - 1], b4);
    }
  }

  /** Every placeholder refers to the parameter pushed just before it: the
      query mentions `$1` ... `$k` in order, with k the number of parameters. */
  lemma PlaceholdersConsecutive(o: SearchOptions, limit: int)
    ensures Refs(Build(o, limit).clauses) == Ascending(|Build(o, limit).params|)
  {
    var f := AddFilters(o);
    FilterStepsKeepNumbering(o);
    var g := AddGrouping(f, o.minimumRating);
    AppendKeepsNumbering(f, g.clauses[|g.clauses| - 1], g);
    var b := AddLimit(g, limit);
    AppendKeepsNumbering(g, b.clauses[|b.clauses| - 1], b);
  }

  // ---------------------------------------------------------------------
  // Parameters

  lemma CriteriaCount(o: SearchOptions)
    ensures |Criteria(o)| + (if TruthyNumber(o.minimumRating) then 1 else 0) == PresentCount(o)
  {
  }

  /** One parameter per present option, plus the limit, which is last and
      is what the final LIMIT clause refers to. */
  lemma ParameterCount(o: SearchOptions, limit: int)
    ensures var b := Build(o, limit);
            && |b.params| == PresentCount(o) + 1
            && b.params[|b.params| - 1] == Number(limit)
            && b.clauses[|b.clauses| - 1] == OrderByLimit(|b.params|)
  {
    BuildFollowsCriteria(o, limit);
    CriteriaCount(o);
  }

  /** A present city is the first parameter, as a `%...%` pattern, and the
      first filter is `WHERE city LIKE $1`. */
  lemma CityParameter(o: SearchOptions, limit: int)
    requires TruthyString(o.city)
    ensures var b := Build(o, limit);
            && b.params[0] == Text(CityPattern(o.city.value))
            && b.clauses[1] == Filter(Where, CityLike, 1)
  {
    BuildFollowsCriteria(o, limit);
    assert Criteria(o)[0] == Criterion(CityLike, Text(CityPattern(o.city.value)));
  }

  /** For the quoted city the caller passes, the pattern is the bare city
      between wildcards. */
  lemma QuotedCityPattern(name: string)
    ensures CityPattern("'" + name + "'") == "%" + name + "%"
  {
    var city := "'" + name + "'";
    assert city[1..|city| - 1] == name;
  }

  /** The price bounds are pushed in cents (the value times 100), after the
      city and owner parameters that are present; the minimum is compared
      with `>=` and the maximum with `<=`. */
  lemma PriceParameters(o: SearchOptions, limit: int)
    ensures var b := Build(o, limit);
            var j := (if TruthyString(o.city) then 1 else 0) + (if TruthyNumber(o.ownerId) then 1 else 0);
            var j' := j + (if TruthyNumber(o.minimumPricePerNight) then 1 else 0);
            && (TruthyNumber(o.minimumPricePerNight) ==>
                  && b.params[j] == Number(o.minimumPricePerNight.value * 100)
                  && b.clauses[j + 1].Filter?
                  && b.clauses[j + 1].condition == CostAtLeast
                  && b.clauses[j + 1].ref == j + 1)
            && (TruthyNumber(o.maximumPricePerNight) ==>
                  && b.params[j'] == Number(o.maximumPricePerNight.value * 100)
                  && b.clauses[j' + 1].Filter?
                  && b.clauses[j' + 1].condition == CostAtMost
                  && b.clauses[j' + 1].ref == j' + 1)
  {
    BuildFollowsCriteria(o, limit);
    var cs := Criteria(o);
    var j := (if TruthyString(o.city) then 1 else 0) + (if TruthyNumber(o.ownerId) then 1 else 0);
    var j' := j + (if TruthyNumber(o.minimumPricePerNight) then 1 else 0);
    if TruthyNumber(o.minimumPricePerNight) {
      assert cs[j] == Criterion(CostAtLeast, Number(o.minimumPricePerNight.value * 100));
    }
    if TruthyNumber(o.maximumPricePerNight) {
      assert cs[j'] == Criterion(CostAtMost, Number(o.maximumPricePerNight.value * 100));
    }
  }

  // ---------------------------------------------------------------------
  // Keywords and layout

  /** A counted filter before position i of the output is a counted
      criterion before position i - 1 of the list. */
  lemma EarlierCounted(cs: seq<Clause>, crit: seq<Criterion>, kws: seq<Keyword>, i: nat)
    requires |kws| == |crit| && |cs| > |crit| && 0 < i <= |crit|
    requires forall j :: 0 <= j < |crit| ==> cs[j + 1] == Filter(kws[j], crit[j].condition, j + 1)
    ensures (exists j :: 0 < j < i && cs[j].Filter? && Counted(cs[j].condition))
            <==> (exists j :: 0 <= j < i - 1 && Counted(crit[j].condition))
  {
    if exists j :: 0 <= j < i - 1 && Counted(crit[j].condition) {
      var j :| 0 <= j < i - 1 && Counted(crit[j].condition);
      assert cs[j + 1].condition == crit[j].condition;
    }
    if exists j :: 0 < j < i && cs[j].Filter? && Counted(cs[j].condition) {
      var j :| 0 < j < i && cs[j].Filter? && Counted(cs[j].condition);
      assert cs[(j - 1) + 1].condition == crit[j - 1].condition;
    }
  }

  /** The keyword rule read off any output that follows `crit` with the
      counter's keywords. */
  lemma KeywordsOfFollows(b: Builder, crit: seq<Criterion>, rating: Option<int>, limit: int)
    requires FollowsCriteria(b, crit, ExpectedKeywords(crit), rating, limit)
    ensures var cs := b.clauses;
            forall i :: 0 < i < |cs| && cs[i].Filter? ==>
              (cs[i].keyword == And <==>
                 IsPriceBound(cs[i].condition)
                 && exists j :: 0 < j < i && cs[j].Filter? && Counted(cs[j].condition))
  {
    var cs := b.clauses;
    var kws := ExpectedKeywords(crit);
    forall i | 0 < i < |cs| && cs[i].Filter?
      ensures cs[i].keyword == And <==>
                IsPriceBound(cs[i].condition)
                && exists j :: 0 < j < i && cs[j].Filter? && Counted(cs[j].condition)
    {
      assert i <= |crit|;
      assert cs[(i - 1) + 1] == Filter(kws[i - 1], crit[i - 1].condition, i);
      EarlierCounted(cs, crit, kws, i);
    }
  }

  /** Read off the output alone: a filter clause says AND exactly when it is
      a price bound preceded by a city or price filter; the owner filter and
      the first of city/minimum/maximum say WHERE. */
  lemma KeywordChoice(o: SearchOptions, limit: int)
    ensures var cs := Build(o, limit).clauses;
            forall i :: 0 < i < |cs| && cs[i].Filter? ==>
              (cs[i].keyword == And <==>
                 IsPriceBound(cs[i].condition)
                 && exists j :: 0 < j < i && cs[j].Filter? && Counted(cs[j].condition))
  {
    BuildFollowsCriteria(o, limit);
    KeywordsOfFollows(Build(o, limit), Criteria(o), o.minimumRating, limit);
  }

  lemma LayoutOfFollows(b: Builder, crit: seq<Criterion>, kws: seq<Keyword>, rating: Option<int>, limit: int)
    requires |kws| == |crit|
    requires FollowsCriteria(b, crit, kws, rating, limit)
    ensures var cs := b.clauses;
            && |cs| >= 3
            && cs[0] == Select
            && (forall i :: 0 < i < |cs| - 2 ==> cs[i].Filter?)
            && (forall i :: 0 <= i < |cs| ==> (IsGrouping(cs[i]) <==> i == |cs| - 2))
            && (cs[|cs| - 2].GroupByHaving? <==> TruthyNumber(rating))
            && (TruthyNumber(rating) ==>
                  cs[|cs| - 2].ref == |b.params| - 1 && b.params[|b.params| - 2] == Number(rating.value))
            && cs[|cs| - 1] == OrderByLimit(|b.params|)
  {
    var cs := b.clauses;
    forall i | 0 < i < |cs| - 2
      ensures cs[i].Filter?
    {
      assert cs[i] == Filter(kws[i - 1], crit[i - 1].condition, i);
    }
  }

  /** The clauses are: the SELECT, then only filters, then exactly one
      GROUP BY (with HAVING exactly when a minimum rating is present, bound
      to the rating, the last-but-one parameter), then ORDER BY ... LIMIT. */
  lemma ClauseLayout(o: SearchOptions, limit: int)
    ensures var b := Build(o, limit);
            var cs := b.clauses;
            && |cs| >= 3
            && cs[0] == Select
            && (forall i :: 0 < i < |cs| - 2 ==> cs[i].Filter?)
            && (forall i :: 0 <= i < |cs| ==> (IsGrouping(cs[i]) <==> i == |cs| - 2))
            && (cs[|cs| - 2].GroupByHaving? <==> TruthyNumber(o.minimumRating))
            && (TruthyNumber(o.minimumRating) ==>
                  cs[|cs| - 2].ref == |b.params| - 1 && b.params[|b.params| - 2] == Number(o.minimumRating.value))
            && cs[|cs| - 1] == OrderByLimit(|b.params|)
  {
    BuildFollowsCriteria(o, limit);
    LayoutOfFollows(Build(o, limit), Criteria(o), ExpectedKeywords(Criteria(o)), o.minimumRating, limit);
  }

  // ---------------------------------------------------------------------
  // WHERE keywords

  /** The number of filter clauses that open with WHERE. */
  function CountWhere(cs: seq<Clause>): nat {
    if |cs| == 0 then 0
    else CountWhere(cs[..|cs| - 1]) + (if cs[|cs| - 1].Filter? && cs[|cs| - 1].keyword == Where then 1 else 0)
  }

  lemma CountWhereAppend(cs: seq<Clause>, c: Clause)
    ensures CountWhere(cs + [c]) == CountWhere(cs) + (if c.Filter? && c.keyword == Where then 1 else 0)
  {
    assert (cs + [c])[..|cs|] == cs;
  }

  /** The WHEREs so far: one if the owner filter was added, and one if the
      counter has moved, since only its first step says WHERE. */
  predicate WhereSoFar(b: Builder, ownerAdded: bool) {
    CountWhere(b.clauses) == (if ownerAdded then 1 else 0) + (if b.countOptions > 0 then 1 else 0)
  }

  lemma AddCityWhere(b: Builder, city: Option<string>)
    requires WhereSoFar(b, false) && b.countOptions == 0
    ensures WhereSoFar(AddCity(b, city), false)
  {
    if TruthyString(city) {
      CountWhereAppend(b.clauses, Filter(Where, CityLike, |b.params| + 1));
    }
  }

  lemma AddOwnerWhere(b: Builder, ownerId: Option<int>)
    requires WhereSoFar(b, false)
    ensures WhereSoFar(AddOwner(b, ownerId), TruthyNumber(ownerId))
  {
    if TruthyNumber(ownerId) {
      CountWhereAppend(b.clauses, Filter(Where, OwnerIs, |b.params| + 1));
    }
  }

  lemma AddMinimumPriceWhere(b: Builder, ownerAdded: bool, price: Option<int>)
    requires WhereSoFar(b, ownerAdded)
    ensures WhereSoFar(AddMinimumPrice(b, price), ownerAdded)
  {
    var b' := AddMinimumPrice(b, price);
    if TruthyNumber(price) {
      CountWhereAppend(b.clauses, b'.clauses[|b'.clauses| - 1]);
    }
  }

  lemma AddMaximumPriceWhere(b: Builder, ownerAdded: bool, price: Option<int>)
    requires WhereSoFar(b, ownerAdded)
    ensures WhereSoFar(AddMaximumPrice(b, price), ownerAdded)
  {
    var b' := AddMaximumPrice(b, price);
    if TruthyNumber(price) {
      CountWhereAppend(b.clauses, b'.clauses[|b'.clauses| - 1]);
    }
  }

  lemma FilterCounter(o: SearchOptions)
    ensures AddFilters(o).countOptions
            == (if TruthyString(o.city) then 1 else 0)
               + (if TruthyNumber(o.minimumPricePerNight) then 1 else 0)
               + (if TruthyNumber(o.maximumPricePerNight) then 1 else 0)
  {
  }

  lemma FilterStepsWhere(o: SearchOptions)
    ensures WhereSoFar(AddFilters(o), TruthyNumber(o.ownerId))
  {
    var b0 := Start();
    assert CountWhere(b0.clauses) == 0 by {
      assert b0.clauses == [] + [Select];
      CountWhereAppend([], Select);
    }
    var b1 := AddCity(b0, o.city);
    AddCityWhere(b0, o.city);
    var b2 := AddOwner(b1, o.ownerId);
    AddOwnerWhere(b1, o.ownerId);
    var b3 := AddMinimumPrice(b2, o.minimumPricePerNight);
    AddMinimumPriceWhere(b2, TruthyNumber(o.ownerId), o.minimumPricePerNight);
    AddMaximumPriceWhere(b3, TruthyNumber(o.ownerId), o.maximumPricePerNight);
  }

  /** Grouping and limit add no WHERE. */
  lemma FinishKeepsWhere(f: Builder, rating: Option<int>, limit: int)
    ensures CountWhere(AddLimit(AddGrouping(f, rating), limit).clauses) == CountWhere(f.clauses)
  {
    var g := AddGrouping(f, rating);
    CountWhereAppend(f.clauses, g.clauses[|g.clauses| - 1]);
    var b := AddLimit(g, limit);
    CountWhereAppend(g.clauses, b.clauses[|b.clauses| - 1]);
  }

  /** One WHERE for the owner filter, and one for the first of the city and
      price filters, the only one of them the counter lets through. */
  lemma WhereClauseCount(o: SearchOptions, limit: int)
    ensures CountWhere(Build(o, limit).clauses)
            == (if TruthyNumber(o.ownerId) then 1 else 0) + (if AnyCounted(o) then 1 else 0)
  {
    FilterStepsWhere(o);
    FilterCounter(o);
    FinishKeepsWhere(AddFilters(o), o.minimumRating, limit);
  }
}
